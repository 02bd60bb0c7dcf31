/**
 Which config a session runs with, told from the steps of a run: the one it was
 opened with, or the one that its last successful rebuild attempt was entered with;
 and every attempt is entered with what a client asked for, at once or by the queue.
 */
module AcpConfigs {
  import opened Wrappers
  import opened AcpSession
  import opened AcpProtocol
  import opened AcpEffects
  import opened AcpExclusion
  import opened AcpQueue

  /** The worlds a run goes through, the first and the last included. */
  function Worlds(w: World, steps: seq<Step>): (ws: seq<World>)
    requires Runs(w, steps)
    ensures |ws| == |steps| + 1 && ws[0] == w && ws[|steps|] == After(w, steps)
    ensures forall i :: 0 <= i < |steps| ==> Enabled(ws[i], steps[i]) && ws[i + 1] == Next(ws[i], steps[i])
    decreases |steps|
  {
    hide Enabled, Next;
    if steps == [] then [w]
    else
      assert forall i :: 0 < i < |steps| ==> steps[i] == steps[1..][i - 1];
      [w] + Worlds(Next(w, steps[0]), steps[1..])
  }

  // ---------- what a step is about ----------

  /** The thread that acts is at pc on session object o. */
  predicate ActsAt(w: World, step: Step, o: Obj, pc: Pc) {
    step.Act? && step.t in w.threads && w.threads[step.t] == Thread(o, pc)
  }

  /** Where the thread of the step then is. */
  predicate GetsTo(v: World, step: Step, pc: Pc) {
    step.Act? && step.t in v.threads && v.threads[step.t].pc == pc
  }

  /** The session object o enters the registry, opened with cfg. */
  ghost predicate Opens(w: World, step: Step, o: Obj, cfg: ConfigState) {
    exists path :: ActsAt(w, step, o, OpenHolding(path, cfg)) && step.x.ok
  }

  /** An attempt on o that was entered with cfg has claimed the maintenance slot under channel ch. */
  ghost predicate Enters(w: World, v: World, step: Step, o: Obj, ch: Chan, cfg: ConfigState) {
    exists fromApply, c :: ActsAt(w, step, o, RebuildEntering(cfg, fromApply)) && GetsTo(v, step, RebuildSaving(ch, cfg, fromApply, c, RecIdle))
  }

  /** The attempt on o under channel ch has committed. */
  ghost predicate Commits(w: World, v: World, step: Step, o: Obj, ch: Chan) {
    step.Act? && step.t in w.threads && w.threads[step.t].obj == o && w.threads[step.t].pc.RebuildCommitting?
    && w.threads[step.t].pc.ch == ch && exists fromApply :: GetsTo(v, step, RebuildEnding(ch, fromApply, true))
  }

  ghost predicate SomeCommit(w: World, v: World, step: Step, o: Obj) {
    exists ch :: Commits(w, v, step, o, ch)
  }

  /** Somebody on the way into o with cfg has left it in the queue instead. */
  ghost predicate Queues(w: World, v: World, step: Step, o: Obj, cfg: ConfigState) {
    (exists fromApply :: ActsAt(w, step, o, RebuildEntering(cfg, fromApply))) && v.log == w.log + [Queue(o)]
  }

  // ---------- what a run says ----------

  ghost predicate EnteredBefore(ws: seq<World>, steps: seq<Step>, n: nat, o: Obj, ch: Chan, cfg: ConfigState)
    requires |ws| == |steps| + 1 && n <= |steps|
  {
    exists i :: 0 <= i < n && Enters(ws[i], ws[i + 1], steps[i], o, ch, cfg)
  }

  ghost predicate OpenedBefore(ws: seq<World>, steps: seq<Step>, n: nat, o: Obj, cfg: ConfigState)
    requires |ws| == |steps| + 1 && n <= |steps|
  {
    exists i :: 0 <= i < n && Opens(ws[i], steps[i], o, cfg)
  }

  ghost predicate NoCommitFrom(ws: seq<World>, steps: seq<Step>, i: nat, n: nat, o: Obj)
    requires |ws| == |steps| + 1 && n <= |steps|
  {
    forall k :: i <= k < n ==> !SomeCommit(ws[k], ws[k + 1], steps[k], o)
  }

  /** The last attempt on o that committed, at step i, was entered with cfg. */
  ghost predicate LastCommit(ws: seq<World>, steps: seq<Step>, n: nat, i: nat, o: Obj, cfg: ConfigState)
    requires |ws| == |steps| + 1 && n <= |steps|
  {
    && i < n && NoCommitFrom(ws, steps, i + 1, n, o)
    && exists ch :: Commits(ws[i], ws[i + 1], steps[i], o, ch) && EnteredBefore(ws, steps, i, o, ch, cfg)
  }

  /** cfg is what o should run with after n steps. */
  ghost predicate RunsWith(ws: seq<World>, steps: seq<Step>, n: nat, o: Obj, cfg: ConfigState)
    requires |ws| == |steps| + 1 && n <= |steps|
  {
    || (OpenedBefore(ws, steps, n, o, cfg) && NoCommitFrom(ws, steps, 0, n, o))
    || exists i: nat :: LastCommit(ws, steps, n, i, o, cfg)
  }

  // ---------- one step ----------

  /** The config with which a thread carries an attempt under its channel. */
  function Carried(pc: Pc): Option<(Chan, ConfigState)> {
    match pc
    case RebuildSaving(ch, cfg, _, _, _) => Some((ch, cfg))
    case RebuildBuilding(ch, cfg, _, _) => Some((ch, cfg))
    case RebuildCommitting(ch, cfg, _, _, _) => Some((ch, cfg))
    case _ => None
  }

  /** A thread that carries an attempt carried it before, or has just entered with it. */
  lemma ActCarries(w: World, t: Tid, x: Choice, v: World)
    requires CanAct(w, t, x) && Sums(w, t, x, v)
    requires Carried(v.threads[t].pc).Some? && Carried(v.threads[t].pc) != Carried(w.threads[t].pc)
    ensures var p := Carried(v.threads[t].pc).value; Enters(w, v, Act(t, x), w.threads[t].obj, p.0, p.1)
  {
    hide SessionsAfter, SumsRest, EnterRebuild;
    var o, q := w.threads[t].obj, v.threads[t].pc;
    assert w.threads[t].pc.RebuildEntering? && q.RebuildSaving? && q.rec == RecIdle;
    hide PcAfter;
    assert ActsAt(w, Act(t, x), o, RebuildEntering(q.cfg, q.fromApply)) && GetsTo(v, Act(t, x), RebuildSaving(q.ch, q.cfg, q.fromApply, q.c, RecIdle));
  }

  /** What an action does to the config of a session object that is there. */
  lemma ActConfigures(w: World, t: Tid, x: Choice, v: World, o: Obj)
    requires CanAct(w, t, x) && Sums(w, t, x, v) && o in w.sessions && !(IsOpen(w.threads[t].pc) && w.threads[t].obj == o)
    ensures o in v.sessions
    ensures forall ch :: Commits(w, v, Act(t, x), o, ch) ==>
              Carried(w.threads[t].pc).Some? && Carried(w.threads[t].pc).value == (ch, v.sessions[o].config)
    ensures (forall ch :: !Commits(w, v, Act(t, x), o, ch)) ==> v.sessions[o].config == w.sessions[o].config
  {
    hide SumsRest, RecAfter;
    if w.threads[t].pc.RebuildCommitting? && w.threads[t].obj == o {
      var pc := w.threads[t].pc;
      if CommitsRebuild(w.sessions[o], pc.c) {
        assert GetsTo(v, Act(t, x), RebuildEnding(pc.ch, pc.fromApply, true));
        assert Commits(w, v, Act(t, x), o, pc.ch);
      }
    }
  }

  /** A session object appears by being opened. */
  lemma ActOpens(w: World, t: Tid, x: Choice, v: World, o: Obj)
    requires CanAct(w, t, x) && Sums(w, t, x, v) && o in v.sessions && ThreadOk(w, t)
    requires o !in w.sessions || (IsOpen(w.threads[t].pc) && w.threads[t].obj == o)
    ensures Opens(w, Act(t, x), o, v.sessions[o].config) && o !in w.sessions
    ensures forall ch :: !Commits(w, v, Act(t, x), o, ch)
  {
    hide SumsRest, RecAfter, TurnChan, MaintChan, ClosingChan, CtrlOf;
    if w.threads[t].pc.OpenHolding? && w.threads[t].obj == o && x.ok {
      var pc := w.threads[t].pc;
      assert ActsAt(w, Act(t, x), o, OpenHolding(pc.path, v.sessions[o].config)) && Act(t, x).x.ok;
    }
  }

  lemma StepCarries(w: World, step: Step, t: Tid)
    requires Enabled(w, step) && t in Next(w, step).threads && Carried(Next(w, step).threads[t].pc).Some?
    ensures var v := Next(w, step); var p := Carried(v.threads[t].pc);
            || (t in w.threads && w.threads[t].obj == v.threads[t].obj && Carried(w.threads[t].pc) == p)
            || Enters(w, v, step, v.threads[t].obj, p.value.0, p.value.1)
  {
    hide DoAct, Carried, Enters;
    if step.Act? {
      ActSums(w, step.t, step.x);
      ActingThread(w, step.t, step.x);
      hide PcAfter, SessionsAfter, SumsRest, CanAct;
      var v := Next(w, step);
      if step.t == t && Carried(v.threads[t].pc) != Carried(w.threads[t].pc) { ActCarries(w, t, step.x, v); }
    } else {
      SpawnedCarryNothing();
    }
  }

  lemma SpawnedCarryNothing()
    ensures Carried(TurnWaiting).None?
    ensures forall cfg, fromApply :: Carried(RebuildEntering(cfg, fromApply)).None?
    ensures forall del :: Carried(EndCapturing(del)).None?
    ensures forall path, cfg :: Carried(OpenFound(path, cfg)).None?
  {
  }

  /** What one step does to the config of every session object. */
  lemma StepConfigures(w: World, step: Step, o: Obj)
    requires Exclusion(w) && Enabled(w, step) && o in Next(w, step).sessions
    ensures var v := Next(w, step);
            if o !in w.sessions then Opens(w, step, o, v.sessions[o].config) && !SomeCommit(w, v, step, o)
            else
              && (SomeCommit(w, v, step, o) ==> forall ch :: Commits(w, v, step, o, ch) ==>
                    step.Act? && step.t in w.threads && w.threads[step.t].obj == o
                    && Carried(w.threads[step.t].pc) == Some((ch, v.sessions[o].config)))
              && (!SomeCommit(w, v, step, o) ==> v.sessions[o].config == w.sessions[o].config)
  {
    hide DoAct, Carried, Opens, Commits;
    var v := Next(w, step);
    if step.Act? {
      var t := step.t;
      ActSums(w, t, step.x);
      ActingThread(w, t, step.x);
      assert ThreadOk(w, t);
      hide Exclusion, Sums, CanAct, ThreadOk;
      assert step == Act(t, step.x);
      if o in w.sessions && !(IsOpen(w.threads[t].pc) && w.threads[t].obj == o) {
        ActConfigures(w, t, step.x, v, o);
        forall ch | Commits(w, v, step, o, ch) ensures w.threads[t].obj == o { CommitIsOwn(w, v, step, o, ch); }
      } else {
        ActOpens(w, t, step.x, v, o);
      }
    } else {
      assert v.sessions == w.sessions;
      forall ch ensures !Commits(w, v, step, o, ch) { CommitIsOwn(w, v, step, o, ch); }
    }
  }

  lemma CommitIsOwn(w: World, v: World, step: Step, o: Obj, ch: Chan)
    ensures Commits(w, v, step, o, ch) ==> step.Act? && step.t in w.threads && w.threads[step.t].obj == o
  {
  }

  // ---------- over runs ----------

  lemma {:induction false} WorldsExclude(steps: seq<Step>, n: nat)
    requires Runs(INIT, steps) && n <= |steps|
    ensures Exclusion(Worlds(INIT, steps)[n])
    decreases n
  {
    hide Exclusion, Runs, After, Worlds, Next, Enabled;
    if n == 0 {
      InitExclusion();
    } else {
      WorldsExclude(steps, n - 1);
      StepKeepsExclusion(Worlds(INIT, steps)[n - 1], steps[n - 1]);
    }
  }

  /** An attempt is carried with the config that it was entered with. */
  lemma {:induction false} CarriedWasEntered(steps: seq<Step>, n: nat, t: Tid)
    requires Runs(INIT, steps) && n <= |steps|
    requires t in Worlds(INIT, steps)[n].threads && Carried(Worlds(INIT, steps)[n].threads[t].pc).Some?
    ensures var ws := Worlds(INIT, steps); var p := Carried(ws[n].threads[t].pc).value;
            EnteredBefore(ws, steps, n, ws[n].threads[t].obj, p.0, p.1)
    decreases n
  {
    hide Runs, After, Worlds, Next, Enabled, Carried, Enters;
    var ws := Worlds(INIT, steps);
    if n > 0 {
      var m := n - 1;
      var o, p := ws[n].threads[t].obj, Carried(ws[n].threads[t].pc);
      StepCarries(ws[m], steps[m], t);
      if t in ws[m].threads && ws[m].threads[t].obj == o && Carried(ws[m].threads[t].pc) == p {
        CarriedWasEntered(steps, m, t);
        var i :| 0 <= i < m && Enters(ws[i], ws[i + 1], steps[i], o, p.value.0, p.value.1);
        assert Enters(ws[i], ws[i + 1], steps[i], o, p.value.0, p.value.1);
      } else {
        assert Enters(ws[m], ws[m + 1], steps[m], o, p.value.0, p.value.1);
      }
    }
  }

  /**
   Every session runs with the config it was opened with, as long as no rebuild of it
   has committed, and from then on with the config that the last attempt to commit
   was entered with.
   */
  lemma {:induction false} ConfigIsLastCommitted(steps: seq<Step>, n: nat, o: Obj)
    requires Runs(INIT, steps) && n <= |steps| && o in Worlds(INIT, steps)[n].sessions
    ensures var ws := Worlds(INIT, steps); RunsWith(ws, steps, n, o, ws[n].sessions[o].config)
    decreases n
  {
    hide Runs, After, Worlds, Next, Enabled, Carried, Enters, Opens, Commits, Exclusion, EnteredBefore;
    var ws := Worlds(INIT, steps);
    if n > 0 {
      var m := n - 1;
      var w, v, step, cfg := ws[m], ws[n], steps[m], ws[n].sessions[o].config;
      WorldsExclude(steps, m);
      StepConfigures(w, step, o);
      if o !in w.sessions {
        NoCommitBefore(steps, m, o);
        assert Opens(ws[m], steps[m], o, cfg);
        assert NoCommitFrom(ws, steps, 0, n, o);
      } else if SomeCommit(w, v, step, o) {
        var ch :| Commits(w, v, step, o, ch);
        CarriedWasEntered(steps, m, step.t);
        assert LastCommit(ws, steps, n, m, o, cfg);
      } else {
        ConfigIsLastCommitted(steps, m, o);
        RunsWithOn(ws, steps, m, o, cfg);
      }
    }
  }

  lemma RunsWithOn(ws: seq<World>, steps: seq<Step>, m: nat, o: Obj, cfg: ConfigState)
    requires |ws| == |steps| + 1 && m < |steps| && RunsWith(ws, steps, m, o, cfg) && !SomeCommit(ws[m], ws[m + 1], steps[m], o)
    ensures RunsWith(ws, steps, m + 1, o, cfg)
  {
    hide SomeCommit, Opens, Commits, EnteredBefore;
    if OpenedBefore(ws, steps, m, o, cfg) && NoCommitFrom(ws, steps, 0, m, o) {
      var i :| 0 <= i < m && Opens(ws[i], steps[i], o, cfg);
      assert Opens(ws[i], steps[i], o, cfg);
    } else {
      var i: nat :| LastCommit(ws, steps, m, i, o, cfg);
      assert LastCommit(ws, steps, m + 1, i, o, cfg);
    }
  }

  /** Nothing commits on an object that is not there yet. */
  lemma {:induction false} NoCommitBefore(steps: seq<Step>, n: nat, o: Obj)
    requires Runs(INIT, steps) && n <= |steps| && o !in Worlds(INIT, steps)[n].sessions
    ensures NoCommitFrom(Worlds(INIT, steps), steps, 0, n, o)
    decreases n
  {
    hide Runs, After, Worlds, Next, Enabled, Commits;
    var ws := Worlds(INIT, steps);
    if n > 0 {
      var m := n - 1;
      SessionsStay(ws[m], steps[m], o);
      NoCommitBefore(steps, m, o);
    }
  }

  lemma SessionsStay(w: World, step: Step, o: Obj)
    requires Enabled(w, step) && o !in Next(w, step).sessions
    ensures o !in w.sessions && !SomeCommit(w, Next(w, step), step, o)
  {
    hide DoAct;
    var v := Next(w, step);
    if step.Act? {
      ActSums(w, step.t, step.x);
      hide PcAfter, SumsRest, RecAfter;
    }
    if ch :| Commits(w, v, step, o, ch) {
      assert false;
    }
  }

  // ---------- where the configs come from ----------

  /** A client has asked for cfg on the registered object o. */
  predicate Asks(w: World, step: Step, o: Obj, t: Tid, cfg: ConfigState) {
    step == SpawnRebuild(t, cfg) && w.registered == Some(o)
  }

  ghost predicate AskedBefore(ws: seq<World>, steps: seq<Step>, n: nat, o: Obj, t: Tid, cfg: ConfigState)
    requires |ws| == |steps| + 1 && n <= |steps|
  {
    exists i :: 0 <= i < n && Asks(ws[i], steps[i], o, t, cfg)
  }

  ghost predicate SomeQueue(w: World, v: World, step: Step, o: Obj) {
    exists cfg :: Queues(w, v, step, o, cfg)
  }

  /** Step i left cfg in o's queue, and none since has left anything there. */
  ghost predicate LastQueued(ws: seq<World>, steps: seq<Step>, n: nat, i: nat, o: Obj, cfg: ConfigState)
    requires |ws| == |steps| + 1 && n <= |steps|
  {
    i < n && Queues(ws[i], ws[i + 1], steps[i], o, cfg) && forall k :: i < k < n ==> !SomeQueue(ws[k], ws[k + 1], steps[k], o)
  }

  ghost predicate QueuedBefore(ws: seq<World>, steps: seq<Step>, n: nat, o: Obj, cfg: ConfigState)
    requires |ws| == |steps| + 1 && n <= |steps|
  {
    exists i: nat :: LastQueued(ws, steps, n, i, o, cfg)
  }

  lemma ActQueues(w: World, t: Tid, x: Choice, v: World, o: Obj)
    requires CanAct(w, t, x) && Sums(w, t, x, v) && ThreadOk(w, t)
    requires o in v.sessions && v.sessions[o].pending.Some?
    ensures if exists cfg, fromApply :: ActsAt(w, Act(t, x), o, RebuildEntering(cfg, fromApply)) && v.log == w.log + [Queue(o)]
            then Queues(w, v, Act(t, x), o, v.sessions[o].pending.value)
                 && forall cfg :: Queues(w, v, Act(t, x), o, cfg) ==> cfg == v.sessions[o].pending.value
            else o in w.sessions && v.sessions[o].pending == w.sessions[o].pending && !SomeQueue(w, v, Act(t, x), o)
  {
    hide RecAfter, LeasesAfter, RecLeases, CtrlPathAfter, TaintedAfter, ClientFailedAfter, TurnChan, MaintChan, ClosingChan, CtrlOf, PcAfter;
    if w.threads[t].pc.RebuildEntering? && w.threads[t].obj == o {
      var pc := w.threads[t].pc;
      assert ActsAt(w, Act(t, x), o, RebuildEntering(pc.cfg, pc.fromApply));
    }
  }

  /** What one step does to a config that is queued after it. */
  lemma StepQueues(w: World, step: Step, o: Obj)
    requires Exclusion(w) && Enabled(w, step)
    requires o in Next(w, step).sessions && Next(w, step).sessions[o].pending.Some?
    ensures var v := Next(w, step); var p := v.sessions[o].pending;
            if SomeQueue(w, v, step, o) then Queues(w, v, step, o, p.value)
            else o in w.sessions && w.sessions[o].pending == p
  {
    hide DoAct;
    var v := Next(w, step);
    if step.Act? {
      ActSums(w, step.t, step.x);
      ActingThread(w, step.t, step.x);
      assert ThreadOk(w, step.t);
      ActQueues(w, step.t, step.x, v, o);
      assert step == Act(step.t, step.x);
      hide Exclusion, Sums, CanAct, ThreadOk;
    } else {
      assert v.sessions == w.sessions && v.log == w.log;
      hide Exclusion;
    }
  }

  /** A queued config is the one that was queued last. */
  lemma {:induction false} PendingIsLastQueued(steps: seq<Step>, n: nat, o: Obj)
    requires Runs(INIT, steps) && n <= |steps|
    requires o in Worlds(INIT, steps)[n].sessions && Worlds(INIT, steps)[n].sessions[o].pending.Some?
    ensures var ws := Worlds(INIT, steps); QueuedBefore(ws, steps, n, o, ws[n].sessions[o].pending.value)
    decreases n
  {
    hide Runs, After, Worlds, Next, Enabled, Exclusion, Queues;
    var ws := Worlds(INIT, steps);
    if n > 0 {
      var m := n - 1;
      var cfg := ws[n].sessions[o].pending.value;
      WorldsExclude(steps, m);
      StepQueues(ws[m], steps[m], o);
      if SomeQueue(ws[m], ws[n], steps[m], o) {
        assert LastQueued(ws, steps, n, m, o, cfg);
      } else {
        PendingIsLastQueued(steps, m, o);
        var i: nat :| LastQueued(ws, steps, m, i, o, cfg);
        assert LastQueued(ws, steps, n, i, o, cfg);
      }
    }
  }

  /** How a thread came to stand before a rebuild: asked by a client, or with what it has just read in the queue. */
  lemma StepLeadsIn(w: World, step: Step, t: Tid)
    requires Enabled(w, step) && t in Next(w, step).threads && Next(w, step).threads[t].pc.RebuildEntering?
    ensures var v := Next(w, step); var o, pc := v.threads[t].obj, v.threads[t].pc;
            || (t in w.threads && w.threads[t] == v.threads[t])
            || (!pc.fromApply && Asks(w, step, o, t, pc.cfg))
            || (pc.fromApply && step.Act? && step.t == t && o in w.sessions && w.sessions[o].pending == Some(pc.cfg))
  {
    hide DoAct;
    if step.Act? {
      ActSums(w, step.t, step.x);
      ActingThread(w, step.t, step.x);
      hide SessionsAfter, SumsRest, RecAfter;
    }
  }

  /** An apply attempt goes into the rebuild with the config that was the last to be queued when it read the queue. */
  ghost predicate ReadFromQueue(ws: seq<World>, steps: seq<Step>, n: nat, o: Obj, t: Tid, cfg: ConfigState)
    requires |ws| == |steps| + 1 && n <= |steps|
  {
    exists r :: 0 <= r < n && steps[r].Act? && steps[r].t == t && QueuedBefore(ws, steps, r, o, cfg)
  }

  /** Every attempt, about to enter, carries what its own client asked for, or what was queued last when it read the queue. */
  lemma {:induction false} EntersWithWhatWasAsked(steps: seq<Step>, n: nat, t: Tid)
    requires Runs(INIT, steps) && n <= |steps|
    requires t in Worlds(INIT, steps)[n].threads && Worlds(INIT, steps)[n].threads[t].pc.RebuildEntering?
    ensures var ws := Worlds(INIT, steps); var o, pc := ws[n].threads[t].obj, ws[n].threads[t].pc;
            if pc.fromApply then ReadFromQueue(ws, steps, n, o, t, pc.cfg) else AskedBefore(ws, steps, n, o, t, pc.cfg)
    decreases n
  {
    hide Runs, After, Worlds, Next, Enabled, QueuedBefore;
    var ws := Worlds(INIT, steps);
    if n > 0 {
      var m := n - 1;
      var o, pc := ws[n].threads[t].obj, ws[n].threads[t].pc;
      StepLeadsIn(ws[m], steps[m], t);
      if t in ws[m].threads && ws[m].threads[t] == ws[n].threads[t] {
        EntersWithWhatWasAsked(steps, m, t);
        if pc.fromApply {
          var r :| 0 <= r < m && steps[r].Act? && steps[r].t == t && QueuedBefore(ws, steps, r, o, pc.cfg);
          assert ReadFromQueue(ws, steps, n, o, t, pc.cfg);
        } else {
          var i :| 0 <= i < m && Asks(ws[i], steps[i], o, t, pc.cfg);
          assert AskedBefore(ws, steps, n, o, t, pc.cfg);
        }
      } else if pc.fromApply {
        PendingIsLastQueued(steps, m, o);
        assert ReadFromQueue(ws, steps, n, o, t, pc.cfg);
      } else {
        assert Asks(ws[m], steps[m], o, t, pc.cfg);
      }
    }
  }

  /** In the end every attempt carries a config that some client asked for on this very object. */
  lemma {:induction false} AttemptsWereAsked(steps: seq<Step>, n: nat, t: Tid)
    requires Runs(INIT, steps) && n <= |steps|
    requires t in Worlds(INIT, steps)[n].threads && Worlds(INIT, steps)[n].threads[t].pc.RebuildEntering?
    ensures var ws := Worlds(INIT, steps); exists u :: AskedBefore(ws, steps, n, ws[n].threads[t].obj, u, ws[n].threads[t].pc.cfg)
    decreases n
  {
    hide Runs, After, Worlds, Next, Enabled;
    var ws := Worlds(INIT, steps);
    var o, pc := ws[n].threads[t].obj, ws[n].threads[t].pc;
    EntersWithWhatWasAsked(steps, n, t);
    if pc.fromApply {
      var r :| 0 <= r < n && steps[r].Act? && steps[r].t == t && QueuedBefore(ws, steps, r, o, pc.cfg);
      var i: nat :| LastQueued(ws, steps, r, i, o, pc.cfg);
      var fromApply :| ActsAt(ws[i], steps[i], o, RebuildEntering(pc.cfg, fromApply));
      AttemptsWereAsked(steps, i, steps[i].t);
      var u :| AskedBefore(ws, steps, i, o, u, pc.cfg);
      assert AskedBefore(ws, steps, n, o, u, pc.cfg);
    }
  }

  /** And every session runs with a config that it was opened with or that a client asked for on it. */
  lemma ConfigWasAsked(steps: seq<Step>, o: Obj)
    requires Runs(INIT, steps) && o in After(INIT, steps).sessions
    ensures var ws, cfg := Worlds(INIT, steps), After(INIT, steps).sessions[o].config;
            OpenedBefore(ws, steps, |steps|, o, cfg) || exists u :: AskedBefore(ws, steps, |steps|, o, u, cfg)
  {
    hide Runs, After, Worlds, Next, Enabled, Opens;
    var ws, n := Worlds(INIT, steps), |steps|;
    var cfg := ws[n].sessions[o].config;
    ConfigIsLastCommitted(steps, n, o);
    if k: nat :| LastCommit(ws, steps, n, k, o, cfg) {
      var ch :| Commits(ws[k], ws[k + 1], steps[k], o, ch) && EnteredBefore(ws, steps, k, o, ch, cfg);
      var i :| 0 <= i < k && Enters(ws[i], ws[i + 1], steps[i], o, ch, cfg);
      AttemptsWereAsked(steps, i, steps[i].t);
      var u :| AskedBefore(ws, steps, i, o, u, cfg);
      assert AskedBefore(ws, steps, n, o, u, cfg);
    }
  }

  /** What a session was opened with is what its opener asked for. */
  lemma {:induction false} OpenedWithWhatWasAsked(steps: seq<Step>, n: nat, t: Tid)
    requires Runs(INIT, steps) && n <= |steps|
    requires t in Worlds(INIT, steps)[n].threads && IsOpen(Worlds(INIT, steps)[n].threads[t].pc)
    ensures var th := Worlds(INIT, steps)[n].threads[t];
            exists i :: 0 <= i < n && steps[i] == SpawnOpen(t, th.obj, th.pc.path, th.pc.cfg)
    decreases n
  {
    hide Runs, After, Worlds, Next, Enabled;
    var ws := Worlds(INIT, steps);
    if n > 0 {
      var m := n - 1;
      var th := ws[n].threads[t];
      StepOpening(ws[m], steps[m], t);
      if steps[m] != SpawnOpen(t, th.obj, th.pc.path, th.pc.cfg) {
        OpenedWithWhatWasAsked(steps, m, t);
        var i :| 0 <= i < m && steps[i] == SpawnOpen(t, th.obj, th.pc.path, th.pc.cfg);
      }
    }
  }

  lemma StepOpening(w: World, step: Step, t: Tid)
    requires Enabled(w, step) && t in Next(w, step).threads && IsOpen(Next(w, step).threads[t].pc)
    ensures var th := Next(w, step).threads[t];
            || step == SpawnOpen(t, th.obj, th.pc.path, th.pc.cfg)
            || (t in w.threads && IsOpen(w.threads[t].pc) && w.threads[t].obj == th.obj
                && w.threads[t].pc.path == th.pc.path && w.threads[t].pc.cfg == th.pc.cfg)
  {
    hide DoAct;
    if step.Act? {
      ActSums(w, step.t, step.x);
      ActingThread(w, step.t, step.x);
      hide SessionsAfter, SumsRest, RecAfter;
    }
  }
}
