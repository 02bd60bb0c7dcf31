/**
 What the service gets done when nobody interferes: a thread that is left alone, and
 whose calls succeed, carries its turn, rebuild, deferred apply, recovery commit, open
 or delete through to the state that the client was promised.
 */
module AcpProgress {
  import opened Wrappers
  import opened AcpSession
  import opened AcpProtocol
  import opened AcpEffects

  /** The same step n times. */
  function Times(step: Step, n: nat): (steps: seq<Step>)
    ensures |steps| == n && forall i :: 0 <= i < n ==> steps[i] == step
  {
    seq(n, _ => step)
  }

  /** One action in front of a run of them. */
  lemma OneMore(w: World, step: Step, n: nat)
    requires Enabled(w, step) && Runs(Next(w, step), Times(step, n))
    ensures Runs(w, Times(step, n + 1)) && After(w, Times(step, n + 1)) == After(Next(w, step), Times(step, n))
  {
    hide Enabled, Next;
    assert Times(step, n + 1)[1..] == Times(step, n);
  }

  lemma NoMore(w: World, step: Step)
    ensures Runs(w, Times(step, 0)) && After(w, Times(step, 0)) == w
  {
  }

  /** Thread t is on object o at pc, and the object is s. */
  predicate Stands(w: World, t: Tid, o: Obj, pc: Pc, s: Session) {
    t in w.threads && w.threads[t] == Thread(o, pc) && o in w.sessions && w.sessions[o] == s
  }

  /** Choices under which every call succeeds and no snapshot meets a conflict. */
  predicate Smooth(w: World, t: Tid, o: Obj, x: Choice) {
    x.ok && x.recover.None? && x.status == Status(false, false, 0) && Fresh(w, t, x.ch) && x.next.owner == o && x.next !in w.ctrlPath
  }

  // ---------- a rebuild ----------

  lemma RebuildEnters(w: World, t: Tid, o: Obj, cfg: ConfigState, fromApply: bool, s: Session, x: Choice)
    requires Stands(w, t, o, RebuildEntering(cfg, fromApply), s) && Smooth(w, t, o, x)
    requires !s.deleted && !s.running && s.maint.None?
    ensures Enabled(w, Act(t, x))
    ensures var v := Next(w, Act(t, x));
            && Stands(v, t, o, RebuildSaving(x.ch, cfg, fromApply, s.ctrl, RecIdle), s.(pending := None, maint := Some(x.ch)))
            && v.registered == w.registered && v.ctrlPath == w.ctrlPath
  {
    ActSums(w, t, x);
    hide DoAct;
  }

  lemma RebuildSaves(w: World, t: Tid, o: Obj, ch: Chan, cfg: ConfigState, fromApply: bool, c: Ctrl, s: Session, x: Choice)
    requires Stands(w, t, o, RebuildSaving(ch, cfg, fromApply, c, RecIdle), s) && x.ok && x.recover.None?
    ensures Enabled(w, Act(t, x))
    ensures var v := Next(w, Act(t, x));
            Stands(v, t, o, RebuildBuilding(ch, cfg, fromApply, c), s) && v.registered == w.registered && v.ctrlPath == w.ctrlPath
  {
    ActSums(w, t, x);
    hide DoAct;
  }

  lemma RebuildBuilds(w: World, t: Tid, o: Obj, ch: Chan, cfg: ConfigState, fromApply: bool, c: Ctrl, s: Session, x: Choice)
    requires Stands(w, t, o, RebuildBuilding(ch, cfg, fromApply, c), s) && x.ok && c in w.ctrlPath && x.next.owner == o && x.next !in w.ctrlPath
    ensures Enabled(w, Act(t, x))
    ensures var v := Next(w, Act(t, x));
            Stands(v, t, o, RebuildCommitting(ch, cfg, fromApply, c, x.next), s) && v.registered == w.registered
  {
    ActSums(w, t, x);
    hide DoAct;
  }

  lemma RebuildCommits(w: World, t: Tid, o: Obj, ch: Chan, cfg: ConfigState, fromApply: bool, next: Ctrl, s: Session, x: Choice)
    requires Stands(w, t, o, RebuildCommitting(ch, cfg, fromApply, s.ctrl, next), s) && !s.deleted
    ensures Enabled(w, Act(t, x))
    ensures var v := Next(w, Act(t, x));
            Stands(v, t, o, RebuildEnding(ch, fromApply, true), s.(ctrl := next, config := cfg)) && v.registered == w.registered
  {
    ActSums(w, t, x);
    hide DoAct;
  }

  lemma RebuildEnds(w: World, t: Tid, o: Obj, ch: Chan, fromApply: bool, s: Session, x: Choice)
    requires Stands(w, t, o, RebuildEnding(ch, fromApply, true), s) && s.maint == Some(ch)
    ensures Enabled(w, Act(t, x))
    ensures var v := Next(w, Act(t, x));
            Stands(v, t, o, RebuildClosing(ch, fromApply, true), s.(maint := None)) && v.registered == w.registered && v.clientFailed == w.clientFailed - {o}
  {
    ActSums(w, t, x);
    hide DoAct;
  }

  lemma RebuildCloses(w: World, t: Tid, o: Obj, ch: Chan, fromApply: bool, s: Session, x: Choice)
    requires Stands(w, t, o, RebuildClosing(ch, fromApply, true), s)
    ensures Enabled(w, Act(t, x))
    ensures var v := Next(w, Act(t, x));
            Stands(v, t, o, ApplyLookup, s) && v.registered == w.registered && v.clientFailed == w.clientFailed && ch in v.closed
  {
    ActSums(w, t, x);
    hide PcAfter, SessionsAfter, RegisteredAfter;
    assert DoAct(w, t, x) == CloseChan(Goto(w, t, ApplyLookup), ch);
  }

  /** A rebuild that enters an idle session installs its config and controller, frees the slot and goes on to the queue. */
  lemma RebuildInstalls(w: World, t: Tid, o: Obj, cfg: ConfigState, fromApply: bool, s: Session, x: Choice)
    requires Stands(w, t, o, RebuildEntering(cfg, fromApply), s) && Smooth(w, t, o, x) && s.ctrl in w.ctrlPath
    requires !s.deleted && !s.running && s.maint.None?
    ensures Runs(w, Times(Act(t, x), 6))
    ensures var v := After(w, Times(Act(t, x), 6));
            && Stands(v, t, o, ApplyLookup, s.(pending := None, config := cfg, ctrl := x.next))
            && v.registered == w.registered && o !in v.clientFailed && x.ch in v.closed
  {
    hide Enabled, Next, Runs, After, Stands, Fresh;
    var step := Act(t, x);
    RebuildEnters(w, t, o, cfg, fromApply, s, x);
    var w1, s1 := Next(w, step), s.(pending := None, maint := Some(x.ch));
    RebuildSaves(w1, t, o, x.ch, cfg, fromApply, s.ctrl, s1, x);
    var w2 := Next(w1, step);
    RebuildBuilds(w2, t, o, x.ch, cfg, fromApply, s.ctrl, s1, x);
    var w3 := Next(w2, step);
    RebuildCommits(w3, t, o, x.ch, cfg, fromApply, x.next, s1, x);
    var w4, s4 := Next(w3, step), s1.(ctrl := x.next, config := cfg);
    RebuildEnds(w4, t, o, x.ch, fromApply, s4, x);
    var w5, s5 := Next(w4, step), s4.(maint := None);
    RebuildCloses(w5, t, o, x.ch, fromApply, s5, x);
    var w6 := Next(w5, step);
    NoMore(w6, step);
    OneMore(w5, step, 0);
    OneMore(w4, step, 1);
    OneMore(w3, step, 2);
    OneMore(w2, step, 3);
    OneMore(w1, step, 4);
    OneMore(w, step, 5);
  }

  // ---------- a deferred apply ----------

  lemma ApplyLooks(w: World, t: Tid, o: Obj, s: Session, x: Choice)
    requires Stands(w, t, o, ApplyLookup, s) && w.registered == Some(o)
    ensures Enabled(w, Act(t, x))
    ensures var v := Next(w, Act(t, x));
            Stands(v, t, o, ApplyRead, s) && v.registered == w.registered && v.ctrlPath == w.ctrlPath && v.issued == w.issued
  {
    ActSums(w, t, x);
    hide PcAfter, SessionsAfter, SumsRest;
    assert DoAct(w, t, x) == Goto(w, t, ApplyRead);
  }

  lemma ApplyReads(w: World, t: Tid, o: Obj, s: Session, x: Choice)
    requires Stands(w, t, o, ApplyRead, s) && !s.deleted
    ensures Enabled(w, Act(t, x))
    ensures var v := Next(w, Act(t, x));
            && Stands(v, t, o, if s.pending.Some? then RebuildEntering(s.pending.value, true) else Finished, s)
            && v.registered == w.registered && v.ctrlPath == w.ctrlPath && v.issued == w.issued
  {
    ActSums(w, t, x);
    hide PcAfter, SessionsAfter, SumsRest;
    assert DoAct(w, t, x) == Goto(w, t, if s.pending.None? then Finished else RebuildEntering(s.pending.value, true));
  }

  /** A queued config becomes the session's: whoever is on the way to the queue reads it, rebuilds with it, and finds the queue empty. */
  lemma QueueIsApplied(w: World, t: Tid, o: Obj, cfg: ConfigState, s: Session, x: Choice)
    requires Stands(w, t, o, ApplyLookup, s) && Smooth(w, t, o, x) && s.ctrl in w.ctrlPath && w.registered == Some(o)
    requires s.pending == Some(cfg) && !s.deleted && !s.running && s.maint.None?
    ensures Runs(w, Times(Act(t, x), 10))
    ensures Stands(After(w, Times(Act(t, x), 10)), t, o, Finished, s.(pending := None, config := cfg, ctrl := x.next))
  {
    hide Enabled, Next, Runs, After, Stands;
    var step := Act(t, x);
    ApplyLooks(w, t, o, s, x);
    var w1 := Next(w, step);
    ApplyReads(w1, t, o, s, x);
    var w2 := Next(w1, step);
    RebuildInstalls(w2, t, o, cfg, true, s, x);
    var w8, s8 := After(w2, Times(step, 6)), s.(pending := None, config := cfg, ctrl := x.next);
    ApplyLooks(w8, t, o, s8, x);
    var w9 := Next(w8, step);
    ApplyReads(w9, t, o, s8, x);
    var w10 := Next(w9, step);
    NoMore(w10, step);
    OneMore(w9, step, 0);
    OneMore(w8, step, 1);
    Joined(w2, step, 6, 2);
    OneMore(w1, step, 8);
    OneMore(w, step, 9);
  }

  lemma Joined(w: World, step: Step, m: nat, n: nat)
    requires Runs(w, Times(step, m)) && Runs(After(w, Times(step, m)), Times(step, n))
    ensures Runs(w, Times(step, m + n)) && After(w, Times(step, m + n)) == After(After(w, Times(step, m)), Times(step, n))
  {
    hide Enabled, Next, Runs, After;
    RunsConcat(w, Times(step, m), Times(step, n));
    assert Times(step, m) + Times(step, n) == Times(step, m + n);
  }

  // ---------- a turn ----------

  /** Every action of t that only moves its program counter. */
  predicate Moves(w: World, t: Tid, x: Choice, q: Pc) {
    CanAct(w, t, x) && DoAct(w, t, x) == Goto(w, t, q)
  }

  lemma MovesOn(w: World, t: Tid, o: Obj, pc: Pc, q: Pc, s: Session, x: Choice)
    requires Stands(w, t, o, pc, s) && Moves(w, t, x, q)
    ensures Enabled(w, Act(t, x)) && Stands(Next(w, Act(t, x)), t, o, q, s) && Next(w, Act(t, x)).registered == w.registered
  {
    hide DoAct, CanAct;
  }

  lemma TurnStarts(w: World, t: Tid, o: Obj, s: Session, x: Choice)
    requires Stands(w, t, o, TurnWaiting, s) && Fresh(w, t, x.ch)
    requires !s.running && !s.deleted && s.maint.None? && s.pending.None?
    ensures Enabled(w, Act(t, x))
    ensures Stands(Next(w, Act(t, x)), t, o, TurnBegun(x.ch), s.(running := true, done := Some(x.ch))) && Next(w, Act(t, x)).registered == w.registered
  {
    ActSums(w, t, x);
    hide DoAct;
  }

  lemma TurnFinishes(w: World, t: Tid, o: Obj, ch: Chan, s: Session, x: Choice)
    requires Stands(w, t, o, TurnFinishing(ch), s)
    ensures Enabled(w, Act(t, x))
    ensures Stands(Next(w, Act(t, x)), t, o, TurnClosing(ch), s.(running := false, done := None)) && Next(w, Act(t, x)).registered == w.registered
  {
    ActSums(w, t, x);
    hide DoAct;
  }

  lemma TurnCloses(w: World, t: Tid, o: Obj, ch: Chan, s: Session, x: Choice)
    requires Stands(w, t, o, TurnClosing(ch), s)
    ensures Enabled(w, Act(t, x))
    ensures var v := Next(w, Act(t, x)); Stands(v, t, o, ApplyLookup, s) && v.registered == w.registered && ch in v.closed
  {
    assert DoAct(w, t, x) == CloseChan(Goto(w, t, ApplyLookup), ch);
    hide DoAct;
  }

  /** A prompt on an idle session is admitted, runs, and leaves the session idle with its channel closed. */
  lemma TurnRunsThrough(w: World, t: Tid, o: Obj, s: Session, x: Choice)
    requires Stands(w, t, o, TurnWaiting, s) && Fresh(w, t, x.ch) && x.recover.None?
    requires !s.running && !s.deleted && s.maint.None? && s.pending.None?
    ensures Runs(w, Times(Act(t, x), 1)) && Stands(After(w, Times(Act(t, x), 1)), t, o, TurnBegun(x.ch), s.(running := true, done := Some(x.ch)))
    ensures Runs(w, Times(Act(t, x), 8))
    ensures var v := After(w, Times(Act(t, x), 8));
            Stands(v, t, o, ApplyLookup, s.(done := None)) && v.registered == w.registered && x.ch in v.closed
  {
    hide Next, Runs, After, Fresh, Enabled;
    var step, ch, busy := Act(t, x), x.ch, s.(running := true, done := Some(x.ch));
    TurnStarts(w, t, o, s, x);
    var w1 := Next(w, step);
    MovesOn(w1, t, o, TurnBegun(ch), TurnRunning(ch, s.ctrl, RecIdle), busy, x);
    var w2 := Next(w1, step);
    MovesOn(w2, t, o, TurnRunning(ch, s.ctrl, RecIdle), TurnPersisting(ch), busy, x);
    var w3 := Next(w2, step);
    MovesOn(w3, t, o, TurnPersisting(ch), TurnSaving(ch, s.ctrl, RecIdle), busy, x);
    var w4 := Next(w3, step);
    MovesOn(w4, t, o, TurnSaving(ch, s.ctrl, RecIdle), TurnSaved(ch, s.ctrl), busy, x);
    var w5 := Next(w4, step);
    MovesOn(w5, t, o, TurnSaved(ch, s.ctrl), TurnFinishing(ch), busy, x);
    var w6 := Next(w5, step);
    hide Moves, DoAct, CanAct;
    TurnFinishes(w6, t, o, ch, busy, x);
    var w7 := Next(w6, step);
    TurnCloses(w7, t, o, ch, s.(done := None), x);
    var w8 := Next(w7, step);
    hide Stands;
    NoMore(w1, step);
    OneMore(w, step, 0);
    NoMore(w8, step);
    OneMore(w7, step, 0);
    OneMore(w6, step, 1);
    OneMore(w5, step, 2);
    OneMore(w4, step, 3);
    OneMore(w3, step, 4);
    OneMore(w2, step, 5);
    OneMore(w1, step, 6);
    OneMore(w, step, 7);
  }

  // ---------- a recovery commit ----------

  /** A snapshot finds that the file has diverged: the registry names the thread's own object. */
  lemma RecoveryFinds(w: World, t: Tid, o: Obj, ch: Chan, c: Ctrl, path: Path, s: Session, x: Choice)
    requires Stands(w, t, o, TurnRunning(ch, c, RecIdle), s) && x.recover == Some(path) && HasPath(w, c) && w.registered == Some(o)
    ensures Enabled(w, Act(t, x))
    ensures var v := Next(w, Act(t, x));
            && Stands(v, t, o, TurnRunning(ch, c, RecFound(path, o)), s)
            && v.registered == w.registered && v.leases == w.leases && v.ctrlPath == w.ctrlPath
  {
    ActSums(w, t, x);
    hide DoAct;
  }

  lemma RecoveryTakes(w: World, t: Tid, o: Obj, ch: Chan, c: Ctrl, path: Path, s: Session, x: Choice)
    requires Stands(w, t, o, TurnRunning(ch, c, RecFound(path, o)), s) && path !in w.leases
    ensures Enabled(w, Act(t, x))
    ensures var v := Next(w, Act(t, x));
            && Stands(v, t, o, TurnRunning(ch, c, RecHolding(path, o)), s)
            && v.leases == w.leases[path := InThread(t)] && v.ctrlPath == w.ctrlPath
  {
    ActSums(w, t, x);
    hide DoAct;
  }

  lemma RecoveryBinds(w: World, t: Tid, o: Obj, ch: Chan, c: Ctrl, path: Path, s: Session, x: Choice)
    requires Stands(w, t, o, TurnRunning(ch, c, RecHolding(path, o)), s) && !s.deleted
    ensures Enabled(w, Act(t, x))
    ensures var v := Next(w, Act(t, x));
            && Stands(v, t, o, TurnRunning(ch, c, RecReleasing(path, o, s.lease)), s.(lease := Some(path), transcript := Some(path)))
            && v.leases == Give(w.leases[path := InSession(o)], s.lease, InThread(t)) && v.ctrlPath == w.ctrlPath
  {
    ActSums(w, t, x);
    hide DoAct;
  }

  lemma RecoveryReleases(w: World, t: Tid, o: Obj, ch: Chan, c: Ctrl, path: Path, prev: Option<Path>, s: Session, x: Choice)
    requires Stands(w, t, o, TurnRunning(ch, c, RecReleasing(path, o, prev)), s)
    ensures Enabled(w, Act(t, x))
    ensures var v := Next(w, Act(t, x));
            && Stands(v, t, o, TurnRunning(ch, c, RecRetargeting(path, Some(o))), s)
            && v.leases == Free(w.leases, prev) && v.ctrlPath == w.ctrlPath
  {
    ActSums(w, t, x);
    hide DoAct;
  }

  lemma RecoveryRetargets(w: World, t: Tid, o: Obj, ch: Chan, c: Ctrl, path: Path, s: Session, x: Choice)
    requires Stands(w, t, o, TurnRunning(ch, c, RecRetargeting(path, Some(o))), s)
    ensures Enabled(w, Act(t, x))
    ensures var v := Next(w, Act(t, x));
            && Stands(v, t, o, TurnRunning(ch, c, RecIdle), s)
            && v.leases == w.leases && v.ctrlPath == w.ctrlPath[c := Some(path)]
  {
    ActSums(w, t, x);
    hide DoAct;
  }

  /**
   A turn that runs into a diverged file moves its session to the recovery file: lease,
   report and controller name it, the lease of the old file is free, and the turn goes on.
   */
  lemma RecoveryMoves(w: World, t: Tid, o: Obj, ch: Chan, c: Ctrl, path: Path, s: Session, x: Choice)
    requires Stands(w, t, o, TurnRunning(ch, c, RecIdle), s) && !s.deleted && w.registered == Some(o) && HasPath(w, c)
    requires x.recover == Some(path) && path !in w.leases && s.lease != Some(path)
    ensures Runs(w, Times(Act(t, x), 5))
    ensures var v := After(w, Times(Act(t, x), 5));
            && Stands(v, t, o, TurnRunning(ch, c, RecIdle), s.(lease := Some(path), transcript := Some(path)))
            && v.leases == Free(w.leases[path := InSession(o)], s.lease) && v.ctrlPath == w.ctrlPath[c := Some(path)]
  {
    var step, moved := Act(t, x), s.(lease := Some(path), transcript := Some(path));
    RecoveryFinds(w, t, o, ch, c, path, s, x);
    var w1 := Next(w, step);
    hide Next, Runs, After, Enabled, Stands, HasPath;
    RecoveryTakes(w1, t, o, ch, c, path, s, x);
    var w2 := Next(w1, step);
    RecoveryBinds(w2, t, o, ch, c, path, s, x);
    var w3 := Next(w2, step);
    RecoveryReleases(w3, t, o, ch, c, path, s.lease, moved, x);
    var w4 := Next(w3, step);
    RecoveryRetargets(w4, t, o, ch, c, path, moved, x);
    var w5 := Next(w4, step);
    assert w5.leases == Free(w.leases[path := InSession(o)], s.lease);
    NoMore(w5, step);
    OneMore(w4, step, 0);
    OneMore(w3, step, 1);
    OneMore(w2, step, 2);
    OneMore(w1, step, 3);
    OneMore(w, step, 4);
  }

  // ---------- opening and ending ----------

  /** A session is opened: its file is leased to it, it is registered, idle, and its controller writes the file. */
  lemma OpenRegisters(w: World, t: Tid, o: Obj, path: Option<Path>, cfg: ConfigState, x: Choice)
    requires t in w.threads && w.threads[t] == Thread(o, OpenFound(path, cfg)) && x.ok && x.next.owner == o && x.next !in w.ctrlPath
    requires path.Some? ==> path.value !in w.leases
    ensures Runs(w, Times(Act(t, x), 2))
    ensures var v := After(w, Times(Act(t, x), 2));
            && Stands(v, t, o, Finished, Session(false, None, false, None, None, x.next, cfg, path, path))
            && v.registered == Some(o) && v.leases == Give(w.leases, path, InSession(o)) && v.ctrlPath == w.ctrlPath[x.next := path]
  {
    var step := Act(t, x);
    ActSums(w, t, x);
    var w1 := Next(w, step);
    OpenTakes(w, t, o, path, cfg, x);
    hide Next, Runs, After, Enabled;
    OpenEnters(w1, t, o, path, cfg, x);
    var w2 := Next(w1, step);
    assert Give(Give(w.leases, path, InThread(t)), path, InSession(o)) == Give(w.leases, path, InSession(o));
    NoMore(w2, step);
    OneMore(w1, step, 0);
    OneMore(w, step, 1);
  }

  lemma OpenTakes(w: World, t: Tid, o: Obj, path: Option<Path>, cfg: ConfigState, x: Choice)
    requires t in w.threads && w.threads[t] == Thread(o, OpenFound(path, cfg)) && (path.Some? ==> path.value !in w.leases)
    ensures Enabled(w, Act(t, x))
    ensures var v := Next(w, Act(t, x));
            && t in v.threads && v.threads[t] == Thread(o, OpenHolding(path, cfg))
            && v.leases == Give(w.leases, path, InThread(t)) && v.ctrlPath == w.ctrlPath
  {
    ActSums(w, t, x);
    hide DoAct;
  }

  lemma OpenEnters(w: World, t: Tid, o: Obj, path: Option<Path>, cfg: ConfigState, x: Choice)
    requires t in w.threads && w.threads[t] == Thread(o, OpenHolding(path, cfg)) && x.ok && x.next.owner == o && x.next !in w.ctrlPath
    ensures Enabled(w, Act(t, x))
    ensures var v := Next(w, Act(t, x));
            && Stands(v, t, o, Finished, Session(false, None, false, None, None, x.next, cfg, path, path))
            && v.registered == Some(o) && v.leases == Give(w.leases, path, InSession(o)) && v.ctrlPath == w.ctrlPath[x.next := path]
  {
    ActSums(w, t, x);
    hide DoAct;
  }

  lemma EndCaptures(w: World, t: Tid, o: Obj, del: bool, s: Session, x: Choice)
    requires Stands(w, t, o, EndCapturing(del), s)
    ensures Enabled(w, Act(t, x))
    ensures var v := Next(w, Act(t, x));
            && Stands(v, t, o, EndBlocked(del, s.done, s.maint), if del then s.(deleted := true) else s)
            && v.leases == w.leases && v.closed == w.closed
  {
    ActSums(w, t, x);
    hide PcAfter, SessionsAfter, SumsRest;
    assert DoAct(w, t, x) == DoCapture(w, t, o, del);
  }

  lemma EndWaits(w: World, t: Tid, o: Obj, del: bool, waitDone: Option<Chan>, waitMaint: Option<Chan>, s: Session, x: Choice)
    requires Stands(w, t, o, EndBlocked(del, waitDone, waitMaint), s) && ChanClosed(w, waitDone) && ChanClosed(w, waitMaint)
    ensures Enabled(w, Act(t, x))
    ensures var v := Next(w, Act(t, x)); Stands(v, t, o, EndTaking(del), s) && v.leases == w.leases
  {
    ActSums(w, t, x);
    hide DoAct;
  }

  lemma EndTakes(w: World, t: Tid, o: Obj, del: bool, s: Session, x: Choice)
    requires Stands(w, t, o, EndTaking(del), s)
    ensures Enabled(w, Act(t, x))
    ensures var v := Next(w, Act(t, x));
            && Stands(v, t, o, EndReleasing(del, s.lease), s.(lease := None))
            && v.leases == Give(w.leases, s.lease, InThread(t))
  {
    ActSums(w, t, x);
    hide DoAct;
  }

  lemma EndReleases(w: World, t: Tid, o: Obj, del: bool, taken: Option<Path>, s: Session, x: Choice)
    requires Stands(w, t, o, EndReleasing(del, taken), s)
    ensures Enabled(w, Act(t, x))
    ensures var v := Next(w, Act(t, x)); Stands(v, t, o, EndDone(del), s) && v.leases == Free(w.leases, taken)
  {
    ActSums(w, t, x);
    hide DoAct;
  }

  /** Closing or deleting a session on which nothing is in flight frees its file, and deleting marks it. */
  lemma EndFrees(w: World, t: Tid, o: Obj, del: bool, s: Session, x: Choice)
    requires Stands(w, t, o, EndCapturing(del), s) && s.done.None? && s.maint.None?
    ensures Runs(w, Times(Act(t, x), 4))
    ensures var v := After(w, Times(Act(t, x), 4));
            && Stands(v, t, o, EndDone(del), s.(lease := None, deleted := s.deleted || del))
            && v.leases == Free(w.leases, s.lease)
  {
    hide Next, Runs, After, Enabled, Stands;
    var step, marked := Act(t, x), if del then s.(deleted := true) else s;
    EndCaptures(w, t, o, del, s, x);
    var w1 := Next(w, step);
    EndWaits(w1, t, o, del, None, None, marked, x);
    var w2 := Next(w1, step);
    EndTakes(w2, t, o, del, marked, x);
    var w3 := Next(w2, step);
    EndReleases(w3, t, o, del, s.lease, marked.(lease := None), x);
    var w4 := Next(w3, step);
    assert Free(Give(w.leases, s.lease, InThread(t)), s.lease) == Free(w.leases, s.lease);
    NoMore(w4, step);
    OneMore(w3, step, 0);
    OneMore(w2, step, 1);
    OneMore(w1, step, 2);
    OneMore(w, step, 3);
  }
}
