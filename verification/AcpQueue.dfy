/**
 The config queue: a parked config always has somebody who will drain it, except
 after a client-requested rebuild that failed; and no turn starts over a queued
 config before a rebuild attempt at it has ended or the queue was dropped.
 */
module AcpQueue {
  import opened Wrappers
  import opened AcpSession
  import opened AcpProtocol
  import opened AcpEffects
  import opened AcpExclusion

  // ---------- custody ----------

  /** A config is parked on an idle session, and the last maintenance was not a failed client rebuild. */
  predicate Parked(w: World, o: Obj) {
    o in w.sessions &&
    var s := w.sessions[o];
    s.pending.Some? && !s.deleted && !s.running && s.maint.None? && o !in w.clientFailed
  }

  predicate Drains(w: World, t: Tid, o: Obj) {
    t in w.threads && w.threads[t].obj == o && Draining(w.threads[t].pc)
  }

  ghost predicate Custody(w: World) {
    w.registered.Some? && Parked(w, w.registered.value) ==> exists t :: Drains(w, t, w.registered.value)
  }

  /** A config parked after the move is drained by the mover, or was parked already and not left to the mover. */
  predicate Handed(w: World, v: World, t: Tid, o: Obj) {
    Parked(v, o) ==> Drains(v, t, o) || (Parked(w, o) && !Drains(w, t, o))
  }

  lemma MoveKeepsCustody(w: World, v: World, t: Tid)
    requires Custody(w) && t in w.threads && t in v.threads
    requires v.threads == w.threads[t := Thread(w.threads[t].obj, v.threads[t].pc)] && v.registered == w.registered
    requires w.registered.Some? ==> Handed(w, v, t, w.registered.value)
    ensures Custody(v)
  {
    if v.registered.Some? && Parked(v, v.registered.value) {
      var o := v.registered.value;
      if !Drains(v, t, o) {
        var u :| Drains(w, u, o);
        assert Drains(v, u, o);
      }
    }
  }

  lemma ActHands(w: World, t: Tid, x: Choice, v: World)
    requires CanAct(w, t, x) && Sums(w, t, x, v) && w.registered.Some? && w.registered == v.registered
    ensures Handed(w, v, t, w.registered.value)
  {
    hide RecAfter, RecLeases, LeasesAfter, CtrlPathAfter, TaintedAfter, EventsOf;
  }

  lemma ActKeepsCustody(w: World, t: Tid, x: Choice)
    requires Custody(w) && CanAct(w, t, x)
    ensures Custody(DoAct(w, t, x))
  {
    hide Custody, DoAct;
    var v := DoAct(w, t, x);
    ActSums(w, t, x);
    if v.registered == w.registered {
      if w.registered.Some? { ActHands(w, t, x, v); }
      hide Handed, PcAfter;
      MoveKeepsCustody(w, v, t);
    } else {
      RegisteringKeepsCustody(w, t, x, v);
    }
  }

  lemma RegisteringKeepsCustody(w: World, t: Tid, x: Choice, v: World)
    requires CanAct(w, t, x) && Sums(w, t, x, v) && v.registered != w.registered
    ensures Custody(v)
  {
    hide PcAfter, LeasesAfter, CtrlPathAfter, TaintedAfter, EventsOf;
  }

  lemma SpawnKeepsCustody(w: World, t: Tid, o: Obj, pc: Pc)
    requires Custody(w) && t !in w.threads
    ensures Custody(Spawn(w, t, o, pc))
  {
    var v := Spawn(w, t, o, pc);
    if v.registered.Some? && Parked(v, v.registered.value) {
      var u :| Drains(w, u, v.registered.value);
      assert Drains(v, u, v.registered.value);
    }
  }

  lemma LeasesDoNotMoveCustody(w: World, v: World)
    requires Custody(w) && v == w.(leases := v.leases)
    ensures Custody(v)
  {
    if v.registered.Some? && Parked(v, v.registered.value) {
      var u :| Drains(w, u, v.registered.value);
      assert Drains(v, u, v.registered.value);
    }
  }

  lemma StepKeepsCustody(w: World, step: Step)
    requires Custody(w) && Enabled(w, step)
    ensures Custody(Next(w, step))
  {
    hide DoAct, CanAct, Parked, Drains;
    match step
    case SpawnTurn(t) => SpawnKeepsCustody(w, t, w.registered.value, TurnWaiting);
    case SpawnRebuild(t, cfg) => SpawnKeepsCustody(w, t, w.registered.value, RebuildEntering(cfg, false));
    case SpawnEnd(t, del) =>
    case SpawnOpen(t, o, transcript, cfg) =>
    case OtherAcquires(_) => LeasesDoNotMoveCustody(w, Next(w, step));
    case OtherReleases(_) => LeasesDoNotMoveCustody(w, Next(w, step));
    case Act(t, x) => ActKeepsCustody(w, t, x);
  }

  lemma {:induction false} RunKeepsCustody(w: World, steps: seq<Step>)
    requires Custody(w) && Runs(w, steps)
    ensures Custody(After(w, steps))
    decreases |steps|
  {
    hide Custody, Enabled, Next;
    if steps != [] {
      StepKeepsCustody(w, steps[0]);
      RunKeepsCustody(Next(w, steps[0]), steps[1..]);
    }
  }

  /** No thread on o is in a turn or a maintenance, or on its way to the queue. */
  predicate Quiescent(w: World, o: Obj) {
    forall t :: t in w.threads && w.threads[t].obj == o ==> !Working(w.threads[t].pc) && !Draining(w.threads[t].pc)
  }

  /**
   No stranded config queue: when a registered, undeleted session has gone quiet
   with a config still queued, the last maintenance on it was a client-requested
   rebuild that failed, the one exit that skips the deferred apply.
   */
  lemma NoStrandedQueue(steps: seq<Step>, o: Obj)
    requires Runs(INIT, steps)
    requires var w := After(INIT, steps); w.registered == Some(o) && o in w.sessions && !w.sessions[o].deleted && Quiescent(w, o)
    ensures var w := After(INIT, steps); w.sessions[o].pending.Some? ==> o in w.clientFailed
  {
    var w := After(INIT, steps);
    InitExclusion();
    RunKeepsExclusion(INIT, steps);
    RunKeepsCustody(INIT, steps);
    assert SessionOk(w, o);
    hide TurnChan, MaintChan, Draining;
    assert !w.sessions[o].running && w.sessions[o].maint.None?;
  }

  // ---------- the history of one queue ----------

  /** What a session object owes its client: nothing, a queued config, or an attempt in flight over an empty queue. */
  datatype Debt = Clear | Owed | InFlight

  function Pays(d: Debt, e: Event, o: Obj): Debt {
    match e
    case Queue(p) => if p == o then Owed else d
    case Claim(p) => if p == o then InFlight else d
    case EndAttempt(p) => if p == o && d.InFlight? then Clear else d
    case Drop(p) => if p == o then Clear else d
    case TurnBegins(_) => d
  }

  function DebtAfter(log: seq<Event>, o: Obj): Debt {
    if log == [] then Clear else Pays(DebtAfter(log[..|log| - 1], o), log[|log| - 1], o)
  }

  function DebtOf(w: World, o: Obj): Debt {
    if o !in w.sessions then Clear
    else if w.sessions[o].pending.Some? then Owed
    else if w.sessions[o].maint.Some? then InFlight
    else Clear
  }

  /** The session's fields carry exactly what its history says, and every turn so far began with nothing owed. */
  ghost predicate Books(w: World) {
    && (forall o :: DebtAfter(w.log, o) == DebtOf(w, o))
    && TurnsBeginClear(w.log)
  }

  ghost predicate TurnsBeginClear(log: seq<Event>) {
    forall i :: 0 <= i < |log| && log[i].TurnBegins? ==> DebtAfter(log[..i], log[i].o) == Clear
  }

  lemma TurnsBeginClearAppend(log: seq<Event>, e: Event)
    requires TurnsBeginClear(log) && (e.TurnBegins? ==> DebtAfter(log, e.o) == Clear)
    ensures TurnsBeginClear(log + [e])
  {
    var more := log + [e];
    forall i | 0 <= i < |more| && more[i].TurnBegins? ensures DebtAfter(more[..i], more[i].o) == Clear {
      assert more[..i] == log[..i];
      assert i == |log| ==> log[..i] == log;
    }
  }

  lemma DebtAppend(log: seq<Event>, e: Event, o: Obj)
    ensures DebtAfter(log + [e], o) == Pays(DebtAfter(log, o), e, o)
  {
    assert (log + [e])[..|log|] == log;
  }

  /** One action books what it does to the queue. */
  lemma ActBooks(w: World, t: Tid, x: Choice, v: World, o: Obj)
    requires CanAct(w, t, x) && Sums(w, t, x, v) && ThreadOk(w, t)
    requires o in w.sessions ==> SessionOk(w, o)
    ensures |EventsOf(w, t, x)| <= 1
    ensures DebtOf(v, o) == if EventsOf(w, t, x) == [] then DebtOf(w, o) else Pays(DebtOf(w, o), EventsOf(w, t, x)[0], o)
    ensures EventsOf(w, t, x) == [TurnBegins(o)] ==> DebtOf(w, o) == Clear
  {
    hide PcAfter, RecAfter, RecLeases, LeasesAfter, CtrlPathAfter, TaintedAfter, ClientFailedAfter, TurnChan, ClosingChan, CtrlOf;
  }

  lemma ActKeepsBooks(w: World, t: Tid, x: Choice)
    requires Books(w) && Exclusion(w) && CanAct(w, t, x)
    ensures Books(DoAct(w, t, x))
  {
    hide DoAct, CanAct, EventsOf, DebtOf, Pays, ThreadOk, SessionOk;
    var v, es := DoAct(w, t, x), EventsOf(w, t, x);
    ActSums(w, t, x);
    assert t in w.threads by { ActingThread(w, t, x); }
    assert ThreadOk(w, t);
    forall o ensures DebtAfter(v.log, o) == DebtOf(v, o) {
      assert o in w.sessions ==> SessionOk(w, o);
      ActBooks(w, t, x, v, o);
      if es == [] { assert v.log == w.log; } else { assert v.log == w.log + [es[0]]; DebtAppend(w.log, es[0], o); }
    }
    if es == [] {
      assert v.log == w.log;
    } else {
      assert v.log == w.log + [es[0]] by { ActBooks(w, t, x, v, 0); }
      if es[0].TurnBegins? { 
        var o := es[0].o;
        assert o in w.sessions ==> SessionOk(w, o);
        ActBooks(w, t, x, v, o);
        assert es == [TurnBegins(o)];
      }
      TurnsBeginClearAppend(w.log, es[0]);
    }
  }

  lemma ActingThread(w: World, t: Tid, x: Choice)
    requires CanAct(w, t, x)
    ensures t in w.threads
  {
  }

  lemma StepKeepsBooks(w: World, step: Step)
    requires Books(w) && Exclusion(w) && Enabled(w, step)
    ensures Books(Next(w, step))
  {
    hide DoAct, CanAct, Exclusion, TurnsBeginClear;
    if step.Act? {
      hide Books;
      ActKeepsBooks(w, step.t, step.x);
    } else {
      var v := Next(w, step);
      assert v.log == w.log && v.sessions == w.sessions;
      forall o ensures DebtAfter(v.log, o) == DebtOf(v, o) { assert DebtOf(v, o) == DebtOf(w, o); }
    }
  }

  lemma {:induction false} RunKeepsBooks(w: World, steps: seq<Step>)
    requires Books(w) && Exclusion(w) && Runs(w, steps)
    ensures Books(After(w, steps))
    decreases |steps|
  {
    hide Books, Exclusion, Enabled, Next;
    if steps != [] {
      StepKeepsBooks(w, steps[0]);
      StepKeepsExclusion(w, steps[0]);
      RunKeepsBooks(Next(w, steps[0]), steps[1..]);
    }
  }

  /** Entry k of the log settles a config queued at i: the queue was dropped, or an attempt that claimed it ended. */
  ghost predicate Settles(log: seq<Event>, i: nat, k: nat, o: Obj)
    requires i < k < |log|
  {
    log[k] == Drop(o) || (log[k] == EndAttempt(o) && exists m :: i < m < k && log[m] == Claim(o))
  }

  lemma {:induction false} DebtIsSettled(log: seq<Event>, i: nat, n: nat, o: Obj)
    requires i < n <= |log| && log[i] == Queue(o)
    ensures DebtAfter(log[..n], o) == InFlight ==> exists m :: i < m < n && log[m] == Claim(o)
    ensures DebtAfter(log[..n], o) == Clear ==> exists k :: i < k < n && Settles(log, i, k, o)
    decreases n
  {
    assert log[..n][..n - 1] == log[..n - 1];
    assert DebtAfter(log[..n], o) == Pays(DebtAfter(log[..n - 1], o), log[n - 1], o);
    if n - 1 > i {
      DebtIsSettled(log, i, n - 1, o);
      var before, e := DebtAfter(log[..n - 1], o), log[n - 1];
      if before != InFlight && DebtAfter(log[..n], o) == InFlight { assert e == Claim(o); }
      if before != Clear && DebtAfter(log[..n], o) == Clear { assert Settles(log, i, n - 1, o); }
    }
  }

  /** Every turn that begins after a config was queued is preceded by the end of an attempt that claimed the queue, or by its drop. */
  lemma TurnsAwaitTheQueue(steps: seq<Step>, i: nat, j: nat, o: Obj)
    requires Runs(INIT, steps)
    requires i < j < |After(INIT, steps).log|
    requires After(INIT, steps).log[i] == Queue(o) && After(INIT, steps).log[j] == TurnBegins(o)
    ensures exists k :: i < k < j && Settles(After(INIT, steps).log, i, k, o)
  {
    InitExclusion();
    assert Books(INIT);
    RunKeepsBooks(INIT, steps);
    var log := After(INIT, steps).log;
    assert TurnsBeginClear(log);
    assert DebtAfter(log[..j], o) == Clear;
    DebtIsSettled(log, i, j, o);
  }

  // ---------- when a config is stranded ----------

  /** The log holds a queued config of o that no attempt has claimed and no failure has dropped. */
  ghost predicate Unclaimed(log: seq<Event>, o: Obj) {
    exists i :: 0 <= i < |log| && log[i] == Queue(o) && Untaken(log, o, i)
  }

  ghost predicate Untaken(log: seq<Event>, o: Obj, i: int) {
    forall k :: i < k < |log| && 0 <= k ==> log[k] != Claim(o) && log[k] != Drop(o)
  }

  lemma {:induction false} OwedIsUnclaimed(log: seq<Event>, o: Obj)
    ensures DebtAfter(log, o) == Owed <==> Unclaimed(log, o)
    decreases |log|
  {
    if log != [] {
      var n := |log| - 1;
      var before, e := log[..n], log[n];
      OwedIsUnclaimed(before, o);
      if e == Queue(o) {
        assert Untaken(log, o, n);
      } else if e == Claim(o) || e == Drop(o) {
        forall i | 0 <= i < |log| && log[i] == Queue(o) ensures !Untaken(log, o, i) {}
      } else {
        forall i | 0 <= i < n ensures Untaken(log, o, i) <==> Untaken(before, o, i) {
          assert forall k :: 0 <= k < n ==> log[k] == before[k];
        }
        if Unclaimed(before, o) {
          var i :| 0 <= i < n && before[i] == Queue(o) && Untaken(before, o, i);
          assert log[i] == Queue(o) && Untaken(log, o, i);
        }
        if Unclaimed(log, o) {
          var i :| 0 <= i < |log| && log[i] == Queue(o) && Untaken(log, o, i);
          assert before[i] == Queue(o) && Untaken(before, o, i);
        }
      }
    }
  }

  lemma RunIsBooked(steps: seq<Step>)
    requires Runs(INIT, steps)
    ensures Books(After(INIT, steps)) && Exclusion(After(INIT, steps))
  {
    InitExclusion();
    assert Books(INIT);
    RunKeepsBooks(INIT, steps);
    RunKeepsExclusion(INIT, steps);
  }

  /**
   In a quiet state a config is stranded exactly when one was queued that has been
   neither claimed nor dropped since, and then the last maintenance to end was a
   failed client rebuild.
   */
  lemma StrandedExactly(steps: seq<Step>, o: Obj)
    requires Runs(INIT, steps)
    requires var w := After(INIT, steps); w.registered == Some(o) && o in w.sessions && !w.sessions[o].deleted && Quiescent(w, o)
    ensures var w := After(INIT, steps);
            w.sessions[o].pending.Some? <==> o in w.clientFailed && Unclaimed(w.log, o)
  {
    var w := After(INIT, steps);
    RunIsBooked(steps);
    OwedIsUnclaimed(w.log, o);
    assert DebtAfter(w.log, o) == DebtOf(w, o);
    hide Unclaimed, Quiescent, Exclusion;
    NoStrandedQueue(steps, o);
  }

  // ---------- stranded for good ----------

  /** A config is queued on o, and nobody is working on o or on the way to the queue. */
  ghost predicate Stuck(w: World, o: Obj, cfg: ConfigState) {
    o in w.sessions && w.sessions[o].pending == Some(cfg) && Quiescent(w, o)
  }

  /** A rebuild enters the session. */
  predicate EntersRebuild(w: World, step: Step, o: Obj) {
    step.Act? && step.t in w.threads && w.threads[step.t].obj == o && w.threads[step.t].pc.RebuildEntering?
  }

  lemma OwnActStaysStuck(w: World, t: Tid, x: Choice, v: World, o: Obj, cfg: ConfigState)
    requires Stuck(w, o, cfg) && CanAct(w, t, x) && Sums(w, t, x, v) && w.threads[t].obj == o
    requires !w.threads[t].pc.RebuildEntering? && !IsOpen(w.threads[t].pc)
    ensures o in v.sessions && v.sessions[o].pending == Some(cfg) && t in v.threads
    ensures !Working(v.threads[t].pc) && !Draining(v.threads[t].pc)
  {
    assert !Working(w.threads[t].pc) && !Draining(w.threads[t].pc);
    hide RecAfter, LeasesAfter, CtrlPathAfter, TaintedAfter, ClientFailedAfter, EventsOf, Quiescent, RegisteredAfter;
  }

  lemma ForeignActStaysStuck(w: World, t: Tid, x: Choice, v: World, o: Obj)
    requires CanAct(w, t, x) && Sums(w, t, x, v) && w.threads[t].obj != o && o in w.sessions
    ensures o in v.sessions && v.sessions[o].pending == w.sessions[o].pending
  {
    hide PcAfter, RecAfter, LeasesAfter, CtrlPathAfter, TaintedAfter, ClientFailedAfter, EventsOf, RegisteredAfter;
  }

  lemma ActStaysStuck(w: World, t: Tid, x: Choice, o: Obj, cfg: ConfigState)
    requires Exclusion(w) && Stuck(w, o, cfg) && CanAct(w, t, x) && !EntersRebuild(w, Act(t, x), o)
    ensures Stuck(DoAct(w, t, x), o, cfg)
  {
    var v := DoAct(w, t, x);
    ActSums(w, t, x);
    ActingThread(w, t, x);
    assert ThreadOk(w, t);
    if w.threads[t].obj == o { OwnActStaysStuck(w, t, x, v, o, cfg); } else { ForeignActStaysStuck(w, t, x, v, o); }
    assert v.threads == w.threads[t := Thread(w.threads[t].obj, PcAfter(w, t, x))];
    hide DoAct, Sums, CanAct, Exclusion, PcAfter, Working, Draining, ThreadOk;
  }

  lemma StepStaysStuck(w: World, step: Step, o: Obj, cfg: ConfigState)
    requires Exclusion(w) && Stuck(w, o, cfg) && Enabled(w, step) && !EntersRebuild(w, step, o)
    ensures Stuck(Next(w, step), o, cfg)
  {
    hide DoAct, CanAct, Exclusion;
    if step.Act? {
      hide Stuck, EntersRebuild;
      ActStaysStuck(w, step.t, step.x, o, cfg);
    }
  }

  /** Along the whole run no rebuild enters the session. */
  ghost predicate NoRebuildEnters(w: World, steps: seq<Step>, o: Obj)
    requires Runs(w, steps)
    decreases |steps|
  {
    steps != [] ==> !EntersRebuild(w, steps[0], o) && NoRebuildEnters(Next(w, steps[0]), steps[1..], o)
  }

  lemma {:induction false} RunStaysStuck(w: World, steps: seq<Step>, o: Obj, cfg: ConfigState)
    requires Exclusion(w) && Stuck(w, o, cfg) && Runs(w, steps) && NoRebuildEnters(w, steps, o)
    ensures Stuck(After(w, steps), o, cfg)
    decreases |steps|
  {
    hide Exclusion, Stuck, EntersRebuild, Enabled, Next;
    if steps != [] {
      StepStaysStuck(w, steps[0], o, cfg);
      StepKeepsExclusion(w, steps[0]);
      RunStaysStuck(Next(w, steps[0]), steps[1..], o, cfg);
    }
  }

  /** A stranded config stays queued and shuts out every turn, whatever happens, until somebody enters another rebuild. */
  lemma StrandedForGood(before: seq<Step>, more: seq<Step>, o: Obj)
    requires Runs(INIT, before) && o in After(INIT, before).sessions
    requires After(INIT, before).sessions[o].pending.Some? && Quiescent(After(INIT, before), o)
    requires Runs(After(INIT, before), more) && NoRebuildEnters(After(INIT, before), more, o)
    ensures var w := After(After(INIT, before), more);
            && o in w.sessions && w.sessions[o].pending == After(INIT, before).sessions[o].pending
            && !Admits(w.sessions[o]) && Quiescent(w, o)
  {
    RunIsBooked(before);
    hide Exclusion, Books, Quiescent, Runs, After, NoRebuildEnters;
    RunStaysStuck(After(INIT, before), more, o, After(INIT, before).sessions[o].pending.value);
  }

  /**
   How one gets there: a client rebuild that has failed ends over a queued config,
   with nobody else at work on the session. Its two last actions leave the config stranded.
   */
  lemma ClientFailureStrands(before: seq<Step>, t: Tid, x: Choice, y: Choice, o: Obj)
    requires Runs(INIT, before)
    requires var w := After(INIT, before);
             && t in w.threads && w.threads[t].obj == o && w.threads[t].pc.RebuildEnding?
             && !w.threads[t].pc.fromApply && !w.threads[t].pc.ok
             && o in w.sessions && w.sessions[o].pending.Some?
             && forall u :: u in w.threads && u != t && w.threads[u].obj == o ==> !Draining(w.threads[u].pc)
    ensures var w := After(INIT, before);
            && Enabled(w, Act(t, x)) && Enabled(Next(w, Act(t, x)), Act(t, y))
            && Stuck(Next(Next(w, Act(t, x)), Act(t, y)), o, w.sessions[o].pending.value)
  {
    var w := After(INIT, before);
    RunIsBooked(before);
    var ch := w.threads[t].pc.ch;
    var v := Next(w, Act(t, x));
    EndingFails(w, t, x, o, ch);
    assert v.threads == w.threads[t := Thread(o, RebuildClosing(ch, false, false))];
    ClosingFails(v, t, y, o, ch);
    var z := Next(v, Act(t, y));
    forall u | u in w.threads && u != t && w.threads[u].obj == o ensures !Working(w.threads[u].pc) { OnlyWorker(w, t, u); }
    hide Exclusion, Books, Next, Enabled, Runs, After, Working, Draining;
    assert !Working(Finished) && !Draining(Finished) by { FinishedDoesNothing(); }
  }

  lemma EndingFails(w: World, t: Tid, x: Choice, o: Obj, ch: Chan)
    requires t in w.threads && w.threads[t] == Thread(o, RebuildEnding(ch, false, false)) && o in w.sessions
    ensures Enabled(w, Act(t, x))
    ensures var v := Next(w, Act(t, x));
            && v.threads == w.threads[t := Thread(o, RebuildClosing(ch, false, false))]
            && o in v.sessions && v.sessions[o].pending == w.sessions[o].pending
  {
    ActSums(w, t, x);
    hide DoAct;
  }

  lemma ClosingFails(w: World, t: Tid, x: Choice, o: Obj, ch: Chan)
    requires t in w.threads && w.threads[t] == Thread(o, RebuildClosing(ch, false, false)) && o in w.sessions
    ensures Enabled(w, Act(t, x))
    ensures var v := Next(w, Act(t, x));
            && v.threads == w.threads[t := Thread(o, Finished)] && v.sessions == w.sessions
  {
    ActSums(w, t, x);
    hide DoAct;
  }

  lemma FinishedDoesNothing()
    ensures !Working(Finished) && !Draining(Finished)
  {
  }

  lemma OnlyWorker(w: World, t: Tid, u: Tid)
    requires Exclusion(w) && t in w.threads && u in w.threads && u != t && w.threads[t].obj == w.threads[u].obj
    requires w.threads[t].pc.RebuildEnding?
    ensures !Working(w.threads[u].pc)
  {
    assert ThreadOk(w, t) && ThreadOk(w, u);
    if w.threads[t].obj in w.sessions { assert SessionOk(w, w.threads[t].obj); }
    hide ClosingChan, CtrlOf;
  }
}
