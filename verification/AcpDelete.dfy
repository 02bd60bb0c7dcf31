/**
 Delete quiescence: from the moment the deleted flag is up, a session's controller
 and transcript are frozen; once deleteAndWait has returned, no turn or maintenance
 runs on it again; and once the delete has let the lease go, no lease is held for it.
 */
module AcpDelete {
  import opened Wrappers
  import opened AcpSession
  import opened AcpProtocol
  import opened AcpEffects
  import opened AcpExclusion
  import opened AcpLeases
  import opened AcpPaths

  /** From s to s2 a deleted session only winds down. */
  predicate WindsDown(s: Session, s2: Session) {
    && s2.deleted && s2.ctrl == s.ctrl && s2.transcript == s.transcript
    && (s2.running ==> s.running && s2.done == s.done)
    && (s2.maint.Some? ==> s2.maint == s.maint)
    && (s2.lease == None || s2.lease == s.lease)
  }

  lemma ActWindsDown(w: World, t: Tid, x: Choice, v: World, o: Obj)
    requires CanAct(w, t, x) && Sums(w, t, x, v) && o in w.sessions && w.sessions[o].deleted
    requires IsOpen(w.threads[t].pc) ==> w.threads[t].obj != o
    ensures o in v.sessions && WindsDown(w.sessions[o], v.sessions[o])
  {
    hide PcAfter, RecAfter, LeasesAfter, CtrlPathAfter, TaintedAfter, ClientFailedAfter, EventsOf;
  }

  lemma StepWindsDown(w: World, step: Step, o: Obj)
    requires Exclusion(w) && Enabled(w, step) && o in w.sessions && w.sessions[o].deleted
    ensures o in Next(w, step).sessions && WindsDown(w.sessions[o], Next(w, step).sessions[o])
  {
    hide DoAct, TurnChan, MaintChan, ClosingChan, CtrlOf;
    if step.Act? {
      ActSums(w, step.t, step.x);
      ThreadsOk(w, step.t, step.t, step.x);
      ActWindsDown(w, step.t, step.x, Next(w, step), o);
    }
  }

  /** The wind-down goes on over any run: nothing is ever restarted or moved. */
  lemma {:induction false} RunWindsDown(w: World, steps: seq<Step>, o: Obj)
    requires Exclusion(w) && Runs(w, steps) && o in w.sessions && w.sessions[o].deleted
    ensures o in After(w, steps).sessions && WindsDown(w.sessions[o], After(w, steps).sessions[o])
    decreases |steps|
  {
    hide Exclusion, Enabled, Next;
    if steps != [] {
      StepWindsDown(w, steps[0], o);
      StepKeepsExclusion(w, steps[0]);
      RunWindsDown(Next(w, steps[0]), steps[1..], o);
    }
  }

  // ---------- the deleting thread ----------

  predicate Idle(s: Session) {
    !s.running && s.maint.None?
  }

  /** What the deleting thread has achieved so far. */
  predicate DeleteOk(w: World, t: Tid)
    requires t in w.threads
  {
    var o := w.threads[t].obj;
    match w.threads[t].pc
    case EndBlocked(true, waitDone, waitMaint) =>
      o in w.sessions && w.sessions[o].deleted
      && (w.sessions[o].running ==> waitDone == w.sessions[o].done)
      && (w.sessions[o].maint.Some? ==> waitMaint == w.sessions[o].maint)
    case EndTaking(true) => o in w.sessions && w.sessions[o].deleted && Idle(w.sessions[o])
    case EndReleasing(true, _) => o in w.sessions && w.sessions[o].deleted && Idle(w.sessions[o]) && w.sessions[o].lease.None?
    case EndDone(true) => o in w.sessions && w.sessions[o].deleted && Idle(w.sessions[o]) && w.sessions[o].lease.None?
    case _ => true
  }

  /** A registered session is not being closed or deleted, and a session is closed or deleted by one thread only. */
  predicate OneEnd(w: World, t: Tid, u: Tid)
    requires t in w.threads && u in w.threads
  {
    IsEnd(w.threads[t].pc) && IsEnd(w.threads[u].pc) && w.threads[t].obj == w.threads[u].obj ==> t == u
  }

  ghost predicate Deletes(w: World) {
    && (forall t :: t in w.threads ==> DeleteOk(w, t))
    && (forall t, u :: t in w.threads && u in w.threads ==> OneEnd(w, t, u))
  }

  lemma OtherDeleteOk(w: World, t: Tid, x: Choice, v: World, u: Tid)
    requires Exclusion(w) && CanAct(w, t, x) && Sums(w, t, x, v) && u in w.threads && u != t && DeleteOk(w, u)
    ensures u in v.threads && DeleteOk(v, u)
  {
    hide PcAfter, SessionsAfter, SumsRest;
    var o := w.threads[u].obj;
    if o in w.sessions && w.sessions[o].deleted {
      ThreadsOk(w, t, t, x);
      ActWindsDown(w, t, x, v, o);
    }
    hide ThreadOk, Exclusion, CanAct;
  }

  lemma OwnDeleteOk(w: World, t: Tid, x: Choice, v: World)
    requires Exclusion(w) && CanAct(w, t, x) && Sums(w, t, x, v) && DeleteOk(w, t)
    ensures t in v.threads && DeleteOk(v, t)
  {
    EndsComeFromEnds(w, t, x);
    if IsEnd(w.threads[t].pc) {
      EndFacts(w, t);
      hide LeasesAfter, CtrlPathAfter, TaintedAfter, ClientFailedAfter, EventsOf, Exclusion, RegisteredAfter;
    } else {
      hide LeasesAfter, SessionsAfter, PcAfter, CtrlPathAfter, TaintedAfter, ClientFailedAfter, EventsOf, Exclusion, RegisteredAfter;
    }
  }

  /** A thread that ends a session does nothing else before or after. */
  lemma EndsComeFromEnds(w: World, t: Tid, x: Choice)
    requires CanAct(w, t, x)
    ensures IsEnd(PcAfter(w, t, x)) <==> IsEnd(w.threads[t].pc)
  {
    var pc := w.threads[t].pc;
    if Recovering(w, t, x) {
      RecoveringWorks(pc);
      WithRecKeepsChannels(pc, RecAfter(w, RecOf(pc).value, x));
      RecoveringWorks(WithRec(pc, RecAfter(w, RecOf(pc).value, x)));
      hide WithRec;
    } else {
      hide Admits, RebuildEntry, CommitsRebuild;
    }
  }

  /** The channel a running turn or a live maintenance is waited on with is still open. */
  lemma EndFacts(w: World, t: Tid)
    requires Exclusion(w) && t in w.threads && IsEnd(w.threads[t].pc)
    ensures var o := w.threads[t].obj; o in w.sessions && SessionOk(w, o)
    ensures var s := w.sessions[w.threads[t].obj];
            && (s.running ==> s.done.Some? && s.done.value !in w.closed)
            && (s.maint.Some? ==> s.maint.value !in w.closed)
  {
    assert ThreadOk(w, t);
    var o := w.threads[t].obj;
    assert SessionOk(w, o);
    var s := w.sessions[o];
    if s.running { assert ThreadOk(w, s.done.value.owner); }
    if s.maint.Some? { assert ThreadOk(w, s.maint.value.owner); }
    hide TurnChan, MaintChan, ClosingChan, CtrlOf;
  }

  lemma ActKeepsDeletes(w: World, t: Tid, x: Choice)
    requires Deletes(w) && Exclusion(w) && CanAct(w, t, x)
    ensures Deletes(DoAct(w, t, x))
  {
    var v := DoAct(w, t, x);
    ActSums(w, t, x);
    assert v.threads == w.threads[t := Thread(w.threads[t].obj, PcAfter(w, t, x))];
    EndsComeFromEnds(w, t, x);
    ThreadsOk(w, t, t, x);
    hide DoAct, Sums, CanAct, Exclusion, DeleteOk, IsEnd, ThreadOk, PcAfter;
    forall u | u in v.threads ensures DeleteOk(v, u) {
      assert DeleteOk(w, u);
      if u == t { OwnDeleteOk(w, t, x, v); } else { OtherDeleteOk(w, t, x, v, u); }
    }
    forall u, r | u in v.threads && r in v.threads ensures OneEnd(v, u, r) { assert OneEnd(w, u, r); }
  }

  lemma SpawnKeepsDeletes(w: World, t: Tid, o: Obj, pc: Pc, registered: Option<Obj>)
    requires Deletes(w) && t !in w.threads && !pc.EndBlocked? && !pc.EndTaking? && !pc.EndReleasing? && !pc.EndDone?
    requires IsEnd(pc) ==> forall u :: u in w.threads && w.threads[u].obj == o ==> !IsEnd(w.threads[u].pc)
    ensures Deletes(Spawn(w, t, o, pc).(registered := registered))
  {
    hide IsEnd;
    var v := Spawn(w, t, o, pc).(registered := registered);
    forall u | u in v.threads ensures DeleteOk(v, u) { if u != t { assert DeleteOk(w, u); } }
    forall u, r | u in v.threads && r in v.threads ensures OneEnd(v, u, r) {
      if u != t && r != t { assert OneEnd(w, u, r); }
    }
  }

  lemma LeasesDoNotMoveDeletes(w: World, v: World)
    requires Deletes(w) && v == w.(leases := v.leases)
    ensures Deletes(v)
  {
    hide IsEnd;
    forall u | u in v.threads ensures DeleteOk(v, u) { assert DeleteOk(w, u); }
    forall u, r | u in v.threads && r in v.threads ensures OneEnd(v, u, r) { assert OneEnd(w, u, r); }
  }

  lemma RegisteredHasNoEnd(w: World)
    requires Bookkeeping(w) && w.registered.Some?
    ensures forall u :: u in w.threads && w.threads[u].obj == w.registered.value ==> !IsEnd(w.threads[u].pc)
  {
    hide RecOf, FoundSelf, IsEnd;
    forall u | u in w.threads && w.threads[u].obj == w.registered.value ensures !IsEnd(w.threads[u].pc) { assert ThreadPaths(w, u); }
  }

  lemma StepKeepsDeletes(w: World, step: Step)
    requires Deletes(w) && Exclusion(w) && Bookkeeping(w) && Enabled(w, step)
    ensures Deletes(Next(w, step))
  {
    hide DoAct, CanAct, Exclusion, Deletes, Bookkeeping;
    match step
    case SpawnTurn(t) => SpawnKeepsDeletes(w, t, w.registered.value, TurnWaiting, w.registered);
    case SpawnRebuild(t, cfg) => SpawnKeepsDeletes(w, t, w.registered.value, RebuildEntering(cfg, false), w.registered);
    case SpawnEnd(t, del) =>
      RegisteredHasNoEnd(w);
      SpawnKeepsDeletes(w, t, w.registered.value, EndCapturing(del), None);
    case SpawnOpen(t, o, transcript, cfg) => SpawnKeepsDeletes(w, t, o, OpenFound(transcript, cfg), w.registered);
    case OtherAcquires(_) => LeasesDoNotMoveDeletes(w, Next(w, step));
    case OtherReleases(_) => LeasesDoNotMoveDeletes(w, Next(w, step));
    case Act(t, x) => ActKeepsDeletes(w, t, x);
  }

  lemma {:induction false} RunKeepsDeletes(w: World, steps: seq<Step>)
    requires Deletes(w) && Exclusion(w) && Bookkeeping(w) && Runs(w, steps)
    ensures Deletes(After(w, steps))
    decreases |steps|
  {
    hide Deletes, Exclusion, Bookkeeping, Enabled, Next;
    if steps != [] {
      StepKeepsExclusion(w, steps[0]);
      StepKeepsBookkeeping(w, steps[0]);
      StepKeepsDeletes(w, steps[0]);
      RunKeepsDeletes(Next(w, steps[0]), steps[1..]);
    }
  }

  // ---------- the theorems ----------

  predicate DeleteWaited(pc: Pc) {
    (pc.EndTaking? || pc.EndReleasing? || pc.EndDone?) && pc.del
  }

  /** From the moment deleted is set, controller and transcript never change again, whatever runs on. */
  lemma DeletedIsFrozen(before: seq<Step>, more: seq<Step>, o: Obj)
    requires Runs(INIT, before) && o in After(INIT, before).sessions && After(INIT, before).sessions[o].deleted
    requires Runs(After(INIT, before), more)
    ensures var s := After(INIT, before).sessions[o]; var w := After(After(INIT, before), more);
            o in w.sessions && w.sessions[o].deleted && w.sessions[o].ctrl == s.ctrl && w.sessions[o].transcript == s.transcript
  {
    RunIsOrderly(before);
    RunWindsDown(After(INIT, before), more, o);
  }

  lemma DeletesHolds(steps: seq<Step>)
    requires Runs(INIT, steps)
    ensures Deletes(After(INIT, steps)) && Exclusion(After(INIT, steps))
  {
    assert Deletes(INIT) && Exclusion(INIT) && Bookkeeping(INIT);
    RunKeepsDeletes(INIT, steps);
    RunKeepsExclusion(INIT, steps);
  }

  lemma WaitedIsIdle(w: World, t: Tid)
    requires Deletes(w) && t in w.threads && DeleteWaited(w.threads[t].pc)
    ensures var o := w.threads[t].obj; o in w.sessions && w.sessions[o].deleted && Idle(w.sessions[o])
  {
    assert DeleteOk(w, t);
    hide IsEnd;
  }

  lemma IdleHasNoWorker(w: World, o: Obj, u: Tid)
    requires Exclusion(w) && o in w.sessions && Idle(w.sessions[o]) && u in w.threads && w.threads[u].obj == o
    ensures !Working(w.threads[u].pc)
  {
    assert ThreadOk(w, u);
    hide TurnChan, MaintChan, CtrlOf, ClosingChan;
  }

  /** Once deleteAndWait has returned, no turn and no maintenance is in flight on the session, then or ever after. */
  lemma DeleteQuiesces(before: seq<Step>, more: seq<Step>, t: Tid, u: Tid)
    requires Runs(INIT, before) && t in After(INIT, before).threads && DeleteWaited(After(INIT, before).threads[t].pc)
    requires Runs(After(INIT, before), more)
    ensures var o := After(INIT, before).threads[t].obj; var w := After(After(INIT, before), more);
            && o in w.sessions && w.sessions[o].deleted && Idle(w.sessions[o])
            && (u in w.threads && w.threads[u].obj == o ==> !Working(w.threads[u].pc))
  {
    hide Exclusion, Deletes, Runs, After, DeleteWaited, Working;
    var v := After(INIT, before);
    var w, o := After(v, more), v.threads[t].obj;
    DeletesHolds(before);
    WaitedIsIdle(v, t);
    RunWindsDown(v, more, o);
    RunKeepsExclusion(v, more);
    if u in w.threads && w.threads[u].obj == o { IdleHasNoWorker(w, o, u); }
  }

  /**
   Once the delete has let the lease go, the session object holds none and no
   thread of the session carries one.
   */
  lemma DeleteHoldsNoLease(steps: seq<Step>, t: Tid, p: Path)
    requires Runs(INIT, steps) && t in After(INIT, steps).threads && After(INIT, steps).threads[t].pc == EndDone(true)
    requires p in After(INIT, steps).leases
    ensures var w := After(INIT, steps); var o := w.threads[t].obj; var h := w.leases[p];
            h != InSession(o) && (h.InThread? ==> h.t in w.threads && w.threads[h.t].obj != o)
  {
    var w := After(INIT, steps);
    var o := w.threads[t].obj;
    RunIsOrderly(steps);
    DeletesHolds(steps);
    assert DeleteOk(w, t) && HolderCarries(w, p);
    if w.leases[p].InThread? && w.threads[w.leases[p].t].obj == o {
      var u := w.leases[p].t;
      assert OneEnd(w, t, u) && ThreadOk(w, u);
      RecoveringWorks(w.threads[u].pc);
      assert false;
    }
  }

  // ---------- what becomes of a lease the session once held ----------

  /** A recovery commit, of whatever session's thread, has moved o away from p and is about to release p. */
  predicate LettingGo(w: World, u: Tid, o: Obj, p: Path) {
    u in w.threads && RecOf(w.threads[u].pc).Some? &&
    var rec := RecOf(w.threads[u].pc).value;
    rec.RecReleasing? && rec.target == o && rec.prev == Some(p)
  }

  predicate Ending(w: World, u: Tid, o: Obj, p: Path) {
    u in w.threads && w.threads[u].obj == o && w.threads[u].pc.EndReleasing? && w.threads[u].pc.taken == Some(p)
  }

  /** p is still leased for o: by o itself, or by the thread that is about to release it for o. */
  predicate OnBehalf(w: World, o: Obj, p: Path) {
    p in w.leases &&
    (w.leases[p] == InSession(o) ||
     (w.leases[p].InThread? && (LettingGo(w, w.leases[p].t, o, p) || Ending(w, w.leases[p].t, o, p))))
  }

  lemma ReleasingActs(w: World, t: Tid, x: Choice, v: World, o: Obj, p: Path)
    requires CanAct(w, t, x) && Sums(w, t, x, v) && (LettingGo(w, t, o, p) || Ending(w, t, o, p))
    ensures p !in v.leases
  {
    hide PcAfter, SessionsAfter, RegisteredAfter, CtrlPathAfter, TaintedAfter, ClientFailedAfter, EventsOf;
  }

  lemma OthersLeaveReleasing(w: World, t: Tid, x: Choice, v: World, p: Path)
    requires CanAct(w, t, x) && Sums(w, t, x, v) && ThreadListed(w, t) && p in w.leases
    requires w.leases[p].InThread? && w.leases[p].t != t
    requires TouchedObj(w, t, x) in w.sessions ==> SessionListed(w, TouchedObj(w, t, x))
    ensures p in v.leases && v.leases[p] == w.leases[p]
  {
    hide PcAfter, SessionsAfter, RegisteredAfter, CtrlPathAfter, TaintedAfter, ClientFailedAfter, EventsOf, RecAfter;
  }

  lemma SessionLetsGo(w: World, t: Tid, x: Choice, v: World, o: Obj, p: Path)
    requires CanAct(w, t, x) && Sums(w, t, x, v) && ThreadListed(w, t) && p in w.leases && w.leases[p] == InSession(o)
    requires TouchedObj(w, t, x) in w.sessions ==> SessionListed(w, TouchedObj(w, t, x))
    ensures p in v.leases && (v.leases[p] == w.leases[p] || (v.leases[p] == InThread(t) && (LettingGo(v, t, o, p) || Ending(v, t, o, p))))
  {
    hide RegisteredAfter, CtrlPathAfter, TaintedAfter, ClientFailedAfter, EventsOf, SessionsAfter, Admits, CommitsRebuild, RebuildEntry;
    var pc := w.threads[t].pc;
    if Recovering(w, t, x) {
      HeldInRec(pc);
      WithRecKeepsChannels(pc, RecAfter(w, RecOf(pc).value, x));
      hide WithRec, RecOf, HeldBy;
    }
  }

  lemma StepOnBehalf(w: World, step: Step, o: Obj, p: Path)
    requires Custodians(w) && Enabled(w, step) && OnBehalf(w, o, p)
    ensures OnBehalf(Next(w, step), o, p) || p !in Next(w, step).leases
  {
    var v := Next(w, step);
    hide DoAct, CanAct, RecOf;
    if step.Act? {
      var t, x := step.t, step.x;
      ActSums(w, t, x);
      ActsInThreads(w, t, x);
      assert ThreadListed(w, t) && (TouchedObj(w, t, x) in w.sessions ==> SessionListed(w, TouchedObj(w, t, x)));
      assert v.threads == w.threads[t := Thread(w.threads[t].obj, PcAfter(w, t, x))];
      hide Custodians, Sums, TouchedObj, PcAfter, ThreadListed, SessionListed;
      if w.leases[p] == InSession(o) {
        SessionLetsGo(w, t, x, v, o, p);
      } else if w.leases[p].t == t {
        ReleasingActs(w, t, x, v, o, p);
      } else {
        OthersLeaveReleasing(w, t, x, v, p);
      }
    }
  }

  lemma ActsInThreads(w: World, t: Tid, x: Choice)
    requires CanAct(w, t, x)
    ensures t in w.threads
  {
  }

  /** Somewhere along the run from w, p was not leased at all. */
  ghost predicate ReleasedAlong(w: World, steps: seq<Step>, p: Path)
    requires Runs(w, steps)
    decreases |steps|
  {
    p !in w.leases || (steps != [] && ReleasedAlong(Next(w, steps[0]), steps[1..], p))
  }

  lemma {:induction false} RunOnBehalf(w: World, steps: seq<Step>, o: Obj, p: Path)
    requires Custodians(w) && Exclusion(w) && Runs(w, steps) && OnBehalf(w, o, p)
    ensures OnBehalf(After(w, steps), o, p) || ReleasedAlong(w, steps, p)
    decreases |steps|
  {
    hide Custodians, Exclusion, OnBehalf, Enabled, Next;
    if steps != [] {
      var next := Next(w, steps[0]);
      StepOnBehalf(w, steps[0], o, p);
      StepKeepsCustodians(w, steps[0]);
      StepKeepsExclusion(w, steps[0]);
      if p in next.leases {
        RunOnBehalf(next, steps[1..], o, p);
      }
    }
  }

  /**
   Every lease a session ever held has been released once its delete is done, save
   one that a recovery of another object has just moved it away from; and that
   thread's very next action releases it.
   */
  lemma DeleteReleasesEveryLease(before: seq<Step>, more: seq<Step>, t: Tid, p: Path)
    requires Runs(INIT, before) && Runs(After(INIT, before), more)
    requires var w := After(After(INIT, before), more); t in w.threads && w.threads[t].pc == EndDone(true)
    requires var o := After(After(INIT, before), more).threads[t].obj;
             p in After(INIT, before).leases && After(INIT, before).leases[p] == InSession(o)
    ensures var w := After(After(INIT, before), more); var o := w.threads[t].obj;
            || ReleasedAlong(After(INIT, before), more, p)
            || exists u :: LettingGo(w, u, o, p) && w.threads[u].obj != o
                 && forall x :: Enabled(w, Act(u, x)) && p !in Next(w, Act(u, x)).leases
  {
    var b := After(INIT, before);
    var w := After(b, more);
    var o := w.threads[t].obj;
    RunIsOrderly(before);
    RunOnBehalf(b, more, o, p);
    RunsConcat(INIT, before, more);
    RunIsOrderly(before + more);
    if !ReleasedAlong(b, more, p) {
      DeleteHoldsNoLease(before + more, t, p);
      var u := w.leases[p].t;
      assert LettingGo(w, u, o, p) && ThreadOk(w, u);
      forall x ensures Enabled(w, Act(u, x)) && p !in Next(w, Act(u, x)).leases {
        LettingGoCanAct(w, u, x, o, p);
        ActSums(w, u, x);
        ReleasingActs(w, u, x, DoAct(w, u, x), o, p);
      }
    }
  }

  lemma LettingGoCanAct(w: World, u: Tid, x: Choice, o: Obj, p: Path)
    requires LettingGo(w, u, o, p) && ThreadOk(w, u)
    ensures CanAct(w, u, x)
  {
  }
}
