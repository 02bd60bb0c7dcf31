/**
 Path agreement: the file a registered session reports, the lease it holds and the
 file its controller writes are one and the same, except inside the session's own
 recovery commit; and exactly when another object's recovery commits to it instead.
 */
module AcpPaths {
  import opened Wrappers
  import opened AcpSession
  import opened AcpProtocol
  import opened AcpEffects
  import opened AcpExclusion
  import opened AcpLeases

  // ---------- what each thread and each session keeps ----------

  /** The recovery file of a commit under way. */
  function CommitPath(pc: Pc): Option<Path> {
    if !MidCommit(pc) then None else Some(RecOf(pc).value.path)
  }

  /** Once past the registry lookup, a recovery that did not find its own session knows it is not registered. */
  predicate FoundSelf(rec: Rec, o: Obj) {
    match rec
    case RecFound(_, target) => target == o
    case RecHolding(_, target) => target == o
    case RecReleasing(_, target, _) => target == o
    case RecRetargeting(_, bound) => bound == Some(o)
    case _ => true
  }

  predicate ThreadPaths(w: World, t: Tid)
    requires t in w.threads
  {
    var o, pc := w.threads[t].obj, w.threads[t].pc;
    && (IsEnd(pc) ==> w.registered != Some(o))
    && (RecOf(pc).Some? && w.registered == Some(o) ==> FoundSelf(RecOf(pc).value, o))
    && (pc.RebuildCommitting? ==>
          pc.next.owner == o && pc.next in w.ctrlPath && pc.c in w.ctrlPath && w.ctrlPath[pc.next] == w.ctrlPath[pc.c])
  }

  predicate SessionPaths(w: World, o: Obj)
    requires o in w.sessions
  {
    var s := w.sessions[o];
    && s.ctrl.owner == o && s.ctrl in w.ctrlPath
    && (s.lease == None || s.lease == s.transcript)
    && (w.registered == Some(o) ==> s.lease == s.transcript)
  }

  ghost predicate Bookkeeping(w: World) {
    && (forall t :: t in w.threads ==> ThreadPaths(w, t))
    && (forall o :: o in w.sessions ==> SessionPaths(w, o))
  }

  // ---------- one action ----------

  lemma RecoveringWorks(pc: Pc)
    ensures RecOf(pc).Some? ==> Working(pc) && CtrlOf(pc).Some? && !IsEnd(pc) && !pc.RebuildCommitting?
    ensures pc.RebuildCommitting? ==> Working(pc) && CtrlOf(pc) == Some(pc.c)
    ensures CtrlOf(pc).Some? ==> Working(pc)
  {
  }

  lemma OtherThreadPaths(w: World, t: Tid, x: Choice, v: World, u: Tid)
    requires CanAct(w, t, x) && Sums(w, t, x, v) && u in w.threads && u != t
    requires ThreadOk(w, t) && ThreadOk(w, u) && ThreadPaths(w, u)
    requires w.threads[u].obj == w.threads[t].obj && Working(w.threads[u].pc) ==> !Working(w.threads[t].pc)
    requires CtrlOf(w.threads[t].pc).Some? ==> CtrlOf(w.threads[t].pc).value.owner == w.threads[t].obj
    requires w.threads[u].pc.RebuildCommitting? ==> w.threads[u].pc.c.owner == w.threads[u].obj
    ensures u in v.threads && ThreadPaths(v, u)
  {
    RecoveringWorks(w.threads[t].pc);
    RecoveringWorks(w.threads[u].pc);
    hide CtrlOf, TurnChan, MaintChan, Working, PcAfter, SessionsAfter, LeasesAfter, TaintedAfter, ClientFailedAfter, EventsOf, RecOf, FoundSelf, IsEnd;
  }

  lemma OwnThreadRecovering(w: World, t: Tid, x: Choice, v: World)
    requires CanAct(w, t, x) && Sums(w, t, x, v) && ThreadPaths(w, t) && Recovering(w, t, x)
    ensures t in v.threads && ThreadPaths(v, t)
  {
    var pc, next := w.threads[t].pc, RecAfter(w, RecOf(w.threads[t].pc).value, x);
    WithRecKeepsChannels(pc, next);
    RecoveringWorks(pc);
    RecoveringWorks(WithRec(pc, next));
    hide CtrlOf, TurnChan, MaintChan, IsEnd, RecOf, WithRec, SessionsAfter, LeasesAfter, TaintedAfter, ClientFailedAfter, EventsOf, CanAct;
  }

  lemma OwnThreadPaths(w: World, t: Tid, x: Choice, v: World)
    requires CanAct(w, t, x) && Sums(w, t, x, v) && ThreadPaths(w, t) && !Recovering(w, t, x)
    ensures t in v.threads && ThreadPaths(v, t)
  {
    hide SessionsAfter, LeasesAfter, TaintedAfter, ClientFailedAfter, EventsOf, Admits, CommitsRebuild, RebuildEntry;
  }

  lemma SessionPathsKept(w: World, t: Tid, x: Choice, v: World, o: Obj)
    requires CanAct(w, t, x) && Sums(w, t, x, v) && o in v.sessions
    requires ThreadPaths(w, t) && (o in w.sessions ==> SessionPaths(w, o))
    requires CtrlOf(w.threads[t].pc).Some? ==> CtrlOf(w.threads[t].pc).value in w.ctrlPath
    ensures SessionPaths(v, o)
  {
    hide PcAfter, RecAfter, LeasesAfter, TaintedAfter, ClientFailedAfter, EventsOf, Admits, CtrlOf, FoundSelf;
    RecoveringWorks(w.threads[t].pc);
  }

  /** The facts about a thread that its controller and its neighbours give. */
  lemma OwnsCtrl(w: World, t: Tid)
    requires Exclusion(w) && Bookkeeping(w) && t in w.threads && CtrlOf(w.threads[t].pc).Some?
    ensures var c := CtrlOf(w.threads[t].pc).value;
            c.owner == w.threads[t].obj && c in w.ctrlPath && w.threads[t].obj in w.sessions && c == w.sessions[w.threads[t].obj].ctrl
  {
    assert ThreadOk(w, t);
    hide CtrlOf;
    assert SessionPaths(w, w.threads[t].obj);
  }

  lemma OneWorker(w: World, t: Tid, u: Tid)
    requires Exclusion(w) && t in w.threads && u in w.threads && w.threads[t].obj == w.threads[u].obj
    requires Working(w.threads[t].pc) && Working(w.threads[u].pc)
    ensures t == u
  {
    assert ThreadOk(w, t) && ThreadOk(w, u);
    assert SessionOk(w, w.threads[t].obj);
    hide TurnChan, MaintChan, ClosingChan, CtrlOf;
  }

  lemma ActKeepsBookkeeping(w: World, t: Tid, x: Choice)
    requires Bookkeeping(w) && Exclusion(w) && CanAct(w, t, x)
    ensures Bookkeeping(DoAct(w, t, x))
  {
    var v := DoAct(w, t, x);
    ActSums(w, t, x);
    assert v.threads.Keys == w.threads.Keys;
    var pc := w.threads[t].pc;
    assert ThreadPaths(w, t) && ThreadOk(w, t);
    if CtrlOf(pc).Some? { OwnsCtrl(w, t); }
    hide Exclusion, DoAct, Sums, CanAct, ThreadPaths, SessionPaths, ThreadOk, CtrlOf, Working;
    forall u | u in v.threads ensures ThreadPaths(v, u) {
      if u == t {
        if Recovering(w, t, x) { OwnThreadRecovering(w, t, x, v); } else { OwnThreadPaths(w, t, x, v); }
      } else {
        NeighbourPaths(w, t, x, v, u);
      }
    }
    forall o | o in v.sessions ensures SessionPaths(v, o) {
      SessionPathsKept(w, t, x, v, o);
    }
  }

  lemma NeighbourPaths(w: World, t: Tid, x: Choice, v: World, u: Tid)
    requires Bookkeeping(w) && Exclusion(w) && CanAct(w, t, x) && Sums(w, t, x, v) && u in w.threads && u != t
    ensures u in v.threads && ThreadPaths(v, u)
  {
    hide Sums, CanAct, CtrlOf, Working;
    assert ThreadPaths(w, u);
    ThreadsOk(w, t, u, x);
    if CtrlOf(w.threads[t].pc).Some? { OwnsCtrl(w, t); }
    if w.threads[u].pc.RebuildCommitting? { RecoveringWorks(w.threads[u].pc); OwnsCtrl(w, u); }
    hide Exclusion, Bookkeeping, ThreadPaths, ThreadOk;
    if w.threads[u].obj == w.threads[t].obj && Working(w.threads[u].pc) && Working(w.threads[t].pc) { OneWorker(w, t, u); }
    OtherThreadPaths(w, t, x, v, u);
  }

  lemma ThreadsOk(w: World, t: Tid, u: Tid, x: Choice)
    requires Exclusion(w) && CanAct(w, t, x) && u in w.threads
    ensures t in w.threads && ThreadOk(w, t) && ThreadOk(w, u)
  {
    hide ThreadOk;
  }

  lemma SpawnKeepsBookkeeping(w: World, t: Tid, o: Obj, pc: Pc)
    requires Bookkeeping(w) && t !in w.threads && RecOf(pc).None? && !pc.RebuildCommitting?
    requires IsEnd(pc) ==> w.registered == Some(o)
    ensures Bookkeeping(if IsEnd(pc) then Spawn(w, t, o, pc).(registered := None) else Spawn(w, t, o, pc))
  {
    hide RecOf, FoundSelf, IsEnd;
    var v := if IsEnd(pc) then Spawn(w, t, o, pc).(registered := None) else Spawn(w, t, o, pc);
    forall u | u in v.threads ensures ThreadPaths(v, u) { if u != t { assert ThreadPaths(w, u); } }
    forall b | b in v.sessions ensures SessionPaths(v, b) { assert SessionPaths(w, b); }
  }

  lemma StepKeepsBookkeeping(w: World, step: Step)
    requires Bookkeeping(w) && Exclusion(w) && Enabled(w, step)
    ensures Bookkeeping(Next(w, step))
  {
    hide DoAct, CanAct, Exclusion, Bookkeeping;
    match step
    case SpawnTurn(t) => SpawnKeepsBookkeeping(w, t, w.registered.value, TurnWaiting);
    case SpawnRebuild(t, cfg) => SpawnKeepsBookkeeping(w, t, w.registered.value, RebuildEntering(cfg, false));
    case SpawnEnd(t, del) => SpawnKeepsBookkeeping(w, t, w.registered.value, EndCapturing(del));
    case SpawnOpen(t, o, transcript, cfg) => SpawnKeepsBookkeeping(w, t, o, OpenFound(transcript, cfg));
    case OtherAcquires(_) => LeasesDoNotMovePaths(w, Next(w, step));
    case OtherReleases(_) => LeasesDoNotMovePaths(w, Next(w, step));
    case Act(t, x) => ActKeepsBookkeeping(w, t, x);
  }

  lemma LeasesDoNotMovePaths(w: World, v: World)
    requires Bookkeeping(w) && v == w.(leases := v.leases)
    ensures Bookkeeping(v)
  {
    hide RecOf, FoundSelf, IsEnd;
    forall u | u in v.threads ensures ThreadPaths(v, u) { assert ThreadPaths(w, u); }
    forall b | b in v.sessions ensures SessionPaths(v, b) { assert SessionPaths(w, b); }
  }

  // ---------- agreement ----------

  /** The session reports the file its controller writes. */
  predicate WritesTranscript(w: World, o: Obj) {
    o in w.sessions && w.sessions[o].ctrl in w.ctrlPath && w.ctrlPath[w.sessions[o].ctrl] == w.sessions[o].transcript
  }

  /** Thread t is in o's own recovery commit and is about to move the controller to the reported file. */
  predicate Committing(w: World, t: Tid, o: Obj) {
    t in w.threads && w.threads[t].obj == o && o in w.sessions &&
    MidCommit(w.threads[t].pc) && CommitPath(w.threads[t].pc) == w.sessions[o].transcript
  }

  /** A registered session that no foreign recovery has committed to: its controller writes the reported file, or is about to. */
  ghost predicate Agrees(w: World) {
    w.registered.Some? && w.registered.value !in w.tainted ==>
      var o := w.registered.value;
      && (WritesTranscript(w, o) || exists t :: Committing(w, t, o))
      && (forall t :: t in w.threads && w.threads[t].obj == o && MidCommit(w.threads[t].pc) ==> Committing(w, t, o))
  }

  /** What agreement on o speaks about is the same in v, and t's share in it too. */
  predicate SameView(w: World, v: World, t: Tid, o: Obj) {
    && t in w.threads && t in v.threads && v.threads == w.threads[t := Thread(w.threads[t].obj, v.threads[t].pc)]
    && w.registered == Some(o) && v.registered == Some(o) && o in w.sessions && o in v.sessions
    && v.sessions[o].ctrl == w.sessions[o].ctrl && v.sessions[o].transcript == w.sessions[o].transcript
    && (w.sessions[o].ctrl in w.ctrlPath ==>
          w.sessions[o].ctrl in v.ctrlPath && v.ctrlPath[w.sessions[o].ctrl] == w.ctrlPath[w.sessions[o].ctrl])
    && (o in w.tainted ==> o in v.tainted)
    && (w.threads[t].obj == o ==> CommitPath(v.threads[t].pc) == CommitPath(w.threads[t].pc))
  }

  lemma SameViewAgrees(w: World, v: World, t: Tid, o: Obj)
    requires Agrees(w) && SameView(w, v, t, o)
    ensures Agrees(v)
  {
    hide MidCommit;
    if o !in v.tainted {
      assert WritesTranscript(w, o) ==> WritesTranscript(v, o);
      forall u | Committing(w, u, o) ensures Committing(v, u, o) { MidCommitHasPath(w.threads[u].pc); MidCommitHasPath(v.threads[u].pc); }
      forall u | u in v.threads && v.threads[u].obj == o && MidCommit(v.threads[u].pc) ensures Committing(v, u, o) {
        MidCommitHasPath(w.threads[u].pc);
        MidCommitHasPath(v.threads[u].pc);
        assert Committing(w, u, o);
      }
    }
  }

  lemma MidCommitHasPath(pc: Pc)
    ensures MidCommit(pc) <==> CommitPath(pc).Some?
  {
  }

  /** An action of another object's thread: either o's view stays, or it has just been tainted. */
  lemma ForeignActView(w: World, t: Tid, x: Choice, v: World, o: Obj)
    requires CanAct(w, t, x) && Sums(w, t, x, v) && w.threads[t].obj != o && w.registered == Some(o) && v.registered == Some(o)
    requires o in w.sessions && w.sessions[o].ctrl.owner == o
    requires CtrlOf(w.threads[t].pc).Some? ==> CtrlOf(w.threads[t].pc).value.owner == w.threads[t].obj
    ensures o in v.tainted || SameView(w, v, t, o)
  {
    RecoveringWorks(w.threads[t].pc);
    hide PcAfter, RecAfter, LeasesAfter, ClientFailedAfter, EventsOf, Admits, CtrlOf, CommitPath;
  }

  /** An action of o's own thread outside recovery, other than the commit of a rebuild. */
  lemma OwnActView(w: World, t: Tid, x: Choice, v: World, o: Obj)
    requires CanAct(w, t, x) && Sums(w, t, x, v) && w.threads[t].obj == o && w.registered == Some(o) && v.registered == Some(o)
    requires !Recovering(w, t, x) && o in w.sessions && !w.threads[t].pc.RebuildCommitting? && !IsOpen(w.threads[t].pc)
    ensures SameView(w, v, t, o)
  {
    NoCommitOutside(w, t, x);
    hide PcAfter, LeasesAfter, ClientFailedAfter, EventsOf, Admits, CtrlOf, CommitPath;
  }

  lemma NoCommitOutside(w: World, t: Tid, x: Choice)
    requires CanAct(w, t, x) && !Recovering(w, t, x)
    ensures CommitPath(w.threads[t].pc).None? && CommitPath(PcAfter(w, t, x)).None?
  {
    hide Admits, CommitsRebuild, RebuildEntry;
  }

  /** One action of o's own recovery: the view stays, or the commit opens on the new file, or it closes on it. */
  lemma OwnRecoveryView(w: World, t: Tid, x: Choice, v: World, o: Obj)
    requires CanAct(w, t, x) && Sums(w, t, x, v) && Recovering(w, t, x)
    requires w.threads[t].obj == o && w.registered == Some(o) && o in w.sessions && ThreadPaths(w, t)
    requires CtrlOf(w.threads[t].pc) == Some(w.sessions[o].ctrl)
    requires o !in w.tainted && MidCommit(w.threads[t].pc) ==> Committing(w, t, o)
    ensures v.registered == Some(o) && t in v.threads && v.threads == w.threads[t := v.threads[t]] && v.threads[t].obj == o
    ensures || o in v.tainted || SameView(w, v, t, o) || Committing(v, t, o)
            || (WritesTranscript(v, o) && !MidCommit(v.threads[t].pc))
  {
    var pc, rec := w.threads[t].pc, RecOf(w.threads[t].pc).value;
    var next := RecAfter(w, rec, x);
    WithRecKeepsChannels(pc, next);
    RecoveringWorks(pc);
    assert v.threads[t].pc == WithRec(pc, next) && FoundSelf(rec, o);
    assert v.sessions == if rec.RecHolding? then w.sessions[rec.target := BindRecovery(w.sessions[rec.target], rec.path)] else w.sessions;
    hide RecOf, WithRec, CtrlOf, LeasesAfter, ClientFailedAfter, EventsOf, IsEnd, PcAfter, SessionsAfter, CanAct;
  }

  lemma OwnRecoveryAgrees(w: World, t: Tid, x: Choice, v: World, o: Obj)
    requires Agrees(w) && Exclusion(w) && Bookkeeping(w) && CanAct(w, t, x) && Sums(w, t, x, v) && Recovering(w, t, x)
    requires w.threads[t].obj == o && w.registered == Some(o)
    ensures Agrees(v)
  {
    assert ThreadPaths(w, t);
    RecoveringWorks(w.threads[t].pc);
    OwnsCtrl(w, t);
    hide Sums, CanAct, CtrlOf, ThreadPaths, Bookkeeping, MidCommit, Working, SameView;
    OwnRecoveryView(w, t, x, v, o);
    if SameView(w, v, t, o) {
      SameViewAgrees(w, v, t, o);
    } else if o !in v.tainted {
      forall u | u in v.threads && v.threads[u].obj == o && MidCommit(v.threads[u].pc) ensures Committing(v, u, o) {
        if u != t {
          MidCommitWorks(w.threads[u].pc);
          OneWorker(w, t, u);
        }
      }
    }
  }

  lemma MidCommitWorks(pc: Pc)
    requires MidCommit(pc)
    ensures Working(pc)
  {
    RecoveringWorks(pc);
  }

  /** The commit of a rebuild installs a controller that writes the same file. */
  lemma RebuildCommitAgrees(w: World, t: Tid, x: Choice, v: World, o: Obj)
    requires Agrees(w) && Exclusion(w) && Bookkeeping(w) && CanAct(w, t, x) && Sums(w, t, x, v)
    requires w.threads[t].obj == o && w.registered == Some(o) && w.threads[t].pc.RebuildCommitting?
    ensures Agrees(v)
  {
    assert ThreadPaths(w, t);
    RecoveringWorks(w.threads[t].pc);
    OwnsCtrl(w, t);
    NoCommitOutside(w, t, x);
    MidCommitHasPath(w.threads[t].pc);
    MidCommitHasPath(PcAfter(w, t, x));
    hide LeasesAfter, ClientFailedAfter, EventsOf, Admits, CtrlOf, CommitPath, MidCommit, Exclusion, ThreadPaths, Bookkeeping, Working, CanAct, PcAfter;
    if o !in w.tainted {
      forall u | u in w.threads && w.threads[u].obj == o && MidCommit(w.threads[u].pc) ensures false {
        MidCommitWorks(w.threads[u].pc);
        OneWorker(w, t, u);
      }
      assert WritesTranscript(w, o);
      assert WritesTranscript(v, o);
    }
  }

  lemma RegisteringAgrees(w: World, t: Tid, x: Choice, v: World)
    requires Exclusion(w) && CanAct(w, t, x) && Sums(w, t, x, v) && w.threads[t].pc.OpenHolding? && x.ok
    ensures Agrees(v)
  {
    assert ThreadOk(w, t);
    var o := w.threads[t].obj;
    assert !MidCommit(Finished);
    hide Exclusion, LeasesAfter, ClientFailedAfter, EventsOf, MidCommit, TurnChan, MaintChan, ClosingChan, CtrlOf;
    assert WritesTranscript(v, o);
  }

  lemma ActKeepsAgreement(w: World, t: Tid, x: Choice)
    requires Agrees(w) && Exclusion(w) && Bookkeeping(w) && CanAct(w, t, x)
    ensures Agrees(DoAct(w, t, x))
  {
    var v := DoAct(w, t, x);
    ActSums(w, t, x);
    ThreadsOk(w, t, t, x);
    assert w.registered.Some? ==> w.registered.value in w.sessions && SessionPaths(w, w.registered.value);
    hide DoAct, Sums, CanAct, Agrees, Exclusion, Bookkeeping, CtrlOf, SameView, TurnChan, MaintChan, ClosingChan;
    assert v.registered == RegisteredAfter(w, t, x) by { RegisteredSums(w, t, x, v); }
    if w.threads[t].pc.OpenHolding? && x.ok {
      RegisteringAgrees(w, t, x, v);
    } else if w.registered.None? {
      UnregisteredAgrees(v);
    } else {
      var o := w.registered.value;
      if w.threads[t].obj != o {
        if CtrlOf(w.threads[t].pc).Some? { OwnsCtrl(w, t); }
        ForeignActView(w, t, x, v, o);
        if o in v.tainted { TaintedAgrees(v, o); } else { SameViewAgrees(w, v, t, o); }
      } else if Recovering(w, t, x) {
        OwnRecoveryAgrees(w, t, x, v, o);
      } else if w.threads[t].pc.RebuildCommitting? {
        RebuildCommitAgrees(w, t, x, v, o);
      } else {
        OwnActView(w, t, x, v, o);
        SameViewAgrees(w, v, t, o);
      }
    }
  }

  lemma RegisteredSums(w: World, t: Tid, x: Choice, v: World)
    requires CanAct(w, t, x) && Sums(w, t, x, v)
    ensures v.registered == RegisteredAfter(w, t, x)
  {
  }

  lemma UnregisteredAgrees(v: World)
    requires v.registered.None?
    ensures Agrees(v)
  {
  }

  lemma TaintedAgrees(v: World, o: Obj)
    requires v.registered == Some(o) && o in v.tainted
    ensures Agrees(v)
  {
  }

  lemma SpawnKeepsAgreement(w: World, t: Tid, o: Obj, pc: Pc)
    requires Agrees(w) && t !in w.threads && RecOf(pc).None?
    ensures Agrees(Spawn(w, t, o, pc))
  {
    var v := Spawn(w, t, o, pc);
    hide RecOf;
    if v.registered.Some? && v.registered.value !in v.tainted {
      var b := v.registered.value;
      assert WritesTranscript(w, b) ==> WritesTranscript(v, b);
      forall u | Committing(w, u, b) ensures Committing(v, u, b) {}
      forall u | u in v.threads && v.threads[u].obj == b && MidCommit(v.threads[u].pc) ensures Committing(v, u, b) {
        assert u != t && Committing(w, u, b);
      }
    }
  }

  lemma LeasesDoNotMoveAgreement(w: World, v: World)
    requires Agrees(w) && v == w.(leases := v.leases)
    ensures Agrees(v)
  {
    hide MidCommit;
    if v.registered.Some? && v.registered.value !in v.tainted {
      var b := v.registered.value;
      assert WritesTranscript(w, b) ==> WritesTranscript(v, b);
      forall u ensures Committing(w, u, b) <==> Committing(v, u, b) {}
    }
  }

  lemma StepKeepsAgreement(w: World, step: Step)
    requires Agrees(w) && Exclusion(w) && Bookkeeping(w) && Enabled(w, step)
    ensures Agrees(Next(w, step))
  {
    hide DoAct, CanAct, Exclusion, Bookkeeping, Agrees;
    match step
    case SpawnTurn(t) => SpawnKeepsAgreement(w, t, w.registered.value, TurnWaiting);
    case SpawnRebuild(t, cfg) => SpawnKeepsAgreement(w, t, w.registered.value, RebuildEntering(cfg, false));
    case SpawnEnd(t, del) => UnregisteredAgrees(Next(w, step));
    case SpawnOpen(t, o, transcript, cfg) => SpawnKeepsAgreement(w, t, o, OpenFound(transcript, cfg));
    case OtherAcquires(_) => LeasesDoNotMoveAgreement(w, Next(w, step));
    case OtherReleases(_) => LeasesDoNotMoveAgreement(w, Next(w, step));
    case Act(t, x) => ActKeepsAgreement(w, t, x);
  }

  /** The four invariants together. */
  ghost predicate Orderly(w: World) {
    Exclusion(w) && Custodians(w) && Bookkeeping(w) && Agrees(w)
  }

  lemma {:induction false} RunKeepsOrder(w: World, steps: seq<Step>)
    requires Orderly(w) && Runs(w, steps)
    ensures Orderly(After(w, steps))
    decreases |steps|
  {
    hide Exclusion, Custodians, Bookkeeping, Agrees, Enabled, Next;
    if steps != [] {
      StepKeepsExclusion(w, steps[0]);
      StepKeepsCustodians(w, steps[0]);
      StepKeepsBookkeeping(w, steps[0]);
      StepKeepsAgreement(w, steps[0]);
      RunKeepsOrder(Next(w, steps[0]), steps[1..]);
    }
  }

  lemma RunIsOrderly(steps: seq<Step>)
    requires Runs(INIT, steps)
    ensures Orderly(After(INIT, steps))
  {
    assert Orderly(INIT);
    RunKeepsOrder(INIT, steps);
  }

  // ---------- the theorems ----------

  predicate Leased(w: World, path: Option<Path>, h: Holder) {
    path.Some? ==> path.value in w.leases && w.leases[path.value] == h
  }

  /** The file a registered session reports is leased to it at every moment of every run, and nothing else is. */
  lemma ReportedFileIsAlwaysLeased(steps: seq<Step>, o: Obj)
    requires Runs(INIT, steps) && After(INIT, steps).registered == Some(o)
    ensures var w := After(INIT, steps);
            && o in w.sessions && w.sessions[o].lease == w.sessions[o].transcript
            && Leased(w, w.sessions[o].transcript, InSession(o))
            && forall p :: p in w.leases && w.leases[p] == InSession(o) ==> w.sessions[o].transcript == Some(p)
  {
    var w := After(INIT, steps);
    RunIsOrderly(steps);
    RegisteredIsKnown(w);
    hide Exclusion, Agrees, ThreadPaths, ThreadListed;
    assert SessionPaths(w, o) && SessionListed(w, o);
    forall p | p in w.leases && w.leases[p] == InSession(o) ensures w.sessions[o].transcript == Some(p) { assert HolderCarries(w, p); }
  }

  /** Outside a recovery commit of its own, and unless a foreign one moved it, a registered session's lease, report and controller agree. */
  lemma PathAgreement(steps: seq<Step>, o: Obj)
    requires Runs(INIT, steps) && After(INIT, steps).registered == Some(o)
    requires var w := After(INIT, steps);
             o !in w.tainted && forall t :: t in w.threads && w.threads[t].obj == o ==> !MidCommit(w.threads[t].pc)
    ensures var w := After(INIT, steps);
            && o in w.sessions && w.sessions[o].ctrl in w.ctrlPath
            && w.sessions[o].lease == w.sessions[o].transcript == w.ctrlPath[w.sessions[o].ctrl]
  {
    var w := After(INIT, steps);
    RunIsOrderly(steps);
    ReportedFileIsAlwaysLeased(steps, o);
    hide Exclusion, Custodians, Bookkeeping, MidCommit;
    assert WritesTranscript(w, o);
  }

  /**
   The hand-over has no gap: from before the session moves until the old lease is
   let go, old and new file are leased, and the new one stays leased after that.
   */
  lemma HandOverWithoutGap(steps: seq<Step>, t: Tid, o: Obj)
    requires Runs(INIT, steps) && After(INIT, steps).registered == Some(o)
    requires var w := After(INIT, steps); t in w.threads && w.threads[t].obj == o && RecOf(w.threads[t].pc).Some?
    ensures var w := After(INIT, steps);
            && o in w.sessions
            && match RecOf(w.threads[t].pc).value
            case RecHolding(path, target) =>
              target == o && Leased(w, Some(path), InThread(t)) && Leased(w, w.sessions[o].transcript, InSession(o))
            case RecReleasing(path, target, prev) =>
              target == o && Leased(w, prev, InThread(t)) && (o !in w.tainted ==> Leased(w, Some(path), InSession(o)))
            case RecRetargeting(path, bound) =>
              bound == Some(o) && (o !in w.tainted ==> Leased(w, Some(path), InSession(o)))
            case _ => true
  {
    var w := After(INIT, steps);
    var pc := w.threads[t].pc;
    RunIsOrderly(steps);
    ReportedFileIsAlwaysLeased(steps, o);
    assert ThreadPaths(w, t) && ThreadListed(w, t);
    HeldInRec(pc);
    RecoveringWorks(pc);
    if o !in w.tainted && MidCommit(pc) { assert Committing(w, t, o); }
    hide Exclusion, Custodians, Bookkeeping, Agrees, RecOf, HeldBy, CtrlOf, IsEnd;
  }

  /** When no thread of a registered session carries a lease, the session holds exactly one: that of the file it reports. */
  lemma ExactlyOneLease(steps: seq<Step>, o: Obj, p: Path)
    requires Runs(INIT, steps) && After(INIT, steps).registered == Some(o)
    requires var w := After(INIT, steps);
             forall t :: t in w.threads && w.threads[t].obj == o ==> HeldBy(w.threads[t].pc).None?
    ensures var w := After(INIT, steps);
            (p in w.leases && (w.leases[p] == InSession(o) ||
                               (w.leases[p].InThread? && w.leases[p].t in w.threads && w.threads[w.leases[p].t].obj == o)))
            <==> (o in w.sessions && w.sessions[o].transcript == Some(p))
  {
    var w := After(INIT, steps);
    RunIsOrderly(steps);
    ReportedFileIsAlwaysLeased(steps, o);
    assert HolderCarries(w, p);
  }

  /** A session is marked as moved from outside exactly when another object's thread commits its recovery to it. */
  lemma OnlyForeignCommitsTaint(w: World, step: Step, o: Obj)
    requires Enabled(w, step) && o !in w.tainted
    ensures o in Next(w, step).tainted <==>
            step.Act? && w.threads[step.t].obj != o && Recovering(w, step.t, step.x) &&
            RecOf(w.threads[step.t].pc).value.RecHolding? && RecOf(w.threads[step.t].pc).value.target == o && !w.sessions[o].deleted
  {
    hide DoAct;
    if step.Act? {
      ActSums(w, step.t, step.x);
      RecoveringWorks(w.threads[step.t].pc);
      hide PcAfter, SessionsAfter, LeasesAfter, CtrlPathAfter, ClientFailedAfter, EventsOf, RegisteredAfter;
    }
  }

  /**
   And such a commit always breaks agreement: the recovery file was leased to the
   foreign thread, so it is not the one the session's controller writes.
   */
  lemma ForeignCommitBreaksAgreement(steps: seq<Step>, t: Tid, x: Choice, o: Obj)
    requires Runs(INIT, steps) && After(INIT, steps).registered == Some(o)
    requires var w := After(INIT, steps);
             && CanAct(w, t, x) && Recovering(w, t, x) && w.threads[t].obj != o && WritesTranscript(w, o)
             && RecOf(w.threads[t].pc).value.RecHolding? && RecOf(w.threads[t].pc).value.target == o && !w.sessions[o].deleted
    ensures !WritesTranscript(Next(After(INIT, steps), Act(t, x)), o)
  {
    var w := After(INIT, steps);
    var v, path := DoAct(w, t, x), RecOf(w.threads[t].pc).value.path;
    ReportedFileIsAlwaysLeased(steps, o);
    RunIsOrderly(steps);
    assert ThreadListed(w, t);
    HeldInRec(w.threads[t].pc);
    ActSums(w, t, x);
    hide Exclusion, Bookkeeping, Agrees, Custodians, DoAct, HeldBy, PcAfter, LeasesAfter, TaintedAfter, ClientFailedAfter, EventsOf;
    assert w.leases[path] == InThread(t);
    assert v.sessions[o].transcript == Some(path) && v.ctrlPath == w.ctrlPath && v.sessions[o].ctrl == w.sessions[o].ctrl;
  }
}
