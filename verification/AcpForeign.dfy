/**
 Recovery commits from outside, over whole runs: when no recovery picks a file that a
 controller writes or another recovery is committing to, the sessions marked as moved
 from outside are exactly those whose controller does not write the reported file.
 */
module AcpForeign {
  import opened Wrappers
  import opened AcpSession
  import opened AcpProtocol
  import opened AcpEffects
  import opened AcpExclusion
  import opened AcpPaths

  /** The recovery file a thread is at. */
  function RecPath(pc: Pc): Option<Path> {
    if RecOf(pc).None? then None
    else
      match RecOf(pc).value
      case RecFound(path, _) => Some(path)
      case RecHolding(path, _) => Some(path)
      case RecUndoing(path) => Some(path)
      case RecReleasing(path, _, _) => Some(path)
      case RecRetargeting(path, _) => Some(path)
      case _ => None
  }

  /** The session a thread is going to move to its recovery file. */
  function Aim(pc: Pc): Option<Obj> {
    if RecOf(pc).None? then None
    else
      match RecOf(pc).value
      case RecFound(_, target) => Some(target)
      case RecHolding(_, target) => Some(target)
      case _ => None
  }

  /** No controller writes the file and no recovery is at it. */
  ghost predicate Unused(w: World, path: Path) {
    && (forall c :: c in w.ctrlPath ==> w.ctrlPath[c] != Some(path))
    && (forall u :: u in w.threads ==> RecPath(w.threads[u].pc) != Some(path))
  }

  /** If the step starts a recovery, it is onto an unused file. */
  ghost predicate PicksUnused(w: World, step: Step) {
    step.Act? && Recovering(w, step.t, step.x) && RecOf(w.threads[step.t].pc).value.RecIdle? ==> Unused(w, step.x.recover.value)
  }

  ghost predicate PicksUnusedAlong(w: World, steps: seq<Step>)
    requires Runs(w, steps)
    decreases |steps|
  {
    steps != [] ==> PicksUnused(w, steps[0]) && PicksUnusedAlong(Next(w, steps[0]), steps[1..])
  }

  predicate Apart(w: World, t: Tid, u: Tid)
    requires t in w.threads && u in w.threads
  {
    t != u && RecPath(w.threads[t].pc).Some? ==> RecPath(w.threads[t].pc) != RecPath(w.threads[u].pc)
  }

  /** No controller of the session a recovery aims at writes the recovery file yet. */
  ghost predicate AimsElsewhere(w: World, t: Tid)
    requires t in w.threads
  {
    var pc := w.threads[t].pc;
    Aim(pc).Some? ==>
      Aim(pc).value in w.sessions && forall c :: c in w.ctrlPath && c.owner == Aim(pc).value ==> w.ctrlPath[c] != RecPath(pc)
  }

  predicate OwnCommit(w: World, t: Tid, o: Obj) {
    t in w.threads && w.threads[t].obj == o && MidCommit(w.threads[t].pc)
  }

  /** A session moved from outside reports a file its controller does not write, until a recovery of its own. */
  ghost predicate TaintedDisagrees(w: World) {
    w.registered.Some? && w.registered.value in w.tainted && (forall t :: !OwnCommit(w, t, w.registered.value)) ==>
      !WritesTranscript(w, w.registered.value)
  }

  ghost predicate Foreign(w: World) {
    && (forall t, u :: t in w.threads && u in w.threads ==> Apart(w, t, u))
    && (forall t :: t in w.threads ==> AimsElsewhere(w, t))
    && TaintedDisagrees(w)
    && (w.registered.Some? ==> w.registered.value in w.sessions) && w.tainted <= w.sessions.Keys
  }

  // ---------- one action ----------

  lemma AimHasPath(pc: Pc)
    ensures Aim(pc).Some? ==> RecPath(pc).Some? && !MidCommit(pc)
    ensures RecOf(pc).None? ==> Aim(pc).None? && RecPath(pc).None? && !MidCommit(pc)
  {
  }

  /** Where an action leaves the recovery of its thread. */
  lemma PathAfter(w: World, t: Tid, x: Choice)
    requires CanAct(w, t, x)
    ensures var p, q := w.threads[t].pc, PcAfter(w, t, x);
            && (RecPath(q).Some? ==> RecPath(q) == RecPath(p) || (Recovering(w, t, x) && RecOf(p).value.RecIdle? && RecPath(q) == x.recover))
            && (Aim(q).Some? ==>
                  || (Aim(q) == Aim(p) && RecPath(q) == RecPath(p))
                  || (Recovering(w, t, x) && RecOf(p).value.RecIdle? && RecPath(q) == x.recover && Aim(q) == w.registered))
  {
    hide Admits, RebuildEntry, CommitsRebuild;
    var pc := w.threads[t].pc;
    if Recovering(w, t, x) {
      WithRecKeepsChannels(pc, RecAfter(w, RecOf(pc).value, x));
    }
  }

  lemma ActKeepsApart(w: World, t: Tid, x: Choice, v: World, a: Tid, b: Tid)
    requires CanAct(w, t, x) && Sums(w, t, x, v) && PicksUnused(w, Act(t, x))
    requires a in w.threads && b in w.threads && Apart(w, a, b) && Apart(w, b, a)
    ensures a in v.threads && b in v.threads && Apart(v, a, b)
  {
    PathAfter(w, t, x);
    hide SessionsAfter, LeasesAfter, CtrlPathAfter, TaintedAfter, ClientFailedAfter, EventsOf, RegisteredAfter, CanAct, PcAfter, RecPath, Recovering;
  }

  /** How an action may change which file a controller writes. */
  lemma PathsChange(w: World, t: Tid, x: Choice, v: World, c: Ctrl)
    requires CanAct(w, t, x) && Sums(w, t, x, v) && c in v.ctrlPath
    requires CtrlOf(w.threads[t].pc).Some? ==> CtrlOf(w.threads[t].pc).value.owner == w.threads[t].obj
    ensures || (c in w.ctrlPath && v.ctrlPath[c] == w.ctrlPath[c])
            || (c.owner == w.threads[t].obj && RecPath(w.threads[t].pc).Some? && Aim(w.threads[t].pc).None? && v.ctrlPath[c] == RecPath(w.threads[t].pc))
            || (c.owner == w.threads[t].obj && w.threads[t].pc.OpenHolding?)
            || (exists e :: e in w.ctrlPath && e.owner == c.owner && v.ctrlPath[c] == w.ctrlPath[e])
  {
    hide PcAfter, SessionsAfter, LeasesAfter, TaintedAfter, ClientFailedAfter, EventsOf, RegisteredAfter;
  }

  lemma ActKeepsAims(w: World, t: Tid, x: Choice, v: World, u: Tid)
    requires CanAct(w, t, x) && Sums(w, t, x, v) && PicksUnused(w, Act(t, x))
    requires u in w.threads && AimsElsewhere(w, u) && Apart(w, u, t)
    requires CtrlOf(w.threads[t].pc).Some? ==> CtrlOf(w.threads[t].pc).value.owner == w.threads[t].obj
    requires w.threads[t].pc.OpenHolding? ==> w.threads[t].obj !in w.sessions
    requires w.registered.Some? ==> w.registered.value in w.sessions
    ensures u in v.threads && AimsElsewhere(v, u)
  {
    PathAfter(w, t, x);
    SessionsStay(w, t, x, v);
    assert v.threads == w.threads[t := Thread(w.threads[t].obj, PcAfter(w, t, x))];
    AimHasPath(w.threads[u].pc);
    AimHasPath(w.threads[t].pc);
    IdleHasNoPath(w.threads[t].pc);
    hide PcAfter, RecPath, Aim, Recovering, CtrlOf, RecOf;
    var pc := v.threads[u].pc;
    if Aim(pc).Some? {
      forall c | c in v.ctrlPath && c.owner == Aim(pc).value ensures v.ctrlPath[c] != RecPath(pc) {
        PathsChange(w, t, x, v, c);
      }
    }
    hide CanAct, Sums;
  }

  lemma IdleHasNoPath(pc: Pc)
    ensures RecOf(pc).Some? && RecOf(pc).value.RecIdle? ==> RecPath(pc).None?
  {
  }

  lemma SessionsStay(w: World, t: Tid, x: Choice, v: World)
    requires CanAct(w, t, x) && Sums(w, t, x, v)
    ensures w.sessions.Keys <= v.sessions.Keys
  {
    hide PcAfter, LeasesAfter, CtrlPathAfter, TaintedAfter, ClientFailedAfter, EventsOf, RegisteredAfter;
  }

  // ---------- disagreement ----------

  /** An action of another session's thread: nothing changes for o, or it moves o to a file that none of o's controllers writes. */
  lemma ForeignActDisagrees(w: World, t: Tid, x: Choice, v: World, o: Obj)
    requires CanAct(w, t, x) && Sums(w, t, x, v) && AimsElsewhere(w, t)
    requires w.threads[t].obj != o && w.registered == Some(o) && v.registered == Some(o)
    requires o in w.sessions && w.sessions[o].ctrl.owner == o && w.sessions[o].ctrl in w.ctrlPath
    requires CtrlOf(w.threads[t].pc).Some? ==> CtrlOf(w.threads[t].pc).value.owner == w.threads[t].obj
    ensures || (o in v.sessions && !WritesTranscript(v, o))
            || (SameView(w, v, t, o) && (o in v.tainted <==> o in w.tainted))
  {
    RecoveringWorks(w.threads[t].pc);
    hide PcAfter, RecAfter, LeasesAfter, ClientFailedAfter, EventsOf, Admits, CtrlOf, CommitPath;
  }

  /** An action of o's own thread leaves o's view and mark as they are, installs a controller for the same file, or is part of its recovery commit. */
  lemma OwnActDisagrees(w: World, t: Tid, x: Choice, v: World, o: Obj)
    requires CanAct(w, t, x) && Sums(w, t, x, v) && !IsOpen(w.threads[t].pc) && ThreadPaths(w, t) && ThreadOk(w, t)
    requires w.threads[t].obj == o && w.registered == Some(o) && v.registered == Some(o) && o in w.sessions
    requires w.sessions[o].ctrl in w.ctrlPath
    requires !MidCommit(PcAfter(w, t, x)) && o in v.tainted
    ensures o in v.sessions
    ensures || !WritesTranscript(v, o)
            || (o in w.tainted && !MidCommit(w.threads[t].pc) && WritesTranscript(w, o))
  {
    RecoveringWorks(w.threads[t].pc);
    hide LeasesAfter, ClientFailedAfter, EventsOf, Admits, TurnChan, ClosingChan;
  }

  lemma ActKeepsDisagreement(w: World, t: Tid, x: Choice, v: World)
    requires Foreign(w) && Exclusion(w) && Bookkeeping(w) && CanAct(w, t, x) && Sums(w, t, x, v)
    ensures TaintedDisagrees(v)
  {
    ThreadsOk(w, t, t, x);
    assert v.threads == w.threads[t := Thread(w.threads[t].obj, PcAfter(w, t, x))];
    assert v.registered == RegisteredAfter(w, t, x);
    if w.threads[t].pc.OpenHolding? && x.ok {
      RegisteredWrites(w, t, x, v);
    } else if v.registered.Some? && v.registered.value in v.tainted && forall u :: !OwnCommit(v, u, v.registered.value) {
      var o := v.registered.value;
      assert o in w.sessions && SessionPaths(w, o) && AimsElsewhere(w, t) && ThreadPaths(w, t);
      if w.threads[t].obj != o {
        if CtrlOf(w.threads[t].pc).Some? { OwnsCtrl(w, t); }
        ForeignActDisagrees(w, t, x, v, o);
        forall u ensures OwnCommit(w, u, o) <==> OwnCommit(v, u, o) {}
      } else {
        assert OwnCommit(v, t, o) <==> MidCommit(PcAfter(w, t, x));
        OwnActDisagrees(w, t, x, v, o);
        forall u | u != t ensures OwnCommit(w, u, o) <==> OwnCommit(v, u, o) {}
      }
    }
    hide Exclusion, Bookkeeping, Foreign, CanAct, Sums, PcAfter, MidCommit, ThreadOk, ThreadPaths, SessionPaths, AimsElsewhere, IsOpen, CtrlOf, RegisteredAfter;
  }

  lemma RegisteredWrites(w: World, t: Tid, x: Choice, v: World)
    requires CanAct(w, t, x) && Sums(w, t, x, v) && w.threads[t].pc.OpenHolding? && x.ok
    requires w.tainted <= w.sessions.Keys && w.threads[t].obj !in w.sessions
    ensures TaintedDisagrees(v)
  {
    hide PcAfter, LeasesAfter, CtrlPathAfter, ClientFailedAfter, EventsOf;
  }

  lemma MarksStayKnown(w: World, t: Tid, x: Choice, v: World)
    requires CanAct(w, t, x) && Sums(w, t, x, v) && w.tainted <= w.sessions.Keys
    requires w.registered.Some? ==> w.registered.value in w.sessions
    ensures v.tainted <= v.sessions.Keys && (v.registered.Some? ==> v.registered.value in v.sessions)
  {
    SessionsStay(w, t, x, v);
    hide PcAfter, LeasesAfter, CtrlPathAfter, ClientFailedAfter, EventsOf, RecAfter;
  }

  lemma ActKeepsForeign(w: World, t: Tid, x: Choice)
    requires Foreign(w) && Exclusion(w) && Bookkeeping(w) && CanAct(w, t, x) && PicksUnused(w, Act(t, x))
    ensures Foreign(DoAct(w, t, x))
  {
    var v := DoAct(w, t, x);
    ActSums(w, t, x);
    ThreadsOk(w, t, t, x);
    if CtrlOf(w.threads[t].pc).Some? { OwnsCtrl(w, t); }
    assert v.threads == w.threads[t := Thread(w.threads[t].obj, PcAfter(w, t, x))];
    hide DoAct, CanAct, Sums, Exclusion, Bookkeeping, PicksUnused, Apart, AimsElsewhere, TaintedDisagrees, CtrlOf, PcAfter;
    ActKeepsDisagreement(w, t, x, v);
    MarksStayKnown(w, t, x, v);
    forall a, b | a in v.threads && b in v.threads ensures Apart(v, a, b) {
      assert Apart(w, a, b) && Apart(w, b, a);
      ActKeepsApart(w, t, x, v, a, b);
    }
    forall u | u in v.threads ensures AimsElsewhere(v, u) {
      assert AimsElsewhere(w, u) && Apart(w, u, t);
      ActKeepsAims(w, t, x, v, u);
    }
  }

  // ---------- every step, every run ----------

  lemma SpawnKeepsForeign(w: World, t: Tid, o: Obj, pc: Pc, registered: Option<Obj>)
    requires Foreign(w) && t !in w.threads && RecOf(pc).None? && (registered == w.registered || registered == None)
    ensures Foreign(Spawn(w, t, o, pc).(registered := registered))
  {
    AimHasPath(pc);
    hide RecPath, Aim, RecOf;
    var v := Spawn(w, t, o, pc).(registered := registered);
    forall a, b | a in v.threads && b in v.threads ensures Apart(v, a, b) {
      if a != t && b != t { assert Apart(w, a, b); }
    }
    forall u | u in v.threads ensures AimsElsewhere(v, u) { if u != t { assert AimsElsewhere(w, u); } }
    if registered.Some? {
      forall u | u != t ensures OwnCommit(w, u, registered.value) <==> OwnCommit(v, u, registered.value) {}
    }
  }

  lemma LeasesDoNotMoveForeign(w: World, v: World)
    requires Foreign(w) && v == w.(leases := v.leases)
    ensures Foreign(v)
  {
    hide RecPath, Aim, MidCommit;
    forall a, b | a in v.threads && b in v.threads ensures Apart(v, a, b) { assert Apart(w, a, b); }
    forall u | u in v.threads ensures AimsElsewhere(v, u) { assert AimsElsewhere(w, u); }
    if v.registered.Some? {
      forall u ensures OwnCommit(w, u, v.registered.value) <==> OwnCommit(v, u, v.registered.value) {}
    }
  }

  lemma StepKeepsForeign(w: World, step: Step)
    requires Foreign(w) && Exclusion(w) && Bookkeeping(w) && Enabled(w, step) && PicksUnused(w, step)
    ensures Foreign(Next(w, step))
  {
    hide DoAct, CanAct, Exclusion, Bookkeeping, Foreign, PicksUnused;
    match step
    case SpawnTurn(t) => SpawnKeepsForeign(w, t, w.registered.value, TurnWaiting, w.registered);
    case SpawnRebuild(t, cfg) => SpawnKeepsForeign(w, t, w.registered.value, RebuildEntering(cfg, false), w.registered);
    case SpawnEnd(t, del) => SpawnKeepsForeign(w, t, w.registered.value, EndCapturing(del), None);
    case SpawnOpen(t, o, transcript, cfg) => SpawnKeepsForeign(w, t, o, OpenFound(transcript, cfg), w.registered);
    case OtherAcquires(_) => LeasesDoNotMoveForeign(w, Next(w, step));
    case OtherReleases(_) => LeasesDoNotMoveForeign(w, Next(w, step));
    case Act(t, x) => ActKeepsForeign(w, t, x);
  }

  lemma {:induction false} RunKeepsForeign(w: World, steps: seq<Step>)
    requires Foreign(w) && Exclusion(w) && Bookkeeping(w) && Runs(w, steps) && PicksUnusedAlong(w, steps)
    ensures Foreign(After(w, steps))
    decreases |steps|
  {
    hide Foreign, Exclusion, Bookkeeping, PicksUnused, Enabled, Next;
    if steps != [] {
      StepKeepsForeign(w, steps[0]);
      StepKeepsExclusion(w, steps[0]);
      StepKeepsBookkeeping(w, steps[0]);
      RunKeepsForeign(Next(w, steps[0]), steps[1..]);
    }
  }

  /**
   When every recovery is onto an unused file, a registered session outside its own
   recovery commit agrees with its controller exactly if no foreign recovery has
   committed to it since its last own one.
   */
  lemma AgreesExactlyUnlessTainted(steps: seq<Step>, o: Obj)
    requires Runs(INIT, steps) && PicksUnusedAlong(INIT, steps) && After(INIT, steps).registered == Some(o)
    requires forall t :: !OwnCommit(After(INIT, steps), t, o)
    ensures WritesTranscript(After(INIT, steps), o) <==> o !in After(INIT, steps).tainted
  {
    var w := After(INIT, steps);
    assert Foreign(INIT) && Exclusion(INIT) && Bookkeeping(INIT);
    RunKeepsForeign(INIT, steps);
    if o !in w.tainted {
      forall t | t in w.threads && w.threads[t].obj == o ensures !MidCommit(w.threads[t].pc) { assert !OwnCommit(w, t, o); }
      PathAgreement(steps, o);
    }
    hide Exclusion, Bookkeeping, MidCommit, Apart, AimsElsewhere;
  }
}
