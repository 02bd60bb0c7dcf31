/**
 Who holds which session lease. The lease table always agrees with the session
 objects and the threads: a lease is held by exactly the object or the thread
 that carries it, so no hand-over loses or duplicates one.
 */
module AcpLeases {
  import opened Wrappers
  import opened AcpSession
  import opened AcpProtocol
  import opened AcpEffects
  import opened AcpExclusion

  /** The holder the table names for p does carry p. */
  predicate HolderCarries(w: World, p: Path) {
    p in w.leases ==>
      match w.leases[p]
      case Foreign => true
      case InThread(t) => t in w.threads && HeldBy(w.threads[t].pc) == Some(p)
      case InSession(o) => o in w.sessions && w.sessions[o].lease == Some(p)
  }

  predicate SessionListed(w: World, o: Obj)
    requires o in w.sessions
  {
    w.sessions[o].lease.Some? ==> w.sessions[o].lease.value in w.leases && w.leases[w.sessions[o].lease.value] == InSession(o)
  }

  predicate ThreadListed(w: World, t: Tid)
    requires t in w.threads
  {
    var held := HeldBy(w.threads[t].pc);
    held.Some? ==> held.value in w.leases && w.leases[held.value] == InThread(t)
  }

  ghost predicate Custodians(w: World) {
    && (forall p :: HolderCarries(w, p))
    && (forall o :: o in w.sessions ==> SessionListed(w, o))
    && (forall t :: t in w.threads ==> ThreadListed(w, t))
  }

  // ---------- the lease traffic of one action ----------

  /** The session object whose bookkeeping an action may change. */
  function TouchedObj(w: World, t: Tid, x: Choice): Obj
    requires CanAct(w, t, x)
  {
    if Recovering(w, t, x) && RecOf(w.threads[t].pc).value.RecHolding? then RecOf(w.threads[t].pc).value.target else w.threads[t].obj
  }

  function LeaseOf(w: World, o: Obj): Option<Path> {
    if o in w.sessions then w.sessions[o].lease else None
  }

  predicate Carried(w: World, t: Tid, b: Obj, p: Path)
    requires t in w.threads
  {
    HeldBy(w.threads[t].pc) == Some(p) || LeaseOf(w, b) == Some(p)
  }

  /**
   From w to v only thread t and object b changed what they carry. A path that one
   of them carries now is theirs in the table, and was free if neither had it
   before; a path that neither carries any more is free; every other is untouched.
   */
  ghost predicate Transfers(w: World, v: World, t: Tid, b: Obj) {
    && t in w.threads && t in v.threads
    && v.threads == w.threads[t := v.threads[t]]
    && (forall o :: o in v.sessions && o != b ==> o in w.sessions && v.sessions[o].lease == w.sessions[o].lease)
    && (forall p :: HeldBy(v.threads[t].pc) == Some(p) ==> p in v.leases && v.leases[p] == InThread(t))
    && (forall p :: LeaseOf(v, b) == Some(p) ==> p in v.leases && v.leases[p] == InSession(b))
    && (forall p :: Carried(v, t, b, p) && !Carried(w, t, b, p) ==> p !in w.leases)
    && (forall p :: Carried(w, t, b, p) && !Carried(v, t, b, p) ==> p !in v.leases)
    && (forall p :: !Carried(w, t, b, p) && !Carried(v, t, b, p) ==>
          (p in v.leases <==> p in w.leases) && (p in w.leases ==> v.leases[p] == w.leases[p]))
    && w.sessions.Keys <= v.sessions.Keys
  }

  lemma TransfersKeepHolders(w: World, v: World, t: Tid, b: Obj, p: Path)
    requires Transfers(w, v, t, b) && HolderCarries(w, p)
    ensures HolderCarries(v, p)
  {
    hide HeldBy;
    if !Carried(v, t, b, p) && !Carried(w, t, b, p) {
    } else if Carried(v, t, b, p) {
    }
  }

  lemma TransfersKeepSessions(w: World, v: World, t: Tid, b: Obj, o: Obj)
    requires Custodians(w) && Transfers(w, v, t, b) && o in v.sessions
    ensures SessionListed(v, o)
  {
    hide HeldBy;
    if o != b && v.sessions[o].lease.Some? {
      var p := v.sessions[o].lease.value;
      assert SessionListed(w, o) && w.leases[p] == InSession(o);
      assert ThreadListed(w, t);
      assert !Carried(w, t, b, p) by { if b in w.sessions { assert SessionListed(w, b); } }
    }
  }

  lemma TransfersKeepThreads(w: World, v: World, t: Tid, b: Obj, u: Tid)
    requires Custodians(w) && Transfers(w, v, t, b) && u in v.threads
    ensures ThreadListed(v, u)
  {
    hide HeldBy;
    if u != t && HeldBy(v.threads[u].pc).Some? {
      var p := HeldBy(v.threads[u].pc).value;
      assert ThreadListed(w, u) && w.leases[p] == InThread(u);
      assert ThreadListed(w, t);
      assert !Carried(w, t, b, p) by { if b in w.sessions { assert SessionListed(w, b); } }
    }
  }

  lemma TransfersKeepCustodians(w: World, v: World, t: Tid, b: Obj)
    requires Custodians(w) && Transfers(w, v, t, b)
    ensures Custodians(v)
  {
    forall p ensures HolderCarries(v, p) { hide Transfers; TransfersKeepHolders(w, v, t, b, p); }
    forall o | o in v.sessions ensures SessionListed(v, o) { TransfersKeepSessions(w, v, t, b, o); }
    forall u | u in v.threads ensures ThreadListed(v, u) { TransfersKeepThreads(w, v, t, b, u); }
  }

  // ---------- every action ----------

  /** The lease traffic of one recovery action, on its own: from rec to next, in the hands of t. */
  lemma RecTransfers(w: World, t: Tid, x: Choice, v: World)
    requires CanAct(w, t, x) && Sums(w, t, x, v) && Recovering(w, t, x)
    requires ThreadListed(w, t) && (TouchedObj(w, t, x) in w.sessions ==> SessionListed(w, TouchedObj(w, t, x)))
    ensures Transfers(w, v, t, TouchedObj(w, t, x))
  {
    hide EventsOf, CtrlPathAfter, TaintedAfter, ClientFailedAfter;
    var pc, rec := w.threads[t].pc, RecOf(w.threads[t].pc).value;
    var next := RecAfter(w, rec, x);
    HeldInRec(pc);
    HeldInRec(WithRec(pc, next));
    WithRecKeepsChannels(pc, next);
    var b := TouchedObj(w, t, x);
    assert v.threads == w.threads[t := v.threads[t]] && v.threads[t].pc == WithRec(pc, next);
    assert HeldBy(v.threads[t].pc) == HeldByRec(next) && HeldBy(w.threads[t].pc) == HeldByRec(rec);
    assert v.leases == RecLeases(w, t, rec);
    assert rec.RecHolding? ==> b == rec.target && b in w.sessions;
    assert v.sessions == if rec.RecHolding? then w.sessions[b := BindRecovery(w.sessions[b], rec.path)] else w.sessions;
    assert next == RecAfter(w, rec, x);
    hide CanAct, HeldBy, WithRec, RecOf, Recovering, Sums, PcAfter, SessionsAfter, LeasesAfter, TouchedObj, SaveEnds;
    if rec.RecHolding? {
      BindTransfers(w, v, t, b, rec.path, next);
    } else {
      TableTransfers(w, v, t, b, rec, next);
    }
  }

  lemma BindTransfers(w: World, v: World, t: Tid, b: Obj, path: Path, next: Rec)
    requires t in w.threads && t in v.threads && v.threads == w.threads[t := v.threads[t]]
    requires HeldBy(w.threads[t].pc) == Some(path) && HeldBy(v.threads[t].pc) == HeldByRec(next)
    requires b in w.sessions && v.sessions == w.sessions[b := BindRecovery(w.sessions[b], path)]
    requires v.leases == RecLeases(w, t, RecHolding(path, b))
    requires next == if w.sessions[b].deleted then RecUndoing(path) else RecReleasing(path, b, w.sessions[b].lease)
    requires ThreadListed(w, t) && SessionListed(w, b)
    ensures Transfers(w, v, t, b)
  {
    hide HeldBy;
  }

  lemma TableTransfers(w: World, v: World, t: Tid, b: Obj, rec: Rec, next: Rec)
    requires t in w.threads && t in v.threads && v.threads == w.threads[t := v.threads[t]]
    requires HeldBy(w.threads[t].pc) == HeldByRec(rec) && HeldBy(v.threads[t].pc) == HeldByRec(next)
    requires v.sessions == w.sessions && !rec.RecHolding? && v.leases == RecLeases(w, t, rec)
    requires match rec
             case RecFound(path, target) => next == if path in w.leases then RecFailed else RecHolding(path, target)
             case RecUndoing(_) => next == RecFailed
             case RecReleasing(path, target, _) => next == RecRetargeting(path, Some(target))
             case RecRetargeting(_, _) => next == RecIdle
             case RecIdle => next.RecFound? || next.RecRetargeting?
             case _ => false
    requires ThreadListed(w, t) && (b in w.sessions ==> SessionListed(w, b))
    ensures Transfers(w, v, t, b)
  {
    hide HeldBy;
  }

  function HeldByRec(rec: Rec): Option<Path> {
    match rec
    case RecHolding(path, _) => Some(path)
    case RecUndoing(path) => Some(path)
    case RecReleasing(_, _, prev) => prev
    case _ => None
  }

  lemma HeldInRec(pc: Pc)
    requires RecOf(pc).Some?
    ensures HeldBy(pc) == HeldByRec(RecOf(pc).value)
  {
  }

  predicate MovesLease(pc: Pc) {
    IsOpen(pc) || pc.EndTaking? || pc.EndReleasing?
  }

  /** An action outside recovery, opening and ending moves no lease. */
  lemma StillTransfers(w: World, t: Tid, x: Choice, v: World)
    requires CanAct(w, t, x) && Sums(w, t, x, v) && !Recovering(w, t, x) && !MovesLease(w.threads[t].pc)
    requires ThreadListed(w, t) && (w.threads[t].obj in w.sessions ==> SessionListed(w, w.threads[t].obj))
    ensures Transfers(w, v, t, w.threads[t].obj)
  {
    StillHeld(w, t, x, v);
    StillLeased(w, t, x, v);
    hide HeldBy, Sums, CanAct;
  }

  lemma StillHeld(w: World, t: Tid, x: Choice, v: World)
    requires CanAct(w, t, x) && Sums(w, t, x, v) && !Recovering(w, t, x) && !MovesLease(w.threads[t].pc)
    ensures t in v.threads && v.threads == w.threads[t := v.threads[t]]
    ensures HeldBy(v.threads[t].pc) == HeldBy(w.threads[t].pc)
  {
    hide SessionsAfter, LeasesAfter, RegisteredAfter, CtrlPathAfter, TaintedAfter, ClientFailedAfter, EventsOf, Admits, CommitsRebuild, RebuildEntry;
  }

  lemma StillLeased(w: World, t: Tid, x: Choice, v: World)
    requires CanAct(w, t, x) && Sums(w, t, x, v) && !Recovering(w, t, x) && !MovesLease(w.threads[t].pc)
    ensures v.leases == w.leases && v.sessions.Keys == w.sessions.Keys
    ensures forall o :: o in w.sessions ==> v.sessions[o].lease == w.sessions[o].lease
  {
    hide PcAfter, RegisteredAfter, CtrlPathAfter, TaintedAfter, ClientFailedAfter, EventsOf;
  }

  /** A file goes from the table to t, from t to the table, from t to b, or from b to t. */
  lemma HandOver(w: World, v: World, t: Tid, b: Obj, p: Option<Path>, from: Option<Path>, to: Option<Path>)
    requires t in w.threads && t in v.threads && v.threads == w.threads[t := v.threads[t]] && w.sessions.Keys <= v.sessions.Keys
    requires forall o :: o in v.sessions && o != b ==> o in w.sessions && v.sessions[o].lease == w.sessions[o].lease
    requires HeldBy(w.threads[t].pc) == from && HeldBy(v.threads[t].pc) == to
    requires ThreadListed(w, t) && (b in w.sessions ==> SessionListed(w, b))
    requires || (from == None && to == p && LeaseOf(v, b) == LeaseOf(w, b)
                 && (p.Some? ==> p.value !in w.leases) && v.leases == Give(w.leases, p, InThread(t)))
             || (from == p && to == None && LeaseOf(v, b) == LeaseOf(w, b) && v.leases == Free(w.leases, p))
             || (from == p && to == None && LeaseOf(w, b) == None && LeaseOf(v, b) == p && v.leases == Give(w.leases, p, InSession(b)))
             || (from == None && to == p && LeaseOf(w, b) == p && LeaseOf(v, b) == None && v.leases == Give(w.leases, p, InThread(t)))
    ensures Transfers(w, v, t, b)
  {
    hide HeldBy;
  }

  lemma MovingTransfers(w: World, t: Tid, x: Choice, v: World)
    requires CanAct(w, t, x) && Sums(w, t, x, v) && MovesLease(w.threads[t].pc)
    requires IsOpen(w.threads[t].pc) ==> w.threads[t].obj !in w.sessions
    requires ThreadListed(w, t) && (w.threads[t].obj in w.sessions ==> SessionListed(w, w.threads[t].obj))
    ensures Transfers(w, v, t, w.threads[t].obj)
  {
    hide RegisteredAfter, CtrlPathAfter, TaintedAfter, ClientFailedAfter, EventsOf, Transfers, ThreadListed, SessionListed, Give, Free;
    var o := w.threads[t].obj;
    match w.threads[t].pc
    case OpenFound(path, _) =>
      if v.threads[t].pc.Finished? { FreeNothing(w.leases); HandOver(w, v, t, o, None, None, None); }
      else { HandOver(w, v, t, o, path, None, path); }
    case OpenHolding(path, _) => HandOver(w, v, t, o, path, path, None);
    case EndTaking(_) => HandOver(w, v, t, o, w.sessions[o].lease, None, w.sessions[o].lease);
    case EndReleasing(_, taken) => HandOver(w, v, t, o, taken, taken, None);
  }

  lemma FreeNothing(leases: map<Path, Holder>)
    ensures Free(leases, None) == leases
  {
  }

  lemma ActKeepsCustodians(w: World, t: Tid, x: Choice)
    requires Custodians(w) && Exclusion(w) && CanAct(w, t, x)
    ensures Custodians(DoAct(w, t, x))
  {
    var v, b := DoAct(w, t, x), TouchedObj(w, t, x);
    assert ThreadOk(w, t) && ThreadListed(w, t) && (b in w.sessions ==> SessionListed(w, b));
    hide Custodians, Exclusion, DoAct, Transfers, ThreadListed, SessionListed, Sums;
    ActSums(w, t, x);
    if Recovering(w, t, x) {
      RecTransfers(w, t, x, v);
    } else if MovesLease(w.threads[t].pc) {
      MovingTransfers(w, t, x, v);
    } else {
      StillTransfers(w, t, x, v);
    }
    TransfersKeepCustodians(w, v, t, b);
  }

  lemma StepKeepsCustodians(w: World, step: Step)
    requires Custodians(w) && Exclusion(w) && Enabled(w, step)
    ensures Custodians(Next(w, step))
  {
    hide DoAct, CanAct, Exclusion;
    if step.Act? {
      hide Custodians;
      ActKeepsCustodians(w, step.t, step.x);
    } else {
      var v := Next(w, step);
      forall p ensures HolderCarries(v, p) { assert HolderCarries(w, p); }
      forall o | o in v.sessions ensures SessionListed(v, o) { assert SessionListed(w, o); }
      forall t | t in v.threads ensures ThreadListed(v, t) { if t in w.threads { assert ThreadListed(w, t); } }
    }
  }

  lemma {:induction false} RunKeepsCustodians(w: World, steps: seq<Step>)
    requires Custodians(w) && Exclusion(w) && Runs(w, steps)
    ensures Custodians(After(w, steps))
    decreases |steps|
  {
    hide Custodians, Exclusion, Enabled, Next;
    if steps != [] {
      StepKeepsCustodians(w, steps[0]);
      StepKeepsExclusion(w, steps[0]);
      RunKeepsCustodians(Next(w, steps[0]), steps[1..]);
    }
  }
}
