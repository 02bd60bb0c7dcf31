/**
 The ACP session lifecycle as a transition system (internal/acp/service.go).
 Every critical section under the session mutex, every registry access, every
 channel close and every lease acquire or release is one atomic step, so all
 interleavings of turns, rebuilds, deferred applies, recovery commits, opens,
 closes and deletes of one session id are runs. The registry maps the id to at
 most one session object, but objects that were closed may still have threads.

 The nested call rebuild -> applyPendingSessionConfig -> rebuild of the source
 returns without doing anything after the inner call, so a thread needs no stack.
 */
module AcpProtocol {
  import opened Wrappers
  import opened AcpSession

  /** Who holds the lease of a file: some other runtime, a thread on its way, or a session object. */
  datatype Holder = Foreign | InThread(t: Tid) | InSession(o: Obj)

  /** A snapshot's recovery commit: the callback of sessionRecoveredHandler and the controller's retarget. */
  datatype Rec =
    | RecIdle
    | RecFound(path: Path, target: Obj)                    // registry answered, lease not yet acquired
    | RecHolding(path: Path, target: Obj)                  // lease acquired, bookkeeping not yet moved
    | RecUndoing(path: Path)                               // target was deleted: lease to be released
    | RecReleasing(path: Path, target: Obj, prev: Option<Path>)  // moved, old lease to be released
    | RecRetargeting(path: Path, bound: Option<Obj>)       // callback returned, controller not yet retargeted
    | RecFailed

  datatype Pc =
    | TurnWaiting
    | TurnBegun(ch: Chan)
    | TurnRunning(ch: Chan, c: Ctrl, rec: Rec)
    | TurnPersisting(ch: Chan)
    | TurnSaving(ch: Chan, c: Ctrl, rec: Rec)
    | TurnSaved(ch: Chan, c: Ctrl)
    | TurnFinishing(ch: Chan)
    | TurnClosing(ch: Chan)
    | ApplyLookup
    | ApplyRead
    | RebuildEntering(cfg: ConfigState, fromApply: bool)
    | RebuildSaving(ch: Chan, cfg: ConfigState, fromApply: bool, c: Ctrl, rec: Rec)
    | RebuildBuilding(ch: Chan, cfg: ConfigState, fromApply: bool, c: Ctrl)
    | RebuildCommitting(ch: Chan, cfg: ConfigState, fromApply: bool, c: Ctrl, next: Ctrl)
    | RebuildEnding(ch: Chan, fromApply: bool, ok: bool)
    | RebuildClosing(ch: Chan, fromApply: bool, ok: bool)
    | ApplyFailed
    | EndCapturing(del: bool)
    | EndBlocked(del: bool, waitDone: Option<Chan>, waitMaint: Option<Chan>)
    | EndTaking(del: bool)
    | EndReleasing(del: bool, taken: Option<Path>)
    | EndDone(del: bool)
    | OpenFound(path: Option<Path>, cfg: ConfigState)
    | OpenHolding(path: Option<Path>, cfg: ConfigState)
    | Finished

  datatype Thread = Thread(obj: Obj, pc: Pc)

  /** What happened to a session object's config queue and turns, for statements about whole runs. */
  datatype Event = Queue(o: Obj) | Claim(o: Obj) | EndAttempt(o: Obj) | Drop(o: Obj) | TurnBegins(o: Obj)

  datatype World = World(
    sessions: map<Obj, Session>,
    registered: Option<Obj>,
    threads: map<Tid, Thread>,
    ctrlPath: map<Ctrl, Option<Path>>,
    leases: map<Path, Holder>,
    issued: set<Chan>,
    closed: multiset<Chan>,
    // history, read by no step
    tainted: set<Obj>,
    clientFailed: set<Obj>,
    log: seq<Event>)

  const INIT := World(map[], None, map[], map[], map[], {}, multiset{}, {}, {}, [])

  // ---------- what a program counter stands for ----------

  /** The channel of the turn this thread is running: held from begin to the end of finish's section. */
  function TurnChan(pc: Pc): Option<Chan> {
    match pc
    case TurnBegun(ch) => Some(ch)
    case TurnRunning(ch, _, _) => Some(ch)
    case TurnPersisting(ch) => Some(ch)
    case TurnSaving(ch, _, _) => Some(ch)
    case TurnSaved(ch, _) => Some(ch)
    case TurnFinishing(ch) => Some(ch)
    case _ => None
  }

  /** The channel of the maintenance this thread is doing. */
  function MaintChan(pc: Pc): Option<Chan> {
    match pc
    case RebuildSaving(ch, _, _, _, _) => Some(ch)
    case RebuildBuilding(ch, _, _, _) => Some(ch)
    case RebuildCommitting(ch, _, _, _, _) => Some(ch)
    case RebuildEnding(ch, _, _) => Some(ch)
    case _ => None
  }

  function ClosingChan(pc: Pc): Option<Chan> {
    match pc
    case TurnClosing(ch) => Some(ch)
    case RebuildClosing(ch, _, _) => Some(ch)
    case _ => None
  }

  /** The controller this thread read and still relies on. */
  function CtrlOf(pc: Pc): Option<Ctrl> {
    match pc
    case TurnRunning(_, c, _) => Some(c)
    case TurnSaving(_, c, _) => Some(c)
    case TurnSaved(_, c) => Some(c)
    case RebuildSaving(_, _, _, c, _) => Some(c)
    case RebuildBuilding(_, _, _, c) => Some(c)
    case RebuildCommitting(_, _, _, c, _) => Some(c)
    case _ => None
  }

  function RecOf(pc: Pc): Option<Rec> {
    match pc
    case TurnRunning(_, _, r) => Some(r)
    case TurnSaving(_, _, r) => Some(r)
    case RebuildSaving(_, _, _, _, r) => Some(r)
    case _ => None
  }

  function WithRec(pc: Pc, r: Rec): Pc
    requires RecOf(pc).Some?
  {
    match pc
    case TurnRunning(ch, c, _) => TurnRunning(ch, c, r)
    case TurnSaving(ch, c, _) => TurnSaving(ch, c, r)
    case RebuildSaving(ch, cfg, fa, c, _) => RebuildSaving(ch, cfg, fa, c, r)
  }

  /** On its way to read or apply the queue: such a thread will drain it. */
  predicate Draining(pc: Pc) {
    match pc
    case TurnClosing(_) => true
    case ApplyLookup => true
    case ApplyRead => true
    case RebuildEntering(_, fromApply) => fromApply
    case RebuildClosing(_, fromApply, ok) => fromApply || ok
    case ApplyFailed => true
    case _ => false
  }

  predicate IsEnd(pc: Pc) {
    pc.EndCapturing? || pc.EndBlocked? || pc.EndTaking? || pc.EndReleasing? || pc.EndDone?
  }

  predicate IsOpen(pc: Pc) {
    pc.OpenFound? || pc.OpenHolding?
  }

  /** The lease file this thread holds outside any session object. */
  function HeldBy(pc: Pc): Option<Path> {
    match pc
    case EndReleasing(_, taken) => taken
    case OpenHolding(path, _) => path
    case _ =>
      if RecOf(pc).None? then None
      else match RecOf(pc).value
        case RecHolding(path, _) => Some(path)
        case RecUndoing(path) => Some(path)
        case RecReleasing(_, _, prev) => prev
        case _ => None
  }

  /** Bookkeeping moved, controller not yet: the window of a recovery commit. */
  predicate MidCommit(pc: Pc) {
    RecOf(pc).Some? &&
    (RecOf(pc).value.RecReleasing? || (RecOf(pc).value.RecRetargeting? && RecOf(pc).value.bound.Some?))
  }

  // ---------- steps ----------

  /**
   What the environment decides in a thread's next action: a fresh channel, the
   controller's status, whether a foreign call succeeds, the controller a build
   returns, and the recovery file of a snapshot conflict.
   */
  datatype Choice = Choice(ch: Chan, status: Status, ok: bool, next: Ctrl, recover: Option<Path>)

  datatype Step =
    | SpawnTurn(t: Tid)
    | SpawnRebuild(t: Tid, cfg: ConfigState)
    | SpawnEnd(t: Tid, del: bool)
    | SpawnOpen(t: Tid, o: Obj, transcript: Option<Path>, cfg: ConfigState)
    | OtherAcquires(file: Path)
    | OtherReleases(file: Path)
    | Act(t: Tid, x: Choice)

  /** The snapshot ends now: after a refused recovery, or without one. */
  predicate SaveEnds(rec: Rec, x: Choice) {
    rec.RecFailed? || (rec.RecIdle? && x.recover.None?)
  }

  predicate Fresh(w: World, t: Tid, ch: Chan) {
    ch.owner == t && ch !in w.issued
  }

  predicate ChanClosed(w: World, ch: Option<Chan>) {
    ch.None? || ch.value in w.closed
  }

  /** A controller has a path to recover from. */
  predicate HasPath(w: World, c: Ctrl) {
    c in w.ctrlPath && w.ctrlPath[c].Some?
  }

  predicate RecEnabled(w: World, rec: Rec, c: Ctrl, x: Choice) {
    match rec
    case RecIdle => x.recover.Some? ==> HasPath(w, c)
    case RecHolding(_, target) => target in w.sessions
    case _ => true
  }

  /** Thread t can take its next action with choice x. A rebuild sees a running controller only during a turn. */
  predicate CanAct(w: World, t: Tid, x: Choice) {
    t in w.threads &&
    var o, pc := w.threads[t].obj, w.threads[t].pc;
    if IsOpen(pc) then pc.OpenHolding? ==> x.next.owner == o && x.next !in w.ctrlPath
    else
      o in w.sessions &&
      match pc
      case TurnWaiting => Fresh(w, t, x.ch)
      case TurnRunning(_, c, rec) => RecEnabled(w, rec, c, x)
      case TurnSaving(_, c, rec) => RecEnabled(w, rec, c, x)
      case RebuildEntering(_, _) => Fresh(w, t, x.ch) && (x.status.running ==> w.sessions[o].running)
      case RebuildSaving(_, _, _, c, rec) => RecEnabled(w, rec, c, x)
      case RebuildBuilding(_, _, _, c) => c in w.ctrlPath && x.next.owner == o && x.next !in w.ctrlPath
      case EndBlocked(_, waitDone, waitMaint) => ChanClosed(w, waitDone) && ChanClosed(w, waitMaint)
      case EndDone(_) => false
      case Finished => false
      case _ => true
  }

  predicate Enabled(w: World, step: Step) {
    match step
    case SpawnTurn(t) => t !in w.threads && w.registered.Some?
    case SpawnRebuild(t, _) => t !in w.threads && w.registered.Some?
    case SpawnEnd(t, _) => t !in w.threads && w.registered.Some?
    case SpawnOpen(t, o, _, _) =>
      t !in w.threads && w.registered.None? && o !in w.sessions && forall u :: u in w.threads ==> w.threads[u].obj != o
    case OtherAcquires(file) => file !in w.leases
    case OtherReleases(file) => file in w.leases && w.leases[file].Foreign?
    case Act(t, x) => CanAct(w, t, x)
  }

  function Spawn(w: World, t: Tid, o: Obj, pc: Pc): World {
    w.(threads := w.threads[t := Thread(o, pc)])
  }

  function Goto(w: World, t: Tid, pc: Pc): World
    requires t in w.threads
  {
    w.(threads := w.threads[t := w.threads[t].(pc := pc)])
  }

  function SetSession(w: World, o: Obj, s: Session): World {
    w.(sessions := w.sessions[o := s])
  }

  function SetLease(w: World, path: Option<Path>, h: Holder): World {
    if path.Some? then w.(leases := w.leases[path.value := h]) else w
  }

  function ReleaseFile(w: World, path: Option<Path>): World {
    if path.Some? then w.(leases := w.leases - {path.value}) else w
  }

  function CloseChan(w: World, ch: Chan): World {
    w.(closed := w.closed + multiset{ch})
  }

  function Note(w: World, e: Event): World {
    w.(log := w.log + [e])
  }

  function Next(w: World, step: Step): World
    requires Enabled(w, step)
  {
    match step
    case SpawnTurn(t) => Spawn(w, t, w.registered.value, TurnWaiting)
    case SpawnRebuild(t, cfg) => Spawn(w, t, w.registered.value, RebuildEntering(cfg, false))
    case SpawnEnd(t, del) => Spawn(w, t, w.registered.value, EndCapturing(del)).(registered := None)
    case SpawnOpen(t, o, transcript, cfg) => Spawn(w, t, o, OpenFound(transcript, cfg))
    case OtherAcquires(file) => SetLease(w, Some(file), Foreign)
    case OtherReleases(file) => ReleaseFile(w, Some(file))
    case Act(t, x) => DoAct(w, t, x)
  }

  /** The action of thread t at its program counter. */
  function DoAct(w: World, t: Tid, x: Choice): World
    requires CanAct(w, t, x)
  {
    var o, pc := w.threads[t].obj, w.threads[t].pc;
    match pc
    case OpenFound(path, cfg) => DoTakeForOpen(w, t, path, cfg)
    case OpenHolding(path, cfg) =>
      if x.ok then DoRegister(w, t, o, path, cfg, x.next) else ReleaseFile(Goto(w, t, Finished), path)
    case TurnWaiting => if Admits(w.sessions[o]) then DoBegin(w, t, o, x.ch) else Goto(w, t, Finished)
    case TurnBegun(ch) => Goto(w, t, TurnRunning(ch, w.sessions[o].ctrl, RecIdle))
    case TurnRunning(ch, _, rec) => if SaveEnds(rec, x) then Goto(w, t, TurnPersisting(ch)) else DoRec(w, t, x)
    case TurnPersisting(ch) =>
      Goto(w, t, if w.sessions[o].deleted then TurnFinishing(ch) else TurnSaving(ch, w.sessions[o].ctrl, RecIdle))
    case TurnSaving(ch, c, rec) => if SaveEnds(rec, x) then Goto(w, t, TurnSaved(ch, c)) else DoRec(w, t, x)
    case TurnSaved(ch, _) => Goto(w, t, TurnFinishing(ch))
    case TurnFinishing(ch) => DoFinish(w, t, o, ch)
    case TurnClosing(ch) => CloseChan(Goto(w, t, ApplyLookup), ch)
    case ApplyLookup => Goto(w, t, if w.registered == Some(o) then ApplyRead else Finished)
    case ApplyRead =>
      var s := w.sessions[o];
      Goto(w, t, if s.deleted || s.pending.None? then Finished else RebuildEntering(s.pending.value, true))
    case RebuildEntering(cfg, fromApply) => DoEnter(w, t, o, cfg, fromApply, x)
    case RebuildSaving(ch, cfg, fromApply, c, rec) =>
      if SaveEnds(rec, x) then
        Goto(w, t, if rec.RecIdle? && x.ok then RebuildBuilding(ch, cfg, fromApply, c) else RebuildEnding(ch, fromApply, false))
      else DoRec(w, t, x)
    case RebuildBuilding(ch, cfg, fromApply, c) =>
      if x.ok then DoBuild(w, t, RebuildCommitting(ch, cfg, fromApply, c, x.next), c, x.next)
      else Goto(w, t, RebuildEnding(ch, fromApply, false))
    case RebuildCommitting(ch, cfg, fromApply, c, next) => DoCommit(w, t, o, ch, cfg, fromApply, c, next)
    case RebuildEnding(ch, fromApply, ok) => DoEndMaintenance(w, t, o, ch, fromApply, ok)
    case RebuildClosing(ch, fromApply, ok) =>
      CloseChan(Goto(w, t, if ok then ApplyLookup else if fromApply then ApplyFailed else Finished), ch)
    case ApplyFailed => DoDrop(w, t, o)
    case EndCapturing(del) => DoCapture(w, t, o, del)
    case EndBlocked(del, _, _) => Goto(w, t, EndTaking(del))
    case EndTaking(del) => DoTakeForEnd(w, t, o, del)
    case EndReleasing(del, taken) => ReleaseFile(Goto(w, t, EndDone(del)), taken)
  }

  /** TryAcquireSessionLease on the transcript to be opened. */
  function DoTakeForOpen(w: World, t: Tid, path: Option<Path>, cfg: ConfigState): World
    requires t in w.threads
  {
    if path.Some? && path.value in w.leases then Goto(w, t, Finished)
    else SetLease(Goto(w, t, OpenHolding(path, cfg)), path, InThread(t))
  }

  function DoBegin(w: World, t: Tid, o: Obj, ch: Chan): World
    requires t in w.threads && o in w.sessions
  {
    Note(SetSession(Goto(w, t, TurnBegun(ch)), o, BeginTurn(w.sessions[o], ch)).(issued := w.issued + {ch}), TurnBegins(o))
  }

  function DoFinish(w: World, t: Tid, o: Obj, ch: Chan): World
    requires t in w.threads && o in w.sessions
  {
    SetSession(Goto(w, t, TurnClosing(ch)), o, FinishTurn(w.sessions[o]))
  }

  /** A controller built for the same file as the one it is to replace. */
  function DoBuild(w: World, t: Tid, pc: Pc, c: Ctrl, next: Ctrl): World
    requires t in w.threads && c in w.ctrlPath
  {
    Goto(w, t, pc).(ctrlPath := w.ctrlPath[next := w.ctrlPath[c]])
  }

  function DoCommit(w: World, t: Tid, o: Obj, ch: Chan, cfg: ConfigState, fromApply: bool, c: Ctrl, next: Ctrl): World
    requires t in w.threads && o in w.sessions
  {
    var s := w.sessions[o];
    SetSession(Goto(w, t, RebuildEnding(ch, fromApply, CommitsRebuild(s, c))), o, CommitRebuild(s, c, next, cfg))
  }

  /** finishMaintenance's section. */
  function DoEndMaintenance(w: World, t: Tid, o: Obj, ch: Chan, fromApply: bool, ok: bool): World
    requires t in w.threads && o in w.sessions
  {
    Note(SetSession(Goto(w, t, RebuildClosing(ch, fromApply, ok)), o, EndMaintenance(w.sessions[o], ch)).(
      clientFailed := if !ok && !fromApply then w.clientFailed + {o} else w.clientFailed - {o}), EndAttempt(o))
  }

  /** applyPendingSessionConfig after a failed attempt. */
  function DoDrop(w: World, t: Tid, o: Obj): World
    requires t in w.threads && o in w.sessions
  {
    var s := w.sessions[o];
    var after := SetSession(Goto(w, t, Finished), o, DropPending(s));
    if MayDrop(s) then Note(after, Drop(o)) else after
  }

  function DoCapture(w: World, t: Tid, o: Obj, del: bool): World
    requires t in w.threads && o in w.sessions
  {
    var s := w.sessions[o];
    SetSession(Goto(w, t, EndBlocked(del, s.done, s.maint)), o, if del then MarkDeleted(s) else s)
  }

  /** releaseSessionLease's section. */
  function DoTakeForEnd(w: World, t: Tid, o: Obj, del: bool): World
    requires t in w.threads && o in w.sessions
  {
    var s := w.sessions[o];
    SetLease(SetSession(Goto(w, t, EndReleasing(del, s.lease)), o, TakeLease(s)), s.lease, InThread(t))
  }

  /** The end of session/new, session/load and session/resume: the object enters the registry. */
  function DoRegister(w: World, t: Tid, o: Obj, path: Option<Path>, cfg: ConfigState, c: Ctrl): World
    requires t in w.threads
  {
    SetLease(Goto(w, t, Finished), path, InSession(o)).(
      sessions := w.sessions[o := Session(false, None, false, None, None, c, cfg, path, path)],
      registered := Some(o),
      ctrlPath := w.ctrlPath[c := path])
  }

  /** rebuildSession's first critical section. */
  function DoEnter(w: World, t: Tid, o: Obj, cfg: ConfigState, fromApply: bool, x: Choice): World
    requires t in w.threads && o in w.sessions
  {
    var s := w.sessions[o];
    var entered := SetSession(w, o, EnterRebuild(s, x.status, cfg, x.ch));
    match RebuildEntry(s, x.status)
    case Queued => Note(Goto(entered, t, Finished), Queue(o))
    case Claimed => Note(Goto(entered, t, RebuildSaving(x.ch, cfg, fromApply, s.ctrl, RecIdle)).(issued := w.issued + {x.ch}), Claim(o))
    case RefusedDeleted => Goto(w, t, if fromApply then ApplyFailed else Finished)
    case RefusedPrompt => Goto(w, t, if fromApply then ApplyFailed else Finished)
    case RefusedJobs => Goto(w, t, if fromApply then ApplyFailed else Finished)
  }

  /** Where a recovery commit goes next: sessionRecoveredHandler, then the controller's retarget. */
  function RecAfter(w: World, rec: Rec, x: Choice): Rec
    requires !SaveEnds(rec, x) && (rec.RecHolding? ==> rec.target in w.sessions)
  {
    match rec
    case RecIdle =>
      if w.registered.None? then RecRetargeting(x.recover.value, None) else RecFound(x.recover.value, w.registered.value)
    case RecFound(path, target) => if path in w.leases then RecFailed else RecHolding(path, target)
    case RecHolding(path, target) =>
      if w.sessions[target].deleted then RecUndoing(path) else RecReleasing(path, target, w.sessions[target].lease)
    case RecUndoing(path) => RecFailed
    case RecReleasing(path, target, prev) => RecRetargeting(path, Some(target))
    case RecRetargeting(path, bound) => RecIdle
  }

  function DoRec(w: World, t: Tid, x: Choice): World
    requires t in w.threads && RecOf(w.threads[t].pc).Some? && CtrlOf(w.threads[t].pc).Some?
    requires var rec := RecOf(w.threads[t].pc).value;
             && !SaveEnds(rec, x) && RecEnabled(w, rec, CtrlOf(w.threads[t].pc).value, x)
  {
    var o, pc, rec := w.threads[t].obj, w.threads[t].pc, RecOf(w.threads[t].pc).value;
    var moved := Goto(w, t, WithRec(pc, RecAfter(w, rec, x)));
    match rec
    case RecIdle => moved
    case RecFound(path, target) => if path in w.leases then moved else SetLease(moved, Some(path), InThread(t))
    case RecHolding(path, target) => DoBind(moved, t, o, path, target)
    case RecUndoing(path) => ReleaseFile(moved, Some(path))
    case RecReleasing(path, target, prev) => ReleaseFile(moved, prev)
    case RecRetargeting(path, bound) => DoRetarget(moved, o, CtrlOf(pc).value, path, bound)
  }

  /** The critical section of the recovery callback on the session object the registry named. */
  function DoBind(w: World, t: Tid, o: Obj, path: Path, target: Obj): World
    requires target in w.sessions
  {
    var s := w.sessions[target];
    if s.deleted then w
    else
      SetLease(SetLease(SetSession(w, target, BindRecovery(s, path)), Some(path), InSession(target)), s.lease, InThread(t)).(
        tainted := if target == o then w.tainted else w.tainted + {target})
  }

  /** The controller moves to the recovery file once the callback accepted it. */
  function DoRetarget(w: World, o: Obj, c: Ctrl, path: Path, bound: Option<Obj>): World {
    w.(ctrlPath := w.ctrlPath[c := Some(path)],
       tainted := if bound == Some(o) && o in w.sessions && w.sessions[o].transcript == Some(path) then w.tainted - {o} else w.tainted)
  }

  // ---------- runs ----------

  predicate Runs(w: World, steps: seq<Step>)
    decreases steps
  {
    steps == [] || (Enabled(w, steps[0]) && Runs(Next(w, steps[0]), steps[1..]))
  }

  function After(w: World, steps: seq<Step>): World
    requires Runs(w, steps)
    decreases steps
  {
    if steps == [] then w else After(Next(w, steps[0]), steps[1..])
  }

  lemma {:induction false} RunsConcat(w: World, a: seq<Step>, b: seq<Step>)
    requires Runs(w, a) && Runs(After(w, a), b)
    ensures Runs(w, a + b) && After(w, a + b) == After(After(w, a), b)
    decreases |a|
  {
    hide Enabled, Next;
    if a == [] {
      assert a + b == b;
    } else {
      RunsConcat(Next(w, a[0]), a[1..], b);
      assert (a + b)[0] == a[0] && (a + b)[1..] == a[1..] + b;
    }
  }
}
