/**
 What one thread action does to each part of the world, separately: the new
 program counter, the session objects, the leases, the controllers' paths, the
 queue history. Every statement about all runs is proved from these.
 */
module AcpEffects {
  import opened Wrappers
  import opened AcpSession
  import opened AcpProtocol

  /** t is inside a snapshot that goes on. */
  predicate Recovering(w: World, t: Tid, x: Choice) {
    t in w.threads && RecOf(w.threads[t].pc).Some? && !SaveEnds(RecOf(w.threads[t].pc).value, x)
  }

  function PcAfter(w: World, t: Tid, x: Choice): Pc
    requires CanAct(w, t, x)
  {
    var o, pc := w.threads[t].obj, w.threads[t].pc;
    if Recovering(w, t, x) then WithRec(pc, RecAfter(w, RecOf(pc).value, x))
    else
      match pc
      case OpenFound(path, cfg) => if path.Some? && path.value in w.leases then Finished else OpenHolding(path, cfg)
      case OpenHolding(_, _) => Finished
      case TurnWaiting => if Admits(w.sessions[o]) then TurnBegun(x.ch) else Finished
      case TurnBegun(ch) => TurnRunning(ch, w.sessions[o].ctrl, RecIdle)
      case TurnRunning(ch, _, _) => TurnPersisting(ch)
      case TurnPersisting(ch) => if w.sessions[o].deleted then TurnFinishing(ch) else TurnSaving(ch, w.sessions[o].ctrl, RecIdle)
      case TurnSaving(ch, c, _) => TurnSaved(ch, c)
      case TurnSaved(ch, _) => TurnFinishing(ch)
      case TurnFinishing(ch) => TurnClosing(ch)
      case TurnClosing(_) => ApplyLookup
      case ApplyLookup => if w.registered == Some(o) then ApplyRead else Finished
      case ApplyRead =>
        var s := w.sessions[o];
        if s.deleted || s.pending.None? then Finished else RebuildEntering(s.pending.value, true)
      case RebuildEntering(cfg, fromApply) => AfterEntry(RebuildEntry(w.sessions[o], x.status), x.ch, cfg, fromApply, w.sessions[o].ctrl)
      case RebuildSaving(ch, cfg, fromApply, c, rec) =>
        if rec.RecIdle? && x.ok then RebuildBuilding(ch, cfg, fromApply, c) else RebuildEnding(ch, fromApply, false)
      case RebuildBuilding(ch, cfg, fromApply, c) =>
        if x.ok then RebuildCommitting(ch, cfg, fromApply, c, x.next) else RebuildEnding(ch, fromApply, false)
      case RebuildCommitting(ch, _, fromApply, c, _) => RebuildEnding(ch, fromApply, CommitsRebuild(w.sessions[o], c))
      case RebuildEnding(ch, fromApply, ok) => RebuildClosing(ch, fromApply, ok)
      case RebuildClosing(_, fromApply, ok) => if ok then ApplyLookup else if fromApply then ApplyFailed else Finished
      case ApplyFailed => Finished
      case EndCapturing(del) => EndBlocked(del, w.sessions[o].done, w.sessions[o].maint)
      case EndBlocked(del, _, _) => EndTaking(del)
      case EndTaking(del) => EndReleasing(del, w.sessions[o].lease)
      case EndReleasing(del, _) => EndDone(del)
  }

  function AfterEntry(entry: Entry, ch: Chan, cfg: ConfigState, fromApply: bool, c: Ctrl): Pc {
    match entry
    case Queued => Finished
    case Claimed => RebuildSaving(ch, cfg, fromApply, c, RecIdle)
    case _ => if fromApply then ApplyFailed else Finished
  }

  function SessionsAfter(w: World, t: Tid, x: Choice): map<Obj, Session>
    requires CanAct(w, t, x)
  {
    var o, pc := w.threads[t].obj, w.threads[t].pc;
    if Recovering(w, t, x) then
      var rec := RecOf(pc).value;
      if rec.RecHolding? then w.sessions[rec.target := BindRecovery(w.sessions[rec.target], rec.path)] else w.sessions
    else
      match pc
      case OpenHolding(path, cfg) =>
        if x.ok then w.sessions[o := Session(false, None, false, None, None, x.next, cfg, path, path)] else w.sessions
      case TurnWaiting => if Admits(w.sessions[o]) then w.sessions[o := BeginTurn(w.sessions[o], x.ch)] else w.sessions
      case TurnFinishing(_) => w.sessions[o := FinishTurn(w.sessions[o])]
      case RebuildEntering(cfg, _) => w.sessions[o := EnterRebuild(w.sessions[o], x.status, cfg, x.ch)]
      case RebuildCommitting(_, cfg, _, c, next) => w.sessions[o := CommitRebuild(w.sessions[o], c, next, cfg)]
      case RebuildEnding(ch, _, _) => w.sessions[o := EndMaintenance(w.sessions[o], ch)]
      case ApplyFailed => w.sessions[o := DropPending(w.sessions[o])]
      case EndCapturing(del) => if del then w.sessions[o := MarkDeleted(w.sessions[o])] else w.sessions
      case EndTaking(_) => w.sessions[o := TakeLease(w.sessions[o])]
      case _ => w.sessions
  }

  function Give(leases: map<Path, Holder>, path: Option<Path>, h: Holder): map<Path, Holder> {
    if path.Some? then leases[path.value := h] else leases
  }

  function Free(leases: map<Path, Holder>, path: Option<Path>): map<Path, Holder> {
    if path.Some? then leases - {path.value} else leases
  }

  function LeasesAfter(w: World, t: Tid, x: Choice): map<Path, Holder>
    requires CanAct(w, t, x)
  {
    var o, pc := w.threads[t].obj, w.threads[t].pc;
    if Recovering(w, t, x) then RecLeases(w, t, RecOf(pc).value)
    else
      match pc
      case OpenFound(path, _) => if path.Some? && path.value in w.leases then w.leases else Give(w.leases, path, InThread(t))
      case OpenHolding(path, _) => if x.ok then Give(w.leases, path, InSession(o)) else Free(w.leases, path)
      case EndTaking(_) => Give(w.leases, w.sessions[o].lease, InThread(t))
      case EndReleasing(_, taken) => Free(w.leases, taken)
      case _ => w.leases
  }

  function RecLeases(w: World, t: Tid, rec: Rec): map<Path, Holder>
    requires rec.RecHolding? ==> rec.target in w.sessions
  {
    match rec
    case RecFound(path, _) => if path in w.leases then w.leases else Give(w.leases, Some(path), InThread(t))
    case RecHolding(path, target) =>
      if w.sessions[target].deleted then w.leases
      else Give(Give(w.leases, Some(path), InSession(target)), w.sessions[target].lease, InThread(t))
    case RecUndoing(path) => Free(w.leases, Some(path))
    case RecReleasing(_, _, prev) => Free(w.leases, prev)
    case _ => w.leases
  }

  function RegisteredAfter(w: World, t: Tid, x: Choice): Option<Obj>
    requires CanAct(w, t, x)
  {
    if w.threads[t].pc.OpenHolding? && x.ok then Some(w.threads[t].obj) else w.registered
  }

  function CtrlPathAfter(w: World, t: Tid, x: Choice): map<Ctrl, Option<Path>>
    requires CanAct(w, t, x)
  {
    var pc := w.threads[t].pc;
    if Recovering(w, t, x) then
      if RecOf(pc).value.RecRetargeting? then w.ctrlPath[CtrlOf(pc).value := Some(RecOf(pc).value.path)] else w.ctrlPath
    else if pc.OpenHolding? && x.ok then w.ctrlPath[x.next := pc.path]
    else if pc.RebuildBuilding? && x.ok then w.ctrlPath[x.next := w.ctrlPath[pc.c]]
    else w.ctrlPath
  }

  function TaintedAfter(w: World, t: Tid, x: Choice): set<Obj>
    requires CanAct(w, t, x)
  {
    var o := w.threads[t].obj;
    if !Recovering(w, t, x) then w.tainted
    else
      match RecOf(w.threads[t].pc).value
      case RecHolding(_, target) => if w.sessions[target].deleted || target == o then w.tainted else w.tainted + {target}
      case RecRetargeting(path, bound) =>
        if bound == Some(o) && o in w.sessions && w.sessions[o].transcript == Some(path) then w.tainted - {o} else w.tainted
      case _ => w.tainted
  }

  function ClientFailedAfter(w: World, t: Tid, x: Choice): set<Obj>
    requires CanAct(w, t, x)
  {
    var o, pc := w.threads[t].obj, w.threads[t].pc;
    if pc.RebuildEnding? then (if !pc.ok && !pc.fromApply then w.clientFailed + {o} else w.clientFailed - {o}) else w.clientFailed
  }

  function EventsOf(w: World, t: Tid, x: Choice): seq<Event>
    requires CanAct(w, t, x)
  {
    var o := w.threads[t].obj;
    match w.threads[t].pc
    case TurnWaiting => if Admits(w.sessions[o]) then [TurnBegins(o)] else []
    case RebuildEntering(_, _) =>
      var entry := RebuildEntry(w.sessions[o], x.status);
      if entry.Queued? then [Queue(o)] else if entry.Claimed? then [Claim(o)] else []
    case RebuildEnding(_, _, _) => [EndAttempt(o)]
    case ApplyFailed => if MayDrop(w.sessions[o]) then [Drop(o)] else []
    case _ => []
  }

  // ---------- the action is the sum of its effects ----------

  /** v has the program counters and the session objects that t's action leaves. */
  predicate SumsMoves(w: World, t: Tid, x: Choice, v: World)
    requires CanAct(w, t, x)
  {
    v.threads == w.threads[t := Thread(w.threads[t].obj, PcAfter(w, t, x))] && v.sessions == SessionsAfter(w, t, x)
  }

  /** v has the registry, the leases, the controllers' paths and the history that t's action leaves. */
  predicate SumsRest(w: World, t: Tid, x: Choice, v: World)
    requires CanAct(w, t, x)
  {
    && v.registered == RegisteredAfter(w, t, x)
    && v.leases == LeasesAfter(w, t, x)
    && v.ctrlPath == CtrlPathAfter(w, t, x)
    && v.tainted == TaintedAfter(w, t, x)
    && v.clientFailed == ClientFailedAfter(w, t, x)
    && v.log == w.log + EventsOf(w, t, x)
  }

  /** v is w with the effects of t's action. */
  predicate Sums(w: World, t: Tid, x: Choice, v: World)
    requires CanAct(w, t, x)
  {
    SumsMoves(w, t, x, v) && SumsRest(w, t, x, v)
  }

  predicate IsTurn(pc: Pc) {
    pc.TurnWaiting? || pc.TurnBegun? || pc.TurnRunning? || pc.TurnPersisting? ||
    pc.TurnSaving? || pc.TurnSaved? || pc.TurnFinishing? || pc.TurnClosing?
  }

  predicate IsRebuild(pc: Pc) {
    pc.RebuildSaving? || pc.RebuildBuilding? || pc.RebuildCommitting? || pc.RebuildEnding? || pc.RebuildClosing?
  }

  /** Which section an action runs, by program counter. */
  lemma ActAt(w: World, t: Tid, x: Choice)
    requires CanAct(w, t, x)
    ensures var o, pc, v := w.threads[t].obj, w.threads[t].pc, DoAct(w, t, x);
            && (pc.OpenFound? ==> v == DoTakeForOpen(w, t, pc.path, pc.cfg))
            && (pc.OpenHolding? && x.ok ==> v == DoRegister(w, t, o, pc.path, pc.cfg, x.next))
            && (pc.TurnWaiting? && Admits(w.sessions[o]) ==> v == DoBegin(w, t, o, x.ch))
            && (pc.TurnFinishing? ==> v == DoFinish(w, t, o, pc.ch))
            && (pc.RebuildEntering? ==> v == DoEnter(w, t, o, pc.cfg, pc.fromApply, x))
            && (pc.EndCapturing? ==> v == DoCapture(w, t, o, pc.del))
            && (pc.EndTaking? ==> v == DoTakeForEnd(w, t, o, pc.del))
            && (Recovering(w, t, x) ==> v == DoRec(w, t, x))
  {
    hide DoTakeForOpen, DoRegister, DoBegin, DoRec, DoFinish, DoEnter, DoBuild, DoCommit, DoEndMaintenance, DoDrop, DoCapture, DoTakeForEnd;
    hide Admits, RebuildEntry, CommitsRebuild;
  }

  lemma BeginSums(w: World, t: Tid, x: Choice)
    requires CanAct(w, t, x) && w.threads[t].pc.TurnWaiting? && Admits(w.sessions[w.threads[t].obj])
    ensures Sums(w, t, x, DoAct(w, t, x))
  {
    ActAt(w, t, x);
    hide DoAct, BeginTurn, Admits;
  }

  lemma FinishSums(w: World, t: Tid, x: Choice)
    requires CanAct(w, t, x) && w.threads[t].pc.TurnFinishing?
    ensures Sums(w, t, x, DoAct(w, t, x))
  {
    ActAt(w, t, x);
    hide DoAct, FinishTurn;
  }

  lemma TurnSums(w: World, t: Tid, x: Choice)
    requires CanAct(w, t, x) && !Recovering(w, t, x) && IsTurn(w.threads[t].pc)
    ensures Sums(w, t, x, DoAct(w, t, x))
  {
    var pc := w.threads[t].pc;
    if pc.TurnWaiting? && Admits(w.sessions[w.threads[t].obj]) {
      hide DoAct, Sums;
      BeginSums(w, t, x);
    } else if pc.TurnFinishing? {
      hide DoAct, Sums;
      FinishSums(w, t, x);
    } else {
      hide DoTakeForOpen, DoRegister, DoBegin, DoRec, DoFinish, DoEnter, DoBuild, DoCommit, DoEndMaintenance, DoDrop, DoCapture, DoTakeForEnd;
      hide Admits, RebuildEntry, RecAfter;
    }
  }

  lemma RebuildMoves(w: World, t: Tid, x: Choice)
    requires CanAct(w, t, x) && !Recovering(w, t, x) && IsRebuild(w.threads[t].pc)
    ensures SumsMoves(w, t, x, DoAct(w, t, x))
  {
    hide SumsRest, RegisteredAfter, LeasesAfter, CtrlPathAfter, TaintedAfter, ClientFailedAfter, EventsOf;
    hide DoTakeForOpen, DoRegister, DoBegin, DoRec, DoFinish, DoEnter, DoDrop, DoCapture, DoTakeForEnd;
    hide CommitRebuild, EndMaintenance, CommitsRebuild, RecAfter, RecLeases;
  }

  lemma RebuildRest(w: World, t: Tid, x: Choice)
    requires CanAct(w, t, x) && !Recovering(w, t, x) && IsRebuild(w.threads[t].pc)
    ensures SumsRest(w, t, x, DoAct(w, t, x))
  {
    hide SumsMoves, PcAfter, SessionsAfter;
    hide DoTakeForOpen, DoRegister, DoBegin, DoRec, DoFinish, DoEnter, DoDrop, DoCapture, DoTakeForEnd;
    hide CommitRebuild, EndMaintenance, CommitsRebuild, RecAfter, RecLeases;
  }

  lemma EnterMoves(w: World, t: Tid, x: Choice)
    requires CanAct(w, t, x) && w.threads[t].pc.RebuildEntering?
    ensures SumsMoves(w, t, x, DoAct(w, t, x))
  {
    hide SumsRest, RegisteredAfter, LeasesAfter, CtrlPathAfter, TaintedAfter, ClientFailedAfter, EventsOf;
    ActAt(w, t, x);
    hide DoAct, RebuildEntry, RecAfter, RecLeases;
  }

  lemma EnterRest(w: World, t: Tid, x: Choice)
    requires CanAct(w, t, x) && w.threads[t].pc.RebuildEntering?
    ensures SumsRest(w, t, x, DoAct(w, t, x))
  {
    hide SumsMoves, PcAfter, SessionsAfter;
    ActAt(w, t, x);
    hide DoAct, RebuildEntry, RecAfter, RecLeases;
  }

  lemma ApplySums(w: World, t: Tid, x: Choice)
    requires CanAct(w, t, x)
    requires w.threads[t].pc.ApplyLookup? || w.threads[t].pc.ApplyRead? || w.threads[t].pc.ApplyFailed?
    ensures Sums(w, t, x, DoAct(w, t, x))
  {
    hide DoTakeForOpen, DoRegister, DoBegin, DoRec, DoFinish, DoEnter, DoBuild, DoCommit, DoEndMaintenance, DoCapture, DoTakeForEnd;
    hide RecAfter;
  }

  lemma SectionMoves(w: World, t: Tid, x: Choice)
    requires CanAct(w, t, x) && (w.threads[t].pc.EndCapturing? || w.threads[t].pc.EndTaking?)
    ensures SumsMoves(w, t, x, DoAct(w, t, x))
  {
    hide SumsRest, RegisteredAfter, LeasesAfter, CtrlPathAfter, TaintedAfter, ClientFailedAfter, EventsOf;
    ActAt(w, t, x);
    assert w.sessions == w.sessions[w.threads[t].obj := w.sessions[w.threads[t].obj]];
    hide DoAct, MarkDeleted, TakeLease, RecAfter, RecLeases;
  }

  lemma SectionRest(w: World, t: Tid, x: Choice)
    requires CanAct(w, t, x) && (w.threads[t].pc.EndCapturing? || w.threads[t].pc.EndTaking?)
    ensures SumsRest(w, t, x, DoAct(w, t, x))
  {
    hide SumsMoves, PcAfter, SessionsAfter;
    ActAt(w, t, x);
    assert w.sessions == w.sessions[w.threads[t].obj := w.sessions[w.threads[t].obj]];
    hide DoAct, MarkDeleted, TakeLease, RecAfter, RecLeases;
  }

  lemma OpenMoves(w: World, t: Tid, x: Choice)
    requires CanAct(w, t, x) && (w.threads[t].pc.OpenFound? || (w.threads[t].pc.OpenHolding? && x.ok))
    ensures SumsMoves(w, t, x, DoAct(w, t, x))
  {
    hide SumsRest, RegisteredAfter, LeasesAfter, CtrlPathAfter, TaintedAfter, ClientFailedAfter, EventsOf;
    ActAt(w, t, x);
    hide DoAct, RecAfter, RecLeases;
  }

  lemma TakeForOpenRest(w: World, t: Tid, x: Choice)
    requires CanAct(w, t, x) && w.threads[t].pc.OpenFound?
    ensures SumsRest(w, t, x, DoAct(w, t, x))
  {
    hide SumsMoves, PcAfter, SessionsAfter;
    ActAt(w, t, x);
    hide DoAct, RecAfter, RecLeases;
  }

  lemma RegisterRest(w: World, t: Tid, x: Choice)
    requires CanAct(w, t, x) && w.threads[t].pc.OpenHolding? && x.ok
    ensures SumsRest(w, t, x, DoAct(w, t, x))
  {
    hide SumsMoves, PcAfter, SessionsAfter;
    ActAt(w, t, x);
    hide DoAct, RecAfter, RecLeases;
  }

  /** The rest of opening and ending: no section, at most a release. */
  lemma ReleaseSums(w: World, t: Tid, x: Choice)
    requires CanAct(w, t, x)
    requires w.threads[t].pc.EndBlocked? || w.threads[t].pc.EndReleasing? || (w.threads[t].pc.OpenHolding? && !x.ok)
    ensures Sums(w, t, x, DoAct(w, t, x))
  {
    hide DoTakeForOpen, DoRegister, DoBegin, DoRec, DoFinish, DoEnter, DoBuild, DoCommit, DoEndMaintenance, DoDrop, DoCapture, DoTakeForEnd;
    hide RecAfter, RecLeases;
  }

  lemma RecMoves(w: World, t: Tid, x: Choice)
    requires CanAct(w, t, x) && Recovering(w, t, x)
    ensures SumsMoves(w, t, x, DoAct(w, t, x))
  {
    hide SumsRest, RegisteredAfter, LeasesAfter, CtrlPathAfter, TaintedAfter, ClientFailedAfter, EventsOf;
    var rec := RecOf(w.threads[t].pc).value;
    ActAt(w, t, x);
    RecoveringPc(w.threads[t].pc);
    assert rec.RecHolding? ==> w.sessions == w.sessions[rec.target := w.sessions[rec.target]];
    hide DoAct, WithRec, CanAct, TurnChan, RecAfter;
  }

  lemma RecRest(w: World, t: Tid, x: Choice)
    requires CanAct(w, t, x) && Recovering(w, t, x)
    ensures SumsRest(w, t, x, DoAct(w, t, x))
  {
    hide SumsMoves, PcAfter, SessionsAfter;
    var rec := RecOf(w.threads[t].pc).value;
    ActAt(w, t, x);
    RecoveringPc(w.threads[t].pc);
    assert rec.RecHolding? ==> w.sessions == w.sessions[rec.target := w.sessions[rec.target]];
    hide DoAct, WithRec, CanAct, TurnChan, RecAfter;
  }

  lemma RecoveringPc(pc: Pc)
    requires RecOf(pc).Some?
    ensures pc.TurnRunning? || pc.TurnSaving? || pc.RebuildSaving?
  {
  }

  /** The action is the sum of its effects. */
  lemma ActSums(w: World, t: Tid, x: Choice)
    requires CanAct(w, t, x)
    ensures Sums(w, t, x, DoAct(w, t, x))
  {
    hide SumsMoves, SumsRest, DoAct;
    var pc := w.threads[t].pc;
    if Recovering(w, t, x) { RecMoves(w, t, x); RecRest(w, t, x); }
    else if IsTurn(pc) { TurnSums(w, t, x); }
    else if IsRebuild(pc) { RebuildMoves(w, t, x); RebuildRest(w, t, x); }
    else if pc.RebuildEntering? { EnterMoves(w, t, x); EnterRest(w, t, x); }
    else if pc.EndCapturing? || pc.EndTaking? { SectionMoves(w, t, x); SectionRest(w, t, x); }
    else if pc.OpenFound? || (pc.OpenHolding? && x.ok) {
      OpenMoves(w, t, x);
      if pc.OpenFound? { TakeForOpenRest(w, t, x); } else { RegisterRest(w, t, x); }
    }
    else if pc.EndBlocked? || pc.EndReleasing? || pc.OpenHolding? { ReleaseSums(w, t, x); }
    else { ApplySums(w, t, x); }
  }
}
