/**
 Turn/maintenance exclusion over every interleaving: who owns the running turn,
 who owns the maintenance slot, which controller they may rely on, and that no
 done channel is closed twice.
 */
module AcpExclusion {
  import opened Wrappers
  import opened AcpSession
  import opened AcpProtocol

  /** t made this channel and it is still open. */
  predicate Mine(w: World, t: Tid, ch: Chan) {
    ch.owner == t && ch in w.issued && ch !in w.closed
  }

  predicate ThreadOk(w: World, t: Tid)
    requires t in w.threads
  {
    var o, pc := w.threads[t].obj, w.threads[t].pc;
    && (IsOpen(pc) || pc.Finished? || o in w.sessions)
    && (IsOpen(pc) ==> o !in w.sessions && forall u :: u in w.threads && u != t ==> w.threads[u].obj != o)
    && (TurnChan(pc).Some? ==>
          o in w.sessions && w.sessions[o].running && w.sessions[o].done == TurnChan(pc) && Mine(w, t, TurnChan(pc).value))
    && (MaintChan(pc).Some? ==>
          o in w.sessions && w.sessions[o].maint == MaintChan(pc) && Mine(w, t, MaintChan(pc).value))
    && (ClosingChan(pc).Some? ==> Mine(w, t, ClosingChan(pc).value))
    && (CtrlOf(pc).Some? ==> o in w.sessions && w.sessions[o].ctrl == CtrlOf(pc).value)
  }

  predicate SessionOk(w: World, o: Obj)
    requires o in w.sessions
  {
    var s := w.sessions[o];
    && (s.running <==> s.done.Some?)
    && !(s.running && s.maint.Some?)
    && (s.running ==>
          var u := s.done.value.owner; u in w.threads && w.threads[u].obj == o && TurnChan(w.threads[u].pc) == s.done)
    && (s.maint.Some? ==>
          var u := s.maint.value.owner; u in w.threads && w.threads[u].obj == o && MaintChan(w.threads[u].pc) == s.maint)
  }

  predicate ChansOk(w: World) {
    forall ch :: ch in w.closed ==> ch in w.issued && w.closed[ch] == 1
  }

  predicate Exclusion(w: World) {
    && (forall t :: t in w.threads ==> ThreadOk(w, t))
    && (forall o :: o in w.sessions ==> SessionOk(w, o))
    && ChansOk(w)
    && (w.registered.Some? ==> w.registered.value in w.sessions)
  }

  lemma InitExclusion()
    ensures Exclusion(INIT)
  {
  }

  // ---------- the frame of the actions that touch no slot ----------

  /** The parts of a session that exclusion speaks about. */
  predicate SameSlots(a: Session, b: Session) {
    a.running == b.running && a.done == b.done && a.maint == b.maint && a.ctrl == b.ctrl
  }

  /** From w to v nothing that exclusion speaks about changed but the program counters. */
  predicate SameWorld(w: World, v: World) {
    && v.sessions.Keys == w.sessions.Keys
    && (forall o :: o in w.sessions ==> SameSlots(v.sessions[o], w.sessions[o]))
    && v.issued == w.issued && v.closed == w.closed && v.registered == w.registered
  }

  /** A thread on o moves from p to q, keeping its channels; a controller it starts to rely on is the session's. */
  predicate QuietPc(w: World, o: Obj, p: Pc, q: Pc) {
    && TurnChan(q) == TurnChan(p) && MaintChan(q) == MaintChan(p) && ClosingChan(q) == ClosingChan(p)
    && (IsOpen(q) ==> IsOpen(p)) && (IsOpen(p) || p.Finished? ==> IsOpen(q) || q.Finished?)
    && (CtrlOf(q).Some? ==> CtrlOf(q) == CtrlOf(p) || (o in w.sessions && CtrlOf(q).value == w.sessions[o].ctrl))
  }

  predicate QuietMove(w: World, v: World, t: Tid) {
    && t in w.threads && t in v.threads
    && v.threads == w.threads[t := Thread(w.threads[t].obj, v.threads[t].pc)]
    && SameWorld(w, v)
    && QuietPc(w, w.threads[t].obj, w.threads[t].pc, v.threads[t].pc)
  }

  lemma QuietThread(w: World, v: World, t: Tid, u: Tid)
    requires u in w.threads && ThreadOk(w, u) && QuietMove(w, v, t)
    ensures ThreadOk(v, u)
  {
    hide TurnChan, MaintChan, ClosingChan, CtrlOf;
  }

  lemma QuietSession(w: World, v: World, t: Tid, o: Obj)
    requires o in w.sessions && SessionOk(w, o) && QuietMove(w, v, t)
    ensures SessionOk(v, o)
  {
    hide TurnChan, MaintChan, ClosingChan, CtrlOf;
  }

  lemma QuietKeepsExclusion(w: World, v: World, t: Tid)
    requires Exclusion(w) && QuietMove(w, v, t)
    ensures Exclusion(v)
  {
    hide ThreadOk, SessionOk, QuietPc;
    forall u | u in v.threads ensures ThreadOk(v, u) { QuietThread(w, v, t, u); }
    forall o | o in v.sessions ensures SessionOk(v, o) { QuietSession(w, v, t, o); }
  }

  lemma SpawnKeepsExclusion(w: World, t: Tid, o: Obj, pc: Pc)
    requires Exclusion(w) && t !in w.threads
    requires TurnChan(pc).None? && MaintChan(pc).None? && ClosingChan(pc).None? && CtrlOf(pc).None?
    requires if IsOpen(pc) then o !in w.sessions && forall u :: u in w.threads ==> w.threads[u].obj != o
             else o in w.sessions
    ensures Exclusion(Spawn(w, t, o, pc))
  {
    hide TurnChan, MaintChan, ClosingChan, CtrlOf;
    var v := Spawn(w, t, o, pc);
    forall u | u in v.threads ensures ThreadOk(v, u) { if u != t { assert ThreadOk(w, u); } }
    forall b | b in v.sessions ensures SessionOk(v, b) { assert SessionOk(w, b); }
  }

  // ---------- the actions that do touch a slot ----------

  /** s2 differs from s only in slots that no thread but t can be using. */
  predicate OnlyOwnSlots(s: Session, s2: Session, t: Tid) {
    && ((s2.running == s.running && s2.done == s.done) || (s.done.Some? ==> s.done.value.owner == t))
    && (s2.maint == s.maint || (s.maint.Some? ==> s.maint.value.owner == t))
    && (s2.ctrl == s.ctrl || (s.maint.Some? && s.maint.value.owner == t))
  }

  /** Thread t on o moves to q and changes o's session to s; channels it makes or closes are its own. */
  predicate SlotMove(w: World, v: World, t: Tid, o: Obj, q: Pc, s: Session) {
    && t in w.threads && w.threads[t].obj == o && o in w.sessions
    && v.threads == w.threads[t := Thread(o, q)] && v.sessions == w.sessions[o := s] && v.registered == w.registered
    && w.issued <= v.issued && (forall ch :: ch in v.closed && ch !in w.closed ==> ch.owner == t)
    && OnlyOwnSlots(w.sessions[o], s, t)
  }

  /** Who relies on a controller is in a turn or a maintenance. */
  lemma ReliesInSlot(pc: Pc)
    ensures CtrlOf(pc).Some? ==> TurnChan(pc).Some? || MaintChan(pc).Some?
  {
  }

  lemma SlotMoveThread(w: World, v: World, t: Tid, o: Obj, q: Pc, s: Session, u: Tid)
    requires SlotMove(w, v, t, o, q, s) && u in w.threads && u != t
    requires ThreadOk(w, u) && SessionOk(w, o)
    ensures ThreadOk(v, u)
  {
    ReliesInSlot(w.threads[u].pc);
    hide TurnChan, MaintChan, ClosingChan, CtrlOf, IsOpen;
  }

  lemma SlotMoveSession(w: World, v: World, t: Tid, o: Obj, q: Pc, s: Session, b: Obj)
    requires SlotMove(w, v, t, o, q, s) && b in w.sessions && b != o
    requires SessionOk(w, b)
    ensures SessionOk(v, b)
  {
    hide TurnChan, MaintChan, ClosingChan, CtrlOf;
  }

  lemma SlotMoveKeepsExclusion(w: World, v: World, t: Tid, o: Obj, q: Pc, s: Session)
    requires Exclusion(w) && SlotMove(w, v, t, o, q, s)
    requires ThreadOk(v, t) && SessionOk(v, o) && ChansOk(v)
    ensures Exclusion(v)
  {
    assert v.sessions.Keys == w.sessions.Keys && v.threads.Keys == w.threads.Keys;
    hide ThreadOk, SessionOk, SlotMove, ChansOk;
    forall u | u in v.threads ensures ThreadOk(v, u) { if u != t { SlotMoveThread(w, v, t, o, q, s, u); } }
    forall b | b in v.sessions ensures SessionOk(v, b) { if b != o { SlotMoveSession(w, v, t, o, q, s, b); } }
  }

  lemma FactsFor(w: World, t: Tid)
    requires Exclusion(w) && t in w.threads && !w.threads[t].pc.Finished? && !IsOpen(w.threads[t].pc)
    ensures ThreadOk(w, t) && w.threads[t].obj in w.sessions && SessionOk(w, w.threads[t].obj) && ChansOk(w)
  {
  }

  /** A thread that is closing a channel holds nothing else. */
  lemma ClosingHoldsNothing(pc: Pc)
    requires ClosingChan(pc).Some? || pc.ApplyLookup? || pc.ApplyFailed? || pc.RebuildEntering?
    ensures TurnChan(pc).None? && MaintChan(pc).None? && CtrlOf(pc).None? && !IsOpen(pc) && !pc.Finished?
  {
  }

  lemma BeginKeepsExclusion(w: World, t: Tid, o: Obj, ch: Chan)
    requires Exclusion(w) && t in w.threads && o == w.threads[t].obj && o in w.sessions
    requires w.threads[t].pc.TurnWaiting? && Admits(w.sessions[o]) && Fresh(w, t, ch)
    ensures Exclusion(DoBegin(w, t, o, ch))
  {
    hide Exclusion;
    var v := DoBegin(w, t, o, ch);
    FactsFor(w, t);
    SlotMoveKeepsExclusion(w, v, t, o, TurnBegun(ch), BeginTurn(w.sessions[o], ch));
  }

  lemma FinishKeepsExclusion(w: World, t: Tid, o: Obj, ch: Chan)
    requires Exclusion(w) && t in w.threads && o == w.threads[t].obj && o in w.sessions
    requires w.threads[t].pc == TurnFinishing(ch)
    ensures Exclusion(DoFinish(w, t, o, ch))
  {
    hide Exclusion;
    var v := DoFinish(w, t, o, ch);
    FactsFor(w, t);
    SlotMoveKeepsExclusion(w, v, t, o, TurnClosing(ch), FinishTurn(w.sessions[o]));
  }

  lemma CloseKeepsExclusion(w: World, t: Tid, ch: Chan, pc: Pc)
    requires Exclusion(w) && t in w.threads && ClosingChan(w.threads[t].pc) == Some(ch)
    requires pc.ApplyLookup? || pc.ApplyFailed? || pc.Finished?
    ensures Exclusion(CloseChan(Goto(w, t, pc), ch))
  {
    hide Exclusion;
    var v, o := CloseChan(Goto(w, t, pc), ch), w.threads[t].obj;
    FactsFor(w, t);
    ClosingHoldsNothing(w.threads[t].pc);
    assert ClosingChan(pc).None? && IsOpen(pc) == false;
    if pc.Finished? { FinishedHasNoChannel(); } else { ClosingHoldsNothing(pc); }
    hide TurnChan, MaintChan, ClosingChan, CtrlOf, IsOpen;
    assert v.sessions == w.sessions[o := w.sessions[o]];
    SlotMoveKeepsExclusion(w, v, t, o, pc, w.sessions[o]);
  }

  lemma ClaimKeepsExclusion(w: World, t: Tid, o: Obj, cfg: ConfigState, fromApply: bool, x: Choice)
    requires Exclusion(w) && t in w.threads && o == w.threads[t].obj && o in w.sessions
    requires w.threads[t].pc == RebuildEntering(cfg, fromApply) && Fresh(w, t, x.ch)
    requires RebuildEntry(w.sessions[o], x.status).Claimed?
    ensures Exclusion(DoEnter(w, t, o, cfg, fromApply, x))
  {
    hide Exclusion;
    var v, s := DoEnter(w, t, o, cfg, fromApply, x), w.sessions[o];
    FactsFor(w, t);
    SlotMoveKeepsExclusion(w, v, t, o, RebuildSaving(x.ch, cfg, fromApply, s.ctrl, RecIdle), EnterRebuild(s, x.status, cfg, x.ch));
  }

  /** The commit is the only writer of ctrl; its owner holds the maintenance slot, so nobody else relies on ctrl. */
  lemma CommitKeepsExclusion(w: World, t: Tid, o: Obj, ch: Chan, cfg: ConfigState, fromApply: bool, c: Ctrl, next: Ctrl)
    requires Exclusion(w) && t in w.threads && o == w.threads[t].obj && o in w.sessions
    requires w.threads[t].pc == RebuildCommitting(ch, cfg, fromApply, c, next)
    ensures Exclusion(DoCommit(w, t, o, ch, cfg, fromApply, c, next))
  {
    hide Exclusion;
    var v, s := DoCommit(w, t, o, ch, cfg, fromApply, c, next), w.sessions[o];
    FactsFor(w, t);
    SlotMoveKeepsExclusion(w, v, t, o, RebuildEnding(ch, fromApply, CommitsRebuild(s, c)), CommitRebuild(s, c, next, cfg));
  }

  lemma EndMaintenanceKeepsExclusion(w: World, t: Tid, o: Obj, ch: Chan, fromApply: bool, ok: bool)
    requires Exclusion(w) && t in w.threads && o == w.threads[t].obj && o in w.sessions
    requires w.threads[t].pc == RebuildEnding(ch, fromApply, ok)
    ensures Exclusion(DoEndMaintenance(w, t, o, ch, fromApply, ok))
  {
    hide Exclusion;
    var v := DoEndMaintenance(w, t, o, ch, fromApply, ok);
    FactsFor(w, t);
    SlotMoveKeepsExclusion(w, v, t, o, RebuildClosing(ch, fromApply, ok), EndMaintenance(w.sessions[o], ch));
  }

  lemma RegisterKeepsExclusion(w: World, t: Tid, o: Obj, path: Option<Path>, cfg: ConfigState, c: Ctrl)
    requires Exclusion(w) && t in w.threads && o == w.threads[t].obj && w.threads[t].pc == OpenHolding(path, cfg)
    ensures Exclusion(DoRegister(w, t, o, path, cfg, c))
  {
    hide TurnChan, MaintChan, ClosingChan, CtrlOf;
    var v := DoRegister(w, t, o, path, cfg, c);
    assert ThreadOk(w, t);
    assert ThreadOk(v, t) by { FinishedHasNoChannel(); }
    forall u | u in v.threads && u != t ensures ThreadOk(v, u) { assert ThreadOk(w, u); }
    forall b | b in v.sessions ensures SessionOk(v, b) { if b != o { assert SessionOk(w, b); } }
  }

  lemma FinishedHasNoChannel()
    ensures TurnChan(Finished).None? && MaintChan(Finished).None? && ClosingChan(Finished).None? && CtrlOf(Finished).None?
  {
  }

  // ---------- every action ----------

  /** The actions that change a slot, a channel or the set of objects. */
  predicate TouchesSlots(w: World, t: Tid, x: Choice)
    requires CanAct(w, t, x)
  {
    match w.threads[t].pc
    case TurnWaiting => Admits(w.sessions[w.threads[t].obj])
    case TurnFinishing(_) => true
    case TurnClosing(_) => true
    case RebuildClosing(_, _, _) => true
    case RebuildEntering(_, _) => RebuildEntry(w.sessions[w.threads[t].obj], x.status).Claimed?
    case RebuildCommitting(_, _, _, _, _) => true
    case RebuildEnding(_, _, _) => true
    case OpenHolding(_, _) => x.ok
    case _ => false
  }

  lemma TouchingKeepsExclusion(w: World, t: Tid, x: Choice)
    requires Exclusion(w) && CanAct(w, t, x) && TouchesSlots(w, t, x)
    ensures Exclusion(DoAct(w, t, x))
  {
    hide Exclusion, DoBegin, DoFinish, DoEnter, DoCommit, DoEndMaintenance, DoRegister, CloseChan, Goto, RebuildEntry, Admits;
    var o := w.threads[t].obj;
    match w.threads[t].pc
    case TurnWaiting => BeginKeepsExclusion(w, t, o, x.ch);
    case TurnFinishing(ch) => FinishKeepsExclusion(w, t, o, ch);
    case TurnClosing(ch) => CloseKeepsExclusion(w, t, ch, ApplyLookup);
    case RebuildClosing(ch, fromApply, ok) =>
      CloseKeepsExclusion(w, t, ch, if ok then ApplyLookup else if fromApply then ApplyFailed else Finished);
    case RebuildEntering(cfg, fromApply) => ClaimKeepsExclusion(w, t, o, cfg, fromApply, x);
    case RebuildCommitting(ch, cfg, fromApply, c, next) => CommitKeepsExclusion(w, t, o, ch, cfg, fromApply, c, next);
    case RebuildEnding(ch, fromApply, ok) => EndMaintenanceKeepsExclusion(w, t, o, ch, fromApply, ok);
    case OpenHolding(path, cfg) => RegisterKeepsExclusion(w, t, o, path, cfg, x.next);
  }

  lemma WithRecKeepsChannels(pc: Pc, r: Rec)
    requires RecOf(pc).Some?
    ensures var q := WithRec(pc, r);
            && TurnChan(q) == TurnChan(pc) && MaintChan(q) == MaintChan(pc) && ClosingChan(q) == ClosingChan(pc)
            && CtrlOf(q) == CtrlOf(pc) && !IsOpen(q) && !IsOpen(pc) && !pc.Finished? && RecOf(q) == Some(r)
  {
  }

  lemma RecIsQuiet(w: World, t: Tid, x: Choice)
    requires t in w.threads && RecOf(w.threads[t].pc).Some? && CtrlOf(w.threads[t].pc).Some?
    requires var rec := RecOf(w.threads[t].pc).value;
             !SaveEnds(rec, x) && RecEnabled(w, rec, CtrlOf(w.threads[t].pc).value, x)
    ensures QuietMove(w, DoRec(w, t, x), t)
  {
    var pc, v := w.threads[t].pc, DoRec(w, t, x);
    var next := RecAfter(w, RecOf(pc).value, x);
    WithRecKeepsChannels(pc, next);
    hide TurnChan, MaintChan, ClosingChan, CtrlOf, RecOf, WithRec, IsOpen, RecAfter, SaveEnds;
    var moved := Goto(w, t, WithRec(pc, next));
    assert QuietMove(w, moved, t);
    match RecOf(pc).value
    case RecHolding(path, target) => BindIsQuiet(moved, t, w.threads[t].obj, path, target);
    case _ => hide DoBind;
  }

  lemma BindIsQuiet(w: World, t: Tid, o: Obj, path: Path, target: Obj)
    requires target in w.sessions
    ensures SameWorld(w, DoBind(w, t, o, path, target)) && DoBind(w, t, o, path, target).threads == w.threads
  {
    var s, v := w.sessions[target], DoBind(w, t, o, path, target);
    assert v.sessions == if s.deleted then w.sessions else w.sessions[target := BindRecovery(s, path)];
    hide DoBind;
  }

  predicate InTurn(pc: Pc) {
    pc.TurnWaiting? || pc.TurnBegun? || pc.TurnRunning? || pc.TurnPersisting? || pc.TurnSaving? || pc.TurnSaved?
  }

  predicate InRebuild(pc: Pc) {
    pc.ApplyLookup? || pc.ApplyRead? || pc.RebuildEntering? || pc.RebuildSaving? || pc.RebuildBuilding?
  }

  predicate QuietCase(w: World, t: Tid, x: Choice) {
    CanAct(w, t, x) && !TouchesSlots(w, t, x) && (RecOf(w.threads[t].pc).None? || SaveEnds(RecOf(w.threads[t].pc).value, x))
  }

  /** Thread t moves and nothing else that exclusion speaks about changes. */
  lemma GotoIsQuiet(w: World, v: World, t: Tid, q: Pc)
    requires t in w.threads && v.threads == w.threads[t := w.threads[t].(pc := q)]
    requires v.sessions == w.sessions && v.issued == w.issued && v.closed == w.closed && v.registered == w.registered
    requires QuietPc(w, w.threads[t].obj, w.threads[t].pc, q)
    ensures QuietMove(w, v, t)
  {
    hide QuietPc;
  }

  lemma TurnIsQuiet(w: World, t: Tid, x: Choice)
    requires QuietCase(w, t, x) && InTurn(w.threads[t].pc)
    ensures QuietMove(w, DoAct(w, t, x), t)
  {
    hide DoRec, DoEnter, DoRegister, DoBegin, DoFinish, DoCommit, DoEndMaintenance, DoDrop, DoCapture, DoTakeForEnd, DoTakeForOpen;
  }

  lemma EnterIsQuiet(w: World, t: Tid, o: Obj, cfg: ConfigState, fromApply: bool, x: Choice)
    requires t in w.threads && w.threads[t] == Thread(o, RebuildEntering(cfg, fromApply)) && o in w.sessions
    requires !RebuildEntry(w.sessions[o], x.status).Claimed?
    ensures QuietMove(w, DoEnter(w, t, o, cfg, fromApply, x), t)
  {
    assert SameSlots(EnterRebuild(w.sessions[o], x.status, cfg, x.ch), w.sessions[o]);
    hide EnterRebuild, RebuildEntry;
  }

  lemma RebuildIsQuiet(w: World, t: Tid, x: Choice)
    requires QuietCase(w, t, x) && InRebuild(w.threads[t].pc)
    ensures QuietMove(w, DoAct(w, t, x), t)
  {
    var pc := w.threads[t].pc;
    if pc.RebuildEntering? {
      hide QuietMove, DoEnter, RebuildEntry;
      EnterIsQuiet(w, t, w.threads[t].obj, pc.cfg, pc.fromApply, x);
    } else {
      hide DoRec, DoEnter, DoRegister, DoBegin, DoFinish, DoCommit, DoEndMaintenance, DoDrop, DoCapture, DoTakeForEnd, DoTakeForOpen;
      hide QuietMove;
      var q := DoAct(w, t, x).threads[t].pc;
      match pc
      case RebuildBuilding(ch, cfg, fromApply, c) =>
        GotoIsQuiet(w, DoAct(w, t, x), t, if x.ok then RebuildCommitting(ch, cfg, fromApply, c, x.next) else RebuildEnding(ch, fromApply, false));
      case ApplyLookup => GotoIsQuiet(w, DoAct(w, t, x), t, q);
      case ApplyRead => GotoIsQuiet(w, DoAct(w, t, x), t, q);
      case RebuildSaving(_, _, _, _, _) => GotoIsQuiet(w, DoAct(w, t, x), t, q);
    }
  }

  /** A thread that holds no channel moves on and changes no slot of its own session. */
  lemma SectionIsQuiet(w: World, v: World, t: Tid, o: Obj, q: Pc, s: Session)
    requires t in w.threads && w.threads[t].obj == o && o in w.sessions && SameSlots(s, w.sessions[o])
    requires v.threads == w.threads[t := Thread(o, q)] && v.sessions == w.sessions[o := s]
    requires v.issued == w.issued && v.closed == w.closed && v.registered == w.registered
    requires QuietPc(w, o, w.threads[t].pc, q)
    ensures QuietMove(w, v, t)
  {
    hide QuietPc;
  }

  lemma DropIsQuiet(w: World, t: Tid, o: Obj)
    requires t in w.threads && w.threads[t].obj == o && o in w.sessions && w.threads[t].pc.ApplyFailed?
    ensures QuietMove(w, DoDrop(w, t, o), t)
  {
    SectionIsQuiet(w, DoDrop(w, t, o), t, o, Finished, DropPending(w.sessions[o]));
  }

  lemma CaptureIsQuiet(w: World, t: Tid, o: Obj, del: bool)
    requires t in w.threads && w.threads[t].obj == o && o in w.sessions && w.threads[t].pc.EndCapturing?
    ensures QuietMove(w, DoCapture(w, t, o, del), t)
  {
    var s := w.sessions[o];
    SectionIsQuiet(w, DoCapture(w, t, o, del), t, o, EndBlocked(del, s.done, s.maint), if del then MarkDeleted(s) else s);
  }

  lemma TakeIsQuiet(w: World, t: Tid, o: Obj, del: bool)
    requires t in w.threads && w.threads[t].obj == o && o in w.sessions && w.threads[t].pc.EndTaking?
    ensures QuietMove(w, DoTakeForEnd(w, t, o, del), t)
  {
    var s := w.sessions[o];
    SectionIsQuiet(w, DoTakeForEnd(w, t, o, del), t, o, EndReleasing(del, s.lease), TakeLease(s));
  }

  lemma OpenIsQuiet(w: World, t: Tid, path: Option<Path>, cfg: ConfigState)
    requires t in w.threads && w.threads[t].pc == OpenFound(path, cfg)
    ensures QuietMove(w, DoTakeForOpen(w, t, path, cfg), t)
  {
  }

  lemma EndIsQuiet(w: World, t: Tid, x: Choice)
    requires QuietCase(w, t, x) && !InTurn(w.threads[t].pc) && !InRebuild(w.threads[t].pc)
    ensures QuietMove(w, DoAct(w, t, x), t)
  {
    hide DoDrop, DoCapture, DoTakeForEnd, DoTakeForOpen, QuietMove;
    var o := w.threads[t].obj;
    match w.threads[t].pc
    case OpenFound(path, cfg) => OpenIsQuiet(w, t, path, cfg);
    case OpenHolding(_, _) => GotoIsQuiet(w, DoAct(w, t, x), t, Finished);
    case ApplyFailed => DropIsQuiet(w, t, o);
    case EndCapturing(del) => CaptureIsQuiet(w, t, o, del);
    case EndBlocked(del, _, _) => GotoIsQuiet(w, DoAct(w, t, x), t, EndTaking(del));
    case EndTaking(del) => TakeIsQuiet(w, t, o, del);
    case EndReleasing(del, _) => GotoIsQuiet(w, DoAct(w, t, x), t, EndDone(del));
  }

  lemma OthersAreQuiet(w: World, t: Tid, x: Choice)
    requires CanAct(w, t, x) && !TouchesSlots(w, t, x)
    ensures QuietMove(w, DoAct(w, t, x), t)
  {
    var rec := RecOf(w.threads[t].pc);
    if rec.Some? && !SaveEnds(rec.value, x) {
      hide DoRec;
      RecIsQuiet(w, t, x);
    } else {
      hide DoAct, QuietMove, CanAct, TouchesSlots;
      if InTurn(w.threads[t].pc) {
        TurnIsQuiet(w, t, x);
      } else if InRebuild(w.threads[t].pc) {
        RebuildIsQuiet(w, t, x);
      } else {
        EndIsQuiet(w, t, x);
      }
    }
  }

  lemma RegisteredIsKnown(w: World)
    requires Exclusion(w) && w.registered.Some?
    ensures w.registered.value in w.sessions
  {
  }

  lemma StepKeepsExclusion(w: World, step: Step)
    requires Exclusion(w) && Enabled(w, step)
    ensures Exclusion(Next(w, step))
  {
    hide Exclusion, DoAct, CanAct, QuietMove, TouchesSlots;
    if w.registered.Some? { RegisteredIsKnown(w); }
    match step
    case SpawnTurn(t) => SpawnKeepsExclusion(w, t, w.registered.value, TurnWaiting);
    case SpawnRebuild(t, cfg) => SpawnKeepsExclusion(w, t, w.registered.value, RebuildEntering(cfg, false));
    case SpawnEnd(t, del) =>
      SpawnKeepsExclusion(w, t, w.registered.value, EndCapturing(del));
      UnregisterKeepsExclusion(Spawn(w, t, w.registered.value, EndCapturing(del)));
    case SpawnOpen(t, o, transcript, cfg) => SpawnKeepsExclusion(w, t, o, OpenFound(transcript, cfg));
    case OtherAcquires(_) => LeasesDoNotMatter(w, Next(w, step));
    case OtherReleases(_) => LeasesDoNotMatter(w, Next(w, step));
    case Act(t, x) =>
      if TouchesSlots(w, t, x) {
        TouchingKeepsExclusion(w, t, x);
      } else {
        OthersAreQuiet(w, t, x);
        QuietKeepsExclusion(w, DoAct(w, t, x), t);
      }
  }

  lemma UnregisterKeepsExclusion(w: World)
    requires Exclusion(w)
    ensures Exclusion(w.(registered := None))
  {
    hide TurnChan, MaintChan, ClosingChan, CtrlOf;
    var v := w.(registered := None);
    forall u | u in v.threads ensures ThreadOk(v, u) { assert ThreadOk(w, u); }
    forall b | b in v.sessions ensures SessionOk(v, b) { assert SessionOk(w, b); }
  }

  lemma LeasesDoNotMatter(w: World, v: World)
    requires Exclusion(w) && v == w.(leases := v.leases)
    ensures Exclusion(v)
  {
    hide TurnChan, MaintChan, ClosingChan, CtrlOf;
    forall u | u in v.threads ensures ThreadOk(v, u) { assert ThreadOk(w, u); }
    forall b | b in v.sessions ensures SessionOk(v, b) { assert SessionOk(w, b); }
  }

  // ---------- over whole runs ----------

  lemma {:induction false} RunKeepsExclusion(w: World, steps: seq<Step>)
    requires Exclusion(w) && Runs(w, steps)
    ensures Exclusion(After(w, steps))
    decreases |steps|
  {
    hide Exclusion, Enabled, Next;
    if steps != [] {
      StepKeepsExclusion(w, steps[0]);
      RunKeepsExclusion(Next(w, steps[0]), steps[1..]);
    }
  }

  /** t is in the part of its life where it works on the session: a turn or a maintenance. */
  predicate Working(pc: Pc) {
    TurnChan(pc).Some? || MaintChan(pc).Some?
  }

  /**
   After any run from the empty service: a turn and a maintenance are never both
   in flight on one session object, each is run by exactly one thread, and no
   done channel has been closed twice.
   */
  lemma TurnAndMaintenanceExclude(steps: seq<Step>, t: Tid, u: Tid)
    requires Runs(INIT, steps)
    ensures var w := After(INIT, steps);
            && (forall o :: o in w.sessions ==> !(w.sessions[o].running && w.sessions[o].maint.Some?))
            && ((t in w.threads && u in w.threads && w.threads[t].obj == w.threads[u].obj
                 && Working(w.threads[t].pc) && Working(w.threads[u].pc)) ==> t == u)
            && (forall ch :: ch in w.closed ==> w.closed[ch] == 1)
  {
    var w := After(INIT, steps);
    InitExclusion();
    RunKeepsExclusion(INIT, steps);
    if t in w.threads && u in w.threads && w.threads[t].obj == w.threads[u].obj {
      assert ThreadOk(w, t) && ThreadOk(w, u);
      var o := w.threads[t].obj;
      if o in w.sessions { assert SessionOk(w, o); }
    }
    hide TurnChan, MaintChan, ClosingChan, CtrlOf;
    forall o | o in w.sessions ensures !(w.sessions[o].running && w.sessions[o].maint.Some?) { assert SessionOk(w, o); }
  }

  /**
   A step changes a session's controller only when it is the commit of the one
   maintenance in flight, and then no turn is running: a turn keeps the
   controller it began with.
   */
  lemma ControllerChangesOnlyAtCommit(w: World, step: Step, o: Obj)
    requires Exclusion(w) && Enabled(w, step) && o in w.sessions
    requires o in Next(w, step).sessions && Next(w, step).sessions[o].ctrl != w.sessions[o].ctrl
    ensures step.Act? && w.threads[step.t].obj == o && w.threads[step.t].pc.RebuildCommitting?
    ensures !w.sessions[o].running && w.sessions[o].maint == MaintChan(w.threads[step.t].pc)
  {
    hide Exclusion, DoBegin, DoFinish, DoEnter, DoEndMaintenance;
    if step.Act? {
      var t, x := step.t, step.x;
      if !TouchesSlots(w, t, x) {
        hide DoAct;
        OthersAreQuiet(w, t, x);
        assert false;
      } else {
        TouchingCtrl(w, t, x, o);
        if w.threads[t].pc.RebuildCommitting? { hide DoAct; FactsFor(w, t); }
      }
    }
  }

  /** How the actions that touch a slot change the session objects. */
  function TouchedSessions(w: World, t: Tid, x: Choice): map<Obj, Session>
    requires CanAct(w, t, x) && TouchesSlots(w, t, x)
  {
    var o := w.threads[t].obj;
    match w.threads[t].pc
    case TurnWaiting => w.sessions[o := BeginTurn(w.sessions[o], x.ch)]
    case TurnFinishing(_) => w.sessions[o := FinishTurn(w.sessions[o])]
    case RebuildEntering(cfg, _) => w.sessions[o := EnterRebuild(w.sessions[o], x.status, cfg, x.ch)]
    case RebuildCommitting(_, cfg, _, c, next) => w.sessions[o := CommitRebuild(w.sessions[o], c, next, cfg)]
    case RebuildEnding(ch, _, _) => w.sessions[o := EndMaintenance(w.sessions[o], ch)]
    case OpenHolding(path, cfg) => w.sessions[o := Session(false, None, false, None, None, x.next, cfg, path, path)]
    case _ => w.sessions
  }

  lemma TouchedSessionsAre(w: World, t: Tid, x: Choice)
    requires CanAct(w, t, x) && TouchesSlots(w, t, x)
    ensures DoAct(w, t, x).sessions == TouchedSessions(w, t, x)
  {
    hide BeginTurn, FinishTurn, EnterRebuild, CommitRebuild, EndMaintenance, RebuildEntry, Admits, DoRec, DoDrop, DoCapture;
  }

  lemma TouchingCtrl(w: World, t: Tid, x: Choice, o: Obj)
    requires Exclusion(w) && CanAct(w, t, x) && TouchesSlots(w, t, x) && o in w.sessions
    ensures o in DoAct(w, t, x).sessions
    ensures DoAct(w, t, x).sessions[o].ctrl == w.sessions[o].ctrl ||
            (w.threads[t].pc.RebuildCommitting? && w.threads[t].obj == o)
  {
    if w.threads[t].pc.OpenHolding? { assert ThreadOk(w, t); }
    TouchedSessionsAre(w, t, x);
    hide Exclusion, DoAct;
  }

  /** The commit's check that the controller is still the one the rebuild started from never refuses anything but a deleted session. */
  lemma CommitCheckRefusesOnlyDeleted(steps: seq<Step>, t: Tid)
    requires Runs(INIT, steps) && t in After(INIT, steps).threads && After(INIT, steps).threads[t].pc.RebuildCommitting?
    ensures var w := After(INIT, steps); var o, pc := w.threads[t].obj, w.threads[t].pc;
            o in w.sessions && w.sessions[o].ctrl == pc.c && (CommitsRebuild(w.sessions[o], pc.c) <==> !w.sessions[o].deleted)
  {
    var w := After(INIT, steps);
    InitExclusion();
    RunKeepsExclusion(INIT, steps);
    assert ThreadOk(w, t);
  }
}
