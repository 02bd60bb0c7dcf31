/**
 Two runs that reach what the general theorems exempt: a config queue that nobody
 will drain, and a registered session whose lease and report were moved off the
 file its controller writes.
 */
module AcpScenarios {
  import opened Wrappers
  import opened AcpSession
  import opened AcpProtocol
  import opened AcpEffects
  import opened AcpExclusion
  import opened AcpQueue

  const CFG_A := ConfigState("a", None)
  const CFG_B := ConfigState("b", None)
  const IDLE := Status(false, false, 0)

  function Does(t: Tid, ok: bool): Step {
    Act(t, Choice(Chan(t, 0), IDLE, ok, Ctrl(0, 0), None))
  }

  // ---------- stepping through a run ----------

  lemma RunsCons(w: World, step: Step, rest: seq<Step>)
    requires Enabled(w, step) && Runs(Next(w, step), rest)
    ensures Runs(w, [step] + rest) && After(w, [step] + rest) == After(Next(w, step), rest)
  {
    assert ([step] + rest)[1..] == rest;
  }

  lemma ThreeSteps(w: World, a: Step, b: Step, c: Step)
    requires Enabled(w, a) && Enabled(Next(w, a), b) && Enabled(Next(Next(w, a), b), c)
    ensures Runs(w, [a, b, c]) && After(w, [a, b, c]) == Next(Next(Next(w, a), b), c)
  {
    hide Enabled, Next;
    var v, u := Next(w, a), Next(Next(w, a), b);
    assert Runs(Next(u, c), []);
    RunsCons(u, c, []);
    assert [c] + [] == [c];
    RunsCons(v, b, [c]);
    assert [b] + [c] == [b, c];
    RunsCons(w, a, [b, c]);
    assert [a] + [b, c] == [a, b, c];
  }

  lemma TwoSteps(w: World, a: Step, b: Step)
    requires Enabled(w, a) && Enabled(Next(w, a), b)
    ensures Runs(w, [a, b]) && After(w, [a, b]) == Next(Next(w, a), b)
  {
    hide Enabled, Next;
    var v := Next(w, a);
    assert Runs(Next(v, b), []);
    RunsCons(v, b, []);
    assert [b] + [] == [b];
    RunsCons(w, a, [b]);
    assert [a] + [b] == [a, b];
  }

  // ---------- single steps, on any world ----------

  function With(w: World, t: Tid, o: Obj, pc: Pc): World {
    w.(threads := w.threads[t := Thread(o, pc)])
  }

  lemma TakeForEndStep(w: World, t: Tid, o: Obj, del: bool, prev: Path, x: Choice)
    requires t in w.threads && w.threads[t] == Thread(o, EndTaking(del)) && o in w.sessions && w.sessions[o].lease == Some(prev)
    ensures Enabled(w, Act(t, x))
    ensures Next(w, Act(t, x)) == With(w, t, o, EndReleasing(del, Some(prev))).(
              sessions := w.sessions[o := w.sessions[o].(lease := None)], leases := w.leases[prev := InThread(t)])
  {
    ActAt(w, t, x);
    hide DoAct;
  }

  lemma RegisterStep(w: World, t: Tid, o: Obj, path: Path, cfg: ConfigState, x: Choice)
    requires t in w.threads && w.threads[t] == Thread(o, OpenHolding(Some(path), cfg)) && x.ok
    requires x.next.owner == o && x.next !in w.ctrlPath
    ensures Enabled(w, Act(t, x))
    ensures Next(w, Act(t, x)) == With(w, t, o, Finished).(
              sessions := w.sessions[o := Session(false, None, false, None, None, x.next, cfg, Some(path), Some(path))],
              registered := Some(o), leases := w.leases[path := InSession(o)], ctrlPath := w.ctrlPath[x.next := Some(path)])
  {
    ActAt(w, t, x);
    hide DoAct;
  }

  lemma FindStep(w: World, t: Tid, o: Obj, ch: Chan, c: Ctrl, path: Path, b: Obj, x: Choice)
    requires t in w.threads && w.threads[t] == Thread(o, TurnRunning(ch, c, RecIdle)) && o in w.sessions
    requires w.registered == Some(b) && x.recover == Some(path) && HasPath(w, c)
    ensures Enabled(w, Act(t, x)) && Next(w, Act(t, x)) == With(w, t, o, TurnRunning(ch, c, RecFound(path, b)))
  {
    ActAt(w, t, x);
    hide DoAct, DoBind;
  }

  lemma TakeStep(w: World, t: Tid, o: Obj, ch: Chan, c: Ctrl, path: Path, b: Obj, x: Choice)
    requires t in w.threads && w.threads[t] == Thread(o, TurnRunning(ch, c, RecFound(path, b))) && o in w.sessions
    requires path !in w.leases
    ensures Enabled(w, Act(t, x))
    ensures Next(w, Act(t, x)) == With(w, t, o, TurnRunning(ch, c, RecHolding(path, b))).(leases := w.leases[path := InThread(t)])
  {
    ActAt(w, t, x);
    hide DoAct, DoBind;
  }

  lemma BindStep(w: World, t: Tid, o: Obj, ch: Chan, c: Ctrl, path: Path, b: Obj, prev: Path, x: Choice)
    requires t in w.threads && w.threads[t] == Thread(o, TurnRunning(ch, c, RecHolding(path, b))) && o in w.sessions
    requires b in w.sessions && !w.sessions[b].deleted && w.sessions[b].lease == Some(prev) && b != o
    ensures Enabled(w, Act(t, x))
    ensures Next(w, Act(t, x)) == With(w, t, o, TurnRunning(ch, c, RecReleasing(path, b, Some(prev)))).(
              sessions := w.sessions[b := w.sessions[b].(lease := Some(path), transcript := Some(path))],
              leases := w.leases[path := InSession(b)][prev := InThread(t)], tainted := w.tainted + {b})
  {
    ActAt(w, t, x);
    hide DoAct;
  }

  lemma ReleaseStep(w: World, t: Tid, o: Obj, ch: Chan, c: Ctrl, path: Path, b: Obj, prev: Path, x: Choice)
    requires t in w.threads && w.threads[t] == Thread(o, TurnRunning(ch, c, RecReleasing(path, b, Some(prev)))) && o in w.sessions
    ensures Enabled(w, Act(t, x))
    ensures Next(w, Act(t, x)) == With(w, t, o, TurnRunning(ch, c, RecRetargeting(path, Some(b)))).(leases := w.leases - {prev})
  {
    ActAt(w, t, x);
    hide DoAct, DoBind;
  }

  // ---------- a stranded queue ----------

  const OPENED := World(
    map[0 := Session(false, None, false, None, None, Ctrl(0, 0), CFG_A, None, None)], Some(0),
    map[0 := Thread(0, Finished)], map[Ctrl(0, 0) := None], map[], {}, multiset{}, {}, {}, [])

  const REBUILDING := OPENED.(
    sessions := map[0 := Session(false, None, false, Some(Chan(1, 0)), None, Ctrl(0, 0), CFG_A, None, None)],
    threads := map[0 := Thread(0, Finished), 1 := Thread(0, RebuildSaving(Chan(1, 0), CFG_A, false, Ctrl(0, 0), RecIdle))],
    issued := {Chan(1, 0)}, log := [Claim(0)])

  const QUEUED := REBUILDING.(
    sessions := map[0 := Session(false, None, false, Some(Chan(1, 0)), Some(CFG_B), Ctrl(0, 0), CFG_A, None, None)],
    threads := map[0 := Thread(0, Finished), 1 := Thread(0, RebuildSaving(Chan(1, 0), CFG_A, false, Ctrl(0, 0), RecIdle)),
                   2 := Thread(0, Finished)],
    log := [Claim(0), Queue(0)])

  const STRANDED := QUEUED.(
    sessions := map[0 := Session(false, None, false, None, Some(CFG_B), Ctrl(0, 0), CFG_A, None, None)],
    threads := map[0 := Thread(0, Finished), 1 := Thread(0, Finished), 2 := Thread(0, Finished)],
    closed := multiset{Chan(1, 0)}, clientFailed := {0}, log := [Claim(0), Queue(0), EndAttempt(0)])

  lemma OpeningRuns()
    ensures var steps := [SpawnOpen(0, 0, None, CFG_A), Does(0, true), Does(0, true)];
            Runs(INIT, steps) && After(INIT, steps) == OPENED
  {
    hide DoBegin, DoRec, DoFinish, DoEnter, DoBuild, DoCommit, DoEndMaintenance, DoDrop, DoCapture, DoTakeForEnd;
    var w1 := Next(INIT, SpawnOpen(0, 0, None, CFG_A));
    var w2 := Next(w1, Does(0, true));
    assert Next(w2, Does(0, true)) == OPENED;
    ThreeSteps(INIT, SpawnOpen(0, 0, None, CFG_A), Does(0, true), Does(0, true));
  }

  lemma RebuildStarts()
    ensures var steps := [SpawnRebuild(1, CFG_A), Does(1, true)];
            Runs(OPENED, steps) && After(OPENED, steps) == REBUILDING
  {
    hide DoTakeForOpen, DoRegister, DoBegin, DoRec, DoFinish, DoBuild, DoCommit, DoEndMaintenance, DoDrop, DoCapture, DoTakeForEnd;
    var w1 := Next(OPENED, SpawnRebuild(1, CFG_A));
    assert Next(w1, Does(1, true)) == REBUILDING;
    TwoSteps(OPENED, SpawnRebuild(1, CFG_A), Does(1, true));
  }

  lemma SecondOneQueues()
    ensures var steps := [SpawnRebuild(2, CFG_B), Does(2, true)];
            Runs(REBUILDING, steps) && After(REBUILDING, steps) == QUEUED
  {
    hide DoTakeForOpen, DoRegister, DoBegin, DoRec, DoFinish, DoBuild, DoCommit, DoEndMaintenance, DoDrop, DoCapture, DoTakeForEnd;
    var w1 := Next(REBUILDING, SpawnRebuild(2, CFG_B));
    assert Next(w1, Does(2, true)) == QUEUED;
    TwoSteps(REBUILDING, SpawnRebuild(2, CFG_B), Does(2, true));
  }

  lemma FirstOneFails()
    ensures var steps := [Does(1, false), Does(1, true), Does(1, true)];
            Runs(QUEUED, steps) && After(QUEUED, steps) == STRANDED
  {
    hide DoTakeForOpen, DoRegister, DoBegin, DoRec, DoFinish, DoEnter, DoBuild, DoCommit, DoDrop, DoCapture, DoTakeForEnd;
    var w1 := Next(QUEUED, Does(1, false));
    var w2 := Next(w1, Does(1, true));
    assert Next(w2, Does(1, true)) == STRANDED;
    ThreeSteps(QUEUED, Does(1, false), Does(1, true), Does(1, true));
  }

  /**
   The exception is real: a client rebuild is in flight, a second one queues
   behind it, the first one's snapshot fails. The service then is quiet, the
   config still queued, and no turn can begin.
   */
  lemma FailedClientRebuildStrands() returns (steps: seq<Step>)
    ensures Runs(INIT, steps) && After(INIT, steps) == STRANDED
    ensures Quiescent(STRANDED, 0) && STRANDED.registered == Some(0) && !STRANDED.sessions[0].deleted
    ensures STRANDED.sessions[0].pending == Some(CFG_B) && !Admits(STRANDED.sessions[0])
  {
    hide Runs, After, Next, Enabled;
    OpeningRuns();
    RebuildStarts();
    SecondOneQueues();
    FirstOneFails();
    steps := [SpawnOpen(0, 0, None, CFG_A), Does(0, true), Does(0, true)];
    RunsConcat(INIT, steps, [SpawnRebuild(1, CFG_A), Does(1, true)]);
    steps := steps + [SpawnRebuild(1, CFG_A), Does(1, true)];
    RunsConcat(INIT, steps, [SpawnRebuild(2, CFG_B), Does(2, true)]);
    steps := steps + [SpawnRebuild(2, CFG_B), Does(2, true)];
    RunsConcat(INIT, steps, [Does(1, false), Does(1, true), Does(1, true)]);
    steps := steps + [Does(1, false), Does(1, true), Does(1, true)];
  }

  // ---------- a foreign recovery commit ----------

  const OLD: Path := "a"
  const NEW: Path := "r"

  function Recovers(t: Tid): Step {
    Act(t, Choice(Chan(t, 0), IDLE, true, Ctrl(1, 0), Some(NEW)))
  }

  const FIRST := Session(false, None, false, None, None, Ctrl(0, 0), CFG_A, Some(OLD), Some(OLD))

  const FIRST_OPEN := World(
    map[0 := FIRST], Some(0), map[0 := Thread(0, Finished)],
    map[Ctrl(0, 0) := Some(OLD)], map[OLD := InSession(0)], {}, multiset{}, {}, {}, [])

  const FIRST_CLOSING := World(
    map[0 := FIRST], None,
    map[0 := Thread(0, Finished), 1 := Thread(0, TurnWaiting), 2 := Thread(0, EndBlocked(false, None, None))],
    map[Ctrl(0, 0) := Some(OLD)], map[OLD := InSession(0)], {}, multiset{}, {}, {}, [])

  const FIRST_CLOSED := World(
    map[0 := FIRST.(lease := None)], None,
    map[0 := Thread(0, Finished), 1 := Thread(0, TurnWaiting), 2 := Thread(0, EndDone(false))],
    map[Ctrl(0, 0) := Some(OLD)], map[], {}, multiset{}, {}, {}, [])

  const SECOND := Session(false, None, false, None, None, Ctrl(1, 0), CFG_A, Some(OLD), Some(OLD))

  const BOTH_PATHS := map[Ctrl(0, 0) := Some(OLD), Ctrl(1, 0) := Some(OLD)]

  const SECOND_OPEN := World(
    map[0 := FIRST.(lease := None), 1 := SECOND], Some(1),
    map[0 := Thread(0, Finished), 1 := Thread(0, TurnWaiting), 2 := Thread(0, EndDone(false)), 3 := Thread(1, Finished)],
    BOTH_PATHS, map[OLD := InSession(1)], {}, multiset{}, {}, {}, [])

  const LATE := FIRST.(lease := None, running := true, done := Some(Chan(1, 0)))

  const LATE_TURN := World(
    map[0 := LATE, 1 := SECOND], Some(1),
    map[0 := Thread(0, Finished), 1 := Thread(0, TurnRunning(Chan(1, 0), Ctrl(0, 0), RecFound(NEW, 1))),
        2 := Thread(0, EndDone(false)), 3 := Thread(1, Finished)],
    BOTH_PATHS, map[OLD := InSession(1)], {Chan(1, 0)}, multiset{}, {}, {}, [TurnBegins(0)])

  lemma FirstOpens()
    ensures var steps := [SpawnOpen(0, 0, Some(OLD), CFG_A), Does(0, true), Does(0, true)];
            Runs(INIT, steps) && After(INIT, steps) == FIRST_OPEN
  {
    hide DoBegin, DoRec, DoFinish, DoEnter, DoBuild, DoCommit, DoEndMaintenance, DoDrop, DoCapture, DoTakeForEnd;
    var w1 := Next(INIT, SpawnOpen(0, 0, Some(OLD), CFG_A));
    var w2 := Next(w1, Does(0, true));
    assert Next(w2, Does(0, true)) == FIRST_OPEN;
    ThreeSteps(INIT, SpawnOpen(0, 0, Some(OLD), CFG_A), Does(0, true), Does(0, true));
  }

  lemma FirstCloses()
    ensures var steps := [SpawnTurn(1), SpawnEnd(2, false), Does(2, true)];
            Runs(FIRST_OPEN, steps) && After(FIRST_OPEN, steps) == FIRST_CLOSING
  {
    hide DoTakeForOpen, DoRegister, DoBegin, DoRec, DoFinish, DoEnter, DoBuild, DoCommit, DoEndMaintenance, DoDrop, DoTakeForEnd;
    var w1 := Next(FIRST_OPEN, SpawnTurn(1));
    var w2 := Next(w1, SpawnEnd(2, false));
    assert Next(w2, Does(2, true)) == FIRST_CLOSING;
    ThreeSteps(FIRST_OPEN, SpawnTurn(1), SpawnEnd(2, false), Does(2, true));
  }

  const FIRST_WAITED := With(FIRST_CLOSING, 2, 0, EndTaking(false))
  const FIRST_TAKEN := With(FIRST_CLOSING, 2, 0, EndReleasing(false, Some(OLD))).(
    sessions := map[0 := FIRST.(lease := None)], leases := map[OLD := InThread(2)])

  lemma FirstIsIdle()
    ensures Enabled(FIRST_CLOSING, Does(2, true)) && Next(FIRST_CLOSING, Does(2, true)) == FIRST_WAITED
  {
    hide DoTakeForOpen, DoRegister, DoBegin, DoRec, DoFinish, DoEnter, DoBuild, DoCommit, DoEndMaintenance, DoDrop, DoCapture, DoTakeForEnd;
  }

  lemma FirstTakesLease()
    ensures Enabled(FIRST_WAITED, Does(2, true)) && Next(FIRST_WAITED, Does(2, true)) == FIRST_TAKEN
  {
    hide Enabled, Next;
    TakeForEndStep(FIRST_WAITED, 2, 0, false, OLD, Does(2, true).x);
  }

  lemma FirstReleases()
    ensures Enabled(FIRST_TAKEN, Does(2, true)) && Next(FIRST_TAKEN, Does(2, true)) == FIRST_CLOSED
  {
    hide DoTakeForOpen, DoRegister, DoBegin, DoRec, DoFinish, DoEnter, DoBuild, DoCommit, DoEndMaintenance, DoDrop, DoCapture, DoTakeForEnd;
  }

  lemma FirstLetsGo()
    ensures var steps := [Does(2, true), Does(2, true), Does(2, true)];
            Runs(FIRST_CLOSING, steps) && After(FIRST_CLOSING, steps) == FIRST_CLOSED
  {
    hide Runs, After, Enabled, Next;
    FirstIsIdle();
    FirstTakesLease();
    FirstReleases();
    ThreeSteps(FIRST_CLOSING, Does(2, true), Does(2, true), Does(2, true));
  }

  const SECOND_FOUND := With(FIRST_CLOSED, 3, 1, OpenFound(Some(OLD), CFG_A))
  const SECOND_HOLDS := With(FIRST_CLOSED, 3, 1, OpenHolding(Some(OLD), CFG_A)).(leases := map[OLD := InThread(3)])

  lemma SecondTakesLease()
    ensures Enabled(SECOND_FOUND, Does(3, true)) && Next(SECOND_FOUND, Does(3, true)) == SECOND_HOLDS
  {
    hide DoRegister, DoBegin, DoRec, DoFinish, DoEnter, DoBuild, DoCommit, DoEndMaintenance, DoDrop, DoCapture, DoTakeForEnd;
  }

  lemma SecondRegisters()
    ensures Enabled(SECOND_HOLDS, Recovers(3)) && Next(SECOND_HOLDS, Recovers(3)) == SECOND_OPEN
  {
    hide Enabled, Next;
    RegisterStep(SECOND_HOLDS, 3, 1, OLD, CFG_A, Recovers(3).x);
  }

  lemma SecondOpens()
    ensures var steps := [SpawnOpen(3, 1, Some(OLD), CFG_A), Does(3, true), Recovers(3)];
            Runs(FIRST_CLOSED, steps) && After(FIRST_CLOSED, steps) == SECOND_OPEN
  {
    assert Next(FIRST_CLOSED, SpawnOpen(3, 1, Some(OLD), CFG_A)) == SECOND_FOUND;
    hide Runs, After, DoAct, CanAct;
    SecondTakesLease();
    SecondRegisters();
    ThreeSteps(FIRST_CLOSED, SpawnOpen(3, 1, Some(OLD), CFG_A), Does(3, true), Recovers(3));
  }

  const LATE_BEGUN := With(SECOND_OPEN, 1, 0, TurnBegun(Chan(1, 0))).(
    sessions := map[0 := LATE, 1 := SECOND], issued := {Chan(1, 0)}, log := [TurnBegins(0)])
  const LATE_RUNS := With(LATE_BEGUN, 1, 0, TurnRunning(Chan(1, 0), Ctrl(0, 0), RecIdle))

  lemma LateTurnBegins()
    ensures Enabled(SECOND_OPEN, Does(1, true)) && Next(SECOND_OPEN, Does(1, true)) == LATE_BEGUN
  {
    hide DoTakeForOpen, DoRegister, DoRec, DoFinish, DoEnter, DoBuild, DoCommit, DoEndMaintenance, DoDrop, DoCapture, DoTakeForEnd;
  }

  lemma LateTurnReadsController()
    ensures Enabled(LATE_BEGUN, Does(1, true)) && Next(LATE_BEGUN, Does(1, true)) == LATE_RUNS
  {
    hide DoTakeForOpen, DoRegister, DoBegin, DoRec, DoFinish, DoEnter, DoBuild, DoCommit, DoEndMaintenance, DoDrop, DoCapture, DoTakeForEnd;
  }

  lemma LateTurnFindsSecond()
    ensures Enabled(LATE_RUNS, Recovers(1)) && Next(LATE_RUNS, Recovers(1)) == LATE_TURN
  {
    hide Enabled, Next;
    FindStep(LATE_RUNS, 1, 0, Chan(1, 0), Ctrl(0, 0), NEW, 1, Recovers(1).x);
  }

  lemma LateTurnConflicts()
    ensures var steps := [Does(1, true), Does(1, true), Recovers(1)];
            Runs(SECOND_OPEN, steps) && After(SECOND_OPEN, steps) == LATE_TURN
  {
    hide Runs, After, Enabled, Next;
    LateTurnBegins();
    LateTurnReadsController();
    LateTurnFindsSecond();
    ThreeSteps(SECOND_OPEN, Does(1, true), Does(1, true), Recovers(1));
  }

  const LATE_HOLDS := With(LATE_TURN, 1, 0, TurnRunning(Chan(1, 0), Ctrl(0, 0), RecHolding(NEW, 1))).(
    leases := map[OLD := InSession(1), NEW := InThread(1)])
  const LATE_MOVED := With(LATE_HOLDS, 1, 0, TurnRunning(Chan(1, 0), Ctrl(0, 0), RecReleasing(NEW, 1, Some(OLD)))).(
    sessions := LATE_HOLDS.sessions[1 := SECOND.(lease := Some(NEW), transcript := Some(NEW))],
    leases := LATE_HOLDS.leases[NEW := InSession(1)][OLD := InThread(1)], tainted := LATE_HOLDS.tainted + {1})
  const MOVED := With(LATE_MOVED, 1, 0, TurnRunning(Chan(1, 0), Ctrl(0, 0), RecRetargeting(NEW, Some(1)))).(
    leases := LATE_MOVED.leases - {OLD})

  lemma LateTurnTakesLease()
    ensures Enabled(LATE_TURN, Recovers(1)) && Next(LATE_TURN, Recovers(1)) == LATE_HOLDS
  {
    hide Enabled, Next;
    TakeStep(LATE_TURN, 1, 0, Chan(1, 0), Ctrl(0, 0), NEW, 1, Recovers(1).x);
  }

  lemma LateTurnBinds()
    ensures Enabled(LATE_HOLDS, Recovers(1)) && Next(LATE_HOLDS, Recovers(1)) == LATE_MOVED
  {
    hide Enabled, Next;
    BindStep(LATE_HOLDS, 1, 0, Chan(1, 0), Ctrl(0, 0), NEW, 1, OLD, Recovers(1).x);
  }

  lemma LateTurnReleases()
    ensures Enabled(LATE_MOVED, Recovers(1)) && Next(LATE_MOVED, Recovers(1)) == MOVED
  {
    hide Enabled, Next;
    ReleaseStep(LATE_MOVED, 1, 0, Chan(1, 0), Ctrl(0, 0), NEW, 1, OLD, Recovers(1).x);
  }

  lemma LateTurnMovesSecond()
    ensures var steps := [Recovers(1), Recovers(1), Recovers(1)];
            Runs(LATE_TURN, steps) && After(LATE_TURN, steps) == MOVED
  {
    hide Runs, After, Enabled, Next;
    LateTurnTakesLease();
    LateTurnBinds();
    LateTurnReleases();
    ThreeSteps(LATE_TURN, Recovers(1), Recovers(1), Recovers(1));
  }

  /**
   Path agreement does fail for a session moved from outside: a prompt admitted
   after session/close released the lease runs on the closed object, its recovery
   finds the reopened session in the registry, and commits to that one. The
   reopened session's controller then writes a file that nobody leases.
   */
  lemma ForeignRecoveryBreaksAgreement() returns (steps: seq<Step>)
    ensures Runs(INIT, steps) && After(INIT, steps) == MOVED
    ensures MOVED.registered == Some(1) && (forall t :: t in MOVED.threads && MOVED.threads[t].obj == 1 ==> !MidCommit(MOVED.threads[t].pc))
    ensures MOVED.sessions[1].transcript == Some(NEW) && MOVED.ctrlPath[MOVED.sessions[1].ctrl] == Some(OLD) && OLD !in MOVED.leases
  {
    hide Runs, After, Next, Enabled;
    FirstOpens();
    FirstCloses();
    FirstLetsGo();
    SecondOpens();
    LateTurnConflicts();
    LateTurnMovesSecond();
    var s1 := [SpawnOpen(0, 0, Some(OLD), CFG_A), Does(0, true), Does(0, true)];
    var s2 := [SpawnTurn(1), SpawnEnd(2, false), Does(2, true)];
    var s3 := [Does(2, true), Does(2, true), Does(2, true)];
    var s4 := [SpawnOpen(3, 1, Some(OLD), CFG_A), Does(3, true), Recovers(3)];
    var s5 := [Does(1, true), Does(1, true), Recovers(1)];
    var s6 := [Recovers(1), Recovers(1), Recovers(1)];
    RunsConcat(INIT, s1, s2);
    RunsConcat(INIT, s1 + s2, s3);
    RunsConcat(INIT, s1 + s2 + s3, s4);
    RunsConcat(INIT, s1 + s2 + s3 + s4, s5);
    RunsConcat(INIT, s1 + s2 + s3 + s4 + s5, s6);
    steps := s1 + s2 + s3 + s4 + s5 + s6;
  }
}
