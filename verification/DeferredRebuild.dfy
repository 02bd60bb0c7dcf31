/**
 The deferred-rebuild retry loop (vscode-extension/deferred_rebuild.go): settings
 that could not be applied are kept per tab and retried by one background loop. No
 interleaving loses a wake-up, runs two loops, or starts one after the stop.
 */
module DeferredRebuild {
  import opened Wrappers
  import opened Messages

  type TabID = string
  type Label = string

  /** The fields under the mutex; the stop channel is absent until the first loop starts. */
  datatype State = State(pending: map<TabID, Label>, enabled: bool, running: bool, stopped: bool, stop: Option<bool>)

  const EMPTY := State(map[], false, false, false, None)

  // ---------- the critical sections as functions ----------

  predicate Starts(s: State) {
    s.enabled && !s.running && !s.stopped && s.pending != map[]
  }

  /** The stop channel is made once, open. */
  function Started(s: State): State {
    if Starts(s) then s.(running := true, stop := if s.stop.None? then Some(false) else s.stop) else s
  }

  function Armed(s: State): State {
    Started(s.(enabled := true))
  }

  function Scheduled(s: State, tab: TabID, setting: Label): State {
    var id := TrimSpace(tab);
    if id == "" || s.stopped then s else Started(s.(pending := s.pending[id := setting]))
  }

  function Cleared(s: State, tab: TabID): State {
    s.(pending := s.pending - {tab})
  }

  function Stopped(s: State): State {
    if s.stopped then s else s.(stopped := true, stop := if s.stop.Some? then Some(true) else None)
  }

  predicate TickEnds(s: State) {
    s.stopped || s.pending == map[]
  }

  function Ended(s: State): State {
    s.(running := false)
  }

  class DeferredRebuildState {
    var pending: map<TabID, Label>
    var enabled: bool
    var running: bool
    var stopped: bool
    var stop: Option<bool>   // whether the channel is closed
    ghost var closes: nat

    constructor ()
      ensures View() == EMPTY && closes == 0
    {
      pending, enabled, running, stopped, stop, closes := map[], false, false, false, None, 0;
    }

    ghost function View(): State
      reads this
    {
      State(pending, enabled, running, stopped, stop)
    }

    /** The channel was closed once, by the stop, or not at all. */
    ghost predicate Valid()
      reads this
    {
      closes <= 1 && (closes == 1 <==> stop == Some(true)) && (stop == Some(true) ==> stopped)
    }

    method StartLoopLocked() returns (spawn: bool)
      modifies this`running, this`stop
      ensures spawn == Starts(old(View())) && View() == Started(old(View()))
      ensures old(Valid()) ==> Valid()
    {
      if !enabled || running || stopped || |pending| == 0 {
        return false;
      }
      running := true;
      if stop.None? {
        stop := Some(false);
      }
      return true;
    }

    method Enable() returns (spawn: bool)
      modifies this`enabled, this`running, this`stop
      ensures spawn == Starts(old(View()).(enabled := true)) && View() == Armed(old(View()))
      ensures old(Valid()) ==> Valid()
    {
      enabled := true;
      spawn := StartLoopLocked();
    }

    method Schedule(tab: TabID, setting: Label) returns (spawn: bool)
      modifies this`pending, this`running, this`stop
      ensures View() == Scheduled(old(View()), tab, setting)
      ensures spawn == (!old(running) && running)
      ensures old(Valid()) ==> Valid()
    {
      var id := TrimSpace(tab);
      if id == "" {
        return false;
      }
      if stopped {
        return false;
      }
      pending := pending[id := setting];
      spawn := StartLoopLocked();
    }

    method Clear(tab: TabID)
      modifies this`pending
      ensures View() == Cleared(old(View()), tab)
      ensures old(Valid()) ==> Valid()
    {
      pending := pending - {tab};
    }

    method Stop()
      requires Valid()
      modifies this`stopped, this`stop, this`closes
      ensures View() == Stopped(old(View())) && Valid()
    {
      if stopped {
        return;
      }
      stopped := true;
      if stop.Some? {
        stop := Some(true);
        closes := closes + 1;
      }
    }

    /** The locked part of a tick: true when the loop is to exit, else the entries to retry. */
    method TickDone() returns (done: bool, retry: map<TabID, Label>)
      modifies this`running
      ensures done == TickEnds(old(View())) && View() == (if done then Ended(old(View())) else old(View()))
      ensures !done ==> retry == pending
      ensures old(Valid()) ==> Valid()
    {
      if stopped || |pending| == 0 {
        running := false;
        return true, map[];
      }
      return false, pending;
    }
  }

  // ---------- every interleaving ----------

  /** A loop goroutine: at its select, past a tick, past the stop signal, retrying a snapshot of the entries, or gone. */
  datatype Loop = Selecting | Checking | Leaving | Retrying(tabs: seq<TabID>) | Over

  datatype World = World(state: State, loops: map<nat, Loop>)

  const INIT := World(EMPTY, map[])

  datatype Step =
    | Arm(spawned: nat)
    | Schedule(tab: TabID, setting: Label, spawned: nat)
    | Clear(tab: TabID)
    | Stop
    | LoopStep(t: nat, seesStop: bool, order: seq<TabID>, gaveUp: bool)

  ghost predicate Lists(order: seq<TabID>, pending: map<TabID, Label>) {
    forall tab :: tab in order <==> tab in pending
  }

  ghost predicate Enabled(w: World, step: Step) {
    match step
    case Arm(spawned) => spawned !in w.loops
    case Schedule(_, _, spawned) => spawned !in w.loops
    case Clear(_) => true
    case Stop => true
    case LoopStep(t, seesStop, order, _) =>
      t in w.loops && !w.loops[t].Over?
      && (w.loops[t].Selecting? && seesStop ==> w.state.stop == Some(true))
      && (w.loops[t].Checking? && !TickEnds(w.state) ==> Lists(order, w.state.pending))
  }

  /** A section that turned running on has started a loop. */
  function Spawning(w: World, after: State, spawned: nat): World {
    World(after, if after.running && !w.state.running then w.loops[spawned := Selecting] else w.loops)
  }

  ghost function Next(w: World, step: Step): World
    requires Enabled(w, step)
  {
    match step
    case Arm(spawned) => Spawning(w, Armed(w.state), spawned)
    case Schedule(tab, setting, spawned) => Spawning(w, Scheduled(w.state, tab, setting), spawned)
    case Clear(tab) => w.(state := Cleared(w.state, tab))
    case Stop => w.(state := Stopped(w.state))
    case LoopStep(t, seesStop, order, gaveUp) =>
      match w.loops[t]
      case Selecting => w.(loops := w.loops[t := if seesStop then Leaving else Checking])
      case Leaving => World(Ended(w.state), w.loops[t := Over])
      case Checking =>
        if TickEnds(w.state) then World(Ended(w.state), w.loops[t := Over])
        else w.(loops := w.loops[t := Retrying(order)])
      case Retrying(tabs) =>
        if tabs == [] then w.(loops := w.loops[t := Selecting])
        else World(if gaveUp then Cleared(w.state, tabs[0]) else w.state, w.loops[t := Retrying(tabs[1..])])
      case Over => w
  }

  predicate Live(w: World, t: nat) {
    t in w.loops && !w.loops[t].Over?
  }

  /** Armed and not stopped, with something to retry, means that a loop is running. */
  predicate Awake(s: State) {
    s.enabled && !s.stopped && s.pending != map[] ==> s.running
  }

  ghost predicate Sound(w: World) {
    && Awake(w.state)
    && (w.state.running <==> exists t :: Live(w, t))
    && (forall t, u :: Live(w, t) && Live(w, u) ==> t == u)
    && (w.state.stop == Some(true) ==> w.state.stopped)
    && (w.state.stopped && w.state.stop.Some? ==> w.state.stop == Some(true))
    && (w.state.running ==> w.state.stop.Some?)
    && (forall t :: t in w.loops && w.loops[t].Leaving? ==> w.state.stopped)
  }

  lemma SpawningSound(w: World, after: State, spawned: nat)
    requires Sound(w) && spawned !in w.loops && Awake(after)
    requires after.running ==> w.state.running || (!w.state.stopped && after.stop.Some?)
    requires (w.state.running ==> after.running) && after.stopped == w.state.stopped
    requires after.stop == (if after.running && !w.state.running && w.state.stop.None? then Some(false) else w.state.stop)
    ensures Sound(Spawning(w, after, spawned))
  {
    var v := Spawning(w, after, spawned);
    if after.running && !w.state.running {
      assert Live(v, spawned);
      assert forall t :: Live(v, t) ==> t == spawned || Live(w, t);
    } else {
      assert forall t :: Live(v, t) <==> Live(w, t);
    }
  }

  lemma StateStepSound(w: World, after: State)
    requires Sound(w) && Awake(after) && after.running == w.state.running
    requires (w.state.stopped ==> after.stopped) && (after.stop.Some? <==> w.state.stop.Some?)
    requires after.stop == Some(true) ==> after.stopped
    requires after.stopped && after.stop.Some? ==> after.stop == Some(true)
    ensures Sound(World(after, w.loops))
  {
    var v := World(after, w.loops);
    assert forall t :: Live(v, t) <==> Live(w, t);
  }

  lemma LoopMovesSound(w: World, t: nat, after: State, q: Loop)
    requires Sound(w) && Live(w, t) && Awake(after) && after == w.state.(pending := after.pending, running := after.running)
    requires after.running <==> !q.Over?
    requires q.Leaving? ==> w.state.stopped
    ensures Sound(World(after, w.loops[t := q]))
  {
    var v := World(after, w.loops[t := q]);
    assert forall u :: Live(v, u) <==> (Live(w, u) && u != t) || (u == t && !q.Over?);
    if !q.Over? { assert Live(v, t); }
    assert forall u :: Live(w, u) ==> u == t;
  }

  lemma LoopStepSound(w: World, t: nat, seesStop: bool, order: seq<TabID>, gaveUp: bool)
    requires Sound(w) && Enabled(w, LoopStep(t, seesStop, order, gaveUp))
    ensures Sound(Next(w, LoopStep(t, seesStop, order, gaveUp)))
  {
    assert Live(w, t) && w.state.running;
    match w.loops[t]
    case Selecting => LoopMovesSound(w, t, w.state, if seesStop then Leaving else Checking);
    case Leaving => LoopMovesSound(w, t, Ended(w.state), Over);
    case Checking => LoopMovesSound(w, t, if TickEnds(w.state) then Ended(w.state) else w.state, if TickEnds(w.state) then Over else Retrying(order));
    case Retrying(tabs) =>
      if tabs == [] {
        LoopMovesSound(w, t, w.state, Selecting);
      } else {
        LoopMovesSound(w, t, if gaveUp then Cleared(w.state, tabs[0]) else w.state, Retrying(tabs[1..]));
      }
  }

  lemma StepSound(w: World, step: Step)
    requires Sound(w) && Enabled(w, step)
    ensures Sound(Next(w, step))
  {
    hide TrimSpace;
    match step
    case Arm(spawned) => SpawningSound(w, Armed(w.state), spawned);
    case Schedule(tab, setting, spawned) => SpawningSound(w, Scheduled(w.state, tab, setting), spawned);
    case Clear(tab) => StateStepSound(w, Cleared(w.state, tab));
    case Stop => StateStepSound(w, Stopped(w.state));
    case LoopStep(t, seesStop, order, gaveUp) => LoopStepSound(w, t, seesStop, order, gaveUp);
  }

  ghost predicate Runs(w: World, steps: seq<Step>)
    decreases |steps|
  {
    steps == [] || (Enabled(w, steps[0]) && Runs(Next(w, steps[0]), steps[1..]))
  }

  ghost function After(w: World, steps: seq<Step>): World
    requires Runs(w, steps)
    decreases |steps|
  {
    if steps == [] then w else After(Next(w, steps[0]), steps[1..])
  }

  lemma {:induction false} RunSound(w: World, steps: seq<Step>)
    requires Sound(w) && Runs(w, steps)
    ensures Sound(After(w, steps))
    decreases |steps|
  {
    hide Sound, Enabled, Next;
    if steps != [] {
      StepSound(w, steps[0]);
      RunSound(Next(w, steps[0]), steps[1..]);
    }
  }

  // ---------- the theorems ----------

  /** After every locked step of every run: pending work of an armed, unstopped state has its loop, and there is never a second one. */
  lemma NoLostWakeUp(steps: seq<Step>, t: nat, u: nat)
    requires Runs(INIT, steps)
    ensures var w := After(INIT, steps);
            && (w.state.enabled && !w.state.stopped && w.state.pending != map[] ==> exists l :: Live(w, l))
            && (Live(w, t) && Live(w, u) ==> t == u)
            && (w.state.running <==> exists l :: Live(w, l))
  {
    assert Sound(INIT);
    RunSound(INIT, steps);
  }

  /** After the stop no loop is started, nothing more is scheduled, and the stop channel stays as the stop left it. */
  lemma {:induction false} NothingStartsAfterStop(w: World, steps: seq<Step>, t: nat)
    requires Sound(w) && w.state.stopped && Runs(w, steps)
    ensures var v := After(w, steps);
            && v.state.stopped && v.state.stop == w.state.stop && v.state.pending.Keys <= w.state.pending.Keys
            && (Live(v, t) ==> Live(w, t))
    decreases |steps|
  {
    if steps != [] {
      StepSound(w, steps[0]);
      OneStepAfterStop(w, steps[0], t);
      hide Enabled, Next, Sound;
      NothingStartsAfterStop(Next(w, steps[0]), steps[1..], t);
    }
  }

  lemma OneStepAfterStop(w: World, step: Step, t: nat)
    requires w.state.stopped && Enabled(w, step)
    ensures var v := Next(w, step);
            && v.state.stopped && v.state.stop == w.state.stop && v.state.pending.Keys <= w.state.pending.Keys
            && (Live(v, t) ==> Live(w, t))
  {
    hide TrimSpace;
  }

  /** How many more steps a loop can take once the state is stopped. */
  function StepsLeft(l: Loop): nat {
    match l
    case Over => 0
    case Leaving => 1
    case Checking => 1
    case Selecting => 2
    case Retrying(tabs) => 3 + |tabs|
  }

  /** After the stop every step of a live loop brings it closer to its end, and one is always open to it. */
  lemma LoopEndsAfterStop(w: World, t: nat, seesStop: bool, order: seq<TabID>, gaveUp: bool)
    requires w.state.stopped && Live(w, t)
    ensures Enabled(w, LoopStep(t, false, order, gaveUp))
    ensures Enabled(w, LoopStep(t, seesStop, order, gaveUp)) ==>
              t in Next(w, LoopStep(t, seesStop, order, gaveUp)).loops
              && StepsLeft(Next(w, LoopStep(t, seesStop, order, gaveUp)).loops[t]) < StepsLeft(w.loops[t])
  {
  }

  // ---------- what is pending, told from the steps ----------

  /** The worlds a run goes through, the first and the last included. */
  ghost function Worlds(w: World, steps: seq<Step>): (ws: seq<World>)
    requires Runs(w, steps)
    ensures |ws| == |steps| + 1 && ws[0] == w && ws[|steps|] == After(w, steps)
    ensures forall i :: 0 <= i < |steps| ==> Enabled(ws[i], steps[i]) && ws[i + 1] == Next(ws[i], steps[i])
    decreases |steps|
  {
    if steps == [] then [w]
    else
      assert forall i :: 0 < i < |steps| ==> steps[i] == steps[1..][i - 1];
      [w] + Worlds(Next(w, steps[0]), steps[1..])
  }

  /** The step asks for a retry of a named tab, before any stop. */
  predicate Asks(w: World, step: Step, tab: TabID) {
    step.Schedule? && TrimSpace(step.tab) == tab && tab != "" && !w.state.stopped
  }

  /** The step takes the tab off: it was cleared, or its retry is over for good. */
  predicate TakesOff(w: World, step: Step, tab: TabID) {
    step == Clear(tab) ||
    (step.LoopStep? && step.gaveUp && step.t in w.loops && w.loops[step.t].Retrying? && w.loops[step.t].tabs != [] && w.loops[step.t].tabs[0] == tab)
  }

  /** Step i asked for tab with this label, and no step since, up to the n-th, asked for it or took it off. */
  ghost predicate LastAsked(ws: seq<World>, steps: seq<Step>, n: nat, i: nat, tab: TabID, setting: Label)
    requires |ws| == |steps| + 1 && n <= |steps|
  {
    i < n && Asks(ws[i], steps[i], tab) && steps[i].setting == setting &&
    forall k :: i < k < n ==> !Asks(ws[k], steps[k], tab) && !TakesOff(ws[k], steps[k], tab)
  }

  lemma PendingStep(w: World, step: Step, tab: TabID)
    requires Enabled(w, step)
    ensures var p, q := w.state.pending, Next(w, step).state.pending;
            if Asks(w, step, tab) then tab in q && q[tab] == step.setting
            else if TakesOff(w, step, tab) then tab !in q
            else (tab in q <==> tab in p) && (tab in p ==> q[tab] == p[tab])
  {
    hide TrimSpace;
  }

  /** A tab is pending with a label exactly if the last step about it asked for it with that label. */
  lemma {:induction false} PendingIsLastAsked(steps: seq<Step>, n: nat, tab: TabID, setting: Label)
    requires Runs(INIT, steps) && n <= |steps|
    ensures var ws := Worlds(INIT, steps); var pending := ws[n].state.pending;
            (tab in pending && pending[tab] == setting) <==> exists i: nat :: LastAsked(ws, steps, n, i, tab, setting)
    decreases n
  {
    hide Runs, After, Worlds, Next, Enabled, TakesOff, TrimSpace;
    var ws := Worlds(INIT, steps);
    if n > 0 {
      var m := n - 1;
      var w, step := ws[m], steps[m];
      PendingIsLastAsked(steps, m, tab, setting);
      PendingStep(w, step, tab);
      if Asks(w, step, tab) {
        if step.setting == setting { assert LastAsked(ws, steps, n, m, tab, setting); }
        if i: nat :| LastAsked(ws, steps, n, i, tab, setting) { assert i == m; }
      } else if !TakesOff(w, step, tab) {
        if i: nat :| LastAsked(ws, steps, m, i, tab, setting) { assert LastAsked(ws, steps, n, i, tab, setting); }
        if i: nat :| LastAsked(ws, steps, n, i, tab, setting) { assert LastAsked(ws, steps, m, i, tab, setting); }
      }
    }
  }

  /** The state is armed, or stopped, exactly if some step armed or stopped it. */
  lemma {:induction false} FlagsTell(steps: seq<Step>, n: nat)
    requires Runs(INIT, steps) && n <= |steps|
    ensures var s := Worlds(INIT, steps)[n].state;
            && (s.enabled <==> exists i :: 0 <= i < n && steps[i].Arm?)
            && (s.stopped <==> exists i :: 0 <= i < n && steps[i].Stop?)
    decreases n
  {
    hide Runs, After, Worlds;
    if n > 0 {
      FlagsTell(steps, n - 1);
      FlagStep(Worlds(INIT, steps)[n - 1], steps[n - 1]);
      hide Next, Enabled;
    }
  }

  lemma FlagStep(w: World, step: Step)
    requires Enabled(w, step)
    ensures var s, v := w.state, Next(w, step).state;
            (v.enabled <==> s.enabled || step.Arm?) && (v.stopped <==> s.stopped || step.Stop?)
  {
    hide TrimSpace;
  }

  // ---------- a tick retries every entry ----------

  /** The steps of a loop that retries the listed tabs; gs says which attempts are over for good. */
  function RetrySteps(t: nat, gs: seq<bool>): seq<Step>
    decreases |gs|
  {
    if gs == [] then [] else [LoopStep(t, false, [], gs[0])] + RetrySteps(t, gs[1..])
  }

  /** The listed tabs whose attempt is over for good. */
  function GivenUp(order: seq<TabID>, gs: seq<bool>): set<TabID>
    requires |order| == |gs|
    decreases |gs|
  {
    if gs == [] then {} else (if gs[0] then {order[0]} else {}) + GivenUp(order[1..], gs[1..])
  }

  lemma {:induction false} RetriesListed(w: World, t: nat, order: seq<TabID>, gs: seq<bool>)
    requires t in w.loops && w.loops[t] == Retrying(order) && |order| == |gs|
    ensures Runs(w, RetrySteps(t, gs))
    ensures var v := After(w, RetrySteps(t, gs));
            t in v.loops && v.loops[t] == Retrying([]) && v.state == w.state.(pending := w.state.pending - GivenUp(order, gs))
    decreases |gs|
  {
    if gs == [] {
      assert w.state.pending - {} == w.state.pending;
    } else {
      var step := LoopStep(t, false, [], gs[0]);
      var next := Next(w, step);
      RetriesListed(next, t, order[1..], gs[1..]);
      assert RetrySteps(t, gs)[1..] == RetrySteps(t, gs[1..]);
      assert w.state.pending - GivenUp(order, gs) == next.state.pending - GivenUp(order[1..], gs[1..]);
    }
  }

  /** A tick that finds work retries every pending tab, and leaves exactly those whose attempt is not over for good. */
  lemma TickRetriesEvery(w: World, t: nat, order: seq<TabID>, gs: seq<bool>)
    requires t in w.loops && w.loops[t] == Checking && !w.state.stopped && w.state.pending != map[]
    requires Lists(order, w.state.pending) && |order| == |gs|
    ensures var steps := [LoopStep(t, false, order, false)] + RetrySteps(t, gs);
            && Runs(w, steps) && t in After(w, steps).loops && After(w, steps).loops[t] == Retrying([])
            && After(w, steps).state.pending == w.state.pending - GivenUp(order, gs)
  {
    var step := LoopStep(t, false, order, false);
    var next := Next(w, step);
    assert next.loops[t] == Retrying(order) && next.state == w.state;
    RetriesListed(next, t, order, gs);
    assert ([step] + RetrySteps(t, gs))[1..] == RetrySteps(t, gs);
  }
}
