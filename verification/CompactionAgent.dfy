/**
 The agent that owns the log: the pass in place, and the per-turn controller
 with its latch (internal/agent/compact.go: compact, maybeCompact).
 */
module CompactionAgent {
  import opened Wrappers
  import opened Messages
  import opened CompactionPlan
  import opened CompactionFold
  import opened CompactionPass
  import opened CompactionRuns

  /** What a snip or prune pass did; the rewritten texts come from outside the model. */
  datatype Maintenance = Maintenance(failed: bool, results: nat, savedChars: int, next: seq<Message>)

  /** Maintenance rewrites tool results only, and reports results exactly when it rewrote some. */
  predicate MaintenanceOf(ms: seq<Message>, mt: Maintenance) {
    SameShape(ms, mt.next) && (mt.failed || mt.results == 0 ==> mt.next == ms)
  }

  /** The events that open and resolve a frontend's placeholder card. */
  datatype Event = CompactionStarted | CompactionDone(messages: nat)

  // ---------- the latch as a state machine ----------

  datatype Latch = Latch(noticed: bool, stuck: bool, consecutive: int)

  const OPEN_LATCH := Latch(false, false, 0)

  /** What maybeCompact decides to do with one turn. */
  datatype Action = Ignore | Notice | Snip | Clear | Paused | PruneSuffices | PassFailed | PassRan

  function Threshold(cfg: Settings, ratio: real): int {
    Scaled(cfg.contextWindow, ratio)
  }

  function Decide(cfg: Settings, latch: Latch, tokens: Option<int>, pruneSuffices: bool, passOk: bool): Action {
    if cfg.contextWindow <= 0 || tokens.None? || tokens.value == 0 then Ignore
    else
      var t, high, snip := tokens.value, Threshold(cfg, cfg.compactRatio), Threshold(cfg, cfg.snipRatio);
      if Threshold(cfg, cfg.softRatio) <= t < snip && !latch.noticed then Notice
      else if snip <= t < high then Snip
      else if t < high then Clear
      else if latch.stuck then Paused
      else if pruneSuffices then PruneSuffices
      else if !passOk then PassFailed
      else PassRan
  }

  function Advance(latch: Latch, a: Action): Latch {
    match a
    case Notice => latch.(noticed := true)
    case Clear => latch.(stuck := false, consecutive := 0)
    case PassRan => latch.(consecutive := latch.consecutive + 1, stuck := latch.stuck || latch.consecutive + 1 >= 2)
    case _ => latch
  }

  /** The pause warning goes out with the pass that closes the latch. */
  predicate Warns(latch: Latch, a: Action) {
    a.PassRan? && latch.consecutive + 1 >= 2
  }

  /** One turn as the controller sees it. */
  datatype Turn = Turn(tokens: Option<int>, pruneSuffices: bool, passOk: bool)

  function ActionOf(cfg: Settings, latch: Latch, t: Turn): Action {
    Decide(cfg, latch, t.tokens, t.pruneSuffices, t.passOk)
  }

  function RunLatch(cfg: Settings, latch: Latch, turns: seq<Turn>): Latch
    decreases turns
  {
    if turns == [] then latch
    else RunLatch(cfg, Advance(latch, ActionOf(cfg, latch, turns[0])), turns[1..])
  }

  function Passes(cfg: Settings, latch: Latch, turns: seq<Turn>): nat
    decreases turns
  {
    if turns == [] then 0
    else
      var a := ActionOf(cfg, latch, turns[0]);
      (if a.PassRan? then 1 else 0) + Passes(cfg, Advance(latch, a), turns[1..])
  }

  function Warnings(cfg: Settings, latch: Latch, turns: seq<Turn>): nat
    decreases turns
  {
    if turns == [] then 0
    else
      var a := ActionOf(cfg, latch, turns[0]);
      (if Warns(latch, a) then 1 else 0) + Warnings(cfg, Advance(latch, a), turns[1..])
  }

  predicate NeverClears(cfg: Settings, latch: Latch, turns: seq<Turn>)
    decreases turns
  {
    turns == [] ||
    (var a := ActionOf(cfg, latch, turns[0]);
     !a.Clear? && NeverClears(cfg, Advance(latch, a), turns[1..]))
  }

  predicate LatchInv(latch: Latch) {
    0 <= latch.consecutive <= 2 && (latch.stuck <==> latch.consecutive == 2)
  }

  /** Over any run from the open latch: stuck exactly when two passes ran in a row. */
  lemma {:induction false} LatchStaysSound(cfg: Settings, latch: Latch, turns: seq<Turn>)
    requires LatchInv(latch)
    ensures LatchInv(RunLatch(cfg, latch, turns))
    decreases turns
  {
    if turns != [] {
      LatchStaysSound(cfg, Advance(latch, ActionOf(cfg, latch, turns[0])), turns[1..]);
    }
  }

  /**
   Between two clears at most two passes run, and the pause warning goes out
   exactly once when the latch closes and not otherwise.
   */
  lemma {:induction false} AtMostTwoPassesBetweenClears(cfg: Settings, latch: Latch, turns: seq<Turn>)
    requires LatchInv(latch) && NeverClears(cfg, latch, turns)
    ensures latch.consecutive + Passes(cfg, latch, turns) == RunLatch(cfg, latch, turns).consecutive <= 2
    ensures Warnings(cfg, latch, turns) == if !latch.stuck && RunLatch(cfg, latch, turns).stuck then 1 else 0
    ensures latch.stuck ==> RunLatch(cfg, latch, turns).stuck
    decreases turns
  {
    if turns != [] {
      AtMostTwoPassesBetweenClears(cfg, Advance(latch, ActionOf(cfg, latch, turns[0])), turns[1..]);
    }
  }

  /** The usage is known and there is a window. */
  predicate Known(cfg: Settings, t: Turn) {
    cfg.contextWindow > 0 && t.tokens.Some? && t.tokens.value != 0
  }

  predicate InSoftBand(cfg: Settings, t: Turn) {
    Known(cfg, t) && Threshold(cfg, cfg.softRatio) <= t.tokens.value < Threshold(cfg, cfg.snipRatio)
  }

  /** How many turns call for a pass: at the trigger, not spent on the one soft notice, not saved by pruning, not failing to archive. */
  function Calls(cfg: Settings, noticed: bool, turns: seq<Turn>): nat
    decreases turns
  {
    if turns == [] then 0
    else
      var t := turns[0];
      var calls := Known(cfg, t) && t.tokens.value >= Threshold(cfg, cfg.compactRatio) && (InSoftBand(cfg, t) ==> noticed)
                   && !t.pruneSuffices && t.passOk;
      (if calls then 1 else 0) + Calls(cfg, noticed || InSoftBand(cfg, t), turns[1..])
  }

  /** Between two clears the first two turns that call for a pass get one, and no other. */
  lemma {:induction false} PassesExactly(cfg: Settings, latch: Latch, turns: seq<Turn>)
    requires LatchInv(latch) && NeverClears(cfg, latch, turns)
    ensures Passes(cfg, latch, turns) ==
            (if Calls(cfg, latch.noticed, turns) < 2 - latch.consecutive then Calls(cfg, latch.noticed, turns) else 2 - latch.consecutive)
    decreases turns
  {
    if turns != [] {
      PassesExactly(cfg, Advance(latch, ActionOf(cfg, latch, turns[0])), turns[1..]);
    }
  }

  /** A turn at the trigger never clears, so a run of them from the open latch has exactly two passes and one warning, or one pass if it is alone. */
  lemma {:induction false} TriggerTurnsPass(cfg: Settings, latch: Latch, turns: seq<Turn>)
    requires LatchInv(latch)
    requires forall t :: t in turns ==>
               Known(cfg, t) && t.tokens.value >= Threshold(cfg, cfg.compactRatio) && t.tokens.value >= Threshold(cfg, cfg.snipRatio)
               && !t.pruneSuffices && t.passOk
    ensures Passes(cfg, latch, turns) == if |turns| < 2 - latch.consecutive then |turns| else 2 - latch.consecutive
    ensures Warnings(cfg, latch, turns) == if !latch.stuck && |turns| >= 2 - latch.consecutive then 1 else 0
    decreases turns
  {
    if turns != [] {
      TriggerTurnsPass(cfg, Advance(latch, ActionOf(cfg, latch, turns[0])), turns[1..]);
    }
  }

  /** A turn below the trigger and outside both bands starts the count anew. */
  lemma ClearsExactly(cfg: Settings, latch: Latch, t: Turn)
    ensures ActionOf(cfg, latch, t).Clear? <==>
            && Known(cfg, t) && t.tokens.value < Threshold(cfg, cfg.compactRatio) && t.tokens.value < Threshold(cfg, cfg.snipRatio)
            && (InSoftBand(cfg, t) ==> latch.noticed)
    ensures ActionOf(cfg, latch, t).Clear? ==> Advance(latch, ActionOf(cfg, latch, t)) == Latch(latch.noticed, false, 0)
  {
  }

  /** A usage reaches a threshold when it is at least that share of the window, rounded down. */
  lemma ThresholdIs(cfg: Settings, ratio: real, t: int)
    requires cfg.contextWindow > 0 && ratio >= 0.0
    ensures t >= Threshold(cfg, ratio) <==> (t + 1) as real > cfg.contextWindow as real * ratio
  {
    assert cfg.contextWindow as real * ratio >= 0.0;
  }

  /**
   A closed latch opens exactly on a turn whose usage is known, lies below the
   trigger, outside the snip band, and is not the one that earns the soft notice.
   */
  lemma LatchOpensOnlyBelowTrigger(cfg: Settings, latch: Latch, t: Turn)
    requires LatchInv(latch) && latch.stuck
    ensures !Advance(latch, ActionOf(cfg, latch, t)).stuck <==>
            && cfg.contextWindow > 0 && t.tokens.Some? && t.tokens.value != 0
            && t.tokens.value < Threshold(cfg, cfg.compactRatio)
            && t.tokens.value < Threshold(cfg, cfg.snipRatio)
            && (t.tokens.value >= Threshold(cfg, cfg.softRatio) ==> latch.noticed)
  {
  }

  // ---------- the agent ----------

  class Agent {
    const cfg: Settings
    var messages: seq<Message>
    var lastPromptTokens: Option<int>
    var softCompactNoticed: bool
    var compactStuck: bool
    var consecutiveCompacts: int
    var events: seq<Event>
    var pauseWarnings: nat
    /** Everything folds took out of the log (the archive files, when archiving is on). */
    ghost var folded: seq<Message>

    constructor (cfg: Settings)
      ensures this.cfg == cfg && messages == [] && folded == [] && events == [] && pauseWarnings == 0 && View() == OPEN_LATCH
    {
      this.cfg := cfg;
      messages, folded, events, pauseWarnings := [], [], [], 0;
      lastPromptTokens := None;
      softCompactNoticed, compactStuck, consecutiveCompacts := false, false, 0;
    }

    ghost function View(): Latch
      reads this
    {
      Latch(softCompactNoticed, compactStuck, consecutiveCompacts)
    }

    /** One pass; summary is the summarizer's text, or the stand-in when it failed. */
    method Compact(force: bool, archiveOk: bool, summary: string) returns (ok: bool)
      modifies this`messages, this`folded, this`events
      ensures match CompactOutcome(old(messages), cfg, lastPromptTokens, force, archiveOk, Digest(summary))
              case Unchanged =>
                ok && messages == old(messages) && folded == old(folded) && events == old(events)
              case ArchiveFailed =>
                !ok && messages == old(messages) && folded == old(folded) && events == old(events) + [CompactionStarted, CompactionDone(0)]
              case Folded(live, fold) =>
                ok && messages == live && folded == old(folded) + fold && events == old(events) + [CompactionStarted, CompactionDone(|fold|)]
    {
      hide CompactOutcome, Digest;
      var out := ComputeOutcome(messages, cfg, lastPromptTokens, force, archiveOk, Digest(summary));
      if out.Unchanged? {
        return true;
      }
      events := events + [CompactionStarted];
      if out.ArchiveFailed? {
        events := events + [CompactionDone(0)];
        return false;
      }
      messages := out.live;
      folded := folded + out.fold;
      events := events + [CompactionDone(|out.fold|)];
      return true;
    }

    /** Whether elided tool results alone bring a turn that is not forced back under the trigger. */
    ghost predicate PruneClears(t: int, prune: Maintenance)
      reads this
    {
      var saved := Scaled(prune.savedChars, TokPerChar(lastPromptTokens, messages));
      !prune.failed && prune.results > 0 && t < Threshold(cfg, cfg.forceRatio) && t - saved < Threshold(cfg, cfg.compactRatio)
    }

    /** What the pass of this turn would do to the pruned log. */
    ghost function PassOutcome(t: int, prune: Maintenance, archiveOk: bool, summary: string): Outcome
      reads this
    {
      CompactOutcome(prune.next, cfg, lastPromptTokens, t >= Threshold(cfg, cfg.forceRatio), archiveOk, Digest(summary))
    }

    /** How a turn looks to the latch. */
    ghost function TurnOf(tokens: Option<int>, prune: Maintenance, archiveOk: bool, summary: string): Turn
      reads this
    {
      if tokens.None? then Turn(None, false, true)
      else Turn(tokens, PruneClears(tokens.value, prune), !PassOutcome(tokens.value, prune, archiveOk, summary).ArchiveFailed?)
    }

    /** The log after a turn that took action act: maintained, folded or untouched. */
    ghost function LogAfter(act: Action, snip: Maintenance, prune: Maintenance, pass: Outcome): seq<Message>
      reads this
    {
      match act
      case Snip => snip.next
      case PruneSuffices => prune.next
      case PassFailed => prune.next
      case PassRan => if pass.Folded? then pass.live else prune.next
      case _ => messages
    }

    /** maybeCompact at or above the trigger with the latch open. */
    method CompactAtTrigger(t: int, prune: Maintenance, archiveOk: bool, summary: string) returns (ghost act: Action)
      requires MaintenanceOf(messages, prune) && !compactStuck
      modifies this
      ensures act == (if old(PruneClears(t, prune)) then PruneSuffices
                      else if old(PassOutcome(t, prune, archiveOk, summary)).ArchiveFailed? then PassFailed else PassRan)
      ensures View() == Advance(old(View()), act)
      ensures messages == old(LogAfter(act, prune, prune, PassOutcome(t, prune, archiveOk, summary)))
      ensures pauseWarnings == old(pauseWarnings) + (if Warns(old(View()), act) then 1 else 0)
      ensures lastPromptTokens == old(lastPromptTokens)
    {
      hide CompactOutcome, Digest, TokPerChar, Scaled, MaintenanceOf, SameShape, IsCompactionSummary;
      var force := t >= Threshold(cfg, cfg.forceRatio);
      var ratio := TokPerChar(lastPromptTokens, messages);
      messages := prune.next;
      if !prune.failed && prune.results > 0 {
        var saved := Scaled(prune.savedChars, ratio);
        if !force && t - saved < Threshold(cfg, cfg.compactRatio) {
          act := PruneSuffices;
          return;
        }
      }
      var ok := Compact(force, archiveOk, summary);
      if !ok {
        act := PassFailed;
        return;
      }
      act := PassRan;
      consecutiveCompacts := consecutiveCompacts + 1;
      if consecutiveCompacts >= 2 {
        compactStuck := true;
        pauseWarnings := pauseWarnings + 1;
      }
    }

    /** There is a window, and the last usage is known. */
    predicate Sees(tokens: Option<int>) {
      cfg.contextWindow > 0 && tokens.Some? && tokens.value != 0
    }

    /** In the soft band, for the first time. */
    ghost predicate NoticesAt(tokens: Option<int>)
      reads this
    {
      Sees(tokens) && Threshold(cfg, cfg.softRatio) <= tokens.value < Threshold(cfg, cfg.snipRatio) && !softCompactNoticed
    }

    ghost predicate SnipsAt(tokens: Option<int>)
      reads this
    {
      Sees(tokens) && Threshold(cfg, cfg.snipRatio) <= tokens.value < Threshold(cfg, cfg.compactRatio)
    }

    ghost predicate ClearsAt(tokens: Option<int>)
      reads this
    {
      Sees(tokens) && tokens.value < Threshold(cfg, cfg.compactRatio) && !SnipsAt(tokens) && !NoticesAt(tokens)
    }

    ghost predicate TriggersAt(tokens: Option<int>)
      reads this
    {
      Sees(tokens) && tokens.value >= Threshold(cfg, cfg.compactRatio) && !NoticesAt(tokens)
    }

    /** The latch counts one more pass than was, and closes at the second. */
    ghost predicate Counts(was: Latch)
      reads this
    {
      View() == Latch(was.noticed, was.stuck || was.consecutive + 1 >= 2, was.consecutive + 1)
    }

    method MaybeCompact(tokens: Option<int>, snip: Maintenance, prune: Maintenance, archiveOk: bool, summary: string)
      returns (ghost act: Action)
      requires MaintenanceOf(messages, snip) && MaintenanceOf(messages, prune)
      modifies this
      ensures act == ActionOf(cfg, old(View()), old(TurnOf(tokens, prune, archiveOk, summary)))
      ensures View() == Advance(old(View()), act)
      ensures !Sees(tokens) ==> messages == old(messages) && View() == old(View())
      ensures old(NoticesAt(tokens)) ==> messages == old(messages) && View() == old(View()).(noticed := true)
      ensures old(SnipsAt(tokens)) ==> messages == snip.next && View() == old(View())
      ensures old(ClearsAt(tokens)) ==> messages == old(messages) && View() == Latch(old(softCompactNoticed), false, 0)
      ensures old(TriggersAt(tokens)) && old(compactStuck) ==> messages == old(messages) && View() == old(View())
      ensures old(TriggersAt(tokens)) && !old(compactStuck) && old(PruneClears(tokens.value, prune)) ==>
                messages == prune.next && View() == old(View())
      ensures old(TriggersAt(tokens)) && !old(compactStuck) && !old(PruneClears(tokens.value, prune)) ==>
                match CompactOutcome(prune.next, cfg, old(lastPromptTokens), tokens.value >= Threshold(cfg, cfg.forceRatio), archiveOk, Digest(summary))
                case Folded(live, _) => messages == live && Counts(old(View()))
                case Unchanged => messages == prune.next && Counts(old(View()))
                case ArchiveFailed => messages == prune.next && View() == old(View())
      ensures messages == old(LogAfter(act, snip, prune, if tokens.Some? then PassOutcome(tokens.value, prune, archiveOk, summary) else Unchanged))
      ensures pauseWarnings == old(pauseWarnings) + (if Warns(old(View()), act) then 1 else 0)
      ensures lastPromptTokens == old(lastPromptTokens)
    {
      hide CompactOutcome, Digest, TokPerChar, Scaled, Threshold, MaintenanceOf, SameShape, IsCompactionSummary;
      if cfg.contextWindow <= 0 || tokens.None? || tokens.value == 0 {
        act := Ignore;
        return;
      }
      var t := tokens.value;
      var high, snipAt, soft := Threshold(cfg, cfg.compactRatio), Threshold(cfg, cfg.snipRatio), Threshold(cfg, cfg.softRatio);
      if t >= soft && t < snipAt && !softCompactNoticed {
        softCompactNoticed := true;
        act := Notice;
        return;
      }
      if t >= snipAt && t < high {
        messages := snip.next;
        act := Snip;
        return;
      }
      if t < high {
        consecutiveCompacts := 0;
        compactStuck := false;
        act := Clear;
        return;
      }
      if compactStuck {
        act := Paused;
        return;
      }
      act := CompactAtTrigger(t, prune, archiveOk, summary);
    }
  }

  /** Pruning saves a turn its pass exactly if it elided something, the turn is not forced, and the estimate falls below the trigger. */
  lemma PruneClearsExactly(a: Agent, t: int, prune: Maintenance)
    requires a.cfg.contextWindow > 0 && a.cfg.compactRatio >= 0.0 && a.cfg.forceRatio >= 0.0 && prune.savedChars >= 0
    ensures a.PruneClears(t, prune) <==>
            && !prune.failed && prune.results > 0
            && (t + 1) as real <= a.cfg.contextWindow as real * a.cfg.forceRatio
            && (t - (prune.savedChars as real * TokPerChar(a.lastPromptTokens, a.messages)).Floor + 1) as real
                 <= a.cfg.contextWindow as real * a.cfg.compactRatio
  {
    hide TokPerChar, Threshold;
    var r := TokPerChar(a.lastPromptTokens, a.messages);
    var saved := Scaled(prune.savedChars, r);
    SavedIs(prune.savedChars, r);
    hide Scaled;
    ThresholdIs(a.cfg, a.cfg.forceRatio, t);
    ThresholdIs(a.cfg, a.cfg.compactRatio, t - saved);
  }

  lemma SavedIs(chars: nat, r: real)
    requires r > 0.0
    ensures Scaled(chars, r) == (chars as real * r).Floor
  {
    assert chars as real * r >= 0.0;
  }

  /** A turn of the controller leaves a paired log paired, whatever it decides. */
  lemma TurnKeepsPairs(a: Agent, act: Action, t: int, snip: Maintenance, prune: Maintenance, archiveOk: bool, summary: string)
    requires WellPaired(a.messages)
    requires MaintenanceOf(a.messages, snip) && MaintenanceOf(a.messages, prune)
    ensures WellPaired(a.LogAfter(act, snip, prune, a.PassOutcome(t, prune, archiveOk, summary)))
  {
    hide Digest, CompactOutcome;
    ShapeKeepsPairs(a.messages, snip.next);
    ShapeKeepsPairs(a.messages, prune.next);
    PassKeepsPairs(prune.next, a.cfg, a.lastPromptTokens, t >= Threshold(a.cfg, a.cfg.forceRatio), archiveOk, Digest(summary));
  }
}
