/**
 Where a compaction pass cuts the log: the pinned prefix, the token estimates
 and the verbatim tail (internal/agent/compact.go).
 */
module CompactionPlan {
  import opened Wrappers
  import opened Messages

  const DEFAULT_TAIL_TOKENS: int := 16384
  const MIN_RECENT_KEEP: int := 2
  const MIN_COMPACT_MESSAGES: int := 2
  const FALLBACK_TOK_PER_CHAR: real := 0.25
  const MAX_PINNED_FIRST_USER_TOKENS: int := 1500
  const PINNED_FIRST_USER_WINDOW_FRAC: real := 0.15
  const DEFAULT_COMPACT_TARGET: real := 0.5

  /** The agent's context-management options. */
  datatype Settings = Settings(
    contextWindow: int,
    recentKeep: int,
    keepErrors: bool,
    keepUserMarked: bool,
    softRatio: real,
    snipRatio: real,
    compactRatio: real,
    forceRatio: real,
    archiving: bool)

  /** Conversion of a float to an int: rounds toward zero. */
  function Trunc(x: real): int {
    if x >= 0.0 then x.Floor else -(-x).Floor
  }

  function Scaled(n: int, ratio: real): int {
    Trunc(n as real * ratio)
  }

  lemma ProductBounds(x: real, r: real)
    requires 0.0 <= x && 0.0 < r < 2.0
    ensures 0.0 <= x * r <= x + x
  {
  }

  lemma FloorBound(y: real, n: int)
    requires 0.0 <= y <= n as real
    ensures 0 <= y.Floor <= n
  {
  }

  lemma ScaledBounds(n: nat, r: real)
    requires 0.0 < r < 2.0
    ensures 0 <= Scaled(n, r) <= 2 * n
  {
    var x := n as real;
    ProductBounds(x, r);
    assert x + x == (n + n) as real;
    FloorBound(x * r, n + n);
  }

  lemma Quotient(v: real, c: real)
    requires c > 0.0
    ensures v / c * c == v
    ensures 0.05 < v / c < 2.0 <==> 0.05 * c < v < 2.0 * c
  {
    var q := v / c;
    assert q * c == v;
    if q <= 0.05 { ProductOrder(q, 0.05, c); }
    if q >= 0.05 { ProductOrder(0.05, q, c); }
    if q <= 2.0 { ProductOrder(q, 2.0, c); }
    if q >= 2.0 { ProductOrder(2.0, q, c); }
  }

  lemma ProductOrder(a: real, b: real, c: real)
    requires a <= b && c > 0.0
    ensures a * c <= b * c && (a < b ==> a * c < b * c)
  {
  }

  /** Tokens per character, calibrated on the last turn's usage when that is plausible. */
  function TokPerChar(lastPromptTokens: Option<int>, ms: seq<Message>): (r: real)
    ensures 0.05 < r < 2.0
    ensures r == FALLBACK_TOK_PER_CHAR ||
            (lastPromptTokens.Some? && TotalChars(ms) > 0 && r * TotalChars(ms) as real == lastPromptTokens.value as real)
    ensures lastPromptTokens.Some? && TotalChars(ms) > 0
            && 0.05 * TotalChars(ms) as real < lastPromptTokens.value as real < 2.0 * (TotalChars(ms) as real) ==>
              r * TotalChars(ms) as real == lastPromptTokens.value as real
  {
    if lastPromptTokens.Some? && lastPromptTokens.value > 0 && TotalChars(ms) > 0 then
      Quotient(lastPromptTokens.value as real, TotalChars(ms) as real);
      var r := lastPromptTokens.value as real / TotalChars(ms) as real;
      if 0.05 < r < 2.0 then r else FALLBACK_TOK_PER_CHAR
    else
      FALLBACK_TOK_PER_CHAR
  }

  // ---------- the pinned prefix ----------

  function PinBudget(cfg: Settings): int {
    if cfg.contextWindow > 0 then
      var f := Scaled(cfg.contextWindow, PINNED_FIRST_USER_WINDOW_FRAC);
      if f < MAX_PINNED_FIRST_USER_TOKENS then f else MAX_PINNED_FIRST_USER_TOKENS
    else
      MAX_PINNED_FIRST_USER_TOKENS
  }

  predicate Pinnable(m: Message, cfg: Settings, r: real) {
    Scaled(MsgChars(m), r) <= PinBudget(cfg)
  }

  /** Whatever ratio is calibrated, a turn of at most half the budget in characters is pinnable. */
  lemma SmallTurnPinnable(m: Message, cfg: Settings, r: real)
    requires 0.0 < r < 2.0 && 2 * MsgChars(m) <= PinBudget(cfg)
    ensures Pinnable(m, cfg, r)
  {
    ScaledBounds(MsgChars(m), r);
  }

  function SkipSystem(ms: seq<Message>): nat {
    if ms != [] && ms[0].role.System? then 1 else 0
  }

  function SkipFirstUser(ms: seq<Message>, i: nat, cfg: Settings, r: real): nat {
    if i < |ms| && ms[i].role.User? && !IsCompactionSummary(ms[i]) && Pinnable(ms[i], cfg, r) then i + 1 else i
  }

  function SkipDigests(ms: seq<Message>, i: nat): (n: nat)
    requires i <= |ms|
    ensures i <= n <= |ms|
    ensures forall j :: i <= j < n ==> IsCompactionSummary(ms[j])
    ensures n < |ms| ==> !IsCompactionSummary(ms[n])
    decreases |ms| - i
  {
    if i < |ms| && IsCompactionSummary(ms[i]) then SkipDigests(ms, i + 1) else i
  }

  /** Leading messages that every fold keeps: system prompt, a brief first user turn, old digests. */
  function PinnedPrefixLen(ms: seq<Message>, cfg: Settings, r: real): (n: nat)
    ensures n <= |ms|
    ensures forall j :: 0 <= j < n ==> ms[j].role.System? || ms[j].role.User?
  {
    SkipDigests(ms, SkipFirstUser(ms, SkipSystem(ms), cfg, r))
  }

  method ComputePinnedPrefixLen(ms: seq<Message>, cfg: Settings, r: real) returns (i: nat)
    ensures i == PinnedPrefixLen(ms, cfg, r)
  {
    i := 0;
    if i < |ms| && ms[i].role.System? {
      i := i + 1;
    }
    if i < |ms| && ms[i].role.User? && !IsCompactionSummary(ms[i]) && Pinnable(ms[i], cfg, r) {
      i := i + 1;
    }
    while i < |ms| && IsCompactionSummary(ms[i])
      invariant i <= |ms|
      invariant SkipDigests(ms, i) == PinnedPrefixLen(ms, cfg, r)
    {
      i := i + 1;
    }
  }

  // ---------- the verbatim tail ----------

  function Cost(m: Message, r: real): int {
    Scaled(MsgChars(m), r)
  }

  /** Estimated tokens of ms[i..]. */
  function TailCost(ms: seq<Message>, i: nat, r: real): int
    requires i <= |ms|
    decreases |ms| - i
  {
    if i == |ms| then 0 else Cost(ms[i], r) + TailCost(ms, i + 1, r)
  }

  /** The tail that starts at i is short enough or cheap enough to stay verbatim. */
  predicate Fits(ms: seq<Message>, i: nat, budget: int, r: real, minKeep: int)
    requires i <= |ms|
  {
    |ms| - i <= minKeep || TailCost(ms, i, r) <= budget
  }

  function CutFrom(ms: seq<Message>, head: nat, i: nat, budget: int, r: real, minKeep: int): (cut: nat)
    requires i <= |ms|
    ensures cut <= i
  {
    if i > head + 1 && Fits(ms, i - 1, budget, r, minKeep) then CutFrom(ms, head, i - 1, budget, r, minKeep) else i
  }

  /** Steps back from a tool result to the message it belongs under, but never past head. */
  function AlignBack(ms: seq<Message>, head: nat, start: nat): (s: nat)
    requires start <= |ms|
    ensures s <= start
    ensures head <= start ==> head <= s
    ensures forall j :: s < j <= start && j < |ms| ==> ms[j].role.Tool?
    ensures s > head && s < |ms| ==> !ms[s].role.Tool?
  {
    if start > head && start < |ms| && ms[start].role.Tool? then AlignBack(ms, head, start - 1) else start
  }

  function TailStart(ms: seq<Message>, head: nat, budget: int, r: real, minKeep: int): (start: nat)
    ensures start <= |ms|
  {
    AlignBack(ms, head, CutFrom(ms, head, |ms|, budget, r, minKeep))
  }

  lemma FitsMonotone(ms: seq<Message>, i: nat, j: nat, budget: int, r: real, minKeep: int)
    requires 0.0 < r < 2.0 && i <= j <= |ms| && Fits(ms, i, budget, r, minKeep)
    ensures Fits(ms, j, budget, r, minKeep)
    decreases j - i
  {
    if i < j {
      ScaledBounds(MsgChars(ms[i]), r);
      FitsMonotone(ms, i + 1, j, budget, r, minKeep);
    }
  }

  lemma {:induction false} CutFromIsLeast(ms: seq<Message>, head: nat, i: nat, j: nat, budget: int, r: real, minKeep: int)
    requires 0.0 < r < 2.0 && head < j < i <= |ms|
    ensures Fits(ms, j, budget, r, minKeep) <==> CutFrom(ms, head, i, budget, r, minKeep) <= j
  {
    if !Fits(ms, i - 1, budget, r, minKeep) {
      if Fits(ms, j, budget, r, minKeep) {
        FitsMonotone(ms, j, i - 1, budget, r, minKeep);
      }
    } else if j < i - 1 {
      CutFromIsLeast(ms, head, i - 1, j, budget, r, minKeep);
    }
  }

  /**
   The tail before alignment starts at the least index after head that fits: an
   index fits exactly when it is at or after the cut. Alignment then only walks
   back over tool results and stops at the nearest other message or at head.
   */
  lemma TailStartOptimal(ms: seq<Message>, head: nat, budget: int, r: real, minKeep: int)
    requires 0.0 < r < 2.0
    ensures var cut := CutFrom(ms, head, |ms|, budget, r, minKeep);
            var start := TailStart(ms, head, budget, r, minKeep);
            && (forall j :: head < j < |ms| ==> (Fits(ms, j, budget, r, minKeep) <==> cut <= j))
            && start <= cut
            && (forall j :: start < j <= cut && j < |ms| ==> ms[j].role.Tool?)
            && (start > head && start < |ms| ==> !ms[start].role.Tool?)
            && (head < |ms| ==> head <= start)
  {
    forall j | head < j < |ms|
      ensures Fits(ms, j, budget, r, minKeep) <==> CutFrom(ms, head, |ms|, budget, r, minKeep) <= j
    {
      CutFromIsLeast(ms, head, |ms|, j, budget, r, minKeep);
    }
    CutFromAboveHead(ms, head, |ms|, budget, r, minKeep);
  }

  lemma CutFromAboveHead(ms: seq<Message>, head: nat, i: nat, budget: int, r: real, minKeep: int)
    requires i <= |ms|
    ensures head < i ==> head < CutFrom(ms, head, i, budget, r, minKeep)
  {
  }

  method ComputeTailStart(ms: seq<Message>, head: nat, budget: int, r: real, minKeep: int) returns (start: nat)
    ensures start == TailStart(ms, head, budget, r, minKeep)
  {
    start := |ms|;
    var acc := 0;
    var i: int := |ms| - 1;
    while i > head
      invariant start <= |ms|
      invariant i == start - 1
      invariant acc == TailCost(ms, start, r)
      invariant CutFrom(ms, head, start, budget, r, minKeep) == CutFrom(ms, head, |ms|, budget, r, minKeep)
    {
      var c := Cost(ms[i], r);
      if |ms| - i > minKeep && acc + c > budget {
        break;
      }
      acc := acc + c;
      start := i;
      i := i - 1;
    }
    while start > head && start < |ms| && ms[start].role.Tool?
      invariant start <= |ms|
      invariant AlignBack(ms, head, start) == TailStart(ms, head, budget, r, minKeep)
    {
      start := start - 1;
    }
  }

  // ---------- the plan ----------

  function TailFloor(cfg: Settings): (n: int)
    ensures n >= MIN_RECENT_KEEP
  {
    if cfg.recentKeep > MIN_RECENT_KEEP then cfg.recentKeep else MIN_RECENT_KEEP
  }

  function TailBudget(cfg: Settings): int {
    var byWindow := Scaled(cfg.contextWindow, DEFAULT_COMPACT_TARGET);
    if byWindow < DEFAULT_TAIL_TOKENS then byWindow else DEFAULT_TAIL_TOKENS
  }

  datatype Plan = Plan(head: nat, start: nat, ok: bool)

  function PlanStart(ms: seq<Message>, cfg: Settings, r: real, head: nat): int {
    if cfg.contextWindow > 0 then TailStart(ms, head, TailBudget(cfg), r, TailFloor(cfg))
    else if |ms| - TailFloor(cfg) > head then AlignBack(ms, head, |ms| - TailFloor(cfg))
    else |ms| - TailFloor(cfg)
  }

  function PlanCompaction(ms: seq<Message>, cfg: Settings, r: real, min: int): (p: Plan)
    ensures p.head <= p.start <= |ms|
  {
    var head := PinnedPrefixLen(ms, cfg, r);
    var start := PlanStart(ms, cfg, r, head);
    var clamped := if start < head then head else start;
    Plan(head, clamped, clamped - head >= min)
  }

  method ComputePlan(ms: seq<Message>, cfg: Settings, r: real, min: int) returns (p: Plan)
    ensures p == PlanCompaction(ms, cfg, r, min)
  {
    hide Scaled, PinnedPrefixLen, TailStart;
    var head := ComputePinnedPrefixLen(ms, cfg, r);
    var start: int;
    if cfg.contextWindow > 0 {
      var budget := DEFAULT_TAIL_TOKENS;
      var maxByWin := Scaled(cfg.contextWindow, DEFAULT_COMPACT_TARGET);
      if maxByWin < budget {
        budget := maxByWin;
      }
      start := ComputeTailStart(ms, head, budget, r, TailFloor(cfg));
    } else {
      start := |ms| - TailFloor(cfg);
      while start > head && ms[start].role.Tool?
        invariant start <= |ms| - TailFloor(cfg)
        invariant start >= head ==> |ms| - TailFloor(cfg) >= head
        invariant start > head ==> AlignBack(ms, head, start) == PlanStart(ms, cfg, r, head)
        invariant start <= head ==> start == PlanStart(ms, cfg, r, head)
      {
        start := start - 1;
      }
    }
    if start < head {
      start := head;
    }
    if start - head < min {
      return Plan(head, start, false);
    }
    return Plan(head, start, true);
  }

  lemma HeadIsNoResult(ms: seq<Message>, cfg: Settings, r: real)
    requires WellPaired(ms)
    ensures var head := PinnedPrefixLen(ms, cfg, r);
            head < |ms| ==> !ms[head].role.Tool?
  {
    var head := PinnedPrefixLen(ms, cfg, r);
    if head < |ms| && ms[head].role.Tool? {
      PairedHead(ms, head);
      assert false;
    }
  }

  /**
   On a paired history an accepted plan cuts out whole groups: the prefix, the
   region and the tail are each paired, and the region is not empty.
   */
  lemma PlanCutsWholeGroups(ms: seq<Message>, cfg: Settings, r: real, min: int)
    requires WellPaired(ms) && min >= 1
    requires PlanCompaction(ms, cfg, r, min).ok
    ensures var p := PlanCompaction(ms, cfg, r, min);
            && p.head < p.start <= |ms|
            && WellPaired(ms[..p.head]) && WellPaired(ms[p.head..p.start]) && WellPaired(ms[p.start..])
  {
    hide WellPaired, PinnedPrefixLen, Scaled, CutFrom;
    var p := PlanCompaction(ms, cfg, r, min);
    HeadIsNoResult(ms, cfg, r);
    SplitThreeWays(ms, p.head, p.start);
  }

  lemma SplitThreeWays(ms: seq<Message>, head: nat, start: nat)
    requires WellPaired(ms) && head < start <= |ms|
    requires !ms[head].role.Tool? && (start < |ms| ==> !ms[start].role.Tool?)
    ensures WellPaired(ms[..head]) && WellPaired(ms[head..start]) && WellPaired(ms[start..])
  {
    hide WellPaired;
    var rest := ms[head..];
    assert ms == ms[..head] + rest;
    SplitPaired(ms[..head], rest);
    assert rest == ms[head..start] + ms[start..];
    SplitPaired(ms[head..start], ms[start..]);
  }
}
