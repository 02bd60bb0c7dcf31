/**
 A pass told message by message: which messages lead the log and stay in front,
 where the verbatim tail begins, which messages of the region stay, and when a pass
 does anything at all. Token counts are floors of characters times the ratio.
 */
module CompactionExact {
  import opened Wrappers
  import opened Messages
  import opened CompactionPlan
  import opened CompactionFold
  import opened CompactionFacts
  import opened CompactionPass
  import opened CompactionRuns

  // ---------- tokens ----------

  /** Estimated tokens of a message: what rides to the provider, at r tokens a character. */
  function Tokens(m: Message, r: real): int {
    (MsgChars(m) as real * r).Floor
  }

  lemma CostIsTokens(m: Message, r: real)
    requires r > 0.0
    ensures Scaled(MsgChars(m), r) == Cost(m, r) == Tokens(m, r) >= 0
  {
    ProductIsPositive(MsgChars(m) as real, r);
  }

  lemma ProductIsPositive(x: real, r: real)
    requires x >= 0.0 && r > 0.0
    ensures x * r >= 0.0
  {
  }

  /** Content, call names and arguments count; reasoning, ids and roles do not. */
  lemma {:induction false} CharsCount(m: Message, c: ToolCall)
    ensures MsgChars(m.(toolCalls := [])) == |m.content|
    ensures MsgChars(m.(toolCalls := [c] + m.toolCalls)) == MsgChars(m) + |c.name| + |c.arguments|
    ensures forall reasoning :: MsgChars(m.(reasoning := reasoning)) == MsgChars(m)
  {
    assert ([c] + m.toolCalls)[1..] == m.toolCalls;
  }

  /** At most 1500 tokens, and at most fifteen hundredths of the window if there is one. */
  predicate Brief(m: Message, cfg: Settings, r: real) {
    Tokens(m, r) <= 1500 && (cfg.contextWindow > 0 ==> Tokens(m, r) <= (cfg.contextWindow as real * 0.15).Floor)
  }

  lemma PinnableIsBrief(m: Message, cfg: Settings, r: real)
    requires r > 0.0
    ensures Pinnable(m, cfg, r) <==> Brief(m, cfg, r)
  {
    CostIsTokens(m, r);
    if cfg.contextWindow > 0 { ProductIsPositive(cfg.contextWindow as real, 0.15); }
  }

  // ---------- the messages in front ----------

  /** Message j may stand in the opening: the system prompt, a brief first user turn, or a digest. */
  predicate Leads(ms: seq<Message>, j: nat, cfg: Settings, r: real)
    requires j < |ms|
  {
    || (j == 0 && ms[0].role.System?)
    || (ms[j].role.User? && Brief(ms[j], cfg, r) && (j == 0 || (j == 1 && ms[0].role.System?)))
    || IsCompactionSummary(ms[j])
  }

  /** Message i and all before it may. */
  ghost predicate InOpening(ms: seq<Message>, i: nat, cfg: Settings, r: real)
    requires i < |ms|
  {
    forall j :: 0 <= j <= i ==> Leads(ms, j, cfg, r)
  }

  /** The pinned prefix is the opening. */
  lemma PrefixExactly(ms: seq<Message>, cfg: Settings, r: real, i: nat)
    requires r > 0.0 && i < |ms|
    ensures i < PinnedPrefixLen(ms, cfg, r) <==> InOpening(ms, i, cfg, r)
  {
    hide IsCompactionSummary, Brief, Pinnable;
    var first := SkipSystem(ms);
    var second := SkipFirstUser(ms, first, cfg, r);
    var n := PinnedPrefixLen(ms, cfg, r);
    if first < |ms| { PinnableIsBrief(ms[first], cfg, r); }
    DigestIsUser(ms);
    forall j | 0 <= j < n ensures Leads(ms, j, cfg, r) {}
    if n < |ms| {
      assert !Leads(ms, n, cfg, r);
    }
  }

  lemma DigestIsUser(ms: seq<Message>)
    ensures forall m :: m in ms && IsCompactionSummary(m) ==> m.role.User?
  {
  }

  /** A pass leaves the opening where it is. */
  lemma PassKeepsOpening(ms: seq<Message>, cfg: Settings, tokens: Option<int>, force: bool, archiveOk: bool, d: Message, i: nat)
    requires i < |ms| && InOpening(ms, i, cfg, TokPerChar(tokens, ms))
    ensures var out := CompactOutcome(ms, cfg, tokens, force, archiveOk, d);
            out.Folded? ==> i < |out.live| && out.live[i] == ms[i]
  {
    hide InOpening, TokPerChar, KeepFlags, Select, FoldEconomics, FoldOf;
    var r := TokPerChar(tokens, ms);
    PrefixExactly(ms, cfg, r, i);
    var p := ChoosePlan(ms, cfg, r);
    assert ms[..p.head][i] == ms[i];
  }

  /** The system prompt stays first, and a brief first user turn stays behind it, or first without one. */
  lemma PassKeepsPrompt(ms: seq<Message>, cfg: Settings, tokens: Option<int>, force: bool, archiveOk: bool, d: Message)
    requires ms != []
    ensures var out := CompactOutcome(ms, cfg, tokens, force, archiveOk, d);
            out.Folded? ==>
              && (ms[0].role.System? ==> |out.live| > 0 && out.live[0] == ms[0])
              && (ms[0].role.System? && |ms| > 1 && ms[1].role.User? && Brief(ms[1], cfg, TokPerChar(tokens, ms)) ==>
                    |out.live| > 1 && out.live[1] == ms[1])
              && (ms[0].role.User? && Brief(ms[0], cfg, TokPerChar(tokens, ms)) ==> |out.live| > 0 && out.live[0] == ms[0])
  {
    hide CompactOutcome, TokPerChar, Brief, IsCompactionSummary;
    var r := TokPerChar(tokens, ms);
    if Leads(ms, 0, cfg, r) { PassKeepsOpening(ms, cfg, tokens, force, archiveOk, d, 0); }
    if |ms| > 1 && Leads(ms, 0, cfg, r) && Leads(ms, 1, cfg, r) { PassKeepsOpening(ms, cfg, tokens, force, archiveOk, d, 1); }
  }

  /** Twice its characters fit the pin budget, so no ratio makes it long. */
  predicate Short(m: Message, cfg: Settings) {
    m.role.User? && 2 * MsgChars(m) <= 1500 && (cfg.contextWindow > 0 ==> 2 * MsgChars(m) <= (cfg.contextWindow as real * 0.15).Floor)
  }

  lemma ShortIsBrief(m: Message, cfg: Settings, r: real)
    requires Short(m, cfg) && 0.0 < r < 2.0
    ensures Brief(m, cfg, r)
  {
    ScaledBounds(MsgChars(m), r);
    CostIsTokens(m, r);
  }

  lemma StepKeepsPrompt(log: Log, cfg: Settings, op: Op)
    requires Legal(log, op) && log.live != []
    ensures var a, b := log.live, Step(log, cfg, op).live;
            && (a[0].role.System? || Short(a[0], cfg) ==> |b| > 0 && b[0] == a[0])
            && (a[0].role.System? && |a| > 1 && Short(a[1], cfg) ==> |b| > 1 && b[1] == a[1])
  {
    hide CompactOutcome, TokPerChar, Brief, IsCompactionSummary;
    match op
    case Append(block) =>
    case Maintain(next) =>
    case Compact(tokens, force, archiveOk, d) =>
      var a, r := log.live, TokPerChar(tokens, log.live);
      PassKeepsPrompt(a, cfg, tokens, force, archiveOk, d);
      if Short(a[0], cfg) { ShortIsBrief(a[0], cfg, r); }
      if |a| > 1 && Short(a[1], cfg) { ShortIsBrief(a[1], cfg, r); }
  }

  /** Over every continuation the system prompt stays first and a short first user turn stays next to it. */
  lemma {:induction false} PromptStays(cfg: Settings, ops: seq<Op>, more: seq<Op>)
    requires LegalRun(cfg, ops + more) && Run(cfg, ops).live != []
    ensures var a, b := Run(cfg, ops).live, Run(cfg, ops + more).live;
            && (a[0].role.System? || Short(a[0], cfg) ==> |b| > 0 && b[0] == a[0])
            && (a[0].role.System? && |a| > 1 && Short(a[1], cfg) ==> |b| > 1 && b[1] == a[1])
    decreases |more|
  {
    hide Short, Step, Legal;
    if more == [] {
      assert ops + more == ops;
    } else {
      var n := |more| - 1;
      assert (ops + more)[..|ops + more| - 1] == ops + more[..n];
      PromptStays(cfg, ops, more[..n]);
      var log := Run(cfg, ops + more[..n]);
      if log.live != [] { StepKeepsPrompt(log, cfg, more[n]); }
    }
  }

  // ---------- the tail ----------

  /** Estimated tokens of ms[i..]. */
  function TailTokens(ms: seq<Message>, i: nat, r: real): int
    requires i <= |ms|
    decreases |ms| - i
  {
    if i == |ms| then 0 else Tokens(ms[i], r) + TailTokens(ms, i + 1, r)
  }

  lemma {:induction false} TailCostIsTokens(ms: seq<Message>, i: nat, r: real)
    requires i <= |ms| && r > 0.0
    ensures TailCost(ms, i, r) == TailTokens(ms, i, r)
    decreases |ms| - i
  {
    if i < |ms| {
      CostIsTokens(ms[i], r);
      TailCostIsTokens(ms, i + 1, r);
    }
  }

  /** A tail from i is small: the last two messages or the configured number, or at most 16384 tokens and half the window. */
  predicate SmallTail(ms: seq<Message>, i: nat, cfg: Settings, r: real)
    requires i <= |ms|
  {
    |ms| - i <= 2 || |ms| - i <= cfg.recentKeep ||
    (cfg.contextWindow > 0 && TailTokens(ms, i, r) <= 16384 && 2 * TailTokens(ms, i, r) <= cfg.contextWindow)
  }

  lemma BudgetIsHalf(cfg: Settings, c: int)
    requires cfg.contextWindow > 0
    ensures c <= TailBudget(cfg) <==> c <= 16384 && 2 * c <= cfg.contextWindow
  {
    var half := cfg.contextWindow as real * 0.5;
    assert half + half == cfg.contextWindow as real;
    assert TailBudget(cfg) == if half.Floor < 16384 then half.Floor else 16384;
    assert c as real + c as real == (2 * c) as real;
    assert 2 * c <= cfg.contextWindow <==> c as real <= half;
    assert c as real <= half <==> c <= half.Floor;
  }

  lemma FitsIsSmall(ms: seq<Message>, i: nat, cfg: Settings, r: real)
    requires i <= |ms| && r > 0.0 && cfg.contextWindow > 0
    ensures Fits(ms, i, TailBudget(cfg), r, TailFloor(cfg)) <==> SmallTail(ms, i, cfg, r)
  {
    TailCostIsTokens(ms, i, r);
    BudgetIsHalf(cfg, TailCost(ms, i, r));
    hide TailBudget;
  }

  /** The tail from start may have been moved back from cut to the message that the tool results there belong to. */
  predicate AlignedTo(ms: seq<Message>, head: nat, start: nat, cut: nat) {
    && head <= start <= cut <= |ms|
    && (forall j :: start < j <= cut && j < |ms| ==> ms[j].role.Tool?)
    && (start > head && start < |ms| ==> !ms[start].role.Tool?)
  }

  /**
   With a window the region of a pass ends where the largest small tail begins, moved
   back over tool results only. The tail never begins right behind the opening: one
   message at least is left between them if the log has more than the opening.
   */
  lemma TailExactly(ms: seq<Message>, cfg: Settings, r: real)
    requires 0.0 < r < 2.0 && cfg.contextWindow > 0
    ensures var p := ChoosePlan(ms, cfg, r);
            p.ok ==> exists cut: nat ::
              && AlignedTo(ms, p.head, p.start, cut) && p.head < cut
              && forall j :: p.head < j < |ms| ==> (SmallTail(ms, j, cfg, r) <==> cut <= j)
  {
    hide PinnedPrefixLen, SmallTail, TailBudget, TailFloor, TailCost, Fits;
    var p := ChoosePlan(ms, cfg, r);
    if p.ok {
      var budget, floor := TailBudget(cfg), TailFloor(cfg);
      TailStartOptimal(ms, p.head, budget, r, floor);
      CutFromAboveHead(ms, p.head, |ms|, budget, r, floor);
      var cut := CutFrom(ms, p.head, |ms|, budget, r, floor);
      forall j | p.head < j < |ms| ensures SmallTail(ms, j, cfg, r) <==> cut <= j { FitsIsSmall(ms, j, cfg, r); }
      hide CutFrom, AlignBack;
      assert AlignedTo(ms, p.head, p.start, cut);
    }
  }

  /** Without one it ends at the last two messages or the configured number, likewise moved back. */
  lemma TailWithoutWindow(ms: seq<Message>, cfg: Settings, r: real)
    requires cfg.contextWindow <= 0
    ensures var p := ChoosePlan(ms, cfg, r);
            p.ok ==> exists cut: nat ::
              AlignedTo(ms, p.head, p.start, cut) && |ms| - cut == if cfg.recentKeep > 2 then cfg.recentKeep else 2
  {
    hide PinnedPrefixLen;
    var p := ChoosePlan(ms, cfg, r);
    if p.ok {
      var cut := |ms| - TailFloor(cfg);
      assert AlignedTo(ms, p.head, p.start, cut);
    }
  }

  // ---------- the region ----------

  /** No digest from i on. */
  predicate SinceLatestDigest(region: seq<Message>, i: nat) {
    forall j :: i <= j < |region| ==> !IsCompactionSummary(region[j])
  }

  lemma {:induction false} PolicyStartExactly(region: seq<Message>, n: nat, i: nat)
    requires i <= n <= |region|
    ensures i >= PolicyStart(region, n) <==> forall j :: i <= j < n ==> !IsCompactionSummary(region[j])
    decreases n
  {
    hide IsCompactionSummary;
    if i < n {
      if !IsCompactionSummary(region[n - 1]) { PolicyStartExactly(region, n - 1, i); }
    }
  }

  /** The policy asks for message k: a fresh error result or a fresh marked turn. */
  predicate Asked(region: seq<Message>, cfg: Settings, k: nat)
    requires k < |region|
  {
    SinceLatestDigest(region, k) &&
    ((cfg.keepErrors && IsErrorMessage(region[k])) || (cfg.keepUserMarked && IsUserMarked(region[k])))
  }

  /** An asked-for result k keeps the call group it belongs to, message i of it included. */
  predicate KeptWith(region: seq<Message>, cfg: Settings, k: nat, i: nat)
    requires k < |region| && i < |region|
  {
    Asked(region, cfg, k) && region[k].role.Tool? && InGroup(region, CallerBefore(region, k, region[k].toolCallID), i)
  }

  /** What stays of a region, message by message. */
  ghost predicate Stays(region: seq<Message>, cfg: Settings, r: real, i: nat)
    requires i < |region|
  {
    || IsCompactionSummary(region[i])
    || (region[i].role.User? && Brief(region[i], cfg, r))
    || Asked(region, cfg, i)
    || exists k :: 0 <= k < |region| && KeptWith(region, cfg, k, i)
  }

  lemma WantedIsAsked(region: seq<Message>, cfg: Settings, k: nat)
    requires k < |region|
    ensures Wanted(region, cfg)[k] <==> Asked(region, cfg, k)
  {
    hide IsCompactionSummary, IsErrorMessage, IsUserMarked;
    PolicyStartExactly(region, |region|, k);
  }

  lemma RegionExactly(region: seq<Message>, cfg: Settings, r: real, i: nat)
    requires i < |region| && r > 0.0
    ensures KeepFlags(region, cfg, r)[i] <==> Stays(region, cfg, r, i)
  {
    hide IsCompactionSummary, Brief, Pinnable, Wanted, Asked, InGroup, CallerBefore;
    PinnableIsBrief(region[i], cfg, r);
    WantedIsAsked(region, cfg, i);
    var direct := Wanted(region, cfg);
    forall k | 0 <= k < |region| ensures Claims(region, direct, k, i) <==> KeptWith(region, cfg, k, i) {
      WantedIsAsked(region, cfg, k);
    }
  }

  // ---------- the pass ----------

  /** Message i of the log stays: in the opening, in the tail, or kept in the region between. */
  ghost predicate Survives(ms: seq<Message>, cfg: Settings, r: real, p: Plan, i: nat)
    requires p.head <= p.start <= |ms| && i < |ms|
  {
    InOpening(ms, i, cfg, r) || i >= p.start || (i >= p.head && Stays(ms[p.head..p.start], cfg, r, i - p.head))
  }

  /**
   A pass that folds writes the surviving messages in order, with the digest between
   region and tail, and folds all others in order.
   */
  lemma PassExactly(ms: seq<Message>, cfg: Settings, tokens: Option<int>, force: bool, archiveOk: bool, d: Message) returns (fl: seq<bool>, cut: nat)
    ensures var out := CompactOutcome(ms, cfg, tokens, force, archiveOk, d); var r := TokPerChar(tokens, ms); var p := ChoosePlan(ms, cfg, r);
            out.Folded? ==>
              && |fl| == |ms| && (forall i :: 0 <= i < |ms| ==> (fl[i] <==> Survives(ms, cfg, r, p, i)))
              && cut < |out.live| && out.live[cut] == d && out.live[cut + 1..] == ms[p.start..]
              && out.live[..cut] + out.live[cut + 1..] == Select(ms, fl, true)
              && out.fold == Select(ms, fl, false)
  {
    hide TokPerChar, KeepFlags, Select, FoldEconomics, PassFlags, Survives, ChoosePlan, Spliced, FoldOf, IsCompactionSummary;
    var r := TokPerChar(tokens, ms);
    var p := ChoosePlan(ms, cfg, r);
    fl := PassFlags(ms, p, cfg, r);
    cut := SpliceExactly(ms, p, cfg, r, d);
    forall i | 0 <= i < |ms| ensures fl[i] <==> Survives(ms, cfg, r, p, i) { FlagExactly(ms, cfg, r, p, i); }
  }

  lemma SpliceExactly(ms: seq<Message>, p: Plan, cfg: Settings, r: real, d: Message) returns (cut: nat)
    requires p.head <= p.start <= |ms|
    ensures var live, fl := Spliced(ms, p, cfg, r, d), PassFlags(ms, p, cfg, r);
            && cut < |live| && live[cut] == d && live[cut + 1..] == ms[p.start..]
            && live[..cut] + live[cut + 1..] == Select(ms, fl, true)
            && FoldOf(ms, p, cfg, r) == Select(ms, fl, false)
  {
    hide Select, KeepFlags, PassFlags;
    var region := RegionOf(ms, p);
    cut := p.head + |Select(region, KeepFlags(region, cfg, r), true)|;
    SpliceSplitsInOrder(ms, p, cfg, r, d);
    TakeOutDigest(ms[..p.head] + Select(region, KeepFlags(region, cfg, r), true), d, ms[p.start..]);
  }

  lemma FlagExactly(ms: seq<Message>, cfg: Settings, r: real, p: Plan, i: nat)
    requires p == ChoosePlan(ms, cfg, r) && r > 0.0 && i < |ms|
    ensures PassFlags(ms, p, cfg, r)[i] <==> Survives(ms, cfg, r, p, i)
  {
    hide KeepFlags, InOpening, ChoosePlan, Stays;
    assert p.head == PinnedPrefixLen(ms, cfg, r);
    PrefixExactly(ms, cfg, r, i);
    if p.head <= i < p.start { RegionExactly(ms[p.head..p.start], cfg, r, i - p.head); }
    hide PinnedPrefixLen;
  }

  /** When a pass does anything: something to fold lies between opening and tail, and it is worth it or forced. */
  lemma PassActsExactly(ms: seq<Message>, cfg: Settings, tokens: Option<int>, force: bool, archiveOk: bool, d: Message)
    ensures var out := CompactOutcome(ms, cfg, tokens, force, archiveOk, d); var r := TokPerChar(tokens, ms); var p := ChoosePlan(ms, cfg, r);
            var gone := Select(ms, PassFlags(ms, p, cfg, r), false);
            var acts := gone != [] && (force || EstimateMessagesTokens(gone) >= 400);
            && (out.Unchanged? <==> !acts)
            && (out.ArchiveFailed? <==> acts && cfg.archiving && !archiveOk)
            && (out.Folded? <==> acts && (cfg.archiving ==> archiveOk))
  {
    hide TokPerChar, KeepFlags, PassFlags, ChoosePlan, EstimateMessagesTokens;
    var r := TokPerChar(tokens, ms);
    var p := ChoosePlan(ms, cfg, r);
    SpliceSplitsInOrder(ms, p, cfg, r, d);
  }

  /** The estimate of a text is the least number of tokens that gives each four bytes and each character one. */
  lemma EstimateIsLeast(s: string, n: nat)
    ensures EstimateTextTokens(s) <= n <==> RuneCount(s) <= n && |s| <= 4 * n
  {
  }

  // ---------- the markers in texts ----------

  lemma {:induction false} TrimLeftDrops(pad: string, s: string)
    requires (forall c :: c in pad ==> IsSpace(c)) && s != [] && !IsSpace(s[0])
    ensures TrimLeft(pad + s, IsSpace) == s
    decreases |pad|
  {
    if pad == [] {
      assert pad + s == s;
    } else {
      assert (pad + s)[1..] == pad[1..] + s;
      TrimLeftDrops(pad[1..], s);
    }
  }

  lemma {:induction false} TrimRightKeeps(tag: string, rest: string)
    requires tag != [] && !IsSpace(tag[|tag| - 1])
    ensures tag <= TrimRight(tag + rest, IsSpace)
    decreases |rest|
  {
    if rest == [] {
      assert tag + rest == tag;
    } else {
      var n := |rest| - 1;
      assert (tag + rest)[..|tag + rest| - 1] == tag + rest[..n];
      TrimRightKeeps(tag, rest[..n]);
    }
  }

  lemma LowerSpaces(pad: string)
    requires forall c :: c in pad ==> IsSpace(c)
    ensures ToLower(pad) == pad
  {
    forall i | 0 <= i < |pad| ensures ToLower(pad)[i] == pad[i] { assert pad[i] in pad; }
  }

  /** Behind any white space and in any case, a tag is found at the start of a trimmed text. */
  lemma TagIsSeen(pad: string, tag: string, rest: string)
    requires (forall c :: c in pad ==> IsSpace(c)) && tag != []
    requires !IsSpace(ToLower(tag)[0]) && !IsSpace(ToLower(tag)[|tag| - 1])
    ensures ToLower(tag) <= TrimSpace(ToLower(pad + tag + rest))
  {
    var s := ToLower(tag) + ToLower(rest);
    LowerSpaces(pad);
    assert ToLower(pad + tag + rest) == ToLower(pad) + s;
    TrimLeftDrops(pad, s);
    TrimRightKeeps(ToLower(tag), ToLower(rest));
  }

  /** So results that begin with error: or blocked:, and turns that begin with a keep mark, are what the policy looks for. */
  lemma MarksAreSeen(m: Message, pad: string, tag: string, rest: string)
    requires (forall c :: c in pad ==> IsSpace(c)) && m.content == pad + tag + rest
    ensures m.role.Tool? && (ToLower(tag) == "error:" || ToLower(tag) == "blocked:") ==> IsErrorMessage(m)
    ensures m.role.User? && (ToLower(tag) == "[[keep]]" || ToLower(tag) == "[keep]" || ToLower(tag) == "<keep>" || ToLower(tag) == "<!-- keep -->") ==>
              IsUserMarked(m)
  {
    if tag != [] && !IsSpace(ToLower(tag)[0]) && !IsSpace(ToLower(tag)[|tag| - 1]) {
      TagIsSeen(pad, tag, rest);
    }
    hide TrimSpace, ToLower;
  }

  lemma {:induction false} TrimLeftSplits(s: string, cut: char -> bool) returns (n: nat)
    ensures n <= |s| && TrimLeft(s, cut) == s[n..] && forall i :: 0 <= i < n ==> cut(s[i])
    decreases |s|
  {
    if s != [] && cut(s[0]) {
      var m := TrimLeftSplits(s[1..], cut);
      n := m + 1;
      assert s[1..][m..] == s[n..];
      forall i | 0 <= i < n ensures cut(s[i]) { if i > 0 { assert s[1..][i - 1] == s[i]; } }
    } else {
      n := 0;
    }
  }

  lemma {:induction false} TrimRightIsPrefix(s: string, cut: char -> bool)
    ensures TrimRight(s, cut) <= s
    decreases |s|
  {
    if s != [] && cut(s[|s| - 1]) {
      TrimRightIsPrefix(s[..|s| - 1], cut);
    }
  }

  lemma {:induction false} TrimLeftFrom(s: string, cut: char -> bool, n: nat)
    requires n < |s| && !cut(s[n]) && forall i :: 0 <= i < n ==> cut(s[i])
    ensures TrimLeft(s, cut) == s[n..]
    decreases n
  {
    if n > 0 {
      TrimLeftFrom(s[1..], cut, n - 1);
      assert s[1..][n - 1..] == s[n..];
    }
  }

  /** A digest is a user message whose text, after line breaks and blanks, begins with the opening tag. */
  lemma DigestExactly(m: Message)
    ensures IsCompactionSummary(m) <==>
            m.role.User? && exists n :: 0 <= n <= |m.content| && SUMMARY_TAG_OPEN <= m.content[n..]
                                        && forall i :: 0 <= i < n ==> m.content[i] == '\n' || m.content[i] == ' '
  {
    var s, cut := m.content, (c: char) => c == '\n' || c == ' ';
    var k := TrimLeftSplits(s, cut);
    assert IsCompactionSummary(m) <==> m.role.User? && SUMMARY_TAG_OPEN <= TrimLeft(s, c => c == '\n' || c == ' ');
    SameCut(s);
    if n :| 0 <= n <= |s| && SUMMARY_TAG_OPEN <= s[n..] && forall i :: 0 <= i < n ==> s[i] == '\n' || s[i] == ' ' {
      assert s[n] == SUMMARY_TAG_OPEN[0] == '<';
      TrimLeftFrom(s, cut, n);
    }
  }

  lemma {:induction false} SameCut(s: string)
    ensures TrimLeft(s, c => c == '\n' || c == ' ') == TrimLeft(s, (c: char) => c == '\n' || c == ' ')
  {
  }

  /** Texts that count as errors or as marked begin that way: nothing else does. */
  lemma MarksAreExact(m: Message) returns (n: nat)
    ensures n <= |m.content| && forall i :: 0 <= i < n ==> IsSpace(ToLower(m.content)[i])
    ensures IsErrorMessage(m) ==> m.role.Tool? && ("error:" <= ToLower(m.content)[n..] || "blocked:" <= ToLower(m.content)[n..])
    ensures IsUserMarked(m) ==>
              m.role.User? && ("[[keep]]" <= ToLower(m.content)[n..] || "[keep]" <= ToLower(m.content)[n..]
                               || "<keep>" <= ToLower(m.content)[n..] || "<!-- keep -->" <= ToLower(m.content)[n..])
  {
    var s := ToLower(m.content);
    n := TrimLeftSplits(s, IsSpace);
    TrimRightIsPrefix(s[n..], IsSpace);
  }

  /** The estimate of a log adds up over messages and calls, each with its fixed overhead. */
  lemma EstimatesAdd(m: Message, c: ToolCall, rest: seq<Message>)
    ensures EstimateMessagesTokens([]) == 0
    ensures EstimateMessagesTokens([m] + rest) == EstimateMessagesTokens([m]) + EstimateMessagesTokens(rest)
    ensures EstimateMessagesTokens([m.(toolCalls := [])]) ==
            4 + EstimateTextTokens(m.content) + EstimateTextTokens(m.reasoning) + EstimateTextTokens(m.name) + EstimateTextTokens(m.toolCallID)
    ensures EstimateMessagesTokens([m.(toolCalls := [c] + m.toolCalls)]) ==
            EstimateMessagesTokens([m]) + 8 + EstimateTextTokens(c.id) + EstimateTextTokens(c.name) + EstimateTextTokens(c.arguments)
  {
    assert ([m] + rest)[1..] == rest;
    assert ([c] + m.toolCalls)[1..] == m.toolCalls;
    hide EstimateTextTokens;
  }
}
