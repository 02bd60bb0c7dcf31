/**
 One compaction pass as a transformation of the log, and what it conserves
 (internal/agent/compact.go: compact).
 */
module CompactionPass {
  import opened Wrappers
  import opened Messages
  import opened CompactionPlan
  import opened CompactionFold
  import opened CompactionFacts

  const MIN_FOLD_TOKENS: int := 400

  /** Runes of a UTF-8 byte string: the bytes that continue no other. */
  function RuneCount(s: string): nat {
    if s == [] then 0 else (if 0x80 <= s[0] as int < 0xC0 then 0 else 1) + RuneCount(s[1..])
  }

  function EstimateTextTokens(s: string): nat {
    var byBytes := (|s| + 3) / 4;
    if RuneCount(s) > byBytes then RuneCount(s) else byBytes
  }

  function EstimateCalls(calls: seq<ToolCall>): nat {
    if calls == [] then 0
    else 8 + EstimateTextTokens(calls[0].id) + EstimateTextTokens(calls[0].name)
         + EstimateTextTokens(calls[0].arguments) + EstimateCalls(calls[1..])
  }

  function EstimateMessagesTokens(ms: seq<Message>): nat {
    if ms == [] then 0
    else 4 + EstimateTextTokens(ms[0].content) + EstimateTextTokens(ms[0].reasoning)
         + EstimateTextTokens(ms[0].name) + EstimateTextTokens(ms[0].toolCallID)
         + EstimateCalls(ms[0].toolCalls) + EstimateMessagesTokens(ms[1..])
  }

  predicate FoldEconomics(fold: seq<Message>) {
    EstimateMessagesTokens(fold) >= MIN_FOLD_TOKENS
  }

  datatype Outcome = Unchanged | ArchiveFailed | Folded(live: seq<Message>, fold: seq<Message>)

  /** The plan of a pass: two messages to gain, or else one that may be large. */
  function ChoosePlan(ms: seq<Message>, cfg: Settings, r: real): (p: Plan)
    ensures p.head <= p.start <= |ms|
    ensures p.head == PinnedPrefixLen(ms, cfg, r) && (p.ok <==> p.head < p.start)
  {
    var p := PlanCompaction(ms, cfg, r, MIN_COMPACT_MESSAGES);
    if p.ok then p else PlanCompaction(ms, cfg, r, 1)
  }

  /**
   The plan is accepted exactly when anything at all lies between the pinned prefix
   and the tail, and then cuts whole groups: the second attempt makes the
   two-message minimum of the first decide nothing.
   */
  method SelectPlan(ms: seq<Message>, cfg: Settings, r: real) returns (p: Plan)
    ensures p == ChoosePlan(ms, cfg, r) == PlanCompaction(ms, cfg, r, 1)
    ensures p.head == PinnedPrefixLen(ms, cfg, r) && (p.ok <==> p.head < p.start)
    ensures WellPaired(ms) && p.ok ==> WellPaired(ms[..p.head]) && WellPaired(RegionOf(ms, p)) && WellPaired(ms[p.start..])
  {
    hide WellPaired, PinnedPrefixLen, PlanStart;
    p := ComputePlan(ms, cfg, r, MIN_COMPACT_MESSAGES);
    if !p.ok {
      // A single huge message can still be worth folding.
      p := ComputePlan(ms, cfg, r, 1);
    }
    if WellPaired(ms) && p.ok {
      PlanCutsWholeGroups(ms, cfg, r, 1);
    }
  }

  function RegionOf(ms: seq<Message>, p: Plan): seq<Message>
    requires p.head <= p.start <= |ms|
  {
    ms[p.head..p.start]
  }

  /** Prefix, kept part of the region, a digest for the folded part, tail. */
  function Spliced(ms: seq<Message>, p: Plan, cfg: Settings, r: real, d: Message): seq<Message>
    requires p.head <= p.start <= |ms|
  {
    var region := RegionOf(ms, p);
    ms[..p.head] + Select(region, KeepFlags(region, cfg, r), true) + [d] + ms[p.start..]
  }

  function FoldOf(ms: seq<Message>, p: Plan, cfg: Settings, r: real): seq<Message>
    requires p.head <= p.start <= |ms|
  {
    var region := RegionOf(ms, p);
    Select(region, KeepFlags(region, cfg, r), false)
  }

  /**
   What a pass does to the log. The digest d carries text from the model (or the
   mechanical stand-in when the model is unreachable) and is arbitrary here.
   */
  function CompactOutcome(ms: seq<Message>, cfg: Settings, lastPromptTokens: Option<int>,
                          force: bool, archiveOk: bool, d: Message): Outcome
  {
    var r := TokPerChar(lastPromptTokens, ms);
    var p := ChoosePlan(ms, cfg, r);
    if !p.ok then Unchanged
    else
      var fold := FoldOf(ms, p, cfg, r);
      if fold == [] then Unchanged
      else if !force && !FoldEconomics(fold) then Unchanged
      else if cfg.archiving && !archiveOk then ArchiveFailed
      else Folded(Spliced(ms, p, cfg, r, d), fold)
  }

  method ComputeOutcome(ms: seq<Message>, cfg: Settings, lastPromptTokens: Option<int>,
                        force: bool, archiveOk: bool, d: Message) returns (out: Outcome)
    ensures out == CompactOutcome(ms, cfg, lastPromptTokens, force, archiveOk, d)
  {
    hide Scaled, TokPerChar, FoldEconomics, KeepFlags, Select, ChoosePlan;
    var r := TokPerChar(lastPromptTokens, ms);
    var p := SelectPlan(ms, cfg, r);
    if !p.ok {
      return Unchanged;
    }
    var kept, fold := PartitionFold(ms[p.head..p.start], cfg, r);
    if fold == [] {
      return Unchanged;
    }
    if !force && !FoldEconomics(fold) {
      return Unchanged;
    }
    if cfg.archiving && !archiveOk {
      return ArchiveFailed;
    }
    return Folded(ms[..p.head] + kept + [d] + ms[p.start..], fold);
  }

  // ---------- what one pass keeps ----------

  /** A pass over a paired history leaves a paired history, for every policy, window, ratio and summary. */
  lemma PassKeepsPairs(ms: seq<Message>, cfg: Settings, lastPromptTokens: Option<int>,
                       force: bool, archiveOk: bool, d: Message)
    requires IsCompactionSummary(d)
    requires WellPaired(ms)
    ensures var out := CompactOutcome(ms, cfg, lastPromptTokens, force, archiveOk, d);
            out.Folded? ==> WellPaired(out.live) && WellPaired(out.fold)
  {
    var out := CompactOutcome(ms, cfg, lastPromptTokens, force, archiveOk, d);
    if out.Folded? {
      var r := TokPerChar(lastPromptTokens, ms);
      var p := ChoosePlan(ms, cfg, r);
      PlanCutsWholeGroups(ms, cfg, r, if p == PlanCompaction(ms, cfg, r, MIN_COMPACT_MESSAGES) then MIN_COMPACT_MESSAGES else 1);
      SpliceKeepsPairs(ms, p, cfg, r, d);
    }
  }

  lemma SpliceKeepsPairs(ms: seq<Message>, p: Plan, cfg: Settings, r: real, d: Message)
    requires IsCompactionSummary(d)
    requires p.head <= p.start <= |ms|
    requires WellPaired(ms[..p.head]) && WellPaired(RegionOf(ms, p)) && WellPaired(ms[p.start..])
    ensures WellPaired(Spliced(ms, p, cfg, r, d)) && WellPaired(FoldOf(ms, p, cfg, r))
  {
    hide Select, KeepFlags;
    var region := RegionOf(ms, p);
    var kept := Select(region, KeepFlags(region, cfg, r), true);
    SplitKeepsPairs(region, cfg, r);
    ConcatPaired(ms[..p.head], kept);
    assert [d][..1] == [d] && [d][1..] == [];
    assert WellPaired([d]);
    ConcatPaired(ms[..p.head] + kept, [d]);
    ConcatPaired(ms[..p.head] + kept + [d], ms[p.start..]);
  }

  /** Nothing appears and nothing vanishes: the new log and the folded part hold the old log and one digest. */
  lemma PassConserves(ms: seq<Message>, cfg: Settings, lastPromptTokens: Option<int>,
                      force: bool, archiveOk: bool, d: Message)
    ensures var out := CompactOutcome(ms, cfg, lastPromptTokens, force, archiveOk, d);
            out.Folded? ==> multiset(out.live) + multiset(out.fold) == multiset(ms) + multiset{d}
  {
    var r := TokPerChar(lastPromptTokens, ms);
    SpliceConserves(ms, ChoosePlan(ms, cfg, r), cfg, r, d);
  }

  lemma SpliceConserves(ms: seq<Message>, p: Plan, cfg: Settings, r: real, d: Message)
    requires p.head <= p.start <= |ms|
    ensures var live, fold := Spliced(ms, p, cfg, r, d), FoldOf(ms, p, cfg, r);
            multiset(live) + multiset(fold) == multiset(ms) + multiset{d}
  {
    hide Select, KeepFlags;
    var region := RegionOf(ms, p);
    SelectConserves(region, KeepFlags(region, cfg, r));
    MoveOut(ms[..p.head], region, ms[p.start..], Select(region, KeepFlags(region, cfg, r), true),
            FoldOf(ms, p, cfg, r), d);
    assert ms == ms[..p.head] + region + ms[p.start..];
  }

  lemma MoveOut(a: seq<Message>, region: seq<Message>, c: seq<Message>, kept: seq<Message>, fold: seq<Message>, d: Message)
    requires multiset(region) == multiset(kept) + multiset(fold)
    ensures multiset(a + kept + [d] + c) + multiset(fold) == multiset(a + region + c) + multiset{d}
  {
  }

  /** The verdict on every message of the log: everything outside the region stays. */
  function PassFlags(ms: seq<Message>, p: Plan, cfg: Settings, r: real): (fl: seq<bool>)
    requires p.head <= p.start <= |ms|
    ensures |fl| == |ms|
  {
    AllTrue(p.head) + KeepFlags(RegionOf(ms, p), cfg, r) + AllTrue(|ms| - p.start)
  }

  /**
   Order is kept: taking the new digest out of the new log leaves the kept
   messages of the old log in their old order, and the folded part is the rest
   of the old log in its old order.
   */
  lemma SpliceSplitsInOrder(ms: seq<Message>, p: Plan, cfg: Settings, r: real, d: Message)
    requires p.head <= p.start <= |ms|
    ensures var live, fl := Spliced(ms, p, cfg, r, d), PassFlags(ms, p, cfg, r);
            var cut := p.head + |Select(RegionOf(ms, p), KeepFlags(RegionOf(ms, p), cfg, r), true)|;
            cut < |live| && live[cut] == d && live[..cut] + live[cut + 1..] == Select(ms, fl, true)
    ensures FoldOf(ms, p, cfg, r) == Select(ms, PassFlags(ms, p, cfg, r), false)
  {
    hide Select, KeepFlags, AllTrue;
    var region := RegionOf(ms, p);
    var fr := KeepFlags(region, cfg, r);
    SplitAround(ms, p.head, p.start, fr, true);
    SplitAround(ms, p.head, p.start, fr, false);
    TakeOutDigest(ms[..p.head] + Select(region, fr, true), d, ms[p.start..]);
  }

  lemma SplitAround(ms: seq<Message>, head: nat, start: nat, fr: seq<bool>, w: bool)
    requires head <= start <= |ms| && |fr| == start - head
    ensures |AllTrue(head) + fr + AllTrue(|ms| - start)| == |ms|
    ensures Select(ms, AllTrue(head) + fr + AllTrue(|ms| - start), w) ==
            if w then ms[..head] + Select(ms[head..start], fr, true) + ms[start..] else Select(ms[head..start], fr, false)
  {
    hide Select;
    assert ms == ms[..head] + ms[head..start] + ms[start..];
    SelectMiddle(ms[..head], ms[head..start], ms[start..], fr, w);
  }

  lemma TakeOutDigest(before: seq<Message>, d: Message, after: seq<Message>)
    ensures var live := before + [d] + after;
            live[|before|] == d && live[..|before|] == before && live[|before| + 1..] == after
  {
  }

  function AllTrue(n: nat): seq<bool> {
    seq(n, _ => true)
  }

  lemma SelectMiddle(a: seq<Message>, region: seq<Message>, c: seq<Message>, fr: seq<bool>, w: bool)
    requires |fr| == |region|
    ensures Select(a + region + c, AllTrue(|a|) + fr + AllTrue(|c|), w) ==
            if w then a + Select(region, fr, true) + c else Select(region, fr, false)
  {
    hide Select;
    SelectConcat(a, region, AllTrue(|a|), fr, w);
    SelectConcat(a + region, c, AllTrue(|a|) + fr, AllTrue(|c|), w);
    SelectAll(a, AllTrue(|a|), w);
    SelectAll(c, AllTrue(|c|), w);
  }

  /** Every digest survives a pass in its old order; the new one stands where the region ended. */
  lemma PassKeepsDigests(ms: seq<Message>, cfg: Settings, lastPromptTokens: Option<int>,
                         force: bool, archiveOk: bool, d: Message)
    requires IsCompactionSummary(d)
    ensures var out := CompactOutcome(ms, cfg, lastPromptTokens, force, archiveOk, d);
            var start := ChoosePlan(ms, cfg, TokPerChar(lastPromptTokens, ms)).start;
            out.Folded? ==>
              && (forall m :: m in out.fold ==> !IsCompactionSummary(m))
              && Digests(out.live) == Digests(ms[..start]) + [d] + Digests(ms[start..])
  {
    var r := TokPerChar(lastPromptTokens, ms);
    SpliceKeepsDigests(ms, ChoosePlan(ms, cfg, r), cfg, r, d);
  }

  lemma SpliceKeepsDigests(ms: seq<Message>, p: Plan, cfg: Settings, r: real, d: Message)
    requires IsCompactionSummary(d)
    requires p.head <= p.start <= |ms|
    ensures forall m :: m in FoldOf(ms, p, cfg, r) ==> !IsCompactionSummary(m)
    ensures Digests(Spliced(ms, p, cfg, r, d)) == Digests(ms[..p.start]) + [d] + Digests(ms[p.start..])
  {
    hide Select, KeepFlags, IsCompactionSummary;
    var region := RegionOf(ms, p);
    FlagsKeepDigests(region, cfg, r);
    SelectKeepsDigests(region, KeepFlags(region, cfg, r));
    DigestsOfSplice(ms[..p.head], Select(region, KeepFlags(region, cfg, r), true), d, ms[p.start..]);
    DigestsConcat(ms[..p.head], region);
    assert ms[..p.start] == ms[..p.head] + region;
  }

  lemma FlagsKeepDigests(region: seq<Message>, cfg: Settings, r: real)
    ensures forall i :: 0 <= i < |region| && IsCompactionSummary(region[i]) ==> KeepFlags(region, cfg, r)[i]
  {
  }

  lemma DigestsOfSplice(a: seq<Message>, b: seq<Message>, d: Message, c: seq<Message>)
    requires IsCompactionSummary(d)
    ensures Digests(a + b + [d] + c) == Digests(a) + Digests(b) + [d] + Digests(c)
  {
    DigestsConcat(a, b);
    DigestsConcat(a + b, [d]);
    DigestsConcat(a + b + [d], c);
    assert [d][..0] == [];
    assert Digests([d]) == [d];
  }

  lemma {:induction false} DigestCount(ms: seq<Message>)
    ensures |Digests(ms)| <= |ms|
  {
    if ms != [] {
      DigestCount(ms[..|ms| - 1]);
    }
  }

  function PlainCount(ms: seq<Message>): nat {
    DigestCount(ms);
    |ms| - |Digests(ms)|
  }

  lemma PlainCountSplit(ms: seq<Message>, cut: nat)
    requires cut <= |ms|
    ensures PlainCount(ms) == |ms| - |Digests(ms[..cut])| - |Digests(ms[cut..])|
  {
    DigestsConcat(ms[..cut], ms[cut..]);
    assert ms == ms[..cut] + ms[cut..];
  }

  lemma SpliceShrinks(ms: seq<Message>, p: Plan, cfg: Settings, r: real, d: Message)
    requires IsCompactionSummary(d)
    requires p.head <= p.start <= |ms|
    ensures PlainCount(Spliced(ms, p, cfg, r, d)) == PlainCount(ms) - |FoldOf(ms, p, cfg, r)|
  {
    var region := RegionOf(ms, p);
    SelectConserves(region, KeepFlags(region, cfg, r));
    SpliceKeepsDigests(ms, p, cfg, r, d);
    PlainCountSplit(ms, p.start);
  }

  /** Each effective pass takes at least one message that is no digest out of the log, so passes run out. */
  lemma PassShrinks(ms: seq<Message>, cfg: Settings, lastPromptTokens: Option<int>,
                    force: bool, archiveOk: bool, d: Message)
    requires IsCompactionSummary(d)
    ensures var out := CompactOutcome(ms, cfg, lastPromptTokens, force, archiveOk, d);
            out.Folded? ==> out.fold != [] && PlainCount(out.live) == PlainCount(ms) - |out.fold|
  {
    var r := TokPerChar(lastPromptTokens, ms);
    SpliceShrinks(ms, ChoosePlan(ms, cfg, r), cfg, r, d);
  }

  /** A small user turn is never in the folded part. */
  lemma PassKeepsSmallUserTurns(ms: seq<Message>, cfg: Settings, lastPromptTokens: Option<int>,
                                force: bool, archiveOk: bool, d: Message, m: Message)
    requires m.role.User? && 2 * MsgChars(m) <= PinBudget(cfg)
    ensures var out := CompactOutcome(ms, cfg, lastPromptTokens, force, archiveOk, d);
            out.Folded? ==> m !in out.fold
  {
    var r := TokPerChar(lastPromptTokens, ms);
    var p := ChoosePlan(ms, cfg, r);
    SmallUserTurnNeverFolded(RegionOf(ms, p), cfg, r, m);
  }
}
