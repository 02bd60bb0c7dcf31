/**
 Order over whole histories: passes and maintenance never swap two messages. What is
 live, written digests aside, stands in the order in which it was appended, and the
 digests of any moment stay in their order for ever.
 */
module CompactionOrder {
  import opened Wrappers
  import opened Messages
  import opened CompactionPlan
  import opened CompactionFold
  import opened CompactionFacts
  import opened CompactionPass
  import opened CompactionRuns

  // ---------- subsequences ----------

  ghost predicate Embeds(a: seq<Message>, b: seq<Message>, ps: seq<nat>) {
    |ps| == |a| && Increasing(ps) && forall i :: 0 <= i < |a| ==> ps[i] < |b| && a[i] == b[ps[i]]
  }

  ghost predicate Subsequence(a: seq<Message>, b: seq<Message>) {
    exists ps :: Embeds(a, b, ps)
  }

  lemma SubsequenceRefl(a: seq<Message>)
    ensures Subsequence(a, a)
  {
    assert Embeds(a, a, seq(|a|, i => i));
  }

  lemma SubsequenceTrans(a: seq<Message>, b: seq<Message>, c: seq<Message>)
    requires Subsequence(a, b) && Subsequence(b, c)
    ensures Subsequence(a, c)
  {
    var ps :| Embeds(a, b, ps);
    var qs :| Embeds(b, c, qs);
    assert Embeds(a, c, seq(|a|, i requires 0 <= i < |a| => qs[ps[i]]));
  }

  lemma SubsequenceConcat(a: seq<Message>, b: seq<Message>, c: seq<Message>, d: seq<Message>)
    requires Subsequence(a, b) && Subsequence(c, d)
    ensures Subsequence(a + c, b + d)
  {
    var ps :| Embeds(a, b, ps);
    var qs :| Embeds(c, d, qs);
    var rs := ps + seq(|c|, i requires 0 <= i < |c| => |b| + qs[i]);
    assert Embeds(a + c, b + d, rs);
  }

  lemma NothingEmbeds(a: seq<Message>)
    ensures Subsequence([], a)
  {
    assert Embeds([], a, []);
  }

  // ---------- selections of selections ----------

  /** The flags fl of the messages that keep selects. */
  function Picked(fl: seq<bool>, keep: seq<bool>): (out: seq<bool>)
    requires |fl| == |keep|
  {
    if keep == [] then []
    else
      var n := |keep| - 1;
      Picked(fl[..n], keep[..n]) + (if keep[n] then [fl[n]] else [])
  }

  /** Kept, and flagged w. */
  function Both(keep: seq<bool>, fl: seq<bool>, w: bool): (out: seq<bool>)
    requires |fl| == |keep|
    ensures |out| == |fl| && forall i :: 0 <= i < |fl| ==> out[i] == (keep[i] && fl[i] == w)
  {
    seq(|fl|, i requires 0 <= i < |fl| => keep[i] && fl[i] == w)
  }

  lemma {:induction false} SelectPicked(ms: seq<Message>, keep: seq<bool>, fl: seq<bool>, w: bool)
    requires |ms| == |keep| == |fl|
    ensures |Picked(fl, keep)| == |Select(ms, keep, true)|
    ensures Select(Select(ms, keep, true), Picked(fl, keep), w) == Select(ms, Both(keep, fl, w), true)
    decreases |ms|
  {
    if ms != [] {
      var n := |ms| - 1;
      SelectPicked(ms[..n], keep[..n], fl[..n], w);
      SelectLast(ms, keep, true);
      SelectLast(ms, Both(keep, fl, w), true);
      assert Both(keep, fl, w)[..n] == Both(keep[..n], fl[..n], w);
      if keep[n] {
        SelectSnoc(Select(ms[..n], keep[..n], true), ms[n], Picked(fl[..n], keep[..n]), fl[n], w);
      } else {
        assert Picked(fl, keep) == Picked(fl[..n], keep[..n]);
      }
      hide Select, Both;
    }
  }

  lemma SelectSnoc(ms: seq<Message>, m: Message, fl: seq<bool>, f: bool, w: bool)
    requires |ms| == |fl|
    ensures Select(ms + [m], fl + [f], w) == Select(ms, fl, w) + (if f == w then [m] else [])
  {
    assert (ms + [m])[..|ms|] == ms && (fl + [f])[..|ms|] == fl;
  }

  /** Fewer flags select a subsequence. */
  lemma {:induction false} FewerSelected(ms: seq<Message>, fl: seq<bool>, gl: seq<bool>)
    requires |ms| == |fl| == |gl| && forall i :: 0 <= i < |fl| && fl[i] ==> gl[i]
    ensures Subsequence(Select(ms, fl, true), Select(ms, gl, true))
    decreases |ms|
  {
    if ms == [] {
      SubsequenceRefl([]);
    } else {
      var n := |ms| - 1;
      FewerSelected(ms[..n], fl[..n], gl[..n]);
      SelectLast(ms, fl, true);
      SelectLast(ms, gl, true);
      var a, b := if fl[n] then [ms[n]] else [], if gl[n] then [ms[n]] else [];
      if fl[n] { SubsequenceRefl(a); } else { NothingEmbeds(b); }
      SubsequenceConcat(Select(ms[..n], fl[..n], true), Select(ms[..n], gl[..n], true), a, b);
      hide Select, Subsequence;
    }
  }

  lemma {:induction false} SameSelection(ms: seq<Message>, fl: seq<bool>, gl: seq<bool>, w: bool)
    requires |ms| == |fl| == |gl| && forall i :: 0 <= i < |fl| ==> (fl[i] <==> gl[i] == w)
    ensures Select(ms, fl, true) == Select(ms, gl, w)
    decreases |ms|
  {
    if ms != [] {
      var n := |ms| - 1;
      SameSelection(ms[..n], fl[..n], gl[..n], w);
      SelectLast(ms, fl, true);
      SelectLast(ms, gl, w);
      hide Select;
    }
  }

  // ---------- the live log as appended messages and written digests ----------

  /**
   fl splits the live log: the flagged messages are appended ones in the order of
   appending, the others are exactly the digests that passes have written.
   */
  ghost predicate Woven(exact: bool, log: Log, fl: seq<bool>) {
    && |fl| == |log.live|
    && Subsequence(View(exact, Select(log.live, fl, true)), View(exact, log.appended))
    && multiset(Select(log.live, fl, false)) == multiset(log.digests)
    && forall i :: 0 <= i < |fl| && !fl[i] ==> IsCompactionSummary(log.live[i])
  }

  lemma {:induction false} AllSelected(ms: seq<Message>)
    ensures Select(ms, AllTrue(|ms|), true) == ms && Select(ms, AllTrue(|ms|), false) == []
    decreases |ms|
  {
    if ms != [] {
      var n := |ms| - 1;
      AllSelected(ms[..n]);
      assert AllTrue(|ms|)[..n] == AllTrue(n);
    }
  }

  lemma AppendStaysWoven(exact: bool, log: Log, fl: seq<bool>, block: seq<Message>)
    requires Woven(exact, log, fl)
    ensures Woven(exact, log.(live := log.live + block, appended := log.appended + block), fl + AllTrue(|block|))
  {
    var more := AllTrue(|block|);
    SelectConcat(log.live, block, fl, more, true);
    SelectConcat(log.live, block, fl, more, false);
    AllSelected(block);
    ViewConcat(exact, Select(log.live, fl, true), block);
    ViewConcat(exact, log.appended, block);
    SubsequenceRefl(View(exact, block));
    SubsequenceConcat(View(exact, Select(log.live, fl, true)), View(exact, log.appended), View(exact, block), View(exact, block));
    assert Select(log.live, fl, false) + [] == Select(log.live, fl, false);
    hide Subsequence, View, Select, AllTrue;
    forall i | 0 <= i < |fl + more| && !(fl + more)[i] ensures IsCompactionSummary((log.live + block)[i]) { AllTrueIs(|block|); }
  }

  lemma AllTrueIs(n: nat)
    ensures |AllTrue(n)| == n && forall i :: 0 <= i < n ==> AllTrue(n)[i]
  {
  }

  /** Maintenance changes the text of tool results only, so the split stays. */
  lemma {:induction false} ShapeKeepsSelection(a: seq<Message>, b: seq<Message>, fl: seq<bool>)
    requires SameShape(a, b) && |a| == |fl| && forall i :: 0 <= i < |fl| && !fl[i] ==> IsCompactionSummary(a[i])
    ensures View(false, Select(b, fl, true)) == View(false, Select(a, fl, true))
    ensures Select(b, fl, false) == Select(a, fl, false)
    decreases |a|
  {
    if a != [] {
      var n := |a| - 1;
      ShapeKeepsSelection(a[..n], b[..n], fl[..n]);
      SelectLast(a, fl, true);
      SelectLast(b, fl, true);
      SelectLast(a, fl, false);
      SelectLast(b, fl, false);
      ViewConcat(false, Select(a[..n], fl[..n], true), [a[n]]);
      ViewConcat(false, Select(b[..n], fl[..n], true), [b[n]]);
      assert View(false, [a[n]]) == View(false, [b[n]]);
      hide Select, View;
    }
  }

  lemma MaintainStaysWoven(log: Log, fl: seq<bool>, next: seq<Message>)
    requires Woven(false, log, fl) && SameShape(log.live, next)
    ensures Woven(false, log.(live := next), fl)
  {
    ShapeKeepsSelection(log.live, next, fl);
    hide Subsequence, View, Select;
  }

  /** What a pass keeps of a region: of the appended ones a subsequence, of the written digests all. */
  lemma KeptStaysWoven(exact: bool, region: seq<Message>, fr: seq<bool>, keep: seq<bool>)
    requires |region| == |fr| == |keep|
    requires forall i :: 0 <= i < |fr| && !fr[i] ==> keep[i]
    ensures var kept, fk := Select(region, keep, true), Picked(fr, keep);
            && |fk| == |kept|
            && Subsequence(View(exact, Select(kept, fk, true)), View(exact, Select(region, fr, true)))
            && Select(kept, fk, false) == Select(region, fr, false)
  {
    SelectPicked(region, keep, fr, true);
    SelectPicked(region, keep, fr, false);
    FewerSelected(region, Both(keep, fr, true), fr);
    SameSelection(region, Both(keep, fr, false), fr, false);
    SubsequenceView(exact, Select(region, Both(keep, fr, true), true), Select(region, fr, true));
    hide Select, Subsequence, View, Picked;
  }

  lemma SubsequenceView(exact: bool, a: seq<Message>, b: seq<Message>)
    requires Subsequence(a, b)
    ensures Subsequence(View(exact, a), View(exact, b))
  {
    var ps :| Embeds(a, b, ps);
    assert Embeds(View(exact, a), View(exact, b), ps);
  }

  /** The split of the spliced log, piece by piece. */
  lemma SplitOfSplice(a: seq<Message>, kept: seq<Message>, d: Message, c: seq<Message>, fa: seq<bool>, fk: seq<bool>, fc: seq<bool>, w: bool)
    requires |a| == |fa| && |kept| == |fk| && |c| == |fc|
    ensures Select(a + kept + [d] + c, fa + fk + [false] + fc, w) ==
            Select(a, fa, w) + Select(kept, fk, w) + (if w then [] else [d]) + Select(c, fc, w)
  {
    SelectConcat(a, kept, fa, fk, w);
    SelectSnoc(a + kept, d, fa + fk, false, w);
    SelectConcat(a + kept + [d], c, fa + fk + [false], fc, w);
    hide Select;
  }

  lemma ViewOfThree(exact: bool, a: seq<Message>, b: seq<Message>, c: seq<Message>)
    ensures View(exact, a + b + c) == View(exact, a) + View(exact, b) + View(exact, c)
  {
    ViewConcat(exact, a, b);
    ViewConcat(exact, a + b, c);
    hide View;
  }

  lemma MiddleShrinks(exact: bool, a: seq<Message>, b: seq<Message>, b2: seq<Message>, c: seq<Message>)
    requires Subsequence(View(exact, b2), View(exact, b))
    ensures Subsequence(View(exact, a + b2 + c), View(exact, a + b + c))
  {
    ViewOfThree(exact, a, b, c);
    ViewOfThree(exact, a, b2, c);
    SubsequenceRefl(View(exact, a));
    SubsequenceRefl(View(exact, c));
    SubsequenceConcat(View(exact, a), View(exact, a), View(exact, b2), View(exact, b));
    SubsequenceConcat(View(exact, a) + View(exact, b2), View(exact, a) + View(exact, b), View(exact, c), View(exact, c));
    hide View, Subsequence;
  }

  lemma DigestsAreKept(region: seq<Message>, cfg: Settings, r: real, fr: seq<bool>)
    requires |region| == |fr| && forall i :: 0 <= i < |fr| && !fr[i] ==> IsCompactionSummary(region[i])
    ensures forall i :: 0 <= i < |fr| && !fr[i] ==> KeepFlags(region, cfg, r)[i]
  {
    FlagsKeepDigests(region, cfg, r);
    hide KeepFlags, IsCompactionSummary;
  }

  /** The flags of the spliced log. */
  function SplicedFlags(ms: seq<Message>, p: Plan, cfg: Settings, r: real, fl: seq<bool>): seq<bool>
    requires p.head <= p.start <= |ms| == |fl|
  {
    fl[..p.head] + Picked(fl[p.head..p.start], KeepFlags(RegionOf(ms, p), cfg, r)) + [false] + fl[p.start..]
  }

  lemma SplitOfThree(a: seq<Message>, b: seq<Message>, c: seq<Message>, fa: seq<bool>, fb: seq<bool>, fc: seq<bool>, w: bool)
    requires |a| == |fa| && |b| == |fb| && |c| == |fc|
    ensures Select(a + b + c, fa + fb + fc, w) == Select(a, fa, w) + Select(b, fb, w) + Select(c, fc, w)
  {
    hide Select;
    SelectConcat(a, b, fa, fb, w);
    SelectConcat(a + b, c, fa + fb, fc, w);
  }

  /** A splice of three pieces keeps the appended messages in order. */
  lemma PiecesInOrder(exact: bool, a: seq<Message>, region: seq<Message>, c: seq<Message>,
                      fa: seq<bool>, fr: seq<bool>, fc: seq<bool>, keep: seq<bool>, d: Message)
    requires |a| == |fa| && |region| == |fr| == |keep| && |c| == |fc|
    requires forall i :: 0 <= i < |fr| && !fr[i] ==> keep[i]
    ensures |Picked(fr, keep)| == |Select(region, keep, true)|
    ensures Subsequence(View(exact, Select(a + Select(region, keep, true) + [d] + c, fa + Picked(fr, keep) + [false] + fc, true)),
                        View(exact, Select(a + region + c, fa + fr + fc, true)))
  {
    hide Select, Subsequence, View, Picked;
    var kept, fk := Select(region, keep, true), Picked(fr, keep);
    KeptStaysWoven(exact, region, fr, keep);
    SplitOfSplice(a, kept, d, c, fa, fk, fc, true);
    SplitOfThree(a, region, c, fa, fr, fc, true);
    var sa, sk, sc := Select(a, fa, true), Select(kept, fk, true), Select(c, fc, true);
    assert sa + sk + [] + sc == sa + sk + sc;
    MiddleShrinks(exact, sa, Select(region, fr, true), sk, sc);
  }

  /** And adds one digest to the written ones. */
  lemma PiecesAddDigest(a: seq<Message>, region: seq<Message>, c: seq<Message>,
                        fa: seq<bool>, fr: seq<bool>, fc: seq<bool>, keep: seq<bool>, d: Message)
    requires |a| == |fa| && |region| == |fr| == |keep| && |c| == |fc|
    requires forall i :: 0 <= i < |fr| && !fr[i] ==> keep[i]
    ensures |Picked(fr, keep)| == |Select(region, keep, true)|
    ensures multiset(Select(a + Select(region, keep, true) + [d] + c, fa + Picked(fr, keep) + [false] + fc, false)) ==
            multiset(Select(a + region + c, fa + fr + fc, false)) + multiset{d}
  {
    hide Select, Subsequence, View, Picked;
    KeptStaysWoven(true, region, fr, keep);
    SplitOfSplice(a, Select(region, keep, true), d, c, fa, Picked(fr, keep), fc, false);
    SplitOfThree(a, region, c, fa, fr, fc, false);
  }

  lemma PiecesOf<T>(s: seq<T>, head: nat, start: nat)
    requires head <= start <= |s|
    ensures s == s[..head] + s[head..start] + s[start..]
  {
  }

  lemma SpliceOrder(exact: bool, ms: seq<Message>, fl: seq<bool>, p: Plan, cfg: Settings, r: real, d: Message)
    requires p.head <= p.start <= |ms| == |fl|
    requires forall i :: 0 <= i < |fl| && !fl[i] ==> IsCompactionSummary(ms[i])
    ensures var live, flags := Spliced(ms, p, cfg, r, d), SplicedFlags(ms, p, cfg, r, fl);
            && |flags| == |live|
            && Subsequence(View(exact, Select(live, flags, true)), View(exact, Select(ms, fl, true)))
            && multiset(Select(live, flags, false)) == multiset(Select(ms, fl, false)) + multiset{d}
  {
    hide Select, Subsequence, View, Picked, KeepFlags, IsCompactionSummary;
    var region, fr := RegionOf(ms, p), fl[p.head..p.start];
    var keep := KeepFlags(region, cfg, r);
    DigestsAreKept(region, cfg, r, fr);
    PiecesOf(ms, p.head, p.start);
    PiecesOf(fl, p.head, p.start);
    PiecesInOrder(exact, ms[..p.head], region, ms[p.start..], fl[..p.head], fr, fl[p.start..], keep, d);
    PiecesAddDigest(ms[..p.head], region, ms[p.start..], fl[..p.head], fr, fl[p.start..], keep, d);
  }

  lemma SpliceDigests(ms: seq<Message>, fl: seq<bool>, p: Plan, cfg: Settings, r: real, d: Message)
    requires p.head <= p.start <= |ms| == |fl| && IsCompactionSummary(d)
    requires forall i :: 0 <= i < |fl| && !fl[i] ==> IsCompactionSummary(ms[i])
    requires |SplicedFlags(ms, p, cfg, r, fl)| == |Spliced(ms, p, cfg, r, d)|
    ensures forall i :: 0 <= i < |SplicedFlags(ms, p, cfg, r, fl)| && !SplicedFlags(ms, p, cfg, r, fl)[i] ==>
              IsCompactionSummary(Spliced(ms, p, cfg, r, d)[i])
  {
    var region, fr := RegionOf(ms, p), fl[p.head..p.start];
    var keep := KeepFlags(region, cfg, r);
    SelectPicked(region, keep, fr, true);
    PickedDigests(region, keep, fr);
    hide Select, Picked, KeepFlags, IsCompactionSummary;
  }

  lemma {:induction false} PickedDigests(ms: seq<Message>, keep: seq<bool>, fl: seq<bool>)
    requires |ms| == |keep| == |fl| && forall i :: 0 <= i < |fl| && !fl[i] ==> IsCompactionSummary(ms[i])
    ensures |Picked(fl, keep)| == |Select(ms, keep, true)|
    ensures forall i :: 0 <= i < |Picked(fl, keep)| && !Picked(fl, keep)[i] ==> IsCompactionSummary(Select(ms, keep, true)[i])
    decreases |ms|
  {
    hide IsCompactionSummary;
    if ms != [] {
      PickedDigests(ms[..|ms| - 1], keep[..|ms| - 1], fl[..|ms| - 1]);
    }
  }

  /** The log a pass leaves behind when it folds. */
  lemma FoldedStaysWoven(exact: bool, log: Log, fl: seq<bool>, cfg: Settings, p: Plan, r: real, d: Message, fold: seq<Message>)
    requires Woven(exact, log, fl) && IsCompactionSummary(d) && p.head <= p.start <= |log.live|
    ensures Woven(exact, log.(live := Spliced(log.live, p, cfg, r, d), folded := log.folded + fold, digests := log.digests + [d]),
                  SplicedFlags(log.live, p, cfg, r, fl))
  {
    hide Select, Subsequence, View, SplicedFlags, Spliced, IsCompactionSummary;
    SpliceOrder(exact, log.live, fl, p, cfg, r, d);
    SpliceDigests(log.live, fl, p, cfg, r, d);
    SubsequenceTrans(View(exact, Select(Spliced(log.live, p, cfg, r, d), SplicedFlags(log.live, p, cfg, r, fl), true)),
                     View(exact, Select(log.live, fl, true)), View(exact, log.appended));
  }

  lemma PassStaysWoven(exact: bool, log: Log, fl: seq<bool>, cfg: Settings, tokens: Option<int>, force: bool, archiveOk: bool, d: Message)
    returns (flags: seq<bool>)
    requires Woven(exact, log, fl) && IsCompactionSummary(d)
    ensures Woven(exact, Step(log, cfg, Compact(tokens, force, archiveOk, d)), flags)
  {
    hide Woven, SplicedFlags, Spliced, FoldOf, ChoosePlan, TokPerChar, FoldEconomics, IsCompactionSummary;
    var out := CompactOutcome(log.live, cfg, tokens, force, archiveOk, d);
    flags := fl;
    if out.Folded? {
      assert |fl| == |log.live| by { WovenFits(exact, log, fl); }
      var r := TokPerChar(tokens, log.live);
      var p := ChoosePlan(log.live, cfg, r);
      FoldedStaysWoven(exact, log, fl, cfg, p, r, d, FoldOf(log.live, p, cfg, r));
      flags := SplicedFlags(log.live, p, cfg, r, fl);
    }
  }

  lemma WovenFits(exact: bool, log: Log, fl: seq<bool>)
    requires Woven(exact, log, fl)
    ensures |fl| == |log.live|
  {
  }

  lemma StepStaysWoven(exact: bool, log: Log, fl: seq<bool>, cfg: Settings, op: Op) returns (flags: seq<bool>)
    requires Woven(exact, log, fl) && Legal(log, op)
    requires exact ==> !op.Maintain?
    ensures Woven(exact, Step(log, cfg, op), flags)
  {
    hide Woven, SameShape, CompactOutcome, AllTrue, IsCompactionSummary;
    match op
    case Append(block) =>
      AppendStaysWoven(exact, log, fl, block);
      flags := fl + AllTrue(|block|);
    case Maintain(next) =>
      MaintainStaysWoven(log, fl, next);
      flags := fl;
    case Compact(tokens, force, archiveOk, d) =>
      flags := PassStaysWoven(exact, log, fl, cfg, tokens, force, archiveOk, d);
  }

  /**
   Over every run the live log is a weave of two parts: a subsequence of what was
   appended, in that order, and exactly the digests written. With maintenance the
   first holds up to the contents of tool results.
   */
  lemma {:induction false} RunKeepsOrder(exact: bool, cfg: Settings, ops: seq<Op>) returns (fl: seq<bool>)
    requires LegalRun(cfg, ops)
    requires exact ==> forall op :: op in ops ==> !op.Maintain?
    ensures Woven(exact, Run(cfg, ops), fl)
    decreases |ops|
  {
    hide Woven, Step, Legal;
    if ops == [] {
      fl := [];
      EmptyIsWoven(exact);
    } else {
      var before, op := ops[..|ops| - 1], ops[|ops| - 1];
      fl := RunKeepsOrder(exact, cfg, before);
      fl := StepStaysWoven(exact, Run(cfg, before), fl, cfg, op);
    }
  }

  lemma EmptyIsWoven(exact: bool)
    ensures Woven(exact, EMPTY_LOG, [])
  {
    NothingEmbeds(View(exact, []));
  }

  // ---------- digests ----------

  lemma PassKeepsDigestOrder(ms: seq<Message>, cfg: Settings, tokens: Option<int>, force: bool, archiveOk: bool, d: Message)
    requires IsCompactionSummary(d)
    ensures var out := CompactOutcome(ms, cfg, tokens, force, archiveOk, d);
            out.Folded? ==> Subsequence(Digests(ms), Digests(out.live))
  {
    hide Subsequence, CompactOutcome, Digests, ChoosePlan, TokPerChar, IsCompactionSummary;
    PassKeepsDigests(ms, cfg, tokens, force, archiveOk, d);
    var start := ChoosePlan(ms, cfg, TokPerChar(tokens, ms)).start;
    if start <= |ms| {
      assert ms[..start] + ms[start..] == ms;
      DigestsConcat(ms[..start], ms[start..]);
      Widened(Digests(ms[..start]), Digests(ms[start..]), [d]);
    }
  }

  lemma AppendKeepsDigestOrder(ms: seq<Message>, block: seq<Message>)
    ensures Subsequence(Digests(ms), Digests(ms + block))
  {
    hide Subsequence, Digests;
    DigestsConcat(ms, block);
    Widened(Digests(ms), [], Digests(block));
    assert Digests(ms) + [] == Digests(ms);
    assert Digests(ms) + Digests(block) + [] == Digests(ms) + Digests(block);
  }

  lemma StepKeepsDigestOrder(log: Log, cfg: Settings, op: Op)
    requires Legal(log, op)
    ensures Subsequence(Digests(log.live), Digests(Step(log, cfg, op).live))
  {
    hide Subsequence, Digests, SameShape, CompactOutcome, IsCompactionSummary;
    SubsequenceRefl(Digests(log.live));
    match op
    case Append(block) => AppendKeepsDigestOrder(log.live, block);
    case Maintain(next) => ShapeKeepsDigests(log.live, next);
    case Compact(tokens, force, archiveOk, d) => PassKeepsDigestOrder(log.live, cfg, tokens, force, archiveOk, d);
  }

  lemma Widened(a: seq<Message>, b: seq<Message>, c: seq<Message>)
    ensures Subsequence(a + b, a + c + b)
  {
    SubsequenceRefl(a);
    NothingEmbeds(c);
    SubsequenceRefl(b);
    SubsequenceConcat(a, a, [], c);
    SubsequenceConcat(a + [], a + c, b, b);
    assert a + [] == a;
    hide Subsequence;
  }

  /** The digests of the log at any moment are there at every later moment, in the same order. */
  lemma {:induction false} DigestsStayInOrder(cfg: Settings, ops: seq<Op>, more: seq<Op>)
    requires LegalRun(cfg, ops + more)
    ensures Subsequence(Digests(Run(cfg, ops).live), Digests(Run(cfg, ops + more).live))
    decreases |more|
  {
    if more == [] {
      assert ops + more == ops;
      SubsequenceRefl(Digests(Run(cfg, ops).live));
    } else {
      var n := |more| - 1;
      assert (ops + more)[..|ops + more| - 1] == ops + more[..n];
      DigestsStayInOrder(cfg, ops, more[..n]);
      var log := Run(cfg, ops + more[..n]);
      StepKeepsDigestOrder(log, cfg, more[n]);
      SubsequenceTrans(Digests(Run(cfg, ops).live), Digests(log.live), Digests(Run(cfg, ops + more).live));
      hide Subsequence, Digests, Step;
    }
  }
}
