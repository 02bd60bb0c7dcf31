/**
 What the kept/folded split means: an order-preserving partition of the region
 that never cuts a tool-call group, never folds a digest and never folds a
 user turn small enough to pin.
 */
module CompactionFacts {
  import opened Messages
  import opened CompactionPlan
  import opened CompactionFold

  // ---------- Select is an order-preserving partition ----------

  lemma {:induction false} SelectConcat(a: seq<Message>, b: seq<Message>, fa: seq<bool>, fb: seq<bool>, w: bool)
    requires |a| == |fa| && |b| == |fb|
    ensures Select(a + b, fa + fb, w) == Select(a, fa, w) + Select(b, fb, w)
    decreases |b|
  {
    if b == [] {
      assert a + b == a && fa + fb == fa;
    } else {
      var n := |b| - 1;
      SelectConcat(a, b[..n], fa, fb[..n], w);
      var c, fc := a + b, fa + fb;
      assert c[..|c| - 1] == a + b[..n] && fc[..|c| - 1] == fa + fb[..n];
      assert c[|c| - 1] == b[n] && fc[|c| - 1] == fb[n];
    }
  }

  /** Indices of the messages flagged w. */
  function Positions(fl: seq<bool>, w: bool): seq<nat> {
    if fl == [] then []
    else
      var n := |fl| - 1;
      Positions(fl[..n], w) + (if fl[n] == w then [n] else [])
  }

  predicate Increasing(ps: seq<nat>) {
    forall i, j :: 0 <= i < j < |ps| ==> ps[i] < ps[j]
  }

  lemma SelectLast(ms: seq<Message>, fl: seq<bool>, w: bool)
    requires |ms| == |fl| && ms != []
    ensures var n := |ms| - 1;
            Select(ms, fl, w) ==
            if fl[n] == w then Select(ms[..n], fl[..n], w) + [ms[n]] else Select(ms[..n], fl[..n], w)
  {
  }

  lemma PositionsLast(fl: seq<bool>, w: bool)
    requires fl != []
    ensures var n := |fl| - 1;
            Positions(fl, w) == if fl[n] == w then Positions(fl[..n], w) + [n] else Positions(fl[..n], w)
  {
  }

  /** Positions lists exactly the indices flagged w, in order. */
  lemma {:induction false} PositionsExact(fl: seq<bool>, w: bool)
    ensures Increasing(Positions(fl, w))
    ensures forall p :: p in Positions(fl, w) <==> 0 <= p < |fl| && fl[p] == w
  {
    if fl != [] {
      PositionsExact(fl[..|fl| - 1], w);
      PositionsLast(fl, w);
      var before := Positions(fl[..|fl| - 1], w);
      forall i | 0 <= i < |before| ensures before[i] < |fl| - 1 { assert before[i] in before; }
    }
  }

  /** The selection is the subsequence of ms at Positions. */
  lemma {:induction false} SelectIsSubsequence(ms: seq<Message>, fl: seq<bool>, w: bool)
    requires |ms| == |fl|
    ensures |Positions(fl, w)| == |Select(ms, fl, w)|
    ensures forall i :: 0 <= i < |Positions(fl, w)| ==>
                          Positions(fl, w)[i] < |ms| && Select(ms, fl, w)[i] == ms[Positions(fl, w)[i]]
  {
    if ms != [] {
      var n := |ms| - 1;
      SelectIsSubsequence(ms[..n], fl[..n], w);
      PositionsLast(fl, w);
      SelectLast(ms, fl, w);
    }
  }

  lemma {:induction false} SelectConserves(ms: seq<Message>, fl: seq<bool>)
    requires |ms| == |fl|
    ensures multiset(ms) == multiset(Select(ms, fl, true)) + multiset(Select(ms, fl, false))
    ensures |ms| == |Select(ms, fl, true)| + |Select(ms, fl, false)|
  {
    hide Select;
    if ms != [] {
      var n := |ms| - 1;
      SelectConserves(ms[..n], fl[..n]);
      SelectLast(ms, fl, true);
      SelectLast(ms, fl, false);
      assert ms == ms[..n] + [ms[n]];
    }
  }

  lemma SelectedBy(ms: seq<Message>, fl: seq<bool>, w: bool, m: Message)
    requires |ms| == |fl| && m in Select(ms, fl, w)
    ensures exists i :: 0 <= i < |ms| && ms[i] == m && fl[i] == w
  {
    SelectIsSubsequence(ms, fl, w);
    PositionsExact(fl, w);
    var k :| 0 <= k < |Select(ms, fl, w)| && Select(ms, fl, w)[k] == m;
    assert Positions(fl, w)[k] in Positions(fl, w);
  }

  // ---------- digests and pinned user turns are never folded ----------

  /** The digests of a log, oldest first. */
  function Digests(ms: seq<Message>): seq<Message> {
    if ms == [] then []
    else
      var n := |ms| - 1;
      Digests(ms[..n]) + (if IsCompactionSummary(ms[n]) then [ms[n]] else [])
  }

  lemma {:induction false} DigestsConcat(a: seq<Message>, b: seq<Message>)
    ensures Digests(a + b) == Digests(a) + Digests(b)
    decreases |b|
  {
    if b == [] {
      assert a + b == a;
    } else {
      var n := |b| - 1;
      DigestsConcat(a, b[..n]);
      assert (a + b)[..|a + b| - 1] == a + b[..n];
    }
  }

  lemma {:induction false} SelectKeepsDigests(ms: seq<Message>, fl: seq<bool>)
    requires |ms| == |fl|
    requires forall i :: 0 <= i < |ms| && IsCompactionSummary(ms[i]) ==> fl[i]
    ensures Digests(Select(ms, fl, true)) == Digests(ms)
    ensures forall m :: m in Select(ms, fl, false) ==> !IsCompactionSummary(m)
  {
    if ms != [] {
      var n := |ms| - 1;
      SelectKeepsDigests(ms[..n], fl[..n]);
      SelectLast(ms, fl, true);
      SelectLast(ms, fl, false);
      var before := Select(ms[..n], fl[..n], true);
      if fl[n] {
        assert (before + [ms[n]])[..|before|] == before;
      }
    }
  }

  /** A user turn of at most half the pin budget in characters survives every fold, whatever ratio is calibrated. */
  lemma SmallUserTurnNeverFolded(region: seq<Message>, cfg: Settings, r: real, m: Message)
    requires 0.0 < r < 2.0
    requires m.role.User? && 2 * MsgChars(m) <= PinBudget(cfg)
    ensures m !in Select(region, KeepFlags(region, cfg, r), false)
  {
    var fl := KeepFlags(region, cfg, r);
    if m in Select(region, fl, false) {
      SelectedBy(region, fl, false, m);
      SmallTurnPinnable(m, cfg, r);
      assert false;
    }
  }

  // ---------- the split respects tool-call groups ----------

  /** In a paired region the caller that the backward search finds is the head of the result's own group. */
  lemma CallerIsHead(ms: seq<Message>, i: nat)
    requires WellPaired(ms) && i < |ms| && ms[i].role.Tool?
    ensures CallerBefore(ms, i, ms[i].toolCallID) == GroupHead(ms, i)
  {
    PairedHead(ms, i);
  }

  lemma HeadOfPredecessor(ms: seq<Message>, i: nat)
    requires WellPaired(ms) && 0 < i < |ms| && ms[i].role.Tool?
    ensures var h := GroupHead(ms, i);
            && h < i && ms[h].role.Assistant? && ms[h].toolCalls != []
            && InGroup(ms, h, i) && InGroup(ms, h, i - 1)
            && GroupHead(ms, i - 1) == h
  {
    PairedHead(ms, i);
    var h := GroupHead(ms, i);
    assert ms[h].toolCalls != [];
    if h < i - 1 {
      PairedHead(ms, i - 1);
    }
  }

  /** A caller's group contains a result exactly when it contains the message before it. */
  lemma GroupHoldsPredecessor(ms: seq<Message>, g: int, i: nat)
    requires WellPaired(ms) && 0 < i < |ms| && ms[i].role.Tool?
    ensures InGroup(ms, g, i) == InGroup(ms, g, i - 1)
  {
    HeadOfPredecessor(ms, i);
    var h := GroupHead(ms, i);
    if InGroup(ms, g, i) || InGroup(ms, g, i - 1) {
      assert g == h;
    }
  }

  /** A kept message of a call group is claimed by some wanted result. */
  lemma KeptIsClaimed(ms: seq<Message>, direct: seq<bool>, i: nat) returns (k: nat)
    requires |direct| == |ms| && WellPaired(ms) && i < |ms| && Kept(ms, direct, i)
    requires ms[i].role.Tool? || (ms[i].role.Assistant? && !direct[i])
    ensures k < |ms| && Claims(ms, direct, k, i)
  {
    if direct[i] {
      CallerIsHead(ms, i);
      PairedHead(ms, i);
      k := i;
    } else {
      k :| 0 <= k < |ms| && Claims(ms, direct, k, i);
    }
  }

  /** Every message of a group gets the verdict of the message before it. */
  lemma ResultFollowsPredecessor(ms: seq<Message>, direct: seq<bool>, i: nat)
    requires |direct| == |ms| && WellPaired(ms) && 0 < i < |ms| && ms[i].role.Tool?
    requires forall j :: 0 <= j < |ms| && direct[j] ==> !ms[j].role.Assistant?
    ensures Kept(ms, direct, i) == Kept(ms, direct, i - 1)
  {
    PredecessorRole(ms, i);
    if Kept(ms, direct, i) {
      var k := KeptIsClaimed(ms, direct, i);
      GroupHoldsPredecessor(ms, CallerBefore(ms, k, ms[k].toolCallID), i);
      assert Claims(ms, direct, k, i - 1);
    } else if Kept(ms, direct, i - 1) {
      var k := KeptIsClaimed(ms, direct, i - 1);
      GroupHoldsPredecessor(ms, CallerBefore(ms, k, ms[k].toolCallID), i);
      assert Claims(ms, direct, k, i);
    }
  }

  lemma PredecessorRole(ms: seq<Message>, i: nat)
    requires WellPaired(ms) && 0 < i < |ms| && ms[i].role.Tool?
    ensures ms[i - 1].role.Tool? || ms[i - 1].role.Assistant?
  {
    HeadOfPredecessor(ms, i);
  }

  /** Flags that give every tool result the flag of the message before it. */
  predicate GroupUniform(ms: seq<Message>, fl: seq<bool>)
    requires |ms| == |fl|
  {
    forall i :: 0 < i < |ms| && ms[i].role.Tool? ==> fl[i] == fl[i - 1]
  }

  lemma {:induction false} UniformGroup(g: seq<Message>, fl: seq<bool>, i: nat)
    requires |g| == |fl| && IsGroup(g) && GroupUniform(g, fl) && i < |g|
    ensures fl[i] == fl[0]
  {
    if i > 0 {
      GroupTail(g, i);
      UniformGroup(g, fl, i - 1);
    }
  }

  lemma {:induction false} SelectAll(ms: seq<Message>, fl: seq<bool>, w: bool)
    requires |ms| == |fl| && forall i :: 0 <= i < |ms| ==> fl[i] == fl[0]
    ensures Select(ms, fl, w) == if ms != [] && fl[0] == w then ms else []
    decreases |ms|
  {
    SelectNone(w);
    if ms != [] {
      var n := |ms| - 1;
      SelectLast(ms, fl, w);
      hide Select;
      if n > 0 {
        assert fl[..n][0] == fl[0] == fl[n];
      }
      SelectAll(ms[..n], fl[..n], w);
      assert ms == ms[..n] + [ms[n]];
    }
  }

  lemma SelectNone(w: bool)
    ensures Select([], [], w) == []
  {
  }

  lemma SelectGroup(g: seq<Message>, fg: seq<bool>, rest: seq<Message>, fr: seq<bool>, w: bool)
    requires |g| == |fg| && |rest| == |fr| && IsGroup(g) && GroupUniform(g, fg)
    ensures Select(g + rest, fg + fr, w) == if fg[0] == w then g + Select(rest, fr, w) else Select(rest, fr, w)
  {
    forall i | 0 <= i < |g| ensures fg[i] == fg[0] { UniformGroup(g, fg, i); }
    SelectAll(g, fg, w);
    SelectConcat(g, rest, fg, fr, w);
  }

  /** Both halves of a split that respects groups are paired histories. */
  lemma {:induction false} SelectPaired(ms: seq<Message>, fl: seq<bool>, w: bool)
    requires |ms| == |fl| && WellPaired(ms) && GroupUniform(ms, fl)
    ensures WellPaired(Select(ms, fl, w))
    decreases |ms|
  {
    hide Select, IsGroup, CallCount;
    if ms != [] {
      var n := GroupSize(ms);
      var g, rest := ms[..n], ms[n..];
      SelectPaired(rest, fl[n..], w);
      SelectGroup(g, fl[..n], rest, fl[n..], w);
      assert ms == g + rest && fl == fl[..n] + fl[n..];
      if fl[..n][0] == w {
        PairedCons(g, Select(rest, fl[n..], w));
      }
    }
  }

  /** What is kept of a paired region is paired, and so is what is folded. */
  lemma SplitKeepsPairs(region: seq<Message>, cfg: Settings, r: real)
    requires WellPaired(region)
    ensures WellPaired(Select(region, KeepFlags(region, cfg, r), true))
    ensures WellPaired(Select(region, KeepFlags(region, cfg, r), false))
  {
    var fl := KeepFlags(region, cfg, r);
    forall i | 0 < i < |region| && region[i].role.Tool?
      ensures fl[i] == fl[i - 1]
    {
      ResultFollowsPredecessor(region, Wanted(region, cfg), i);
      PredecessorRole(region, i);
    }
    SelectPaired(region, fl, true);
    SelectPaired(region, fl, false);
  }
}
