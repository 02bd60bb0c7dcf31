/**
 Which messages of a region a fold keeps verbatim and which it drops
 (internal/agent/compact.go: keepIndexes, keepToolCallGroup, findToolCaller,
 partitionFold). The loops that mark a []bool are methods on an array, proved
 against the declarative Kept; nothing here assumes a paired history.
 */
module CompactionFold {
  import opened Messages
  import opened CompactionPlan

  predicate ShouldKeep(m: Message, cfg: Settings) {
    (cfg.keepErrors && IsErrorMessage(m)) || (cfg.keepUserMarked && IsUserMarked(m))
  }

  /** One past the last digest among the first n messages: retention starts there. */
  function PolicyStart(region: seq<Message>, n: nat): (p: nat)
    requires n <= |region|
    ensures p <= n
  {
    if n == 0 then 0 else if IsCompactionSummary(region[n - 1]) then n else PolicyStart(region, n - 1)
  }

  /** The messages the policy keeps for their own sake: only those since the latest digest. */
  function Wanted(region: seq<Message>, cfg: Settings): (direct: seq<bool>)
    ensures |direct| == |region|
    ensures forall i :: 0 <= i < |region| ==> (direct[i] <==> i >= PolicyStart(region, |region|) && ShouldKeep(region[i], cfg))
    ensures forall i :: 0 <= i < |region| && direct[i] ==> region[i].role.Tool? || region[i].role.User?
  {
    seq(|region|, i requires 0 <= i < |region| => i >= PolicyStart(region, |region|) && ShouldKeep(region[i], cfg))
  }

  /** Index of the nearest assistant message before i that issued call id, or -1. */
  function CallerBefore(region: seq<Message>, i: nat, id: string): (j: int)
    requires i <= |region|
    ensures -1 <= j < i
    ensures j >= 0 ==> region[j].role.Assistant? && id in CallIDs(region[j])
    ensures forall k :: j < k < i && region[k].role.Assistant? ==> id !in CallIDs(region[k])
  {
    if i == 0 then -1
    else if region[i - 1].role.Assistant? && id in CallIDs(region[i - 1]) then i - 1
    else CallerBefore(region, i - 1, id)
  }

  /** x is assistant message h itself or one of the results that follow it without a gap and answer it. */
  predicate InGroup(region: seq<Message>, h: int, x: int) {
    0 <= h <= x < |region| && region[h].role.Assistant? && region[h].toolCalls != [] &&
    (x == h ||
     ((forall j :: h < j <= x ==> region[j].role.Tool?) && region[x].toolCallID in CallIDs(region[h])))
  }

  /** The wanted tool result k pulls its whole call group, x included, into the kept part. */
  predicate Claims(region: seq<Message>, direct: seq<bool>, k: nat, x: nat)
    requires |direct| == |region| && k < |region|
  {
    direct[k] && region[k].role.Tool? && InGroup(region, CallerBefore(region, k, region[k].toolCallID), x)
  }

  /** Wanted, or claimed by a wanted result. */
  predicate Kept(region: seq<Message>, direct: seq<bool>, i: nat)
    requires |direct| == |region| && i < |region|
  {
    direct[i] || exists k :: 0 <= k < |region| && Claims(region, direct, k, i)
  }

  /** What a fold keeps: policy, earlier digests, and user turns small enough to pin. */
  predicate Keeps(region: seq<Message>, cfg: Settings, r: real, i: nat)
    requires i < |region|
  {
    Kept(region, Wanted(region, cfg), i) || IsCompactionSummary(region[i]) ||
    (region[i].role.User? && Pinnable(region[i], cfg, r))
  }

  function KeepFlags(region: seq<Message>, cfg: Settings, r: real): (fl: seq<bool>)
    ensures |fl| == |region|
  {
    seq(|region|, i requires 0 <= i < |region| => Keeps(region, cfg, r, i))
  }

  /** The messages whose flag is b, in order. */
  function Select(ms: seq<Message>, fl: seq<bool>, b: bool): (out: seq<Message>)
    requires |ms| == |fl|
    ensures |out| <= |ms|
  {
    if ms == [] then []
    else
      var n := |ms| - 1;
      Select(ms[..n], fl[..n], b) + (if fl[n] == b then [ms[n]] else [])
  }

  // ---------- the loops of the source ----------

  method FindToolCaller(region: seq<Message>, toolIndex: nat, id: string) returns (j: int)
    requires toolIndex <= |region|
    ensures j == CallerBefore(region, toolIndex, id)
  {
    j := toolIndex - 1;
    while j >= 0
      invariant -1 <= j < toolIndex
      invariant CallerBefore(region, j + 1, id) == CallerBefore(region, toolIndex, id)
    {
      if region[j].role.Assistant? && id in CallIDs(region[j]) {
        return;
      }
      j := j - 1;
    }
  }

  method KeepToolCallGroup(region: seq<Message>, keep: array<bool>, h: int)
    requires keep.Length == |region|
    modifies keep
    ensures forall x :: 0 <= x < |region| ==> keep[x] == (old(keep[x]) || InGroup(region, h, x))
  {
    if h < 0 || h >= |region| {
      return;
    }
    if !region[h].role.Assistant? || region[h].toolCalls == [] {
      return;
    }
    keep[h] := true;
    var ids := CallIDs(region[h]);
    var j := h + 1;
    while j < |region| && region[j].role.Tool?
      invariant h < j <= |region|
      invariant forall x :: h < x < j ==> region[x].role.Tool?
      invariant forall x :: 0 <= x < j ==> keep[x] == (old(keep[x]) || InGroup(region, h, x))
      invariant forall x :: j <= x < |region| ==> keep[x] == old(keep[x])
    {
      if region[j].toolCallID in ids {
        keep[j] := true;
      }
      j := j + 1;
    }
  }

  /** Marking the group of a kept message adds only kept messages. */
  lemma GroupOfKept(region: seq<Message>, direct: seq<bool>, i: nat, h: int, x: nat)
    requires |direct| == |region| && i < |region| && x < |region| && Kept(region, direct, i)
    requires (region[i].role.Tool? && h == CallerBefore(region, i, region[i].toolCallID)) ||
             (region[i].role.Assistant? && h == i && !direct[i])
    requires InGroup(region, h, x)
    ensures Kept(region, direct, x)
  {
    if direct[i] {
      assert Claims(region, direct, i, x);
    } else {
      var k :| 0 <= k < |region| && Claims(region, direct, k, i);
      assert Claims(region, direct, k, x);
    }
  }

  /** keepToolCallGroup as keepIndexes calls it: on the caller of a kept result, or on a kept caller. */
  method MarkGroup(region: seq<Message>, ghost direct: seq<bool>, keep: array<bool>, i: nat, h: int)
    requires |direct| == |region| == keep.Length && i < |region| && Kept(region, direct, i)
    requires (region[i].role.Tool? && h == CallerBefore(region, i, region[i].toolCallID)) ||
             (region[i].role.Assistant? && h == i && !direct[i])
    requires forall x :: 0 <= x < |region| && keep[x] ==> Kept(region, direct, x)
    modifies keep
    ensures forall x :: 0 <= x < |region| && keep[x] ==> Kept(region, direct, x)
    ensures forall x :: 0 <= x < |region| ==> keep[x] == (old(keep[x]) || InGroup(region, h, x))
  {
    if h >= 0 {
      KeepToolCallGroup(region, keep, h);
      forall x | 0 <= x < |region| && InGroup(region, h, x)
        ensures Kept(region, direct, x)
      {
        GroupOfKept(region, direct, i, h, x);
      }
    }
  }

  /** keepIndexes' last pass: spreads the wanted flags to whole call groups. */
  method SpreadToGroups(region: seq<Message>, ghost direct: seq<bool>, keep: array<bool>)
    requires |direct| == |region| == keep.Length
    requires forall x :: 0 <= x < |region| ==> keep[x] == direct[x]
    requires forall x :: 0 <= x < |region| && direct[x] ==> !region[x].role.Assistant?
    modifies keep
    ensures forall x :: 0 <= x < |region| ==> (keep[x] <==> Kept(region, direct, x))
  {
    for i := 0 to |region|
      invariant forall x :: 0 <= x < |region| && keep[x] ==> Kept(region, direct, x)
      invariant forall x :: 0 <= x < |region| && direct[x] ==> keep[x]
      invariant forall k, x :: 0 <= k < i && 0 <= x < |region| && Claims(region, direct, k, x) ==> keep[x]
    {
      if keep[i] {
        match region[i].role
        case Tool =>
          var j := FindToolCaller(region, i, region[i].toolCallID);
          MarkGroup(region, direct, keep, i, j);
        case Assistant =>
          MarkGroup(region, direct, keep, i, i);
        case _ =>
      }
    }
  }

  method KeepIndexes(region: seq<Message>, cfg: Settings) returns (keep: array<bool>)
    ensures fresh(keep) && keep.Length == |region|
    ensures forall i :: 0 <= i < |region| ==> (keep[i] <==> Kept(region, Wanted(region, cfg), i))
  {
    hide ShouldKeep, IsCompactionSummary;
    keep := new bool[|region|](_ => false);
    var policyStart := 0;
    for i := 0 to |region|
      invariant policyStart == PolicyStart(region, i)
    {
      if IsCompactionSummary(region[i]) {
        policyStart := i + 1;
      }
    }
    ghost var direct := Wanted(region, cfg);
    for i := 0 to |region|
      invariant forall x :: 0 <= x < |region| ==> keep[x] == (x < i && direct[x])
    {
      if i >= policyStart && ShouldKeep(region[i], cfg) {
        keep[i] := true;
      }
    }
    SpreadToGroups(region, direct, keep);
  }

  method PartitionFold(region: seq<Message>, cfg: Settings, r: real) returns (kept: seq<Message>, fold: seq<Message>)
    ensures kept == Select(region, KeepFlags(region, cfg, r), true)
    ensures fold == Select(region, KeepFlags(region, cfg, r), false)
  {
    var policyKeep := KeepIndexes(region, cfg);
    kept, fold := [], [];
    ghost var fl := KeepFlags(region, cfg, r);
    for i := 0 to |region|
      invariant kept == Select(region[..i], fl[..i], true)
      invariant fold == Select(region[..i], fl[..i], false)
      invariant forall x :: 0 <= x < |region| ==> (policyKeep[x] <==> Kept(region, Wanted(region, cfg), x))
    {
      var m := region[i];
      assert region[..i + 1][..i] == region[..i] && fl[..i + 1][..i] == fl[..i];
      if policyKeep[i] || IsCompactionSummary(m) || (m.role.User? && Pinnable(m, cfg, r)) {
        kept := kept + [m];
      } else {
        fold := fold + [m];
      }
    }
    assert region[..|region|] == region && fl[..|region|] == fl;
  }
}
