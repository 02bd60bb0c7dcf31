/**
 Checkpoint summaries (vscode-extension/app.go): one backward pass over the rewind
 points keeps, in a buffer changed in place, the smallest paths of everything a
 rewind to each point would touch.
 */
module CheckpointPreview {

  type Path = string

  const PREVIEW_LIMIT := 60

  // ---------- the order of paths ----------

  predicate Less(a: Path, b: Path) {
    if b == "" then false
    else if a == "" then true
    else if a[0] != b[0] then a[0] < b[0]
    else Less(a[1..], b[1..])
  }

  /** The order of strings byte by byte, a prefix before what it begins. */
  lemma {:induction false} LessExactly(a: Path, b: Path)
    ensures Less(a, b) <==> exists k :: 0 <= k <= |a| && k < |b| && a[..k] == b[..k] && (k == |a| || a[k] < b[k])
    decreases |a|
  {
    forall k | 0 < k <= |a| && k < |b| && a[..k] == b[..k] ensures a[0] == b[0] { assert a[..k][0] == b[..k][0]; }
    if b != "" && a != "" && a[0] == b[0] {
      LessExactly(a[1..], b[1..]);
      if k :| 0 <= k <= |a[1..]| && k < |b[1..]| && a[1..][..k] == b[1..][..k] && (k == |a[1..]| || a[1..][k] < b[1..][k]) {
        assert a[..k + 1] == [a[0]] + a[1..][..k] && b[..k + 1] == [b[0]] + b[1..][..k];
      }
      if k :| 0 <= k <= |a| && k < |b| && a[..k] == b[..k] && (k == |a| || a[k] < b[k]) {
        assert k > 0;
        assert a[..k][1..] == a[1..][..k - 1] && b[..k][1..] == b[1..][..k - 1];
      }
    } else if b != "" {
      assert a[..0] == b[..0];
    }
  }

  lemma {:induction false} LessTotal(a: Path, b: Path)
    ensures Less(a, b) || a == b || Less(b, a)
    ensures !(Less(a, b) && Less(b, a)) && !(a == b && Less(a, b))
    decreases |a|
  {
    if a != "" && b != "" {
      LessTotal(a[1..], b[1..]);
      assert a == [a[0]] + a[1..] && b == [b[0]] + b[1..];
    }
  }

  lemma {:induction false} LessTransitive(a: Path, b: Path, c: Path)
    requires Less(a, b) && Less(b, c)
    ensures Less(a, c)
    decreases |a|
  {
    if a != "" && a[0] == b[0] == c[0] {
      LessTransitive(a[1..], b[1..], c[1..]);
    }
  }

  ghost predicate Sorted(p: seq<Path>) {
    forall i, j :: 0 <= i < j < |p| ==> Less(p[i], p[j])
  }

  // ---------- the smallest k of a set ----------

  /** p lists the k smallest elements of s in order; all of them, if there are no more than k. */
  ghost predicate Smallest(p: seq<Path>, s: set<Path>, k: nat) {
    && Sorted(p) && |p| <= k
    && (forall x :: x in p ==> x in s)
    && (forall x :: x in s && x !in p ==> |p| == k && forall i :: 0 <= i < |p| ==> Less(p[i], x))
  }

  /** There is only one such list. */
  lemma SmallestUnique(p: seq<Path>, q: seq<Path>, s: set<Path>, k: nat)
    requires Smallest(p, s, k) && Smallest(q, s, k)
    ensures p == q
  {
    SmallestPrefix(p, q, s, k, |p|);
    SmallestPrefix(q, p, s, k, |q|);
  }

  lemma {:induction false} SmallestPrefix(p: seq<Path>, q: seq<Path>, s: set<Path>, k: nat, n: nat)
    requires Smallest(p, s, k) && Smallest(q, s, k) && n <= |p|
    ensures n <= |q| && p[..n] == q[..n]
    decreases n
  {
    if n > 0 {
      SmallestPrefix(p, q, s, k, n - 1);
      var x := p[n - 1];
      assert forall j :: 0 <= j < n - 1 ==> q[j] == p[..n - 1][j];
      if n - 1 >= |q| {
        NotEarlier(p, n - 1, q);
        assert false;
      } else if Less(x, q[n - 1]) {
        NotListed(p, q, n - 1);
        LessTotal(x, q[n - 1]);
      } else if Less(q[n - 1], x) {
        NotListed(q, p, n - 1);
        assert false;
      } else {
        LessTotal(x, q[n - 1]);
      }
    }
  }

  lemma NotEarlier(p: seq<Path>, i: nat, q: seq<Path>)
    requires Sorted(p) && i < |p| && |q| <= i && forall j :: 0 <= j < |q| ==> q[j] == p[j]
    ensures p[i] !in q
  {
    forall j | 0 <= j < |q| ensures q[j] != p[i] { LessTotal(p[j], p[i]); }
  }

  /** Where p first differs from q by a smaller path, that path is missing from q. */
  lemma NotListed(p: seq<Path>, q: seq<Path>, i: nat)
    requires Sorted(p) && Sorted(q) && i < |p| && i < |q| && Less(p[i], q[i])
    requires forall j :: 0 <= j < i ==> p[j] == q[j]
    ensures p[i] !in q
  {
    forall j | 0 <= j < |q| ensures q[j] != p[i] {
      if j < i { LessTotal(p[j], p[i]); }
      else if j == i { LessTotal(p[i], q[i]); }
      else { LessTransitive(p[i], q[i], q[j]); LessTotal(p[i], q[j]); }
    }
  }

  // ---------- inserting one path ----------

  /** How many listed paths are smaller: where sort.SearchStrings finds the place of x. */
  function Place(p: seq<Path>, x: Path): (i: nat)
    ensures i <= |p|
    ensures forall j :: 0 <= j < i ==> Less(p[j], x)
    ensures i < |p| ==> !Less(p[i], x)
  {
    if p == [] || !Less(p[0], x) then 0 else 1 + Place(p[1..], x)
  }

  function Inserted(p: seq<Path>, x: Path, limit: nat): seq<Path> {
    var i := Place(p, x);
    if limit == 0 || x == "" || (i < |p| && p[i] == x) then p
    else if |p| < limit then p[..i] + [x] + p[i..]
    else if i >= limit then p
    else p[..i] + [x] + p[i..|p| - 1]
  }

  /** In a sorted list everything from the place on, unless it is x itself, is greater than x. */
  lemma AfterPlace(p: seq<Path>, x: Path, j: nat)
    requires Sorted(p) && Place(p, x) <= j < |p| && p[Place(p, x)] != x
    ensures Less(x, p[j])
  {
    var i := Place(p, x);
    LessTotal(p[i], x);
    if j > i { LessTransitive(x, p[i], p[j]); }
  }

  lemma ListedAtPlace(p: seq<Path>, x: Path)
    requires Sorted(p)
    ensures x in p <==> Place(p, x) < |p| && p[Place(p, x)] == x
  {
    if x in p {
      var j :| 0 <= j < |p| && p[j] == x;
      LessTotal(x, x);
    }
  }

  lemma InsertedSorted(p: seq<Path>, x: Path, i: nat, q: seq<Path>)
    requires Sorted(p) && i == Place(p, x) && x !in p && q == p[..i] + [x] + p[i..]
    ensures Sorted(q)
  {
    forall a, b | 0 <= a < b < |q| ensures Less(q[a], q[b]) {
      if a == i { AfterPlace(p, x, b - 1); }
      else if a < i < b { assert Less(p[a], p[b - 1]); }
    }
  }

  lemma PrefixSorted(p: seq<Path>, n: nat)
    requires Sorted(p) && n <= |p|
    ensures Sorted(p[..n])
  {
  }

  /** Inserting keeps the list the smallest k of the grown set; the empty path is never listed. */
  lemma InsertKeepsSmallest(p: seq<Path>, s: set<Path>, x: Path, k: nat)
    requires Smallest(p, s - {""}, k)
    ensures Smallest(Inserted(p, x, k), (s + {x}) - {""}, k)
  {
    ListedAtPlace(p, x);
    var i, q := Place(p, x), Inserted(p, x, k);
    var t := (s + {x}) - {""};
    if k == 0 || x == "" || x in p {
      assert t == s - {""} || k == 0;
    } else {
      var wide := p[..i] + [x] + p[i..];
      InsertedSorted(p, x, i, wide);
      WideMembers(p, x, i);
      if |p| >= k && i < k {
        WideCut(p, x, i);
        PrefixSorted(wide, k);
        CutKeepsSmallest(p, s - {""}, x, k);
        assert t == s - {""} + {x};
      }
    }
  }

  lemma WideMembers(p: seq<Path>, x: Path, i: nat)
    requires i <= |p|
    ensures forall y :: y in p[..i] + [x] + p[i..] <==> y == x || y in p
  {
    assert p == p[..i] + p[i..];
    assert forall y :: y in p <==> y in p[..i] || y in p[i..];
  }

  lemma WideCut(p: seq<Path>, x: Path, i: nat)
    requires i < |p|
    ensures (p[..i] + [x] + p[i..])[..|p|] == p[..i] + [x] + p[i..|p| - 1]
  {
  }

  /** The path pushed out of a full list is greater than all that stay, and so is everything never listed. */
  lemma CutKeepsSmallest(p: seq<Path>, s: set<Path>, x: Path, k: nat)
    requires Smallest(p, s, k) && |p| == k && x !in p && Place(p, x) < k
    ensures var q := p[..Place(p, x)] + [x] + p[Place(p, x)..k - 1];
            forall y :: y in s + {x} && y !in q ==> forall j :: 0 <= j < |q| ==> Less(q[j], y)
  {
    var i := Place(p, x);
    var q := p[..i] + [x] + p[i..k - 1];
    forall y, j | y in s + {x} && y !in q && 0 <= j < |q| ensures Less(q[j], y) {
      assert y != x by { assert q[i] == x; }
      AfterPlace(p, x, k - 1);
      if y in p {
        CutMembers(p, x, i, y);
      } else {
        assert Less(p[k - 1], y);
        LessTransitive(x, p[k - 1], y);
      }
    }
  }

  lemma CutMembers(p: seq<Path>, x: Path, i: nat, y: Path)
    requires i < |p| && y in p
    ensures y in p[..i] + [x] + p[i..|p| - 1] || y == p[|p| - 1]
  {
    var q := p[..i] + [x] + p[i..|p| - 1];
    var n :| 0 <= n < |p| && p[n] == y;
    if n < i {
      assert q[n] == y;
    } else if n < |p| - 1 {
      assert q[n + 1] == y;
    }
  }

  // ---------- the buffer, changed in place ----------

  class Preview {
    const slots: array<Path>
    var len: nat

    ghost predicate Valid()
      reads this
    {
      len <= slots.Length
    }

    ghost function Contents(): seq<Path>
      reads this, slots
      requires Valid()
    {
      slots[..len]
    }

    constructor (limit: nat)
      ensures Valid() && fresh(slots) && slots.Length == limit && Contents() == []
    {
      slots := new Path[limit](_ => "");
      len := 0;
    }

    /** sort.SearchStrings: binary search for the first path that is not smaller. */
    method Search(path: Path) returns (idx: nat)
      requires Valid() && Sorted(Contents())
      ensures idx == Place(Contents(), path)
    {
      var hi := len;
      idx := 0;
      while idx < hi
        invariant 0 <= idx <= hi <= len
        invariant forall j :: 0 <= j < idx ==> Less(slots[j], path)
        invariant forall j :: hi <= j < len ==> !Less(slots[j], path)
      {
        var mid := (idx + hi) / 2;
        if Less(slots[mid], path) {
          SmallerBelow(Contents(), mid, path);
          assert forall j :: 0 <= j <= mid ==> Contents()[j] == slots[j];
          idx := mid + 1;
        } else {
          NotSmallerAbove(Contents(), mid, path);
          assert forall j :: mid <= j < len ==> Contents()[j] == slots[j];
          hi := mid;
        }
      }
      PlaceIs(Contents(), path, idx);
    }

    method Insert(path: Path)
      requires Valid() && Sorted(Contents())
      modifies this, slots
      ensures Valid() && Contents() == Inserted(old(Contents()), path, slots.Length)
    {
      hide Place, Sorted, Less;
      var limit := slots.Length;
      if limit == 0 || path == "" {
        return;
      }
      var idx := Search(path);
      if idx < len && slots[idx] == path {
        return;
      }
      if len < limit {
        len := len + 1;
        forall j | idx < j < len {
          slots[j] := slots[j - 1];
        }
        slots[idx] := path;
        return;
      }
      if idx >= limit {
        return;
      }
      forall j | idx < j < limit {
        slots[j] := slots[j - 1];
      }
      slots[idx] := path;
    }
  }

  lemma SmallerBelow(p: seq<Path>, i: nat, x: Path)
    requires Sorted(p) && i < |p| && Less(p[i], x)
    ensures forall j :: 0 <= j <= i ==> Less(p[j], x)
  {
    forall j | 0 <= j < i ensures Less(p[j], x) { LessTransitive(p[j], p[i], x); }
  }

  lemma NotSmallerAbove(p: seq<Path>, i: nat, x: Path)
    requires Sorted(p) && i < |p| && !Less(p[i], x)
    ensures forall j :: i <= j < |p| ==> !Less(p[j], x)
  {
    forall j | i < j < |p| ensures !Less(p[j], x) { if Less(p[j], x) { LessTransitive(p[i], p[j], x); } }
  }

  lemma PlaceIs(p: seq<Path>, x: Path, i: nat)
    requires i <= |p| && (forall j :: 0 <= j < i ==> Less(p[j], x)) && (i < |p| ==> !Less(p[i], x))
    ensures Place(p, x) == i
  {
    hide Place;
    if i < Place(p, x) {
      assert false;
    } else if Place(p, x) < i {
      assert false;
    }
  }

  // ---------- the rewind points ----------

  datatype Checkpoint = Checkpoint(turn: int, prompt: string, paths: seq<Path>, time: int)

  datatype Summary = Summary(
    turn: int, prompt: string, files: seq<Path>, fileCount: nat, truncated: bool,
    turnFileCount: nat, time: int, canCode: bool, canConversation: bool)

  function SetOf(paths: seq<Path>): set<Path> {
    set x | x in paths
  }

  lemma SetOfSnoc(paths: seq<Path>, k: nat, later: set<Path>)
    requires k < |paths|
    ensures later + SetOf(paths[..k + 1]) == later + SetOf(paths[..k]) + {paths[k]}
  {
    assert paths[..k + 1] == paths[..k] + [paths[k]];
  }

  lemma SetOfAll(paths: seq<Path>, later: set<Path>)
    ensures later + SetOf(paths[..0]) == later && paths[..|paths|] == paths
  {
  }

  /** Every path touched in checkpoint i or later. */
  function TouchedFrom(cs: seq<Checkpoint>, i: nat): set<Path>
    requires i <= |cs|
    decreases |cs| - i
  {
    if i == |cs| then {} else TouchedFrom(cs, i + 1) + SetOf(cs[i].paths)
  }

  lemma {:induction false} TouchedIsUnion(cs: seq<Checkpoint>, i: nat, x: Path)
    requires i <= |cs|
    ensures x in TouchedFrom(cs, i) <==> exists j :: i <= j < |cs| && x in cs[j].paths
    decreases |cs| - i
  {
    if i < |cs| {
      TouchedIsUnion(cs, i + 1, x);
    }
  }

  ghost predicate CodeFrom(cs: seq<Checkpoint>, i: nat) {
    exists j :: i <= j < |cs| && |cs[j].paths| > 0
  }

  /** The summary of checkpoint i: the first paths of everything a rewind to it would touch, and how many there are. */
  ghost predicate Summarises(cs: seq<Checkpoint>, i: nat, boundary: set<int>, m: Summary)
    requires i < |cs|
  {
    && m.turn == cs[i].turn && m.prompt == cs[i].prompt && m.time == cs[i].time
    && m.turnFileCount == |cs[i].paths| && m.canConversation == (cs[i].turn in boundary)
    && m.fileCount == |TouchedFrom(cs, i)|
    && Smallest(m.files, TouchedFrom(cs, i) - {""}, PREVIEW_LIMIT)
    && (m.canCode <==> CodeFrom(cs, i))
    && (m.truncated <==> |TouchedFrom(cs, i)| > |m.files|)
  }

  /** Field by field: what a summary says of its checkpoint and of all later ones. */
  lemma SummaryTells(cs: seq<Checkpoint>, i: nat, boundary: set<int>, m: Summary)
    requires i < |cs| && Summarises(cs, i, boundary, m)
    ensures m.turn == cs[i].turn && m.prompt == cs[i].prompt && m.time == cs[i].time && m.turnFileCount == |cs[i].paths|
    ensures m.canConversation <==> cs[i].turn in boundary
    ensures m.canCode <==> exists j :: i <= j < |cs| && |cs[j].paths| > 0
    ensures forall x :: x in m.files ==> x != "" && exists j :: i <= j < |cs| && x in cs[j].paths
    ensures |m.files| <= 60 && (m.truncated <==> m.fileCount > |m.files|)
    ensures forall a, b :: 0 <= a < b < |m.files| ==> Less(m.files[a], m.files[b])
    ensures forall j, x :: i <= j < |cs| && x in cs[j].paths && x != "" && x !in m.files ==> |m.files| == 60 && Less(m.files[59], x)
  {
    forall x ensures x in TouchedFrom(cs, i) <==> exists j :: i <= j < |cs| && x in cs[j].paths { TouchedIsUnion(cs, i, x); }
  }

  method Checkpoints(cs: seq<Checkpoint>, boundary: set<int>) returns (out: array<Summary>)
    ensures fresh(out) && out.Length == |cs|
    ensures forall i :: 0 <= i < |cs| ==> Summarises(cs, i, boundary, out[i])
  {
    hide Smallest, Summarises, TouchedFrom, CodeFrom, Inserted, Sorted, First, SetOf;
    out := new Summary[|cs|](_ => Summary(0, "", [], 0, false, 0, 0, false, false));
    for i := 0 to |cs|
      invariant forall j :: 0 <= j < i ==> out[j] == First(cs[j], boundary)
    {
      out[i] := First(cs[i], boundary);
    }
    var hasCodeAfter := false;
    var codeFileSet: set<Path> := {};
    var preview := new Preview(PREVIEW_LIMIT);
    NothingTouched(cs);
    var i := |cs|;
    while i > 0
      invariant 0 <= i <= |cs| && preview.Valid() && preview.slots.Length == PREVIEW_LIMIT && fresh(preview) && fresh(preview.slots)
      invariant codeFileSet == TouchedFrom(cs, i)
      invariant Smallest(preview.Contents(), codeFileSet - {""}, PREVIEW_LIMIT)
      invariant hasCodeAfter <==> CodeFrom(cs, i)
      invariant forall j :: 0 <= j < i ==> out[j] == First(cs[j], boundary)
      invariant forall j :: i <= j < |cs| ==> Summarises(cs, j, boundary, out[j])
    {
      i := i - 1;
      FirstSays(cs[i], boundary);
      if |out[i].files| > 0 {
        hasCodeAfter := true;
      }
      ghost var later := codeFileSet;
      var files := out[i].files;
      SetOfAll(files, later);
      for k := 0 to |files|
        modifies preview, preview.slots
        invariant preview.Valid()
        invariant codeFileSet == later + SetOf(files[..k])
        invariant Smallest(preview.Contents(), codeFileSet - {""}, PREVIEW_LIMIT)
      {
        SetOfSnoc(files, k, later);
        if files[k] in codeFileSet {
          assert codeFileSet + {files[k]} == codeFileSet;
          continue;
        }
        SmallestSorted(preview.Contents(), codeFileSet - {""}, PREVIEW_LIMIT);
        InsertKeepsSmallest(preview.Contents(), codeFileSet, files[k], PREVIEW_LIMIT);
        codeFileSet := codeFileSet + {files[k]};
        preview.Insert(files[k]);
      }
      SummaryHolds(cs, i, boundary, hasCodeAfter, codeFileSet, preview.Contents());
      out[i] := out[i].(canCode := hasCodeAfter, fileCount := |codeFileSet|, files := preview.slots[..preview.len],
                        truncated := |codeFileSet| > preview.len);
    }
  }

  lemma FirstSays(c: Checkpoint, boundary: set<int>)
    ensures First(c, boundary).files == c.paths
  {
  }

  lemma SummaryHolds(cs: seq<Checkpoint>, i: nat, boundary: set<int>, code: bool, touched: set<Path>, files: seq<Path>)
    requires i < |cs| && touched == TouchedFrom(cs, i + 1) + SetOf(cs[i].paths)
    requires Smallest(files, touched - {""}, PREVIEW_LIMIT)
    requires code <==> |cs[i].paths| > 0 || CodeFrom(cs, i + 1)
    ensures touched == TouchedFrom(cs, i) && (code <==> CodeFrom(cs, i))
    ensures Summarises(cs, i, boundary, First(cs[i], boundary).(canCode := code, fileCount := |touched|, files := files, truncated := |touched| > |files|))
  {
    hide Smallest;
  }

  function First(c: Checkpoint, boundary: set<int>): Summary {
    Summary(c.turn, c.prompt, c.paths, 0, false, |c.paths|, c.time, |c.paths| > 0, c.turn in boundary)
  }

  lemma NothingTouched(cs: seq<Checkpoint>)
    ensures TouchedFrom(cs, |cs|) == {} && Smallest([], {} - {""}, PREVIEW_LIMIT) && !CodeFrom(cs, |cs|)
  {
  }

  lemma SmallestSorted(p: seq<Path>, s: set<Path>, k: nat)
    requires Smallest(p, s, k)
    ensures Sorted(p)
  {
  }

  // ---------- how much is left out ----------

  lemma {:induction false} SortedCard(p: seq<Path>)
    requires Sorted(p)
    ensures |SetOf(p)| == |p|
    decreases |p|
  {
    if p != [] {
      var rest, last := p[..|p| - 1], p[|p| - 1];
      SortedCard(rest);
      assert p == rest + [last];
      assert last !in rest by {
        forall j | 0 <= j < |rest| ensures rest[j] != last { LessTotal(rest[j], last); }
      }
      assert SetOf(p) == SetOf(rest) + {last};
    }
  }

  lemma SmallestSize(p: seq<Path>, s: set<Path>, k: nat)
    requires Smallest(p, s, k)
    ensures |p| == if |s| < k then |s| else k
  {
    SortedCard(p);
    assert SetOf(p) + (s - SetOf(p)) == s;
    if |p| < k {
      assert SetOf(p) == s;
    }
  }

  /** The truncation mark is up exactly when more than the limit of named paths is touched, or an unnamed one. */
  lemma TruncatedExactly(cs: seq<Checkpoint>, i: nat, boundary: set<int>, m: Summary)
    requires i < |cs| && Summarises(cs, i, boundary, m)
    ensures m.truncated <==> |TouchedFrom(cs, i) - {""}| > PREVIEW_LIMIT || "" in TouchedFrom(cs, i)
  {
    var u := TouchedFrom(cs, i);
    SmallestSize(m.files, u - {""}, PREVIEW_LIMIT);
    hide TouchedFrom, Smallest;
    if "" in u {
      assert u == (u - {""}) + {""};
    } else {
      assert u - {""} == u;
    }
  }

  /** A later rewind point never touches more than an earlier one. */
  lemma {:induction false} CountsFall(cs: seq<Checkpoint>, i: nat, j: nat, boundary: set<int>, m: Summary, n: Summary)
    requires i <= j < |cs| && Summarises(cs, i, boundary, m) && Summarises(cs, j, boundary, n)
    ensures n.fileCount <= m.fileCount && (n.canCode ==> m.canCode)
  {
    assert TouchedFrom(cs, j) <= TouchedFrom(cs, i) by {
      forall x | x in TouchedFrom(cs, j) ensures x in TouchedFrom(cs, i) {
        TouchedIsUnion(cs, j, x);
        TouchedIsUnion(cs, i, x);
      }
    }
    hide TouchedFrom, Smallest;
    assert TouchedFrom(cs, i) == TouchedFrom(cs, j) + (TouchedFrom(cs, i) - TouchedFrom(cs, j));
  }
}
