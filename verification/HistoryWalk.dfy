/**
 Walking the history pages backward: what all pages together show, and exactly when
 that is the rendering of the whole log.
 */
module HistoryWalk {
  import opened Wrappers
  import opened HistoryPaging

  // ---------- which page holds a message ----------

  /** The first turn of the page that holds a turn, when end turns are paged back from the last, size at a time. */
  function PageStart(end: nat, size: nat, turn: nat): (start: nat)
    requires size >= 1
    ensures start <= turn
    ensures turn < end ==> start < end && turn < start + size
    decreases end
  {
    if end <= size then 0
    else if turn >= end - size then end - size
    else PageStart(end - size, size, turn)
  }

  /** The turn a message belongs to; what precedes the first turn goes with it. */
  function TurnOf(marks: seq<bool>, i: nat): nat
    requires i < |marks|
  {
    if Count(marks[..i + 1]) == 0 then 0 else Count(marks[..i + 1]) - 1
  }

  /** The first message of the page that holds message i. */
  function PageOf(marks: seq<bool>, size: nat, i: nat): (lo: nat)
    requires i < |marks| && size >= 1
    ensures lo <= i
  {
    var start := PageStart(Count(marks), size, TurnOf(marks, i));
    BeforeTurn(marks, start, i);
    Edge(marks, start)
  }

  /** The turns before end are paged as if end were the last. */
  ghost predicate PagedFrom(total: nat, size: nat, end: nat)
    requires size >= 1
  {
    forall turn: nat :: turn < end ==> PageStart(total, size, turn) == PageStart(end, size, turn)
  }

  lemma PagedOn(total: nat, size: nat, end: nat)
    requires size >= 1 && PagedFrom(total, size, end) && end > size
    ensures PagedFrom(total, size, end - size)
  {
  }

  lemma PageOfIs(marks: seq<bool>, size: nat, end: nat, i: nat)
    requires size >= 1 && 0 < end && PagedFrom(Count(marks), size, end)
    requires var start := if end <= size then 0 else end - size; Edge(marks, start) <= i < TurnStart(marks, end)
    ensures PageOf(marks, size, i) == Edge(marks, if end <= size then 0 else end - size)
  {
    var start, turn := if end <= size then 0 else end - size, TurnOf(marks, i);
    BeforeTurn(marks, start, i);
    BeforeTurn(marks, end, i);
    hide Count, TurnStart;
    assert PageStart(Count(marks), size, turn) == PageStart(end, size, turn) == start;
  }

  // ---------- what all pages show ----------

  function PagedDisplays(tx: Texts, q: Queues, msgs: seq<Msg>, size: nat): (shows: Displays)
    requires size >= 1
    ensures |shows| == |msgs| && forall i :: 0 <= i < |msgs| ==> shows[i] == Ranked(tx, q, msgs, PageOf(Marks(tx, msgs), size, i), i)
  {
    seq(|msgs|, i requires 0 <= i < |msgs| => Ranked(tx, q, msgs, PageOf(Marks(tx, msgs), size, i), i))
  }

  /** All pages of size turns, in order: the queues are full again at the start of each. */
  function Paged(tx: Texts, msgs: seq<Msg>, turns: seq<PlannerTurn>, cps: map<nat, int>, size: nat): seq<Shown>
    requires size >= 1
  {
    Blocks(tx, LookupsOf(tx, msgs), PagedDisplays(tx, QueuesOf(tx, turns), msgs, size), cps, msgs, 0, |msgs|)
  }

  /**
   Every visible user message has in its page the rank that it has in the log, as far
   as the displays of its queue tell ranks apart.
   */
  ghost predicate PagesAgree(tx: Texts, msgs: seq<Msg>, q: Queues, size: nat)
    requires size >= 1
  {
    forall i :: 0 <= i < |msgs| && VisibleUser(tx, msgs[i]) ==>
      Ranked(tx, q, msgs, 0, i) == Ranked(tx, q, msgs, PageOf(Marks(tx, msgs), size, i), i)
  }

  lemma FullIsRanked(tx: Texts, msgs: seq<Msg>, turns: seq<PlannerTurn>, cps: map<nat, int>)
    ensures Full(tx, msgs, turns, cps) ==
            Blocks(tx, LookupsOf(tx, msgs), RankedFrom(tx, QueuesOf(tx, turns), msgs, 0), cps, msgs, 0, |msgs|)
  {
    hide RenderFrom, Blocks, RankedFrom, QueuesOf, Consumed;
    var q := QueuesOf(tx, turns);
    assert msgs[0..|msgs|] == msgs;
    NothingConsumed(tx, msgs, 0, q);
    RenderIsRanked(tx, LookupsOf(tx, msgs), cps, msgs, 0, |msgs|, cps, 0, q, q);
  }

  // ---------- a rendering determines its displays ----------

  /** Where the first user bubble stands. */
  function FirstUser(s: seq<Shown>): nat {
    if s == [] || s[0].kind == Of(User) then 0 else 1 + FirstUser(s[1..])
  }

  lemma {:induction false} FirstUserConcat(a: seq<Shown>, b: seq<Shown>)
    requires Bubbles(a) == 0
    ensures FirstUser(a + b) == |a| + FirstUser(b)
    decreases |a|
  {
    if a == [] {
      assert a + b == b;
    } else {
      assert (a + b)[1..] == a[1..] + b;
      FirstUserConcat(a[1..], b);
    }
  }

  /** Displays that show no user bubble, and nothing under what is no visible user message. */
  ghost predicate Proper(tx: Texts, msgs: seq<Msg>, shows: Displays) {
    |shows| == |msgs| &&
    forall i :: 0 <= i < |msgs| ==> Bubbles(shows[i]) == 0 && (!VisibleUser(tx, msgs[i]) ==> shows[i] == [])
  }

  lemma OwnUserFirst(tx: Texts, look: Lookups, m: Msg, checkpoint: Option<int>, rest: seq<Shown>)
    requires VisibleUser(tx, m)
    ensures FirstUser(Own(tx, look, m, checkpoint) + rest) == 0
  {
  }

  /** How far the next user message is does not depend on the displays, when none stands before it. */
  lemma {:induction false} NextUser(tx: Texts, look: Lookups, a: Displays, b: Displays, cps: map<nat, int>, msgs: seq<Msg>, lo: nat)
    requires Proper(tx, msgs, a) && Proper(tx, msgs, b) && lo <= |msgs|
    ensures FirstUser(Blocks(tx, look, a, cps, msgs, lo, |msgs|)) == FirstUser(Blocks(tx, look, b, cps, msgs, lo, |msgs|))
    decreases |msgs| - lo
  {
    hide Own, Bubbles, FirstUser, VisibleUser;
    if lo < |msgs| {
      var own := Own(tx, look, msgs[lo], At(cps, lo));
      var ra, rb := Blocks(tx, look, a, cps, msgs, lo + 1, |msgs|), Blocks(tx, look, b, cps, msgs, lo + 1, |msgs|);
      assert own + a[lo] + ra == own + (a[lo] + ra) && own + b[lo] + rb == own + (b[lo] + rb);
      if VisibleUser(tx, msgs[lo]) {
        OwnUserFirst(tx, look, msgs[lo], At(cps, lo), a[lo] + ra);
        OwnUserFirst(tx, look, msgs[lo], At(cps, lo), b[lo] + rb);
      } else {
        NextUser(tx, look, a, b, cps, msgs, lo + 1);
        OwnBubbles(tx, look, msgs[lo], At(cps, lo));
        assert a[lo] + ra == ra && b[lo] + rb == rb;
        FirstUserConcat(own, ra);
        FirstUserConcat(own, rb);
      }
    }
  }

  lemma SplitAlike<T>(a: seq<T>, ra: seq<T>, b: seq<T>, rb: seq<T>)
    requires a + ra == b + rb && |a| == |b|
    ensures a == b && ra == rb
  {
    assert (a + ra)[..|a|] == a && (b + rb)[..|b|] == b;
    assert (a + ra)[|a|..] == ra && (b + rb)[|b|..] == rb;
  }

  lemma FrontAlike<T>(own: seq<T>, a: seq<T>, ra: seq<T>, b: seq<T>, rb: seq<T>)
    requires own + a + ra == own + b + rb
    ensures a + ra == b + rb
  {
    assert (own + a + ra)[|own|..] == a + ra;
    assert (own + b + rb)[|own|..] == b + rb;
  }

  lemma SameFront(own: seq<Shown>, a: seq<Shown>, ra: seq<Shown>, b: seq<Shown>, rb: seq<Shown>)
    requires own + a + ra == own + b + rb && Bubbles(a) == 0 && Bubbles(b) == 0 && FirstUser(ra) == FirstUser(rb)
    ensures a == b && ra == rb
  {
    hide Bubbles, FirstUser;
    FrontAlike(own, a, ra, b, rb);
    FirstUserConcat(a, ra);
    FirstUserConcat(b, rb);
    SplitAlike(a, ra, b, rb);
  }

  lemma {:induction false} BlocksTellDisplays(tx: Texts, look: Lookups, a: Displays, b: Displays, cps: map<nat, int>, msgs: seq<Msg>, lo: nat)
    requires Proper(tx, msgs, a) && Proper(tx, msgs, b) && lo <= |msgs|
    requires Blocks(tx, look, a, cps, msgs, lo, |msgs|) == Blocks(tx, look, b, cps, msgs, lo, |msgs|)
    ensures forall i :: lo <= i < |msgs| ==> a[i] == b[i]
    decreases |msgs| - lo
  {
    hide Own, Bubbles, FirstUser;
    if lo < |msgs| {
      NextUser(tx, look, a, b, cps, msgs, lo + 1);
      SameFront(Own(tx, look, msgs[lo], At(cps, lo)), a[lo], Blocks(tx, look, a, cps, msgs, lo + 1, |msgs|),
                b[lo], Blocks(tx, look, b, cps, msgs, lo + 1, |msgs|));
      BlocksTellDisplays(tx, look, a, b, cps, msgs, lo + 1);
    }
  }

  // ---------- exactly when the pages agree with the whole ----------

  lemma ProperRanks(tx: Texts, msgs: seq<Msg>, q: Queues, size: nat)
    requires NoPlannedUsers(q) && size >= 1
    ensures Proper(tx, msgs, RankedFrom(tx, q, msgs, 0)) && Proper(tx, msgs, PagedDisplays(tx, q, msgs, size))
  {
    hide NoPlannedUsers, Bubbles, PageOf, Marks, VisibleUser, Ranked;
    forall i | 0 <= i < |msgs|
      ensures Bubbles(RankedFrom(tx, q, msgs, 0)[i]) == 0 && Bubbles(PagedDisplays(tx, q, msgs, size)[i]) == 0
      ensures !VisibleUser(tx, msgs[i]) ==> RankedFrom(tx, q, msgs, 0)[i] == [] && PagedDisplays(tx, q, msgs, size)[i] == []
    {
      var lo := PageOf(Marks(tx, msgs), size, i);
      RankedBubbles(tx, q, msgs, 0, i);
      RankedBubbles(tx, q, msgs, lo, i);
      if !VisibleUser(tx, msgs[i]) {
        NothingUnderOthers(tx, q, msgs, 0, i);
        NothingUnderOthers(tx, q, msgs, lo, i);
      }
    }
  }

  /**
   The pages show what the whole rendering shows if every message has the same
   display in both; and only then, if no display holds a user bubble.
   */
  lemma PagingAgreesExactly(tx: Texts, msgs: seq<Msg>, turns: seq<PlannerTurn>, cps: map<nat, int>, size: nat)
    requires size >= 1
    ensures var q := QueuesOf(tx, turns); var same := Paged(tx, msgs, turns, cps, size) == Full(tx, msgs, turns, cps);
            && (PagesAgree(tx, msgs, q, size) ==> same)
            && (NoPlannedUsers(q) && same ==> PagesAgree(tx, msgs, q, size))
  {
    hide RenderFrom, Blocks, QueuesOf, Ranked, PageOf, VisibleUser, Marks, NoPlannedUsers, Proper;
    var look, q := LookupsOf(tx, msgs), QueuesOf(tx, turns);
    var a, b := PagedDisplays(tx, q, msgs, size), RankedFrom(tx, q, msgs, 0);
    FullIsRanked(tx, msgs, turns, cps);
    if PagesAgree(tx, msgs, q, size) {
      forall i | 0 <= i < |msgs| ensures a[i] == b[i] {
        if !VisibleUser(tx, msgs[i]) {
          NothingUnderOthers(tx, q, msgs, 0, i);
          NothingUnderOthers(tx, q, msgs, PageOf(Marks(tx, msgs), size, i), i);
        }
      }
      BlocksDependOn(tx, look, a, b, cps, msgs, 0, |msgs|);
    } else if NoPlannedUsers(q) && Paged(tx, msgs, turns, cps, size) == Full(tx, msgs, turns, cps) {
      ProperRanks(tx, msgs, q, size);
      BlocksTellDisplays(tx, look, a, b, cps, msgs, 0);
      assert false;
    }
  }

  /** They agree when no two messages compete for a display. */
  lemma DisplayableAgrees(tx: Texts, msgs: seq<Msg>, turns: seq<PlannerTurn>, size: nat)
    requires Displayable(tx, msgs, turns) && size >= 1
    ensures PagesAgree(tx, msgs, QueuesOf(tx, turns), size)
  {
    hide QueuesOf, Ranked, Planned, PageOf, Marks, SameKey, VisibleUser;
    var q := QueuesOf(tx, turns);
    forall i | 0 <= i < |msgs| && VisibleUser(tx, msgs[i])
      ensures Ranked(tx, q, msgs, 0, i) == Ranked(tx, q, msgs, PageOf(Marks(tx, msgs), size, i), i)
    {
      FrontWhenNotShared(tx, msgs, q, 0, i);
      FrontWhenNotShared(tx, msgs, q, PageOf(Marks(tx, msgs), size, i), i);
    }
  }

  /** And when all turns are on one page. */
  lemma OnePageAgrees(tx: Texts, msgs: seq<Msg>, q: Queues, size: nat)
    requires Count(Marks(tx, msgs)) <= size && size >= 1
    ensures PagesAgree(tx, msgs, q, size)
  {
    hide Ranked, VisibleUser, Marks;
  }

  /**
   One text sent twice and paged one turn at a time: the first display is shown
   under both, so the pages agree exactly if the second turn displays the same. A
   single planner turn never does.
   */
  lemma SharedKeyBreaksPaging(tx: Texts, m: Msg, turns: seq<PlannerTurn>, cps: map<nat, int>)
    requires VisibleUser(tx, m)
    ensures var own := TurnsFor(tx, turns, tx.key(m.content)); var same := Paged(tx, [m, m], turns, cps, 1) == Full(tx, [m, m], turns, cps);
            && (same <==> Nth(own, 0) == Nth(own, 1))
            && (|own| == 1 ==> !same)
  {
    var msgs, q, h := [m, m], QueuesOf(tx, turns), tx.key(m.content);
    QueuesInOrder(tx, turns, h);
    hide QueuesOf, RenderFrom, Own;
    FullIsRanked(tx, msgs, turns, cps);
    SecondPage(tx, m);
    TwoRanks(tx, q, m);
    if |TurnsFor(tx, turns, h)| == 1 { ShownTurns(tx, turns, h); }
    var a, b, look := PagedDisplays(tx, q, msgs, 1), RankedFrom(tx, q, msgs, 0), LookupsOf(tx, msgs);
    TwoBlocks(tx, look, a, cps, msgs);
    TwoBlocks(tx, look, b, cps, msgs);
    hide Blocks, Ranked, PageOf, Marks, VisibleUser, TurnsFor;
    var front := Own(tx, look, m, At(cps, 0)) + a[0] + Own(tx, look, m, At(cps, 1));
    assert (front + a[1])[|front|..] == a[1] && (front + b[1])[|front|..] == b[1];
  }

  lemma TwoBlocks(tx: Texts, look: Lookups, shows: Displays, cps: map<nat, int>, msgs: seq<Msg>)
    requires |msgs| == |shows| == 2
    ensures Blocks(tx, look, shows, cps, msgs, 0, 2) ==
            Own(tx, look, msgs[0], At(cps, 0)) + shows[0] + Own(tx, look, msgs[1], At(cps, 1)) + shows[1]
  {
    hide Own;
    assert Blocks(tx, look, shows, cps, msgs, 2, 2) == [];
    assert Blocks(tx, look, shows, cps, msgs, 1, 2) == Own(tx, look, msgs[1], At(cps, 1)) + shows[1] + [];
  }

  lemma SecondPage(tx: Texts, m: Msg)
    requires VisibleUser(tx, m)
    ensures PageOf(Marks(tx, [m, m]), 1, 0) == 0 && PageOf(Marks(tx, [m, m]), 1, 1) == 1
  {
    var marks := Marks(tx, [m, m]);
    assert marks == [true, true];
    assert marks[1..] == [true] && marks[..2] == marks && marks[..1] == [true];
    assert Count([true]) == 1 by { assert [true][1..] == []; }
    assert Count(marks) == 2;
    assert TurnStart(marks, 1) == 1 by { assert TurnStart([true], 0) == 0; }
  }

  lemma TwoRanks(tx: Texts, q: Queues, m: Msg)
    requires VisibleUser(tx, m)
    ensures var own := Queue(q, tx.key(m.content));
            && Ranked(tx, q, [m, m], 0, 0) == Ranked(tx, q, [m, m], 1, 1) == Nth(own, 0)
            && Ranked(tx, q, [m, m], 0, 1) == Nth(own, 1)
  {
    assert Uses(tx, [m, m], 0, 1, tx.key(m.content)) == 1;
  }

  /** A queued turn always displays something. */
  lemma {:induction false} ShownTurns(tx: Texts, turns: seq<PlannerTurn>, h: string)
    ensures forall t :: t in TurnsFor(tx, turns, h) ==> t.shown != []
    decreases |turns|
  {
    if turns != [] {
      ShownTurns(tx, turns[..|turns| - 1], h);
    }
  }

  // ---------- walking back ----------

  /** A page adds its messages in front of what the later pages show. */
  lemma PageInFront(tx: Texts, msgs: seq<Msg>, turns: seq<PlannerTurn>, cps: map<nat, int>, page: Page, size: nat)
    requires PageShows(tx, msgs, turns, cps, page) && size >= 1
    requires 0 < page.endTurn && page.startTurn == (if page.endTurn <= size then 0 else page.endTurn - size)
    requires PagedFrom(Count(Marks(tx, msgs)), size, page.endTurn)
    ensures var marks, look, shows := Marks(tx, msgs), LookupsOf(tx, msgs), PagedDisplays(tx, QueuesOf(tx, turns), msgs, size);
            page.shown + Blocks(tx, look, shows, cps, msgs, TurnStart(marks, page.endTurn), |msgs|) ==
            Blocks(tx, look, shows, cps, msgs, Edge(marks, page.startTurn), |msgs|)
  {
    hide Blocks, QueuesOf, Marks, Count, TurnStart, Edge, PagedFrom, PageOf, Ranked;
    var marks, look, q := Marks(tx, msgs), LookupsOf(tx, msgs), QueuesOf(tx, turns);
    var lo, hi := Edge(marks, page.startTurn), TurnStart(marks, page.endTurn);
    var shows := PagedDisplays(tx, q, msgs, size);
    forall i | lo <= i < hi ensures RankedFrom(tx, q, msgs, lo)[i] == shows[i] { PageOfIs(marks, size, page.endTurn, i); }
    BlocksDependOn(tx, look, RankedFrom(tx, q, msgs, lo), shows, cps, msgs, lo, hi);
    BlocksJoin(tx, look, shows, cps, msgs, lo, hi, |msgs|);
  }

  /** A client that pages back to the start and puts each page in front of what it has. */
  method WalkBack(tx: Texts, msgs: seq<Msg>, turns: seq<PlannerTurn>, cps: map<nat, int>, limit: int) returns (all: seq<Shown>)
    ensures Count(Marks(tx, msgs)) > 0 ==> all == Paged(tx, msgs, turns, cps, PageTurns(limit))
    ensures Count(Marks(tx, msgs)) > 0 && NoPlannedUsers(QueuesOf(tx, turns)) ==>
              (all == Full(tx, msgs, turns, cps) <==> PagesAgree(tx, msgs, QueuesOf(tx, turns), PageTurns(limit)))
    ensures Count(Marks(tx, msgs)) > 0 && Displayable(tx, msgs, turns) ==> all == Full(tx, msgs, turns, cps)
    ensures Count(Marks(tx, msgs)) == 0 ==> (all == Full(tx, msgs, turns, cps) <==> Full(tx, msgs, turns, cps) == [])
  {
    hide Blocks, RenderFrom, NoShared, QueuesOf, Marks, Count, TurnStart, PagesAgree, NoPlannedUsers, PagedDisplays, PagedFrom, PageShows, PageTurns;
    ghost var look, marks, size := LookupsOf(tx, msgs), Marks(tx, msgs), PageTurns(limit);
    ghost var shows, total := PagedDisplays(tx, QueuesOf(tx, turns), msgs, size), Count(marks);
    PagingAgreesExactly(tx, msgs, turns, cps, size);
    if Displayable(tx, msgs, turns) {
      DisplayableAgrees(tx, msgs, turns, size);
    }
    all := [];
    var before := 0;
    WalkBegins(tx, look, shows, cps, msgs, total, size);
    while true
      invariant 0 <= before <= total
      invariant total == 0 ==> all == []
      invariant total > 0 ==>
                  var end := if before == 0 then total else before;
                  PagedFrom(total, size, end) && all == Blocks(tx, look, shows, cps, msgs, TurnStart(marks, end), |msgs|)
      decreases if before == 0 then total + 1 else before
    {
      var page := HistoryPageFromProviderMessages(tx, msgs, turns, cps, before, limit);
      if total > 0 {
        PageInFront(tx, msgs, turns, cps, page, size);
      }
      all := page.shown + all;
      if !page.hasOlder {
        return;
      }
      PagedOn(total, size, page.endTurn);
      before := page.startTurn;
    }
  }

  lemma WalkBegins(tx: Texts, look: Lookups, shows: Displays, cps: map<nat, int>, msgs: seq<Msg>, total: nat, size: nat)
    requires total == Count(Marks(tx, msgs)) && |shows| == |msgs| && size >= 1
    ensures PagedFrom(total, size, total)
    ensures Blocks(tx, look, shows, cps, msgs, TurnStart(Marks(tx, msgs), total), |msgs|) == []
  {
    PastLastTurn(Marks(tx, msgs), total);
  }
}
