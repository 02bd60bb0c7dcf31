/**
 What stands at which place of a history page and of the whole rendering: the entry
 of every message, field by field, and behind it the planner display it gets.
 */
module HistoryEntries {
  import opened Wrappers
  import opened HistoryPaging
  import opened HistoryWalk

  // ---------- what an entry says of its message ----------

  /** The text of the last result of a call, or nothing if it has none. */
  ghost predicate ResultText(msgs: seq<Msg>, id: string, text: string) {
    || (exists i: nat :: LastResult(msgs, id, i) && text == msgs[i].content)
    || ((forall i: nat :: !LastResult(msgs, id, i)) && text == "")
  }

  /** A shown call bears its call's identity; its arguments travel with it only for the todo list and for calls without an id. */
  ghost predicate TellsCall(tx: Texts, msgs: seq<Msg>, e: ShownCall, c: Call) {
    && e.id == c.id && e.name == c.name && e.diff == c.diff && e.added == c.added && e.removed == c.removed
    && var replayed := tx.todoArgs(msgs);
       var args := if c.name == "todo_write" && c.id in replayed then replayed[c.id] else c.arguments;
       && e.subject == tx.subject(c.name, args)
       && (exists text :: ResultText(msgs, c.id, text) && e.summary == tx.summary(c.name, args, text))
       && (c.name == "todo_write" || c.id == "" ==> e.arguments == args && !e.archived)
       && (c.name != "todo_write" && c.id != "" ==> e.arguments == "" && (e.archived <==> args != ""))
  }

  /** Entry e is how message m shows, with the checkpoint of its place in the log. */
  ghost predicate Tells(tx: Texts, msgs: seq<Msg>, e: Shown, m: Msg, checkpoint: Option<int>) {
    match m.role
    case User =>
      var steer, text := tx.steer(m.content), tx.resolve(m.content);
      if steer.Some? then e.kind.Notice? && e.content == "\U{21AA} " + steer.value && e.checkpoint.None? && e.submitText == ""
      else
        && e.kind == Of(User) && e.content == text && e.checkpoint == checkpoint
        && (e.submitText == m.content || e.submitText == "")
        && (e.submitText != "" ==> text != m.content && !tx.compiled(m.content))
        && (text != m.content && !tx.compiled(m.content) ==> e.submitText == m.content)
    case Assistant =>
      && e.kind == Of(Assistant) && e.content == m.content && e.reasoning == m.reasoning && e.citations == m.citations
      && e.checkpoint.None? && e.submitText == ""
      && |e.toolCalls| == |m.toolCalls| && forall k :: 0 <= k < |m.toolCalls| ==> TellsCall(tx, msgs, e.toolCalls[k], m.toolCalls[k])
    case Tool =>
      && e.kind == Of(Tool) && e.toolCallID == m.toolCallID && e.toolName == m.name && e.checkpoint.None?
      && (e.content, e.archived, e.error) == tx.toolResult(m.content, m.toolCallID != "")
    case System => e.kind == Of(System) && e.content == m.content && e.checkpoint.None? && e.toolCalls == []
  }

  /** A synthetic user message has no entry, any other message one. */
  function Height(tx: Texts, m: Msg): nat {
    if m.role.User? && tx.steer(m.content).None? && tx.synthetic(tx.resolve(m.content)) then 0 else 1
  }

  lemma CallIsTold(tx: Texts, msgs: seq<Msg>, c: Call)
    ensures TellsCall(tx, msgs, ShowCall(tx, LookupsOf(tx, msgs), c), c)
  {
    var look := LookupsOf(tx, msgs);
    ResultsAreLast(msgs, c.id);
    hide ResultsById, LastResult;
    var text := if c.id in look.results then look.results[c.id].content else "";
    assert ResultText(msgs, c.id, text);
  }

  lemma OwnTells(tx: Texts, msgs: seq<Msg>, m: Msg, checkpoint: Option<int>)
    ensures var own := Own(tx, LookupsOf(tx, msgs), m, checkpoint);
            |own| == Height(tx, m) && (own != [] ==> Tells(tx, msgs, own[0], m, checkpoint))
  {
    if m.role.Assistant? {
      var look := LookupsOf(tx, msgs);
      forall k | 0 <= k < |m.toolCalls| ensures TellsCall(tx, msgs, ShowCalls(tx, look, m.toolCalls)[k], m.toolCalls[k]) {
        CallIsTold(tx, msgs, m.toolCalls[k]);
      }
      hide ShowCall, TellsCall, LookupsOf;
    }
  }

  // ---------- places ----------

  /** Where message i stands in a rendering of messages lo to hi: entries and displays of those before it. */
  function Place(tx: Texts, shows: Displays, msgs: seq<Msg>, lo: nat, i: nat): nat
    requires lo <= i <= |msgs| == |shows|
    decreases i - lo
  {
    if i == lo then 0 else Place(tx, shows, msgs, lo, i - 1) + Height(tx, msgs[i - 1]) + |shows[i - 1]|
  }

  lemma OneBlock(tx: Texts, look: Lookups, shows: Displays, cps: map<nat, int>, msgs: seq<Msg>, i: nat)
    requires i < |msgs| == |shows|
    ensures Blocks(tx, look, shows, cps, msgs, i, i + 1) == Own(tx, look, msgs[i], At(cps, i)) + shows[i]
  {
    hide Own;
    assert Blocks(tx, look, shows, cps, msgs, i + 1, i + 1) == [];
  }

  lemma {:induction false} BlocksLength(tx: Texts, shows: Displays, cps: map<nat, int>, msgs: seq<Msg>, lo: nat, i: nat)
    requires lo <= i <= |msgs| == |shows|
    ensures |Blocks(tx, LookupsOf(tx, msgs), shows, cps, msgs, lo, i)| == Place(tx, shows, msgs, lo, i)
    decreases i - lo
  {
    hide Own, Height;
    if lo < i {
      var look := LookupsOf(tx, msgs);
      BlocksLength(tx, shows, cps, msgs, lo, i - 1);
      BlocksJoin(tx, look, shows, cps, msgs, lo, i - 1, i);
      OneBlock(tx, look, shows, cps, msgs, i - 1);
      OwnTells(tx, msgs, msgs[i - 1], At(cps, i - 1));
      hide Blocks;
    }
  }

  /** What a rendering shows of message i: its entry at its place, and its display right behind. */
  ghost predicate ShowsAt(tx: Texts, msgs: seq<Msg>, shown: seq<Shown>, place: nat, m: Msg, checkpoint: Option<int>, display: seq<Shown>) {
    var below := place + Height(tx, m);
    && below + |display| <= |shown|
    && (Height(tx, m) == 1 ==> Tells(tx, msgs, shown[place], m, checkpoint))
    && shown[below..below + |display|] == display
  }

  lemma Between(a: seq<Shown>, own: seq<Shown>, display: seq<Shown>, c: seq<Shown>)
    ensures var s := a + (own + display) + c;
            && (own != [] ==> s[|a|] == own[0])
            && s[|a| + |own|..|a| + |own| + |display|] == display
  {
  }

  lemma BlocksByPlace(tx: Texts, shows: Displays, cps: map<nat, int>, msgs: seq<Msg>, lo: nat, i: nat, hi: nat)
    requires lo <= i < hi <= |msgs| == |shows|
    ensures ShowsAt(tx, msgs, Blocks(tx, LookupsOf(tx, msgs), shows, cps, msgs, lo, hi),
                    Place(tx, shows, msgs, lo, i), msgs[i], At(cps, i), shows[i])
  {
    hide Own, Tells, Height;
    var look := LookupsOf(tx, msgs);
    BlocksJoin(tx, look, shows, cps, msgs, lo, i, hi);
    BlocksJoin(tx, look, shows, cps, msgs, i, i + 1, hi);
    OneBlock(tx, look, shows, cps, msgs, i);
    BlocksLength(tx, shows, cps, msgs, lo, i);
    OwnTells(tx, msgs, msgs[i], At(cps, i));
    hide Blocks, Place, LookupsOf;
    var a, c := Blocks(tx, look, shows, cps, msgs, lo, i), Blocks(tx, look, shows, cps, msgs, i + 1, hi);
    var own := Own(tx, look, msgs[i], At(cps, i));
    assert a + (own + shows[i] + c) == a + (own + shows[i]) + c;
    Between(a, own, shows[i], c);
  }

  // ---------- pages and the whole ----------

  /**
   The whole rendering, message by message: each shows by itself with the checkpoint
   of its index, then the planner turn its rank in the log leads to; nothing else.
   */
  lemma WholeByPlace(tx: Texts, msgs: seq<Msg>, turns: seq<PlannerTurn>, cps: map<nat, int>, i: nat)
    requires i < |msgs|
    ensures var q, shown := QueuesOf(tx, turns), Full(tx, msgs, turns, cps); var shows := RankedFrom(tx, q, msgs, 0);
            && |shown| == Place(tx, shows, msgs, 0, |msgs|)
            && ShowsAt(tx, msgs, shown, Place(tx, shows, msgs, 0, i), msgs[i], At(cps, i), Ranked(tx, q, msgs, 0, i))
  {
    hide Blocks, RenderFrom, Place, QueuesOf, ShowsAt, Ranked;
    var shows := RankedFrom(tx, QueuesOf(tx, turns), msgs, 0);
    FullIsRanked(tx, msgs, turns, cps);
    BlocksLength(tx, shows, cps, msgs, 0, |msgs|);
    BlocksByPlace(tx, shows, cps, msgs, 0, i, |msgs|);
  }

  /** A page likewise, for the messages of its turns, with the checkpoints of their indexes in the log. */
  lemma PageByPlace(tx: Texts, msgs: seq<Msg>, turns: seq<PlannerTurn>, cps: map<nat, int>, page: Page, i: nat)
    requires PageShows(tx, msgs, turns, cps, page)
    requires Edge(Marks(tx, msgs), page.startTurn) <= i < TurnStart(Marks(tx, msgs), page.endTurn)
    ensures var q := QueuesOf(tx, turns); var lo, hi := Edge(Marks(tx, msgs), page.startTurn), TurnStart(Marks(tx, msgs), page.endTurn);
            var shows := RankedFrom(tx, q, msgs, lo);
            && |page.shown| == Place(tx, shows, msgs, lo, hi)
            && ShowsAt(tx, msgs, page.shown, Place(tx, shows, msgs, lo, i), msgs[i], At(cps, i), Ranked(tx, q, msgs, lo, i))
  {
    hide Blocks, Place, QueuesOf, ShowsAt, Ranked, Marks, TurnStart, Edge;
    var q := QueuesOf(tx, turns);
    var lo, hi := Edge(Marks(tx, msgs), page.startTurn), TurnStart(Marks(tx, msgs), page.endTurn);
    var shows := RankedFrom(tx, q, msgs, lo);
    BlocksLength(tx, shows, cps, msgs, lo, hi);
    BlocksByPlace(tx, shows, cps, msgs, lo, i, hi);
  }
}
