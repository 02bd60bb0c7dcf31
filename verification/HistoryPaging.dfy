/**
 Backward history paging (vscode-extension/app.go): a page renders only the
 messages of its own turns, with the lookups of the whole log.
 */
module HistoryPaging {
  import opened Wrappers

  datatype Role = User | Assistant | Tool | System

  datatype Call = Call(id: string, name: string, arguments: string, diff: string, added: int, removed: int)

  datatype Msg = Msg(
    role: Role,
    content: string,
    reasoning: string,
    citations: seq<string>,
    name: string,
    toolCallID: string,
    toolCalls: seq<Call>)

  datatype ShownCall = ShownCall(
    id: string, name: string, subject: string, summary: string,
    diff: string, added: int, removed: int, arguments: string, archived: bool)

  /** Planner displays also have entries for the planner's phases. */
  datatype Kind = Notice | Phase | Of(role: Role)

  datatype Shown = Shown(
    kind: Kind,
    content: string,
    submitText: string,
    checkpoint: Option<int>,
    reasoning: string,
    citations: seq<string>,
    level: string,
    toolCalls: seq<ShownCall>,
    toolCallID: string,
    toolName: string,
    archived: bool,
    error: string)

  /** What planner turns were displayed under a user message, found by the key of its text. */
  datatype PlannerTurn = PlannerTurn(userHash: string, shown: seq<Shown>)

  /** The text functions of the rest of the program, taken as given. */
  datatype Texts = Texts(
    steer: string -> Option<string>,
    resolve: string -> string,
    synthetic: string -> bool,
    compiled: string -> bool,
    key: string -> string,
    blank: string -> bool,
    subject: (string, string) -> string,
    summary: (string, string, string) -> string,
    toolResult: (string, bool) -> (string, bool, string),
    todoArgs: seq<Msg> -> map<string, string>)

  /** The lookups over the whole log that every page shares. */
  datatype Lookups = Lookups(todoArgs: map<string, string>, results: map<string, Msg>)

  datatype Page = Page(shown: seq<Shown>, startTurn: nat, endTurn: nat, totalTurns: nat, hasOlder: bool)

  const DEFAULT_PAGE_TURNS := 60
  const MAX_PAGE_TURNS := 200

  function PageTurns(limit: int): (n: nat)
    ensures 1 <= n <= MAX_PAGE_TURNS
    ensures limit <= 0 ==> n == DEFAULT_PAGE_TURNS
    ensures 1 <= limit <= MAX_PAGE_TURNS ==> n == limit
    ensures limit > MAX_PAGE_TURNS ==> n == MAX_PAGE_TURNS
  {
    if limit <= 0 then DEFAULT_PAGE_TURNS else if limit > MAX_PAGE_TURNS then MAX_PAGE_TURNS else limit
  }

  // ---------- turns ----------

  predicate VisibleUser(tx: Texts, m: Msg) {
    m.role.User? && tx.steer(m.content).None? && !tx.synthetic(tx.resolve(m.content))
  }

  /** Which messages start a turn. */
  function Marks(tx: Texts, msgs: seq<Msg>): (marks: seq<bool>)
    ensures |marks| == |msgs|
  {
    seq(|msgs|, i requires 0 <= i < |msgs| => VisibleUser(tx, msgs[i]))
  }

  lemma MarksAre(tx: Texts, msgs: seq<Msg>)
    ensures Count([]) == 0 && forall i :: 0 <= i < |msgs| ==> Marks(tx, msgs)[i] == VisibleUser(tx, msgs[i])
  {
  }

  function Count(marks: seq<bool>): nat {
    if marks == [] then 0 else (if marks[0] then 1 else 0) + Count(marks[1..])
  }

  /** Where turn k starts; the end of the log if there is no such turn. */
  function TurnStart(marks: seq<bool>, k: nat): (i: nat)
    ensures i <= |marks|
  {
    if marks == [] then 0
    else if marks[0] && k == 0 then 0
    else 1 + TurnStart(marks[1..], if marks[0] then k - 1 else k)
  }

  /** Where the page of the turns from k on starts: the first page takes what precedes the first turn too. */
  function Edge(marks: seq<bool>, k: nat): (i: nat)
    ensures i <= |marks|
  {
    if k == 0 then 0 else TurnStart(marks, k)
  }

  lemma {:induction false} BeforeTurn(marks: seq<bool>, k: nat, i: nat)
    requires i < |marks|
    ensures i < TurnStart(marks, k) <==> Count(marks[..i + 1]) <= k
    decreases |marks|
  {
    assert marks[..i + 1][1..] == marks[1..][..i];
    assert Count(marks[..i + 1]) == (if marks[0] then 1 else 0) + Count(marks[1..][..i]);
    if !(marks[0] && k == 0) && i > 0 {
      BeforeTurn(marks[1..], if marks[0] then k - 1 else k, i - 1);
    }
  }

  lemma {:induction false} PastLastTurn(marks: seq<bool>, k: nat)
    requires k >= Count(marks)
    ensures TurnStart(marks, k) == |marks|
    decreases |marks|
  {
    if marks != [] {
      PastLastTurn(marks[1..], if marks[0] then k - 1 else k);
    }
  }

  lemma {:induction false} TurnsInOrder(marks: seq<bool>, k: nat, l: nat)
    requires k <= l
    ensures TurnStart(marks, k) <= TurnStart(marks, l)
    decreases |marks|
  {
    if marks != [] && !(marks[0] && k == 0) {
      TurnsInOrder(marks[1..], if marks[0] then k - 1 else k, if marks[0] then l - 1 else l);
    }
  }

  lemma {:induction false} CountSnoc(marks: seq<bool>, i: nat)
    requires i < |marks|
    ensures Count(marks[..i + 1]) == Count(marks[..i]) + (if marks[i] then 1 else 0)
    decreases i
  {
    if i == 0 {
      assert marks[..1][1..] == [];
    } else {
      CountSnoc(marks[1..], i - 1);
      assert marks[..i + 1][1..] == marks[1..][..i];
      assert marks[..i][1..] == marks[1..][..i - 1];
    }
  }

  method VisibleHistoryUserTurns(tx: Texts, msgs: seq<Msg>) returns (total: nat)
    ensures total == Count(Marks(tx, msgs))
  {
    total := 0;
    ghost var marks := Marks(tx, msgs);
    for i := 0 to |msgs|
      invariant total == Count(marks[..i])
    {
      CountSnoc(marks, i);
      if VisibleUser(tx, msgs[i]) {
        total := total + 1;
      }
    }
    assert marks[..|msgs|] == marks;
  }

  function Range(lo: nat, n: nat): (r: seq<nat>)
    ensures |r| == n && forall j :: 0 <= j < n ==> r[j] == lo + j
  {
    seq(n, j => lo + j)
  }

  /** The messages of a turn range are one contiguous piece of the log. */
  method ProviderMessagesForVisibleTurnRange(tx: Texts, msgs: seq<Msg>, startTurn: nat, endTurn: nat)
    returns (out: seq<Msg>, indexes: seq<nat>)
    requires startTurn < endTurn
    ensures var marks := Marks(tx, msgs); var lo, hi := Edge(marks, startTurn), TurnStart(marks, endTurn);
            lo <= hi && out == msgs[lo..hi] && indexes == Range(lo, hi - lo)
  {
    hide Range, Marks, Count, TurnStart;
    out, indexes := [], [];
    var turn := -1;
    ghost var marks := Marks(tx, msgs);
    ghost var lo, hi := Edge(marks, startTurn), TurnStart(marks, endTurn);
    TurnsInOrder(marks, startTurn, endTurn);
    assert marks[..0] == [] && Count([]) == 0 && forall i :: 0 <= i < |msgs| ==> marks[i] == VisibleUser(tx, msgs[i]) by { MarksAre(tx, msgs); }
    for i := 0 to |msgs|
      invariant turn == Count(marks[..i]) - 1
      invariant var end := if i < lo then lo else if i < hi then i else hi;
                out == msgs[lo..end] && indexes == Range(lo, end - lo)
    {
      CountSnoc(marks, i);
      BeforeTurn(marks, startTurn, i);
      BeforeTurn(marks, endTurn, i);
      if VisibleUser(tx, msgs[i]) {
        turn := turn + 1;
      }
      if turn < 0 {
        if startTurn == 0 {
          out, indexes := out + [msgs[i]], indexes + [i];
        }
        continue;
      }
      if turn >= startTurn && turn < endTurn {
        out, indexes := out + [msgs[i]], indexes + [i];
      }
    }
  }

  // ---------- rendering one message ----------

  const TODO_WRITE := "todo_write"

  function ShowCall(tx: Texts, look: Lookups, c: Call): ShownCall {
    var args := if c.name == TODO_WRITE && c.id in look.todoArgs then look.todoArgs[c.id] else c.arguments;
    var result := if c.id in look.results then look.results[c.id].content else "";
    var plain := c.name == TODO_WRITE || c.id == "";
    ShownCall(c.id, c.name, tx.subject(c.name, args), tx.summary(c.name, args, result), c.diff, c.added, c.removed,
              if plain then args else "", !plain && args != "")
  }

  function ShowCalls(tx: Texts, look: Lookups, calls: seq<Call>): seq<ShownCall> {
    seq(|calls|, i requires 0 <= i < |calls| => ShowCall(tx, look, calls[i]))
  }

  const BLANK := Shown(Notice, "", "", None, "", [], "", [], "", "", false, "")

  /** What a message shows by itself: a notice for a steer, nothing for a synthetic user message. */
  function Own(tx: Texts, look: Lookups, m: Msg, checkpoint: Option<int>): seq<Shown> {
    match m.role
    case User =>
      if tx.steer(m.content).Some? then [BLANK.(content := "\U{21AA} " + tx.steer(m.content).value)]
      else
        var content := tx.resolve(m.content);
        if tx.synthetic(content) then []
        else [BLANK.(kind := Of(User), content := content, checkpoint := checkpoint,
                     submitText := if content != m.content && !tx.compiled(m.content) then m.content else "")]
    case Assistant =>
      [BLANK.(kind := Of(Assistant), content := m.content, reasoning := m.reasoning, citations := m.citations,
              toolCalls := ShowCalls(tx, look, m.toolCalls))]
    case Tool =>
      var r := tx.toolResult(m.content, m.toolCallID != "");
      [BLANK.(kind := Of(Tool), content := r.0, archived := r.1, error := r.2, toolCallID := m.toolCallID, toolName := m.name)]
    case System => [BLANK.(kind := Of(System), content := m.content)]
  }

  // ---------- planner displays ----------

  type Queues = map<string, seq<PlannerTurn>>

  function Queue(q: Queues, h: string): seq<PlannerTurn> {
    if h in q then q[h] else []
  }

  function TurnsFor(tx: Texts, turns: seq<PlannerTurn>, h: string): seq<PlannerTurn> {
    if turns == [] then []
    else
      var t := turns[|turns| - 1];
      TurnsFor(tx, turns[..|turns| - 1], h) + (if t.userHash == h && !tx.blank(h) && t.shown != [] then [t] else [])
  }

  function QueuesOf(tx: Texts, turns: seq<PlannerTurn>): Queues {
    if turns == [] then map[]
    else
      var t, q := turns[|turns| - 1], QueuesOf(tx, turns[..|turns| - 1]);
      if tx.blank(t.userHash) || t.shown == [] then q else q[t.userHash := Queue(q, t.userHash) + [t]]
  }

  /** Each queue holds the displayable turns of its key, in their order. */
  lemma {:induction false} QueuesInOrder(tx: Texts, turns: seq<PlannerTurn>, h: string)
    ensures Queue(QueuesOf(tx, turns), h) == TurnsFor(tx, turns, h)
    decreases |turns|
  {
    if turns != [] {
      QueuesInOrder(tx, turns[..|turns| - 1], h);
    }
  }

  method PlannerTurnsByUserHash(tx: Texts, turns: seq<PlannerTurn>) returns (q: Queues)
    ensures q == QueuesOf(tx, turns)
  {
    q := map[];
    for i := 0 to |turns|
      invariant q == QueuesOf(tx, turns[..i])
    {
      var t := turns[i];
      assert turns[..i + 1][..i] == turns[..i];
      if tx.blank(t.userHash) || t.shown == [] {
        continue;
      }
      q := q[t.userHash := Queue(q, t.userHash) + [t]];
    }
    assert turns[..|turns|] == turns;
  }

  /** The planner turn displayed under message m, taken from the front of its queue. */
  function Planned(tx: Texts, q: Queues, m: Msg): seq<Shown> {
    if VisibleUser(tx, m) && Queue(q, tx.key(m.content)) != [] then Queue(q, tx.key(m.content))[0].shown else []
  }

  function Popped(tx: Texts, q: Queues, m: Msg): Queues {
    var h := tx.key(m.content);
    if VisibleUser(tx, m) && Queue(q, h) != [] then q[h := Queue(q, h)[1..]] else q
  }

  // ---------- rendering a log ----------

  function At(cps: map<nat, int>, i: nat): Option<int> {
    if i in cps then Some(cps[i]) else None
  }

  /** The rendering of the messages from i on, with the planner queues as they are then. */
  function RenderFrom(tx: Texts, look: Lookups, cps: map<nat, int>, msgs: seq<Msg>, i: nat, q: Queues): seq<Shown>
    requires i <= |msgs|
    decreases |msgs| - i
  {
    if i == |msgs| then []
    else Own(tx, look, msgs[i], At(cps, i)) + Planned(tx, q, msgs[i]) + RenderFrom(tx, look, cps, msgs, i + 1, Popped(tx, q, msgs[i]))
  }

  /** The loop that builds a page or the whole history. */
  method RenderMessages(tx: Texts, look: Lookups, cps: map<nat, int>, msgs: seq<Msg>, turns: seq<PlannerTurn>)
    returns (out: seq<Shown>)
    ensures out == RenderFrom(tx, look, cps, msgs, 0, QueuesOf(tx, turns))
  {
    hide Own, RenderFrom, QueuesOf;
    var q := PlannerTurnsByUserHash(tx, turns);
    ghost var queues := q;
    out := [];
    for i := 0 to |msgs|
      invariant out + RenderFrom(tx, look, cps, msgs, i, q) == RenderFrom(tx, look, cps, msgs, 0, queues)
    {
      var m := msgs[i];
      RenderNext(tx, look, cps, msgs, i, q, out);
      out := out + Own(tx, look, m, At(cps, i));
      if VisibleUser(tx, m) && Queue(q, tx.key(m.content)) != [] {
        var queued := Queue(q, tx.key(m.content));
        out := out + queued[0].shown;
        q := q[tx.key(m.content) := queued[1..]];
      } else {
        assert out + [] == out;
      }
    }
    RenderNone(tx, look, cps, msgs, q);
    assert out + [] == out;
  }

  lemma RenderNext(tx: Texts, look: Lookups, cps: map<nat, int>, msgs: seq<Msg>, i: nat, q: Queues, out: seq<Shown>)
    requires i < |msgs|
    ensures out + RenderFrom(tx, look, cps, msgs, i, q) ==
            (out + Own(tx, look, msgs[i], At(cps, i)) + Planned(tx, q, msgs[i])) + RenderFrom(tx, look, cps, msgs, i + 1, Popped(tx, q, msgs[i]))
  {
    hide Own, Planned, Popped;
  }

  lemma RenderNone(tx: Texts, look: Lookups, cps: map<nat, int>, msgs: seq<Msg>, q: Queues)
    ensures RenderFrom(tx, look, cps, msgs, |msgs|, q) == []
  {
  }

  // ---------- a rendering is message by message ----------

  /** What is displayed under each message of the log. */
  type Displays = seq<seq<Shown>>

  /** Messages lo to hi rendered each on its own, with the given displays and the checkpoints of the whole log. */
  function Blocks(tx: Texts, look: Lookups, shows: Displays, cps: map<nat, int>, msgs: seq<Msg>, lo: nat, hi: nat): seq<Shown>
    requires lo <= hi <= |msgs| == |shows|
    decreases hi - lo
  {
    if lo == hi then [] else Own(tx, look, msgs[lo], At(cps, lo)) + shows[lo] + Blocks(tx, look, shows, cps, msgs, lo + 1, hi)
  }

  lemma {:induction false} BlocksJoin(tx: Texts, look: Lookups, shows: Displays, cps: map<nat, int>, msgs: seq<Msg>, lo: nat, mid: nat, hi: nat)
    requires lo <= mid <= hi <= |msgs| == |shows|
    ensures Blocks(tx, look, shows, cps, msgs, lo, mid) + Blocks(tx, look, shows, cps, msgs, mid, hi) == Blocks(tx, look, shows, cps, msgs, lo, hi)
    decreases mid - lo
  {
    hide Own;
    if lo < mid {
      BlocksJoin(tx, look, shows, cps, msgs, lo + 1, mid, hi);
    }
  }

  /** Only the displays in between matter. */
  lemma {:induction false} BlocksDependOn(tx: Texts, look: Lookups, a: Displays, b: Displays, cps: map<nat, int>, msgs: seq<Msg>, lo: nat, hi: nat)
    requires lo <= hi <= |msgs| == |a| == |b| && forall i :: lo <= i < hi ==> a[i] == b[i]
    ensures Blocks(tx, look, a, cps, msgs, lo, hi) == Blocks(tx, look, b, cps, msgs, lo, hi)
    decreases hi - lo
  {
    hide Own;
    if lo < hi {
      BlocksDependOn(tx, look, a, b, cps, msgs, lo + 1, hi);
    }
  }

  predicate UsesKey(tx: Texts, m: Msg, h: string) {
    VisibleUser(tx, m) && tx.key(m.content) == h
  }

  /** How many visible user messages from lo to i have the key h. */
  function Uses(tx: Texts, msgs: seq<Msg>, lo: nat, i: nat, h: string): nat
    requires lo <= i <= |msgs|
    decreases i - lo
  {
    if lo == i then 0 else Uses(tx, msgs, lo, i - 1, h) + (if UsesKey(tx, msgs[i - 1], h) then 1 else 0)
  }

  /** The display of a queue's k-th turn; nothing beyond its end. */
  function Nth(queued: seq<PlannerTurn>, k: nat): seq<Shown> {
    if k < |queued| then queued[k].shown else []
  }

  /** The display under message i when the queues were full at lo: its rank among the messages of its key decides. */
  function Ranked(tx: Texts, q: Queues, msgs: seq<Msg>, lo: nat, i: nat): seq<Shown>
    requires lo <= i < |msgs|
  {
    var h := tx.key(msgs[i].content);
    if VisibleUser(tx, msgs[i]) then Nth(Queue(q, h), Uses(tx, msgs, lo, i, h)) else []
  }

  function RankedFrom(tx: Texts, q: Queues, msgs: seq<Msg>, lo: nat): (shows: Displays)
    ensures |shows| == |msgs| && forall i :: lo <= i < |msgs| ==> shows[i] == Ranked(tx, q, msgs, lo, i)
  {
    seq(|msgs|, i requires 0 <= i < |msgs| => if i < lo then [] else Ranked(tx, q, msgs, lo, i))
  }

  /** The window's checkpoints are those of the log, shifted to the window. */
  ghost predicate Shifted(cps: map<nat, int>, window: map<nat, int>, lo: nat, n: nat) {
    forall j :: 0 <= j < n ==> At(window, j) == At(cps, lo + j)
  }

  function Rest(queued: seq<PlannerTurn>, k: nat): seq<PlannerTurn> {
    if k <= |queued| then queued[k..] else []
  }

  /** Each queue of q0 has lost one turn for every message from lo to i that has its key. */
  ghost predicate Consumed(tx: Texts, msgs: seq<Msg>, lo: nat, i: nat, q0: Queues, q: Queues)
    requires lo <= i <= |msgs|
  {
    forall h :: Queue(q, h) == Rest(Queue(q0, h), Uses(tx, msgs, lo, i, h))
  }

  lemma PopConsumes(tx: Texts, msgs: seq<Msg>, lo: nat, i: nat, q0: Queues, q: Queues)
    requires lo <= i < |msgs| && Consumed(tx, msgs, lo, i, q0, q)
    ensures Consumed(tx, msgs, lo, i + 1, q0, Popped(tx, q, msgs[i]))
    ensures Planned(tx, q, msgs[i]) == Ranked(tx, q0, msgs, lo, i)
  {
    var m, next := msgs[i], Popped(tx, q, msgs[i]);
    hide VisibleUser;
    forall h ensures Queue(next, h) == Rest(Queue(q0, h), Uses(tx, msgs, lo, i + 1, h)) {
      assert Queue(q, h) == Rest(Queue(q0, h), Uses(tx, msgs, lo, i, h));
    }
    assert Queue(q, tx.key(m.content)) == Rest(Queue(q0, tx.key(m.content)), Uses(tx, msgs, lo, i, tx.key(m.content)));
  }

  /** A window of the log renders message by message, each display by the rank of its message in the window. */
  lemma {:induction false} RenderIsRanked(
      tx: Texts, look: Lookups, cps: map<nat, int>, msgs: seq<Msg>, lo: nat, hi: nat, window: map<nat, int>, i: nat, q0: Queues, q: Queues)
    requires lo <= lo + i <= hi <= |msgs| && Shifted(cps, window, lo, hi - lo)
    requires Consumed(tx, msgs, lo, lo + i, q0, q)
    ensures RenderFrom(tx, look, window, msgs[lo..hi], i, q) == Blocks(tx, look, RankedFrom(tx, q0, msgs, lo), cps, msgs, lo + i, hi)
    decreases hi - lo - i
  {
    hide Own, Planned, Popped, Ranked, Consumed;
    if lo + i < hi {
      PopConsumes(tx, msgs, lo, lo + i, q0, q);
      RenderIsRanked(tx, look, cps, msgs, lo, hi, window, i + 1, q0, Popped(tx, q, msgs[lo + i]));
    }
  }

  lemma NothingConsumed(tx: Texts, msgs: seq<Msg>, lo: nat, q: Queues)
    requires lo <= |msgs|
    ensures Consumed(tx, msgs, lo, lo, q, q)
  {
  }

  // ---------- when no key is shared ----------

  predicate SameKey(tx: Texts, m: Msg, n: Msg) {
    VisibleUser(tx, m) && VisibleUser(tx, n) && tx.key(m.content) == tx.key(n.content)
  }

  /** Two visible user messages that share a key have no planner display to compete for. */
  ghost predicate NoShared(tx: Texts, msgs: seq<Msg>, q: Queues) {
    forall i, j :: 0 <= i < j < |msgs| && SameKey(tx, msgs[i], msgs[j]) ==> Queue(q, tx.key(msgs[i].content)) == []
  }

  lemma {:induction false} SomeUse(tx: Texts, msgs: seq<Msg>, lo: nat, i: nat, h: string)
    requires lo <= i <= |msgs|
    ensures Uses(tx, msgs, lo, i, h) > 0 ==> exists j :: lo <= j < i && UsesKey(tx, msgs[j], h)
    decreases i - lo
  {
    hide UsesKey;
    if lo < i {
      SomeUse(tx, msgs, lo, i - 1, h);
    }
  }

  /** Then every message shows the front turn of its queue, wherever a rendering begins. */
  lemma FrontWhenNotShared(tx: Texts, msgs: seq<Msg>, q: Queues, lo: nat, i: nat)
    requires lo <= i < |msgs| && VisibleUser(tx, msgs[i])
    requires forall j :: lo <= j < i && SameKey(tx, msgs[j], msgs[i]) ==> Queue(q, tx.key(msgs[j].content)) == []
    ensures Ranked(tx, q, msgs, lo, i) == Planned(tx, q, msgs[i])
  {
    var h := tx.key(msgs[i].content);
    SomeUse(tx, msgs, lo, i, h);
    hide VisibleUser;
    if Uses(tx, msgs, lo, i, h) > 0 {
      var j :| lo <= j < i && UsesKey(tx, msgs[j], h);
      assert SameKey(tx, msgs[j], msgs[i]);
    }
  }

  function Alone(tx: Texts, q: Queues, msgs: seq<Msg>): (shows: Displays)
    ensures |shows| == |msgs| && forall i :: 0 <= i < |msgs| ==> shows[i] == Planned(tx, q, msgs[i])
  {
    seq(|msgs|, i requires 0 <= i < |msgs| => Planned(tx, q, msgs[i]))
  }

  lemma RenderIsBlocks(tx: Texts, look: Lookups, cps: map<nat, int>, msgs: seq<Msg>, lo: nat, hi: nat, window: map<nat, int>, q: Queues)
    requires lo <= hi <= |msgs| && Shifted(cps, window, lo, hi - lo) && NoShared(tx, msgs[lo..hi], q)
    ensures RenderFrom(tx, look, window, msgs[lo..hi], 0, q) == Blocks(tx, look, Alone(tx, q, msgs), cps, msgs, lo, hi)
  {
    hide Own, Planned, RenderFrom, Consumed, Ranked, VisibleUser, SameKey, Shifted;
    NothingConsumed(tx, msgs, lo, q);
    RenderIsRanked(tx, look, cps, msgs, lo, hi, window, 0, q, q);
    var ranked, alone := RankedFrom(tx, q, msgs, lo), Alone(tx, q, msgs);
    forall i | lo <= i < hi ensures ranked[i] == alone[i] {
      if VisibleUser(tx, msgs[i]) {
        forall j | lo <= j < i && SameKey(tx, msgs[j], msgs[i]) ensures Queue(q, tx.key(msgs[j].content)) == [] {
          assert SameKey(tx, msgs[lo..hi][j - lo], msgs[lo..hi][i - lo]);
        }
        FrontWhenNotShared(tx, msgs, q, lo, i);
      } else {
        NothingUnderOthers(tx, q, msgs, lo, i);
      }
    }
    BlocksDependOn(tx, look, ranked, alone, cps, msgs, lo, hi);
  }

  lemma NothingUnderOthers(tx: Texts, q: Queues, msgs: seq<Msg>, lo: nat, i: nat)
    requires lo <= i < |msgs| && !VisibleUser(tx, msgs[i])
    ensures Ranked(tx, q, msgs, lo, i) == Planned(tx, q, msgs[i]) == []
  {
  }

  // ---------- lookups over the whole log ----------

  function ResultsById(msgs: seq<Msg>): map<string, Msg> {
    if msgs == [] then map[]
    else
      var m, rest := msgs[|msgs| - 1], ResultsById(msgs[..|msgs| - 1]);
      if !m.role.Tool? || m.toolCallID == "" then rest else rest[m.toolCallID := m]
  }

  predicate IsResult(m: Msg, id: string) {
    m.role.Tool? && m.toolCallID == id && id != ""
  }

  /** Message i is the last result of call id. */
  ghost predicate LastResult(msgs: seq<Msg>, id: string, i: nat) {
    i < |msgs| && IsResult(msgs[i], id) && forall j :: i < j < |msgs| ==> !IsResult(msgs[j], id)
  }

  /** A call id is looked up to its last result, and only answered calls are found. */
  lemma {:induction false} ResultsAreLast(msgs: seq<Msg>, id: string)
    ensures id in ResultsById(msgs) <==> exists i: nat :: LastResult(msgs, id, i)
    ensures forall i: nat :: LastResult(msgs, id, i) ==> id in ResultsById(msgs) && ResultsById(msgs)[id] == msgs[i]
    decreases |msgs|
  {
    if msgs != [] {
      var n := |msgs| - 1;
      var rest := msgs[..n];
      ResultsAreLast(rest, id);
      if IsResult(msgs[n], id) {
        assert LastResult(msgs, id, n);
        assert forall i: nat :: LastResult(msgs, id, i) ==> i == n;
      } else {
        assert forall i: nat :: LastResult(msgs, id, i) <==> LastResult(rest, id, i);
      }
    }
  }

  method ToolResultsById(msgs: seq<Msg>) returns (out: map<string, Msg>)
    ensures out == ResultsById(msgs)
    ensures forall id :: id in out <==> exists i: nat :: LastResult(msgs, id, i)
    ensures forall id, i: nat :: LastResult(msgs, id, i) ==> id in out && out[id] == msgs[i]
  {
    out := map[];
    for i := 0 to |msgs|
      invariant out == ResultsById(msgs[..i])
    {
      assert msgs[..i + 1][..i] == msgs[..i];
      if !msgs[i].role.Tool? || msgs[i].toolCallID == "" {
        continue;
      }
      out := out[msgs[i].toolCallID := msgs[i]];
    }
    assert msgs[..|msgs|] == msgs;
    forall id ensures id in out <==> exists i: nat :: LastResult(msgs, id, i) { ResultsAreLast(msgs, id); }
    forall id, i: nat | LastResult(msgs, id, i) ensures id in out && out[id] == msgs[i] { ResultsAreLast(msgs, id); }
  }

  function LookupsOf(tx: Texts, msgs: seq<Msg>): Lookups {
    Lookups(tx.todoArgs(msgs), ResultsById(msgs))
  }

  // ---------- the whole history and one page ----------

  function Full(tx: Texts, msgs: seq<Msg>, turns: seq<PlannerTurn>, cps: map<nat, int>): seq<Shown> {
    RenderFrom(tx, LookupsOf(tx, msgs), cps, msgs, 0, QueuesOf(tx, turns))
  }

  method HistoryMessages(tx: Texts, msgs: seq<Msg>, turns: seq<PlannerTurn>, cps: map<nat, int>) returns (out: seq<Shown>)
    ensures out == Full(tx, msgs, turns, cps)
  {
    var results := ToolResultsById(msgs);
    out := RenderMessages(tx, Lookups(tx.todoArgs(msgs), results), cps, msgs, turns);
  }

  method CheckpointTurnsForProviderWindow(cps: map<nat, int>, indexes: seq<nat>) returns (window: map<nat, int>)
    ensures forall j :: 0 <= j < |indexes| ==> At(window, j) == At(cps, indexes[j])
  {
    window := map[];
    if |cps| == 0 || |indexes| == 0 {
      return;
    }
    for j := 0 to |indexes|
      invariant forall k :: 0 <= k < j ==> At(window, k) == At(cps, indexes[k])
      invariant forall k :: k in window ==> k < j
    {
      if indexes[j] in cps {
        window := window[j := cps[indexes[j]]];
      }
    }
  }

  /** No message of the log competes with another for a planner display. */
  ghost predicate Displayable(tx: Texts, msgs: seq<Msg>, turns: seq<PlannerTurn>) {
    NoShared(tx, msgs, QueuesOf(tx, turns))
  }

  /**
   A page shows, with the whole log's lookups and checkpoints, the messages from the
   edge of its first turn to the start of the next page's. Its planner queues are
   full at that edge.
   */
  ghost predicate PageShows(tx: Texts, msgs: seq<Msg>, turns: seq<PlannerTurn>, cps: map<nat, int>, page: Page) {
    var marks := Marks(tx, msgs);
    var lo, hi := Edge(marks, page.startTurn), TurnStart(marks, page.endTurn);
    lo <= hi && page.shown == Blocks(tx, LookupsOf(tx, msgs), RankedFrom(tx, QueuesOf(tx, turns), msgs, lo), cps, msgs, lo, hi)
  }

  method HistoryPageFromProviderMessages(
      tx: Texts, msgs: seq<Msg>, turns: seq<PlannerTurn>, cps: map<nat, int>, beforeTurn: int, limit: int)
    returns (page: Page)
    ensures page.totalTurns == Count(Marks(tx, msgs))
    ensures page.endTurn == if beforeTurn <= 0 || beforeTurn > page.totalTurns then page.totalTurns else beforeTurn
    ensures page.startTurn == if page.endTurn < PageTurns(limit) then 0 else page.endTurn - PageTurns(limit)
    ensures page.hasOlder <==> page.startTurn > 0
    ensures page.totalTurns == 0 ==> page.shown == []
    ensures page.totalTurns > 0 ==> PageShows(tx, msgs, turns, cps, page)
  {
    hide Blocks, RenderFrom, QueuesOf, Marks, Count, TurnStart, PageShows, Range, LastResult, ResultsById, IsResult;
    var perPage := PageTurns(limit);
    var totalTurns := VisibleHistoryUserTurns(tx, msgs);
    var endTurn := beforeTurn;
    if endTurn <= 0 || endTurn > totalTurns {
      endTurn := totalTurns;
    }
    var startTurn := endTurn - perPage;
    if startTurn < 0 {
      startTurn := 0;
    }
    page := Page([], startTurn, endTurn, totalTurns, startTurn > 0);
    if |msgs| == 0 || startTurn >= endTurn {
      if |msgs| == 0 {
        NoTurnsInEmptyLog(tx, msgs);
      }
      return;
    }
    var window, indexes := ProviderMessagesForVisibleTurnRange(tx, msgs, startTurn, endTurn);
    var windowCps := CheckpointTurnsForProviderWindow(cps, indexes);
    var results := ToolResultsById(msgs);
    var shown := RenderMessages(tx, Lookups(tx.todoArgs(msgs), results), windowCps, window, turns);
    page := page.(shown := shown);
    IndexesShift(cps, windowCps, Edge(Marks(tx, msgs), startTurn), |indexes|, indexes);
    hide Shifted, Edge, At;
    WindowShows(tx, msgs, turns, cps, page, windowCps);
  }

  lemma IndexesShift(cps: map<nat, int>, window: map<nat, int>, lo: nat, n: nat, indexes: seq<nat>)
    requires indexes == Range(lo, n) && n == |indexes| && forall j :: 0 <= j < n ==> At(window, j) == At(cps, indexes[j])
    ensures Shifted(cps, window, lo, n)
  {
    hide At;
  }

  lemma WindowShows(tx: Texts, msgs: seq<Msg>, turns: seq<PlannerTurn>, cps: map<nat, int>, page: Page, window: map<nat, int>)
    requires Edge(Marks(tx, msgs), page.startTurn) <= TurnStart(Marks(tx, msgs), page.endTurn)
    requires var lo, hi := Edge(Marks(tx, msgs), page.startTurn), TurnStart(Marks(tx, msgs), page.endTurn);
             Shifted(cps, window, lo, hi - lo) &&
             page.shown == RenderFrom(tx, LookupsOf(tx, msgs), window, msgs[lo..hi], 0, QueuesOf(tx, turns))
    ensures PageShows(tx, msgs, turns, cps, page)
  {
    hide Blocks, RenderFrom, RankedFrom, QueuesOf, Marks, TurnStart, Shifted, Consumed;
    var lo, hi, q := Edge(Marks(tx, msgs), page.startTurn), TurnStart(Marks(tx, msgs), page.endTurn), QueuesOf(tx, turns);
    NothingConsumed(tx, msgs, lo, q);
    RenderIsRanked(tx, LookupsOf(tx, msgs), cps, msgs, lo, hi, window, 0, q, q);
  }

  lemma NoTurnsInEmptyLog(tx: Texts, msgs: seq<Msg>)
    requires |msgs| == 0
    ensures Count(Marks(tx, msgs)) == 0
  {
  }

  // ---------- a page shows its turns ----------

  /** How many user bubbles a rendering has. */
  function Bubbles(shown: seq<Shown>): nat {
    if shown == [] then 0 else (if shown[0].kind == Of(User) then 1 else 0) + Bubbles(shown[1..])
  }

  lemma {:induction false} BubblesConcat(a: seq<Shown>, b: seq<Shown>)
    ensures Bubbles(a + b) == Bubbles(a) + Bubbles(b)
    decreases |a|
  {
    if a == [] {
      assert a + b == b;
    } else {
      assert (a + b)[1..] == a[1..] + b;
      BubblesConcat(a[1..], b);
    }
  }

  /** Planner turns never show user bubbles. */
  ghost predicate NoPlannedUsers(q: Queues) {
    forall h, k: nat :: Bubbles(Nth(Queue(q, h), k)) == 0
  }

  lemma OwnBubbles(tx: Texts, look: Lookups, m: Msg, checkpoint: Option<int>)
    ensures Bubbles(Own(tx, look, m, checkpoint)) == if VisibleUser(tx, m) then 1 else 0
    ensures VisibleUser(tx, m) ==> |Own(tx, look, m, checkpoint)| == 1
  {
    hide ShowCalls, ShowCall;
  }

  lemma {:induction false} BlocksBubbles(tx: Texts, look: Lookups, shows: Displays, cps: map<nat, int>, msgs: seq<Msg>, lo: nat, hi: nat)
    requires lo <= hi <= |msgs| == |shows| && forall i :: lo <= i < hi ==> Bubbles(shows[i]) == 0
    ensures Bubbles(Blocks(tx, look, shows, cps, msgs, lo, hi)) == Count(Marks(tx, msgs)[lo..hi])
    decreases hi - lo
  {
    hide Own, Bubbles;
    var marks := Marks(tx, msgs);
    if lo < hi {
      BlocksBubbles(tx, look, shows, cps, msgs, lo + 1, hi);
      var own := Own(tx, look, msgs[lo], At(cps, lo));
      OwnBubbles(tx, look, msgs[lo], At(cps, lo));
      BubblesConcat(own, shows[lo]);
      BubblesConcat(own + shows[lo], Blocks(tx, look, shows, cps, msgs, lo + 1, hi));
      assert marks[lo..hi][1..] == marks[lo + 1..hi];
    } else {
      assert Bubbles([]) == 0 by { NoBubbles(); }
    }
  }

  lemma NoBubbles()
    ensures Bubbles([]) == 0
  {
  }

  lemma RankedBubbles(tx: Texts, q: Queues, msgs: seq<Msg>, lo: nat, i: nat)
    requires NoPlannedUsers(q) && lo <= i < |msgs|
    ensures Bubbles(Ranked(tx, q, msgs, lo, i)) == 0
  {
    NoBubbles();
    hide Bubbles, Uses, Nth, Queue;
  }

  lemma {:induction false} CountBeforeTurn(marks: seq<bool>, k: nat)
    ensures Count(marks[..TurnStart(marks, k)]) == if k < Count(marks) then k else Count(marks)
    decreases |marks|
  {
    if marks != [] && !(marks[0] && k == 0) {
      var j := if marks[0] then k - 1 else k;
      CountBeforeTurn(marks[1..], j);
      assert marks[..TurnStart(marks, k)][1..] == marks[1..][..TurnStart(marks[1..], j)];
    }
  }

  lemma {:induction false} CountConcat(a: seq<bool>, b: seq<bool>)
    ensures Count(a + b) == Count(a) + Count(b)
    decreases |a|
  {
    if a == [] {
      assert a + b == b;
    } else {
      assert (a + b)[1..] == a[1..] + b;
      CountConcat(a[1..], b);
    }
  }

  /** A page shows exactly as many user bubbles as it has turns. */
  lemma PageShowsItsTurns(tx: Texts, msgs: seq<Msg>, turns: seq<PlannerTurn>, cps: map<nat, int>, page: Page)
    requires PageShows(tx, msgs, turns, cps, page) && NoPlannedUsers(QueuesOf(tx, turns))
    requires page.startTurn < page.endTurn <= Count(Marks(tx, msgs))
    ensures Bubbles(page.shown) == page.endTurn - page.startTurn
  {
    hide Blocks, Marks, Count, TurnStart, QueuesOf, NoPlannedUsers, Ranked, Bubbles;
    var marks, q := Marks(tx, msgs), QueuesOf(tx, turns);
    var lo, hi := Edge(marks, page.startTurn), TurnStart(marks, page.endTurn);
    forall i | lo <= i < hi ensures Bubbles(RankedFrom(tx, q, msgs, lo)[i]) == 0 { RankedBubbles(tx, q, msgs, lo, i); }
    BlocksBubbles(tx, LookupsOf(tx, msgs), RankedFrom(tx, q, msgs, lo), cps, msgs, lo, hi);
    CountBeforeTurn(marks, page.startTurn);
    CountBeforeTurn(marks, page.endTurn);
    CountConcat(marks[..lo], marks[lo..hi]);
    assert marks[..lo] + marks[lo..hi] == marks[..hi];
    assert page.startTurn == 0 ==> Count(marks[..lo]) == 0 by { EmptyCount(marks); }
  }

  lemma EmptyCount(marks: seq<bool>)
    ensures Count(marks[..0]) == 0
  {
  }
}
