/**
 The conversation log of an agent: messages, the text tests that classify them,
 and the tool-call contract a provider enforces on a history.
 Strings stand for byte sequences, so |s| is a byte count.
 */
module Messages {

  datatype Role = System | User | Assistant | Tool

  datatype ToolCall = ToolCall(id: string, name: string, arguments: string)

  datatype Message = Message(
    role: Role,
    content: string,
    reasoning: string,
    name: string,
    toolCallID: string,
    toolCalls: seq<ToolCall>)

  const SUMMARY_TAG_OPEN := "<compaction-summary>"
  const SUMMARY_HEADING := "\nSummary of earlier conversation (older messages were compacted to save context):\n"
  const SUMMARY_TAG_CLOSE := "</compaction-summary>"

  // ---------- text helpers (ASCII) ----------

  predicate IsSpace(c: char) {
    c == ' ' || c == '\t' || c == '\n' || c == '\r' || c == 11 as char || c == 12 as char
  }

  function TrimLeft(s: string, cut: char -> bool): string {
    if s != [] && cut(s[0]) then TrimLeft(s[1..], cut) else s
  }

  function TrimRight(s: string, cut: char -> bool): string {
    if s != [] && cut(s[|s| - 1]) then TrimRight(s[..|s| - 1], cut) else s
  }

  function TrimSpace(s: string): string {
    TrimRight(TrimLeft(s, IsSpace), IsSpace)
  }

  function ToLower(s: string): string {
    seq(|s|, i requires 0 <= i < |s| => if 'A' <= s[i] <= 'Z' then (s[i] as int + 32) as char else s[i])
  }

  // ---------- message classes ----------

  /** A digest left behind by an earlier fold. */
  predicate IsCompactionSummary(m: Message) {
    m.role.User? && SUMMARY_TAG_OPEN <= TrimLeft(m.content, c => c == '\n' || c == ' ')
  }

  predicate IsErrorMessage(m: Message) {
    m.role.Tool? &&
    var s := TrimSpace(ToLower(m.content));
    "error:" <= s || "blocked:" <= s
  }

  predicate IsUserMarked(m: Message) {
    m.role.User? &&
    var s := TrimSpace(ToLower(m.content));
    "[[keep]]" <= s || "[keep]" <= s || "<keep>" <= s || "<!-- keep -->" <= s
  }

  /** The message a fold leaves in place of what it dropped. */
  function Digest(summary: string): (m: Message)
    ensures IsCompactionSummary(m)
  {
    var content := SUMMARY_TAG_OPEN + (SUMMARY_HEADING + summary + "\n" + SUMMARY_TAG_CLOSE);
    assert content[0] == '<';
    Message(User, content, "", "", "", [])
  }

  // ---------- sizes ----------

  function CallChars(calls: seq<ToolCall>): nat {
    if calls == [] then 0 else |calls[0].name| + |calls[0].arguments| + CallChars(calls[1..])
  }

  /** Characters that ride to the provider: content, call names and arguments, never reasoning. */
  function MsgChars(m: Message): nat {
    |m.content| + CallChars(m.toolCalls)
  }

  function TotalChars(ms: seq<Message>): nat {
    if ms == [] then 0 else MsgChars(ms[0]) + TotalChars(ms[1..])
  }

  // ---------- the tool-call contract ----------

  function CallIDs(m: Message): set<string> {
    set c | c in m.toolCalls :: c.id
  }

  function IDsOfCalls(calls: seq<ToolCall>): seq<string> {
    seq(|calls|, i requires 0 <= i < |calls| => calls[i].id)
  }

  function IDsOfResults(rs: seq<Message>): seq<string> {
    seq(|rs|, i requires 0 <= i < |rs| => rs[i].toolCallID)
  }

  /** How many tool results must follow m. */
  function CallCount(m: Message): nat {
    if m.role.Assistant? then |m.toolCalls| else 0
  }

  /** rs answers every call of m exactly once, in any order. */
  predicate Answers(m: Message, rs: seq<Message>) {
    (forall r :: r in rs ==> r.role.Tool?) &&
    multiset(IDsOfResults(rs)) == multiset(IDsOfCalls(m.toolCalls))
  }

  /** One unit of a history: a message that calls nothing, or a caller and its results. */
  predicate IsGroup(g: seq<Message>) {
    g != [] && !g[0].role.Tool? && |g| == 1 + CallCount(g[0]) &&
    (CallCount(g[0]) > 0 ==> Answers(g[0], g[1..]))
  }

  function GroupSize(ms: seq<Message>): nat
    requires ms != []
  {
    1 + CallCount(ms[0])
  }

  /**
   Every assistant message with tool calls is followed at once by exactly its
   results, and no tool result stands anywhere else.
   */
  predicate WellPaired(ms: seq<Message>)
    decreases |ms|
  {
    ms == [] ||
    (GroupSize(ms) <= |ms| && IsGroup(ms[..GroupSize(ms)]) && WellPaired(ms[GroupSize(ms)..]))
  }

  /** A result that answers m carries one of m's call ids. */
  lemma AnswerIDs(m: Message, rs: seq<Message>, i: nat)
    requires Answers(m, rs) && i < |rs|
    ensures rs[i].toolCallID in CallIDs(m)
  {
    var id := IDsOfResults(rs)[i];
    assert id in multiset(IDsOfResults(rs));
    assert id in multiset(IDsOfCalls(m.toolCalls));
    assert id in IDsOfCalls(m.toolCalls);
    var j :| 0 <= j < |m.toolCalls| && IDsOfCalls(m.toolCalls)[j] == id;
    assert m.toolCalls[j] in m.toolCalls;
  }

  lemma PairedCons(g: seq<Message>, rest: seq<Message>)
    requires IsGroup(g) && WellPaired(rest)
    ensures WellPaired(g + rest)
  {
    var ms := g + rest;
    assert ms[0] == g[0] && ms[..|g|] == g && ms[|g|..] == rest;
  }

  /** Paired histories concatenate. */
  lemma {:induction false} ConcatPaired(a: seq<Message>, b: seq<Message>)
    requires WellPaired(a) && WellPaired(b)
    ensures WellPaired(a + b)
    decreases |a|
  {
    hide IsGroup, CallCount;
    if a == [] {
      assert a + b == b;
    } else {
      var n := GroupSize(a);
      ConcatPaired(a[n..], b);
      PairedCons(a[..n], a[n..] + b);
      assert a + b == a[..n] + (a[n..] + b);
    }
  }

  lemma GroupTail(g: seq<Message>, i: nat)
    requires IsGroup(g) && 0 < i < |g|
    ensures g[i].role.Tool?
  {
    assert g[1..][i - 1] in g[1..];
  }

  /** A paired history cut in front of a message that is no tool result leaves two paired halves. */
  lemma {:induction false} SplitPaired(a: seq<Message>, b: seq<Message>)
    requires WellPaired(a + b)
    requires b == [] || !b[0].role.Tool?
    ensures WellPaired(a) && WellPaired(b)
    decreases |a|
  {
    hide IsGroup, CallCount;
    if a == [] {
      assert a + b == b;
    } else {
      var c := a + b;
      var n := GroupSize(a);
      assert c[0] == a[0];
      if n > |a| {
        GroupTail(c[..n], |a|);
        assert false;
      }
      assert c[..n] == a[..n];
      assert c[n..] == a[n..] + b;
      SplitPaired(a[n..], b);
    }
  }

  /** The nearest message at or before i that is no tool result (or message 0). */
  function GroupHead(ms: seq<Message>, i: nat): (h: nat)
    requires i < |ms|
    ensures h <= i
    ensures forall j :: h < j <= i ==> ms[j].role.Tool?
    ensures h > 0 ==> !ms[h].role.Tool?
  {
    if ms[i].role.Tool? && i > 0 then GroupHead(ms, i - 1) else i
  }

  /** In a paired history every tool result hangs directly below the assistant message that called it. */
  lemma {:induction false} PairedHead(ms: seq<Message>, i: nat)
    requires WellPaired(ms) && i < |ms| && ms[i].role.Tool?
    ensures var h := GroupHead(ms, i);
            h < i && ms[h].role.Assistant? && ms[i].toolCallID in CallIDs(ms[h])
    decreases |ms|
  {
    var n := GroupSize(ms);
    if i < n {
      forall j | 1 <= j <= i ensures ms[j].role.Tool? { GroupTail(ms[..n], j); }
      AnswerIDs(ms[0], ms[..n][1..], i - 1);
      assert GroupHead(ms, i) == 0;
    } else {
      PairedHead(ms[n..], i - n);
      var g := GroupHead(ms[n..], i - n);
      assert !ms[n..][g].role.Tool?;
      assert GroupHead(ms, i) == n + g;
    }
  }
}
