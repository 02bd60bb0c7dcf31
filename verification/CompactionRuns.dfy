/**
 Whole histories: any sequence of appends, compaction passes and tool-result
 maintenance. Pairing, conservation, and how often a pass can take effect.
 */
module CompactionRuns {
  import opened Wrappers
  import opened Messages
  import opened CompactionPlan
  import opened CompactionFold
  import opened CompactionFacts
  import opened CompactionPass

  /** Maintenance (snip, prune) rewrites the content of tool results and nothing else. */
  predicate SameShape(a: seq<Message>, b: seq<Message>) {
    |a| == |b| &&
    forall i :: 0 <= i < |a| ==> b[i] == if a[i].role.Tool? then a[i].(content := b[i].content) else a[i]
  }

  datatype Op =
    | Append(block: seq<Message>)
    | Compact(lastPromptTokens: Option<int>, force: bool, archiveOk: bool, digest: Message)
    | Maintain(next: seq<Message>)

  /** The log with its history: what was appended, what was folded away, which digests were written. */
  datatype Log = Log(live: seq<Message>, folded: seq<Message>, appended: seq<Message>, digests: seq<Message>)

  const EMPTY_LOG := Log([], [], [], [])

  function Step(log: Log, cfg: Settings, op: Op): Log {
    match op
    case Append(block) => log.(live := log.live + block, appended := log.appended + block)
    case Maintain(next) => log.(live := next)
    case Compact(tokens, force, archiveOk, digest) =>
      match CompactOutcome(log.live, cfg, tokens, force, archiveOk, digest)
      case Folded(live, fold) => log.(live := live, folded := log.folded + fold, digests := log.digests + [digest])
      case _ => log
  }

  predicate Legal(log: Log, op: Op) {
    (op.Maintain? ==> SameShape(log.live, op.next)) && (op.Compact? ==> IsCompactionSummary(op.digest))
  }

  function Run(cfg: Settings, ops: seq<Op>): Log {
    if ops == [] then EMPTY_LOG
    else Step(Run(cfg, ops[..|ops| - 1]), cfg, ops[|ops| - 1])
  }

  predicate LegalRun(cfg: Settings, ops: seq<Op>) {
    ops == [] || (LegalRun(cfg, ops[..|ops| - 1]) && Legal(Run(cfg, ops[..|ops| - 1]), ops[|ops| - 1]))
  }

  // ---------- pairing over runs ----------

  lemma ShapeKeepsAnswers(m: Message, a: seq<Message>, b: seq<Message>)
    requires SameShape(a, b) && Answers(m, a)
    ensures Answers(m, b)
  {
    assert IDsOfResults(a) == IDsOfResults(b);
    forall r | r in b ensures r.role.Tool? {
      var i :| 0 <= i < |b| && b[i] == r;
      assert a[i] in a;
    }
  }

  lemma {:induction false} ShapeKeepsPairs(a: seq<Message>, b: seq<Message>)
    requires SameShape(a, b) && WellPaired(a)
    ensures WellPaired(b)
    decreases |a|
  {
    hide Answers;
    if a != [] {
      var n := GroupSize(a);
      assert b[0] == a[0];
      if n > 1 {
        ShapeKeepsAnswers(a[0], a[..n][1..], b[..n][1..]);
      }
      ShapeKeepsPairs(a[n..], b[n..]);
    }
  }

  /** Pairing survives any run whose appended blocks are paired. */
  lemma {:induction false} RunKeepsPairs(cfg: Settings, ops: seq<Op>)
    requires LegalRun(cfg, ops)
    requires forall op :: op in ops && op.Append? ==> WellPaired(op.block)
    ensures WellPaired(Run(cfg, ops).live)
  {
    if ops != [] {
      var before, op := ops[..|ops| - 1], ops[|ops| - 1];
      RunKeepsPairs(cfg, before);
      var log := Run(cfg, before);
      match op
      case Append(block) => ConcatPaired(log.live, block);
      case Maintain(next) => ShapeKeepsPairs(log.live, next);
      case Compact(tokens, force, archiveOk, digest) =>
        PassKeepsPairs(log.live, cfg, tokens, force, archiveOk, digest);
    }
  }

  // ---------- conservation over runs ----------

  /** A message as maintenance leaves it recognisable: a tool result without its content. */
  function Erase(m: Message): Message {
    if m.role.Tool? then m.(content := "") else m
  }

  /** The view in which messages are counted: exact, or up to tool-result contents. */
  function View(exact: bool, ms: seq<Message>): seq<Message> {
    if exact then ms else seq(|ms|, i requires 0 <= i < |ms| => Erase(ms[i]))
  }

  lemma ViewConcat(exact: bool, a: seq<Message>, b: seq<Message>)
    ensures View(exact, a + b) == View(exact, a) + View(exact, b)
  {
  }

  function Without(ms: seq<Message>, i: nat): seq<Message>
    requires i < |ms|
  {
    ms[..i] + ms[i + 1..]
  }

  lemma TakeOut(ms: seq<Message>, i: nat)
    requires i < |ms|
    ensures multiset(ms) == multiset(Without(ms, i)) + multiset{ms[i]}
  {
    assert ms == ms[..i] + [ms[i]] + ms[i + 1..];
  }

  lemma TakeOutErased(ms: seq<Message>, i: nat)
    requires i < |ms|
    ensures multiset(View(false, ms)) == multiset(View(false, Without(ms, i))) + multiset{Erase(ms[i])}
  {
    TakeOut(View(false, ms), i);
    assert View(false, Without(ms, i)) == Without(View(false, ms), i);
  }

  /** Logs with the same messages have the same erased messages. */
  lemma {:induction false} ViewOfSameMessages(exact: bool, a: seq<Message>, b: seq<Message>)
    requires multiset(a) == multiset(b)
    ensures multiset(View(exact, a)) == multiset(View(exact, b))
    decreases |a|
  {
    if exact {
    } else if a == [] {
      assert |multiset(b)| == 0;
    } else {
      assert a[0] in multiset(b);
      var i :| 0 <= i < |b| && b[i] == a[0];
      TakeOut(a, 0);
      TakeOut(b, i);
      assert multiset(Without(a, 0)) == multiset(a) - multiset{a[0]} == multiset(Without(b, i));
      ViewOfSameMessages(false, Without(a, 0), Without(b, i));
      TakeOutErased(a, 0);
      TakeOutErased(b, i);
    }
  }

  function Bag(exact: bool, ms: seq<Message>): multiset<Message> {
    multiset(View(exact, ms))
  }

  lemma BagConcat(exact: bool, a: seq<Message>, b: seq<Message>)
    ensures Bag(exact, a + b) == Bag(exact, a) + Bag(exact, b)
  {
    ViewConcat(exact, a, b);
  }

  /** For every message: as often live or folded as appended or written as a digest. */
  predicate Balanced(exact: bool, log: Log) {
    Bag(exact, log.live) + Bag(exact, log.folded) == Bag(exact, log.appended) + Bag(exact, log.digests)
  }

  lemma FoldedBalance(exact: bool, before: seq<Message>, live: seq<Message>, fold: seq<Message>, d: Message)
    requires multiset(live) + multiset(fold) == multiset(before) + multiset{d}
    ensures Bag(exact, live) + Bag(exact, fold) == Bag(exact, before) + Bag(exact, [d])
  {
    assert multiset(live + fold) == multiset(before + [d]);
    ViewOfSameMessages(exact, live + fold, before + [d]);
    BagConcat(exact, live, fold);
    BagConcat(exact, before, [d]);
  }

  lemma FoldKeepsBalance(exact: bool, log: Log, live: seq<Message>, fold: seq<Message>, d: Message)
    requires Balanced(exact, log)
    requires multiset(live) + multiset(fold) == multiset(log.live) + multiset{d}
    ensures Balanced(exact, log.(live := live, folded := log.folded + fold, digests := log.digests + [d]))
  {
    FoldedBalance(exact, log.live, live, fold, d);
    BagConcat(exact, log.folded, fold);
    BagConcat(exact, log.digests, [d]);
    BagArithmetic(Bag(exact, live), Bag(exact, fold), Bag(exact, log.live), Bag(exact, [d]),
                  Bag(exact, log.folded), Bag(exact, log.appended), Bag(exact, log.digests));
  }

  lemma BagArithmetic(l1: multiset<Message>, f: multiset<Message>, l0: multiset<Message>, d: multiset<Message>,
                      f0: multiset<Message>, a: multiset<Message>, d0: multiset<Message>)
    requires l1 + f == l0 + d && l0 + f0 == a + d0
    ensures l1 + (f0 + f) == a + (d0 + d)
  {
    forall m ensures (l1 + (f0 + f))[m] == (a + (d0 + d))[m] {
      assert (l1 + f)[m] == (l0 + d)[m] && (l0 + f0)[m] == (a + d0)[m];
    }
  }

  lemma AppendKeepsBalance(exact: bool, log: Log, block: seq<Message>)
    requires Balanced(exact, log)
    ensures Balanced(exact, log.(live := log.live + block, appended := log.appended + block))
  {
    BagConcat(exact, log.live, block);
    BagConcat(exact, log.appended, block);
    var l, f, a, d, b := Bag(exact, log.live), Bag(exact, log.folded), Bag(exact, log.appended), Bag(exact, log.digests), Bag(exact, block);
    assert (l + b) + f == (l + f) + b && (a + b) + d == (a + d) + b;
  }

  lemma StepConserves(exact: bool, log: Log, cfg: Settings, op: Op)
    requires Legal(log, op) && (exact ==> !op.Maintain?)
    requires Balanced(exact, log)
    ensures Balanced(exact, Step(log, cfg, op))
  {
    hide CompactOutcome;
    match op
    case Append(block) => AppendKeepsBalance(exact, log, block);
    case Maintain(n) => assert View(exact, n) == View(exact, log.live);
    case Compact(tokens, force, archiveOk, digest) =>
      var out := CompactOutcome(log.live, cfg, tokens, force, archiveOk, digest);
      if out.Folded? {
        PassConserves(log.live, cfg, tokens, force, archiveOk, digest);
        FoldKeepsBalance(exact, log, out.live, out.fold, digest);
      }
  }

  /**
   Over any run, what is live plus what was folded is what was appended plus the
   digests written: exactly when no maintenance ran, and up to the contents of
   tool results when it did.
   */
  lemma {:induction false} RunConserves(exact: bool, cfg: Settings, ops: seq<Op>)
    requires LegalRun(cfg, ops)
    requires exact ==> forall op :: op in ops ==> !op.Maintain?
    ensures Balanced(exact, Run(cfg, ops))
  {
    if ops != [] {
      RunConserves(exact, cfg, ops[..|ops| - 1]);
      StepConserves(exact, Run(cfg, ops[..|ops| - 1]), cfg, ops[|ops| - 1]);
    }
  }

  /** No digest is ever folded, so no digest is ever refolded. */
  lemma {:induction false} RunNeverFoldsDigests(cfg: Settings, ops: seq<Op>)
    requires LegalRun(cfg, ops)
    ensures forall m :: m in Run(cfg, ops).folded ==> !IsCompactionSummary(m)
    ensures forall m :: m in Run(cfg, ops).digests ==> IsCompactionSummary(m)
  {
    if ops != [] {
      RunNeverFoldsDigests(cfg, ops[..|ops| - 1]);
      var log, op := Run(cfg, ops[..|ops| - 1]), ops[|ops| - 1];
      if op.Compact? {
        PassKeepsDigests(log.live, cfg, op.lastPromptTokens, op.force, op.archiveOk, op.digest);
      }
    }
  }

  lemma {:induction false} RunNeverFoldsSmallUserTurns(cfg: Settings, ops: seq<Op>, m: Message)
    requires m.role.User? && 2 * MsgChars(m) <= PinBudget(cfg)
    ensures m !in Run(cfg, ops).folded
  {
    if ops != [] {
      RunNeverFoldsSmallUserTurns(cfg, ops[..|ops| - 1], m);
      var log, op := Run(cfg, ops[..|ops| - 1]), ops[|ops| - 1];
      if op.Compact? {
        PassKeepsSmallUserTurns(log.live, cfg, op.lastPromptTokens, op.force, op.archiveOk, op.digest, m);
      }
    }
  }

  /**
   Message by message, for a run without maintenance. A message that is no
   digest is live or folded exactly as often as it was appended; a digest is
   never folded; and a user turn of at most half the pin budget in characters
   stays live as often as it was said.
   */
  lemma RunAccountsForEveryMessage(cfg: Settings, ops: seq<Op>, m: Message)
    requires forall op :: op in ops ==> !op.Maintain?
    requires LegalRun(cfg, ops)
    ensures var log := Run(cfg, ops);
            && (!IsCompactionSummary(m) ==> multiset(log.live)[m] + multiset(log.folded)[m] == multiset(log.appended)[m])
            && (IsCompactionSummary(m) ==> multiset(log.live)[m] == multiset(log.appended)[m] + multiset(log.digests)[m])
            && (m.role.User? && 2 * MsgChars(m) <= PinBudget(cfg) ==> multiset(log.live)[m] >= multiset(log.appended)[m])
  {
    var log := Run(cfg, ops);
    RunConserves(true, cfg, ops);
    RunNeverFoldsDigests(cfg, ops);
    assert (multiset(log.live) + multiset(log.folded))[m] == (multiset(log.appended) + multiset(log.digests))[m];
    if m.role.User? && 2 * MsgChars(m) <= PinBudget(cfg) {
      RunNeverFoldsSmallUserTurns(cfg, ops, m);
    }
  }

  // ---------- effective passes run out ----------

  lemma {:induction false} ShapeKeepsDigests(a: seq<Message>, b: seq<Message>)
    requires SameShape(a, b)
    ensures Digests(a) == Digests(b)
  {
    if a != [] {
      ShapeKeepsDigests(a[..|a| - 1], b[..|b| - 1]);
    }
  }

  /**
   Every effective pass (one digest written) moves at least one message that is
   no digest out of the log, and messages never return: the number of effective
   passes is at most the number of messages folded, which together with the
   live ones is the number appended.
   */
  lemma {:induction false} RunBoundsEffectivePasses(cfg: Settings, ops: seq<Op>)
    requires LegalRun(cfg, ops)
    ensures var log := Run(cfg, ops);
            && |log.digests| <= |log.folded|
            && PlainCount(log.live) + |log.folded| == PlainCount(log.appended)
  {
    if ops != [] {
      RunBoundsEffectivePasses(cfg, ops[..|ops| - 1]);
      var log, op := Run(cfg, ops[..|ops| - 1]), ops[|ops| - 1];
      match op
      case Append(block) =>
        DigestsConcat(log.live, block);
        DigestsConcat(log.appended, block);
      case Maintain(next) => ShapeKeepsDigests(log.live, next);
      case Compact(tokens, force, archiveOk, digest) =>
        PassShrinks(log.live, cfg, tokens, force, archiveOk, digest);
    }
  }
}
