/**
 What happened to a request, told from the steps of a run: which value was sent to
 its channel, that it returned just that value, and how it came to its outcome.
 */
module RpcHistory {
  import opened Wrappers
  import opened RpcCorrelation
  import opened RpcRuns

  /** The worlds a run goes through, the first and the last included. */
  function Worlds(w: World, steps: seq<Step>): (ws: seq<World>)
    requires Runs(w, steps)
    ensures |ws| == |steps| + 1 && ws[0] == w && ws[|steps|] == After(w, steps)
    ensures forall i :: 0 <= i < |steps| ==> Enabled(ws[i], steps[i]) && ws[i + 1] == Next(ws[i], steps[i])
    decreases |steps|
  {
    if steps == [] then [w]
    else
      assert forall i :: 0 < i < |steps| ==> steps[i] == steps[1..][i - 1];
      [w] + Worlds(Next(w, steps[0]), steps[1..])
  }

  /** The step puts v into channel ch: a frame that was read, or the closing error for a listed request. */
  ghost predicate SendsBy(w: World, step: Step, ch: Chan, v: Result) {
    || (step.Resolve? && step.r in w.resolvers && w.resolvers[step.r].Sending?
        && w.resolvers[step.r].ch == ch && v == Reply(w.resolvers[step.r].f))
    || (step.Drain? && ch in w.conn.pending.Values && v == ConnectionClosed)
  }

  ghost predicate Sends(ws: seq<World>, steps: seq<Step>, j: nat, ch: Chan, v: Result)
    requires |ws| == |steps| + 1
  {
    j < |steps| && SendsBy(ws[j], steps[j], ch, v)
  }

  /** One of the first n steps sent v to ch. */
  ghost predicate WasSent(ws: seq<World>, steps: seq<Step>, n: nat, ch: Chan, v: Result)
    requires |ws| == |steps| + 1
  {
    exists j :: 0 <= j < n && Sends(ws, steps, j, ch, v)
  }

  /** The frame was read by one of the first n steps. */
  ghost predicate WasRead(steps: seq<Step>, n: nat, r: nat, f: Frame) {
    exists j :: 0 <= j < n && j < |steps| && steps[j] == NewFrame(r, f)
  }

  ghost predicate Leaves(p: Waiter, out: Outcome) {
    (p.Leaving? || p.Done?) && p.out == out
  }

  /** A step that changes what is in a channel sends it there. */
  lemma StepFills(w: World, step: Step, ch: Chan)
    requires Enabled(w, step) && ch in Next(w, step).conn.buffers
    requires ch in w.conn.buffers ==> w.conn.buffers[ch] != Next(w, step).conn.buffers[ch]
    ensures SendsBy(w, step, ch, Next(w, step).conn.buffers[ch])
  {
    if step.Drain? { DrainedBuffers(w.conn, ch); }
    hide Drained;
  }

  /** What is in a channel was sent there. */
  lemma {:induction false} BufferWasSent(steps: seq<Step>, n: nat, ch: Chan)
    requires Runs(INIT, steps) && n <= |steps| && ch in Worlds(INIT, steps)[n].conn.buffers
    ensures var ws := Worlds(INIT, steps); WasSent(ws, steps, n, ch, ws[n].conn.buffers[ch])
    decreases n
  {
    hide Runs, After, Worlds, SendsBy, Next, Enabled;
    var ws := Worlds(INIT, steps);
    if n > 0 {
      var w, v, step := ws[n - 1], ws[n].conn.buffers[ch], steps[n - 1];
      if ch in w.conn.buffers && w.conn.buffers[ch] == v {
        BufferWasSent(steps, n - 1, ch);
        var j :| 0 <= j < n - 1 && Sends(ws, steps, j, ch, v);
      } else {
        StepFills(w, step, ch);
        assert Sends(ws, steps, n - 1, ch, v);
      }
    }
  }

  lemma StepReceives(w: World, step: Step, t: Tid, v: Result)
    requires Enabled(w, step) && t in Next(w, step).waiters && Leaves(Next(w, step).waiters[t], Got(v))
    requires !(t in w.waiters && Leaves(w.waiters[t], Got(v)))
    ensures t in w.conn.buffers && v == w.conn.buffers[t]
  {
    hide Drained;
  }

  /** What a request received was sent to its channel. */
  lemma {:induction false} ReceivedWasSent(steps: seq<Step>, n: nat, t: Tid, v: Result)
    requires Runs(INIT, steps) && n <= |steps|
    requires var w := Worlds(INIT, steps)[n]; t in w.waiters && Leaves(w.waiters[t], Got(v))
    ensures WasSent(Worlds(INIT, steps), steps, n, t, v)
    decreases n
  {
    hide Runs, After, Worlds, Next, Enabled, SendsBy, Leaves;
    var ws := Worlds(INIT, steps);
    if n > 0 {
      var w, step := ws[n - 1], steps[n - 1];
      if t in w.waiters && Leaves(w.waiters[t], Got(v)) {
        ReceivedWasSent(steps, n - 1, t, v);
      } else {
        StepReceives(w, step, t, v);
        BufferWasSent(steps, n - 1, t);
      }
      var j :| 0 <= j < n - 1 && Sends(ws, steps, j, t, v);
    }
  }

  /** A frame in the hands of a resolver was read. */
  lemma {:induction false} ResolvedWasRead(steps: seq<Step>, n: nat, r: nat)
    requires Runs(INIT, steps) && n <= |steps|
    requires var w := Worlds(INIT, steps)[n]; r in w.resolvers && !w.resolvers[r].Resolved?
    ensures WasRead(steps, n, r, Worlds(INIT, steps)[n].resolvers[r].f)
    decreases n
  {
    hide Runs, After, Worlds, Drained, Advanced;
    var ws := Worlds(INIT, steps);
    if n > 0 {
      var w, step, f := ws[n - 1], steps[n - 1], ws[n].resolvers[r].f;
      if step.Advance? { AdvanceKeepsResolvers(w, step); }
      if r in w.resolvers {
        ResolvedWasRead(steps, n - 1, r);
        var j :| 0 <= j < n - 1 && j < |steps| && steps[j] == NewFrame(r, f);
      } else {
        assert steps[n - 1] == NewFrame(r, f);
      }
    }
  }

  lemma AdvanceKeepsResolvers(w: World, step: Step)
    requires Enabled(w, step) && step.Advance?
    ensures Next(w, step).resolvers == w.resolvers
  {
  }

  /** Sends are counted. */
  lemma {:induction false} SendsAreCounted(steps: seq<Step>, j: nat, n: nat, ch: Chan, v: Result)
    requires Runs(INIT, steps) && j < n <= |steps| && Sends(Worlds(INIT, steps), steps, j, ch, v)
    ensures Worlds(INIT, steps)[n].sent[ch] > Worlds(INIT, steps)[j].sent[ch]
    decreases n
  {
    hide Runs, After, Worlds, Drained;
    var ws := Worlds(INIT, steps);
    if n == j + 1 {
      if steps[j].Drain? { DrainCounts(ws[j].sent, ws[j].conn.pending.Values, ch); }
    } else {
      SendsAreCounted(steps, j, n - 1, ch, v);
      SentGrows(ws[n - 1], steps[n - 1], ch);
    }
  }

  lemma SentGrows(w: World, step: Step, ch: Chan)
    requires Enabled(w, step)
    ensures Next(w, step).sent[ch] >= w.sent[ch]
  {
    hide Drained;
  }

  lemma {:induction false} SentGrowsAlong(steps: seq<Step>, i: nat, n: nat, ch: Chan)
    requires Runs(INIT, steps) && i <= n <= |steps|
    ensures Worlds(INIT, steps)[n].sent[ch] >= Worlds(INIT, steps)[i].sent[ch]
    decreases n
  {
    hide Runs, After, Worlds, Next, Enabled;
    if i < n {
      SentGrowsAlong(steps, i, n - 1, ch);
      SentGrows(Worlds(INIT, steps)[n - 1], steps[n - 1], ch);
    }
  }

  /** Along a run every world is reached by a run. */
  lemma {:induction false} PrefixRuns(w: World, steps: seq<Step>, n: nat)
    requires Runs(w, steps) && n <= |steps|
    ensures Runs(w, steps[..n]) && After(w, steps[..n]) == Worlds(w, steps)[n]
    decreases n
  {
    hide Enabled, Next;
    if n > 0 {
      PrefixRuns(Next(w, steps[0]), steps[1..], n - 1);
      assert steps[..n][0] == steps[0] && steps[..n][1..] == steps[1..][..n - 1];
    }
  }

  /** No channel is sent to twice: two sends to one channel are one step. */
  lemma OneSend(steps: seq<Step>, i: nat, j: nat, ch: Chan, u: Result, v: Result)
    requires Runs(INIT, steps) && Sends(Worlds(INIT, steps), steps, i, ch, u) && Sends(Worlds(INIT, steps), steps, j, ch, v)
    ensures i == j && u == v
  {
    hide After, Worlds, Next, Enabled;
    var ws := Worlds(INIT, steps);
    if i != j {
      var a, b := if i < j then i else j, if i < j then j else i;
      SendsAreCounted(steps, a, a + 1, ch, if i < j then u else v);
      SentGrowsAlong(steps, a + 1, b, ch);
      SendsAreCounted(steps, b, b + 1, ch, if i < j then v else u);
      PrefixRuns(INIT, steps, b + 1);
      NoSendBlocks(steps[..b + 1], ch, 0);
      assert false;
    }
    hide Runs;
    var t := ch;
    if steps[i].Drain? { DrainedIsNoReply(ws, steps, i); }
  }

  lemma DrainedIsNoReply(ws: seq<World>, steps: seq<Step>, i: nat)
    requires i < |steps| && steps[i].Drain?
    ensures !steps[i].Resolve?
  {
  }

  /**
   A request that received a value returned exactly the one value ever sent to its
   channel: the reply in a frame that was read, and that bears its id, or the closing
   error if the shutdown found it listed.
   */
  lemma ReceivesWhatWasSent(steps: seq<Step>, t: Tid, v: Result)
    requires Runs(INIT, steps)
    requires var w := After(INIT, steps); t in w.waiters && Leaves(w.waiters[t], Got(v))
    ensures var ws := Worlds(INIT, steps); WasSent(ws, steps, |steps|, t, v)
    ensures forall j, u :: Sends(Worlds(INIT, steps), steps, j, t, u) ==> u == v
    ensures v.Reply? ==> exists r :: WasRead(steps, |steps|, r, v.frame)
    ensures v.ConnectionClosed? ==> exists j :: 0 <= j < |steps| && steps[j] == Drain && t in Worlds(INIT, steps)[j].conn.pending.Values
  {
    hide Runs, After, Worlds, Next, Enabled;
    var ws := Worlds(INIT, steps);
    ReceivedWasSent(steps, |steps|, t, v);
    var i :| 0 <= i < |steps| && Sends(ws, steps, i, t, v);
    forall j, u | Sends(ws, steps, j, t, u) ensures u == v { OneSend(steps, i, j, t, v, u); }
    if v.Reply? {
      var r := steps[i].r;
      ResolvedWasRead(steps, i, r);
      var k :| 0 <= k < i && k < |steps| && steps[k] == NewFrame(r, v.frame);
      assert WasRead(steps, |steps|, r, v.frame);
    }
  }

  /** The step ends t's wait with out: the exit that the environment chose, or a write that failed. */
  ghost predicate ExitsBy(w: World, step: Step, t: Tid, id: Id, out: Outcome) {
    && step.Advance? && step.t == t && t in w.waiters
    && ((w.waiters[t] == Writing(id) && !step.writeOk && out == WriteFailed) ||
        (w.waiters[t] == Waiting(id) &&
         match step.exit
         case Receive => out.Got?
         case Cancel => out == Cancelled
         case SeeClosed => out == SawClosed && w.conn.closed))
  }

  predicate IsOver(w: World, t: Tid, id: Id, out: Outcome) {
    t in w.waiters && (w.waiters[t] == Leaving(id, out) || w.waiters[t] == Done(id, out))
  }

  lemma StepExits(w: World, step: Step, t: Tid, id: Id, out: Outcome)
    requires Enabled(w, step) && !IsOver(w, t, id, out) && IsOver(Next(w, step), t, id, out)
    ensures ExitsBy(w, step, t, id, out)
  {
    hide Drained;
  }

  /** Every request that is over came to its outcome by such a step of its own. */
  lemma {:induction false} OutcomeIsChosen(steps: seq<Step>, n: nat, t: Tid, id: Id, out: Outcome)
    requires Runs(INIT, steps) && n <= |steps| && IsOver(Worlds(INIT, steps)[n], t, id, out)
    ensures exists k :: 0 <= k < n && ExitsBy(Worlds(INIT, steps)[k], steps[k], t, id, out)
    decreases n
  {
    hide Runs, After, Worlds, Next, Enabled, ExitsBy;
    var ws := Worlds(INIT, steps);
    if n > 0 {
      if IsOver(ws[n - 1], t, id, out) {
        OutcomeIsChosen(steps, n - 1, t, id, out);
        var k :| 0 <= k < n - 1 && ExitsBy(ws[k], steps[k], t, id, out);
      } else {
        hide IsOver;
        StepExits(ws[n - 1], steps[n - 1], t, id, out);
      }
    }
  }

  /**
   A reply is delivered: when a frame with the id of a waiting, listed request has been
   read, it is taken and sent, and the request receives it and returns it.
   */
  lemma ReplyIsDelivered(steps: seq<Step>, t: Tid, r: nat, f: Frame)
    requires Runs(INIT, steps)
    requires var w := After(INIT, steps);
             && t in w.waiters && w.waiters[t].Waiting? && f.id == Some(w.waiters[t].id)
             && w.waiters[t].id in w.conn.pending && r in w.resolvers && w.resolvers[r] == Taking(f)
    ensures var w := After(INIT, steps); var more := [Resolve(r), Resolve(r), Advance(t, true, Receive), Advance(t, true, Receive)];
            && Runs(w, more) && t in After(w, more).waiters
            && After(w, more).waiters[t] == Done(w.waiters[t].id, Got(Reply(f)))
            && w.waiters[t].id !in After(w, more).conn.pending
  {
    var w0, receive := After(INIT, steps), Advance(t, true, Receive);
    var id := w0.waiters[t].id;
    RunIsCorrelated(steps);
    assert PendingOk(w0, id) && DistinctIds(w0, t, w0.conn.pending[id]);
    assert w0.conn.pending[id] == t && t !in w0.conn.buffers;
    hide Correlated, PendingOk, DistinctIds, Drained;
    var w1 := Next(w0, Resolve(r));
    assert w1.resolvers[r] == Sending(f, t) && w1.waiters == w0.waiters && w1.conn.buffers == w0.conn.buffers;
    var w2 := Next(w1, Resolve(r));
    assert w2.conn.buffers[t] == Reply(f) && w2.waiters == w0.waiters;
    var w3 := Next(w2, receive);
    var w4 := Next(w3, receive);
    hide Next, Enabled;
    FourSteps(w0, Resolve(r), Resolve(r), receive, receive);
  }

  lemma RunsCons(w: World, step: Step, rest: seq<Step>)
    requires Enabled(w, step) && Runs(Next(w, step), rest)
    ensures Runs(w, [step] + rest) && After(w, [step] + rest) == After(Next(w, step), rest)
  {
    assert ([step] + rest)[1..] == rest;
  }

  lemma FourSteps(w: World, a: Step, b: Step, c: Step, d: Step)
    requires Enabled(w, a) && Enabled(Next(w, a), b) && Enabled(Next(Next(w, a), b), c) && Enabled(Next(Next(Next(w, a), b), c), d)
    ensures Runs(w, [a, b, c, d]) && After(w, [a, b, c, d]) == Next(Next(Next(Next(w, a), b), c), d)
  {
    var w1 := Next(w, a);
    var w2 := Next(w1, b);
    var w3 := Next(w2, c);
    hide Enabled, Next;
    RunsCons(w3, d, []);
    RunsCons(w2, c, [d] + []);
    RunsCons(w1, b, [c] + ([d] + []));
    RunsCons(w, a, [b] + ([c] + ([d] + [])));
    assert [a] + ([b] + ([c] + ([d] + []))) == [a, b, c, d];
  }
}
