/**
 Every interleaving of requesters, reply frames and the shutdown over one
 connection: each reply channel gets at most one value, so no send ever blocks, a
 requester only ever receives the reply that bears its id, and none is left waiting.
 */
module RpcRuns {
  import opened Wrappers
  import opened RpcCorrelation

  datatype Outcome = Got(r: Result) | WriteFailed | Cancelled | SawClosed

  /** A call of Request, between its atomic steps. */
  datatype Waiter =
    | Fresh
    | Numbered(id: Id)
    | Writing(id: Id)
    | Waiting(id: Id)
    | Leaving(id: Id, out: Outcome)
    | Done(id: Id, out: Outcome)

  /** A reply frame on its way: resolve takes the channel under the lock and sends outside it. */
  datatype Resolver = Taking(f: Frame) | Sending(f: Frame, ch: Chan) | Resolved

  datatype Phase = Serving | Closing | Down

  datatype World = World(
    conn: Shared,
    waiters: map<Tid, Waiter>,
    resolvers: map<nat, Resolver>,
    phase: Phase,
    sent: multiset<Chan>)   // history: every send that was made

  const INIT := World(Shared(0, map[], false, map[]), map[], map[], Serving, multiset{})

  /** How the select of a waiting requester comes out. */
  datatype Exit = Receive | Cancel | SeeClosed

  datatype Step =
    | NewRequest(t: Tid)
    | Advance(t: Tid, writeOk: bool, exit: Exit)
    | NewFrame(r: nat, f: Frame)
    | Resolve(r: nat)
    | Close
    | Drain

  predicate Enabled(w: World, step: Step) {
    match step
    case NewRequest(t) => t !in w.waiters
    case Advance(t, _, exit) =>
      t in w.waiters && !w.waiters[t].Done? &&
      (w.waiters[t].Waiting? ==>
         match exit case Receive => t in w.conn.buffers case Cancel => true case SeeClosed => w.conn.closed)
    case NewFrame(r, _) => r !in w.resolvers
    case Resolve(r) =>
      r in w.resolvers && !w.resolvers[r].Resolved? && (w.resolvers[r].Sending? ==> w.resolvers[r].ch !in w.conn.buffers)
    case Close => w.phase.Serving?
    case Drain => w.phase.Closing? && forall id :: id in w.conn.pending ==> w.conn.pending[id] !in w.conn.buffers
  }

  function Next(w: World, step: Step): World
    requires Enabled(w, step)
  {
    match step
    case NewRequest(t) => w.(waiters := w.waiters[t := Fresh])
    case Advance(t, writeOk, exit) => Advanced(w, t, writeOk, exit)
    case NewFrame(r, f) => w.(resolvers := w.resolvers[r := Taking(f)])
    case Resolve(r) =>
      (match w.resolvers[r]
       case Taking(f) =>
         var ch := Taken(w.conn, f);
         w.(conn := AfterTake(w.conn, f), resolvers := w.resolvers[r := if ch.Some? then Sending(f, ch.value) else Resolved])
       case Sending(f, ch) =>
         w.(conn := Deliver(w.conn, ch, Reply(f)), resolvers := w.resolvers[r := Resolved], sent := w.sent + multiset{ch}))
    case Close => w.(conn := w.conn.(closed := true), phase := Closing)
    case Drain => w.(conn := Drained(w.conn), phase := Down, sent := w.sent + multiset(w.conn.pending.Values))
  }

  function Advanced(w: World, t: Tid, writeOk: bool, exit: Exit): World
    requires Enabled(w, Advance(t, writeOk, exit))
  {
    match w.waiters[t]
    case Fresh =>
      var id := w.conn.nextID + 1;
      w.(conn := w.conn.(nextID := id), waiters := w.waiters[t := Numbered(id)])
    case Numbered(id) => w.(conn := Register(w.conn, id, t), waiters := w.waiters[t := Writing(id)])
    case Writing(id) => w.(waiters := w.waiters[t := if writeOk then Waiting(id) else Leaving(id, WriteFailed)])
    case Waiting(id) =>
      (match exit
       case Receive =>
         w.(conn := w.conn.(buffers := w.conn.buffers - {t}), waiters := w.waiters[t := Leaving(id, Got(w.conn.buffers[t]))])
       case Cancel => w.(waiters := w.waiters[t := Leaving(id, Cancelled)])
       case SeeClosed => w.(waiters := w.waiters[t := Leaving(id, SawClosed)]))
    case Leaving(id, out) => w.(conn := Deregister(w.conn, id), waiters := w.waiters[t := Done(id, out)])
  }

  // ---------- the invariant ----------

  function IdOf(p: Waiter): Option<Id> {
    match p
    case Fresh => None
    case Numbered(id) => Some(id)
    case Writing(id) => Some(id)
    case Waiting(id) => Some(id)
    case Leaving(id, _) => Some(id)
    case Done(id, _) => Some(id)
  }

  predicate Listed(p: Waiter) {
    p.Writing? || p.Waiting? || p.Leaving?
  }

  predicate SendsTo(resolvers: map<nat, Resolver>, r: nat, ch: Chan) {
    r in resolvers && resolvers[r].Sending? && resolvers[r].ch == ch
  }

  /** A value for t is in its channel or on its way there. */
  ghost predicate Answered(w: World, t: Tid) {
    t in w.conn.buffers || exists r :: SendsTo(w.resolvers, r, t)
  }

  ghost predicate WaiterOk(w: World, t: Tid)
    requires t in w.waiters
  {
    var p := w.waiters[t];
    && (IdOf(p).Some? ==> 1 <= IdOf(p).value <= w.conn.nextID)
    && (p.Fresh? || p.Numbered? ==> w.sent[t] == 0)
    && (p.Writing? || p.Waiting? ==> (p.id in w.conn.pending && w.conn.pending[p.id] == t) || Answered(w, t))
    && ((p.Leaving? || p.Done?) && p.out.Got? && p.out.r.Reply? ==> p.out.r.frame.id == Some(p.id))
  }

  predicate DistinctIds(w: World, t: Tid, u: Tid)
    requires t in w.waiters && u in w.waiters
  {
    IdOf(w.waiters[t]).Some? && IdOf(w.waiters[t]) == IdOf(w.waiters[u]) ==> t == u
  }

  /** A pending entry belongs to the requester with that id, and no value has gone its way yet. */
  ghost predicate PendingOk(w: World, id: Id)
    requires id in w.conn.pending
  {
    var t := w.conn.pending[id];
    && t in w.waiters && IdOf(w.waiters[t]) == Some(id) && Listed(w.waiters[t])
    && w.sent[t] == 0 && t !in w.conn.buffers && forall r :: !SendsTo(w.resolvers, r, t)
  }

  /** A frame about to be sent bears the id of the requester, and is the only value going its way. */
  ghost predicate ResolverOk(w: World, r: nat)
    requires r in w.resolvers
  {
    w.resolvers[r].Sending? ==>
      var f, ch := w.resolvers[r].f, w.resolvers[r].ch;
      && ch in w.waiters && f.id.Some? && IdOf(w.waiters[ch]) == f.id && !w.waiters[ch].Numbered?
      && w.sent[ch] == 0 && ch !in w.conn.buffers && (forall q :: SendsTo(w.resolvers, q, ch) ==> q == r)
  }

  predicate BufferOk(w: World, ch: Chan)
    requires ch in w.conn.buffers
  {
    && ch in w.waiters && IdOf(w.waiters[ch]).Some? && w.sent[ch] == 1
    && (w.conn.buffers[ch].Reply? ==> w.conn.buffers[ch].frame.id == IdOf(w.waiters[ch]))
  }

  predicate SentOk(w: World, ch: Chan) {
    w.sent[ch] <= 1 && (w.sent[ch] > 0 ==> ch in w.waiters && !w.waiters[ch].Fresh? && !w.waiters[ch].Numbered?)
  }

  ghost predicate Correlated(w: World) {
    && (forall t :: t in w.waiters ==> WaiterOk(w, t))
    && (forall t, u :: t in w.waiters && u in w.waiters ==> DistinctIds(w, t, u))
    && (forall id :: id in w.conn.pending ==> PendingOk(w, id))
    && (forall r :: r in w.resolvers ==> ResolverOk(w, r))
    && (forall ch :: ch in w.conn.buffers ==> BufferOk(w, ch))
    && (forall ch :: SentOk(w, ch))
  }

  /** All parts of the invariant of v, each shown from w's. */
  lemma NewRequestKeeps(w: World, t: Tid)
    requires Correlated(w) && t !in w.waiters
    ensures Correlated(w.(waiters := w.waiters[t := Fresh]))
  {
    var v := w.(waiters := w.waiters[t := Fresh]);
    assert SentOk(w, t);
    forall u | u in v.waiters ensures WaiterOk(v, u) { if u != t { assert WaiterOk(w, u); AnsweredStays(w, v, u); } }
    forall u, x | u in v.waiters && x in v.waiters ensures DistinctIds(v, u, x) { if u != t && x != t { assert DistinctIds(w, u, x); } }
    forall id | id in v.conn.pending ensures PendingOk(v, id) { assert PendingOk(w, id); }
    forall r | r in v.resolvers ensures ResolverOk(v, r) { assert ResolverOk(w, r); }
    forall ch | ch in v.conn.buffers ensures BufferOk(v, ch) { assert BufferOk(w, ch); }
    forall ch ensures SentOk(v, ch) { assert SentOk(w, ch); }
  }

  lemma AnsweredStays(w: World, v: World, t: Tid)
    requires w.conn.buffers.Keys <= v.conn.buffers.Keys && forall r :: SendsTo(w.resolvers, r, t) ==> SendsTo(v.resolvers, r, t) || t in v.conn.buffers
    ensures Answered(w, t) ==> Answered(v, t)
  {
    if Answered(w, t) && t !in v.conn.buffers {
      var r :| SendsTo(w.resolvers, r, t);
      assert SendsTo(v.resolvers, r, t);
    }
  }

  /** A requester moves on without touching the connection. */
  lemma QuietAdvance(w: World, t: Tid, q: Waiter)
    requires Correlated(w) && t in w.waiters && IdOf(q) == IdOf(w.waiters[t]) && IdOf(q).Some?
    requires w.waiters[t].Writing? || w.waiters[t].Waiting?
    requires q.Waiting? || (q.Leaving? && !q.out.Got?)
    ensures Correlated(w.(waiters := w.waiters[t := q]))
  {
    var v := w.(waiters := w.waiters[t := q]);
    forall u | u in v.waiters ensures WaiterOk(v, u) { assert WaiterOk(w, u); AnsweredStays(w, v, u); }
    forall u, x | u in v.waiters && x in v.waiters ensures DistinctIds(v, u, x) { assert DistinctIds(w, u, x); }
    forall id | id in v.conn.pending ensures PendingOk(v, id) { assert PendingOk(w, id); }
    forall r | r in v.resolvers ensures ResolverOk(v, r) { assert ResolverOk(w, r); }
    forall ch | ch in v.conn.buffers ensures BufferOk(v, ch) { assert BufferOk(w, ch); }
    forall ch ensures SentOk(v, ch) { assert SentOk(w, ch); }
  }

  lemma NumberingKeeps(w: World, t: Tid)
    requires Correlated(w) && t in w.waiters && w.waiters[t].Fresh?
    ensures Correlated(w.(conn := w.conn.(nextID := w.conn.nextID + 1), waiters := w.waiters[t := Numbered(w.conn.nextID + 1)]))
  {
    var v := w.(conn := w.conn.(nextID := w.conn.nextID + 1), waiters := w.waiters[t := Numbered(w.conn.nextID + 1)]);
    forall u | u in v.waiters ensures WaiterOk(v, u) { assert WaiterOk(w, u); AnsweredStays(w, v, u); }
    forall u, x | u in v.waiters && x in v.waiters ensures DistinctIds(v, u, x) {
      assert DistinctIds(w, u, x) && WaiterOk(w, u) && WaiterOk(w, x);
    }
    forall id | id in v.conn.pending ensures PendingOk(v, id) { assert PendingOk(w, id); }
    forall r | r in v.resolvers ensures ResolverOk(v, r) { assert ResolverOk(w, r); }
    forall ch | ch in v.conn.buffers ensures BufferOk(v, ch) { assert BufferOk(w, ch); }
    forall ch ensures SentOk(v, ch) { assert SentOk(w, ch); }
  }

  lemma RegisteringKeeps(w: World, t: Tid, id: Id)
    requires Correlated(w) && t in w.waiters && w.waiters[t] == Numbered(id)
    ensures Correlated(w.(conn := Register(w.conn, id, t), waiters := w.waiters[t := Writing(id)]))
  {
    var v := w.(conn := Register(w.conn, id, t), waiters := w.waiters[t := Writing(id)]);
    assert WaiterOk(w, t);
    assert id in w.conn.pending ==> PendingOk(w, id) && DistinctIds(w, t, w.conn.pending[id]);
    assert t in w.conn.buffers ==> BufferOk(w, t);
    assert w.sent[t] == 0;
    forall r ensures !SendsTo(w.resolvers, r, t) { assert r in w.resolvers ==> ResolverOk(w, r); }
    forall u | u in v.waiters ensures WaiterOk(v, u) { assert WaiterOk(w, u); AnsweredStays(w, v, u); }
    forall u, x | u in v.waiters && x in v.waiters ensures DistinctIds(v, u, x) { assert DistinctIds(w, u, x); }
    forall jd | jd in v.conn.pending ensures PendingOk(v, jd) {
      if jd != id { assert PendingOk(w, jd); }
      assert forall r :: SendsTo(v.resolvers, r, t) ==> SendsTo(w.resolvers, r, t);
    }
    forall r | r in v.resolvers ensures ResolverOk(v, r) { assert ResolverOk(w, r); }
    forall ch | ch in v.conn.buffers ensures BufferOk(v, ch) { assert BufferOk(w, ch); }
    forall ch ensures SentOk(v, ch) { assert SentOk(w, ch); }
  }

  lemma ReceivingKeeps(w: World, t: Tid, id: Id)
    requires Correlated(w) && t in w.waiters && w.waiters[t] == Waiting(id) && t in w.conn.buffers
    ensures Correlated(w.(conn := w.conn.(buffers := w.conn.buffers - {t}), waiters := w.waiters[t := Leaving(id, Got(w.conn.buffers[t]))]))
  {
    var v := w.(conn := w.conn.(buffers := w.conn.buffers - {t}), waiters := w.waiters[t := Leaving(id, Got(w.conn.buffers[t]))]);
    assert BufferOk(w, t);
    forall u | u in v.waiters ensures WaiterOk(v, u) {
      assert WaiterOk(w, u);
      if u != t && Answered(w, u) { assert u in v.conn.buffers || exists r :: SendsTo(v.resolvers, r, u) by { if r :| SendsTo(w.resolvers, r, u) { assert SendsTo(v.resolvers, r, u); } } }
    }
    forall u, x | u in v.waiters && x in v.waiters ensures DistinctIds(v, u, x) { assert DistinctIds(w, u, x); }
    forall jd | jd in v.conn.pending ensures PendingOk(v, jd) { assert PendingOk(w, jd); }
    forall r | r in v.resolvers ensures ResolverOk(v, r) { assert ResolverOk(w, r); }
    forall ch | ch in v.conn.buffers ensures BufferOk(v, ch) { assert BufferOk(w, ch); }
    forall ch ensures SentOk(v, ch) { assert SentOk(w, ch); }
  }

  lemma LeavingKeeps(w: World, t: Tid, id: Id, out: Outcome)
    requires Correlated(w) && t in w.waiters && w.waiters[t] == Leaving(id, out)
    ensures Correlated(w.(conn := Deregister(w.conn, id), waiters := w.waiters[t := Done(id, out)]))
  {
    var v := w.(conn := Deregister(w.conn, id), waiters := w.waiters[t := Done(id, out)]);
    forall u | u in v.waiters ensures WaiterOk(v, u) {
      assert WaiterOk(w, u) && DistinctIds(w, t, u);
      AnsweredStays(w, v, u);
    }
    forall u, x | u in v.waiters && x in v.waiters ensures DistinctIds(v, u, x) { assert DistinctIds(w, u, x); }
    forall jd | jd in v.conn.pending ensures PendingOk(v, jd) { assert PendingOk(w, jd); }
    forall r | r in v.resolvers ensures ResolverOk(v, r) { assert ResolverOk(w, r); }
    forall ch | ch in v.conn.buffers ensures BufferOk(v, ch) { assert BufferOk(w, ch); }
    forall ch ensures SentOk(v, ch) { assert SentOk(w, ch); }
  }

  lemma NewFrameKeeps(w: World, r: nat, f: Frame)
    requires Correlated(w) && r !in w.resolvers
    ensures Correlated(w.(resolvers := w.resolvers[r := Taking(f)]))
  {
    var v := w.(resolvers := w.resolvers[r := Taking(f)]);
    assert forall q, ch :: SendsTo(v.resolvers, q, ch) <==> SendsTo(w.resolvers, q, ch);
    forall u | u in v.waiters ensures WaiterOk(v, u) { assert WaiterOk(w, u); AnsweredStays(w, v, u); }
    forall u, x | u in v.waiters && x in v.waiters ensures DistinctIds(v, u, x) { assert DistinctIds(w, u, x); }
    forall jd | jd in v.conn.pending ensures PendingOk(v, jd) { assert PendingOk(w, jd); }
    forall q | q in v.resolvers ensures ResolverOk(v, q) { if q != r { assert ResolverOk(w, q); } }
    forall ch | ch in v.conn.buffers ensures BufferOk(v, ch) { assert BufferOk(w, ch); }
    forall ch ensures SentOk(v, ch) { assert SentOk(w, ch); }
  }

  /** A frame whose id is not pending changes nothing: late, repeated and unknown replies are dropped. */
  lemma UnknownIsDropped(w: World, r: nat, f: Frame)
    requires r in w.resolvers && w.resolvers[r] == Taking(f) && (f.id.None? || f.id.value !in w.conn.pending)
    ensures Enabled(w, Resolve(r)) && Next(w, Resolve(r)) == w.(resolvers := w.resolvers[r := Resolved])
  {
    if f.id.Some? { assert w.conn.pending - {f.id.value} == w.conn.pending; }
  }

  lemma FinishedFrameKeeps(w: World, r: nat)
    requires Correlated(w) && r in w.resolvers && w.resolvers[r].Taking?
    ensures Correlated(w.(resolvers := w.resolvers[r := Resolved]))
  {
    var v := w.(resolvers := w.resolvers[r := Resolved]);
    assert forall q, ch :: SendsTo(v.resolvers, q, ch) <==> SendsTo(w.resolvers, q, ch);
    forall u | u in v.waiters ensures WaiterOk(v, u) { assert WaiterOk(w, u); AnsweredStays(w, v, u); }
    forall u, x | u in v.waiters && x in v.waiters ensures DistinctIds(v, u, x) { assert DistinctIds(w, u, x); }
    forall jd | jd in v.conn.pending ensures PendingOk(v, jd) { assert PendingOk(w, jd); }
    forall q | q in v.resolvers ensures ResolverOk(v, q) { if q != r { assert ResolverOk(w, q); } }
    forall ch | ch in v.conn.buffers ensures BufferOk(v, ch) { assert BufferOk(w, ch); }
    forall ch ensures SentOk(v, ch) { assert SentOk(w, ch); }
  }

  lemma TakingKeeps(w: World, r: nat, f: Frame)
    requires Correlated(w) && r in w.resolvers && w.resolvers[r] == Taking(f) && f.id.Some? && f.id.value in w.conn.pending
    ensures Correlated(w.(conn := AfterTake(w.conn, f), resolvers := w.resolvers[r := Sending(f, w.conn.pending[f.id.value])]))
  {
    var id := f.id.value;
    var t := w.conn.pending[id];
    var v := w.(conn := AfterTake(w.conn, f), resolvers := w.resolvers[r := Sending(f, t)]);
    assert PendingOk(w, id);
    assert forall q, ch :: SendsTo(v.resolvers, q, ch) <==> SendsTo(w.resolvers, q, ch) || (q == r && ch == t);
    forall u | u in v.waiters ensures WaiterOk(v, u) {
      assert WaiterOk(w, u) && DistinctIds(w, t, u);
      AnsweredStays(w, v, u);
      assert SendsTo(v.resolvers, r, t);
    }
    forall u, x | u in v.waiters && x in v.waiters ensures DistinctIds(v, u, x) { assert DistinctIds(w, u, x); }
    forall jd | jd in v.conn.pending ensures PendingOk(v, jd) {
      assert PendingOk(w, jd);
      assert DistinctIds(w, t, w.conn.pending[jd]);
    }
    forall q | q in v.resolvers ensures ResolverOk(v, q) {
      if q != r { assert ResolverOk(w, q); assert w.resolvers[q].Sending? ==> SendsTo(w.resolvers, q, w.resolvers[q].ch); }
    }
    forall ch | ch in v.conn.buffers ensures BufferOk(v, ch) { assert BufferOk(w, ch); }
    forall ch ensures SentOk(v, ch) { assert SentOk(w, ch); }
  }

  lemma SendingKeeps(w: World, r: nat, f: Frame, t: Chan)
    requires Correlated(w) && r in w.resolvers && w.resolvers[r] == Sending(f, t)
    ensures Correlated(w.(conn := Deliver(w.conn, t, Reply(f)), resolvers := w.resolvers[r := Resolved], sent := w.sent + multiset{t}))
  {
    var v := w.(conn := Deliver(w.conn, t, Reply(f)), resolvers := w.resolvers[r := Resolved], sent := w.sent + multiset{t});
    assert ResolverOk(w, r) && SendsTo(w.resolvers, r, t);
    assert forall q, ch :: SendsTo(v.resolvers, q, ch) <==> SendsTo(w.resolvers, q, ch) && q != r;
    forall u | u in v.waiters ensures WaiterOk(v, u) { assert WaiterOk(w, u); AnsweredStays(w, v, u); }
    forall u, x | u in v.waiters && x in v.waiters ensures DistinctIds(v, u, x) { assert DistinctIds(w, u, x); }
    forall jd | jd in v.conn.pending ensures PendingOk(v, jd) { assert PendingOk(w, jd); }
    forall q | q in v.resolvers ensures ResolverOk(v, q) { if q != r { assert ResolverOk(w, q); } }
    forall ch | ch in v.conn.buffers ensures BufferOk(v, ch) { if ch != t { assert BufferOk(w, ch); } }
    forall ch ensures SentOk(v, ch) { assert SentOk(w, ch); }
  }

  lemma ClosingKeeps(w: World)
    requires Correlated(w)
    ensures Correlated(w.(conn := w.conn.(closed := true), phase := Closing))
  {
    var v := w.(conn := w.conn.(closed := true), phase := Closing);
    forall u | u in v.waiters ensures WaiterOk(v, u) { assert WaiterOk(w, u); AnsweredStays(w, v, u); }
    forall u, x | u in v.waiters && x in v.waiters ensures DistinctIds(v, u, x) { assert DistinctIds(w, u, x); }
    forall jd | jd in v.conn.pending ensures PendingOk(v, jd) { assert PendingOk(w, jd); }
    forall q | q in v.resolvers ensures ResolverOk(v, q) { assert ResolverOk(w, q); }
    forall ch | ch in v.conn.buffers ensures BufferOk(v, ch) { assert BufferOk(w, ch); }
    forall ch ensures SentOk(v, ch) { assert SentOk(w, ch); }
  }

  /** A channel to be drained belongs to a requester that nothing else is sent to. */
  lemma PendingChan(w: World, ch: Chan) returns (id: Id)
    requires Correlated(w) && ch in w.conn.pending.Values
    ensures id in w.conn.pending && w.conn.pending[id] == ch && PendingOk(w, id)
  {
    id :| id in w.conn.pending && w.conn.pending[id] == ch;
  }

  lemma DrainedBuffers(s: Shared, ch: Chan)
    ensures ch in Drained(s).buffers <==> ch in s.buffers || ch in s.pending.Values
    ensures ch in s.pending.Values ==> Drained(s).buffers[ch] == ConnectionClosed
    ensures ch in s.buffers && ch !in s.pending.Values ==> Drained(s).buffers[ch] == s.buffers[ch]
  {
  }

  lemma DrainCounts(sent: multiset<Chan>, values: set<Chan>, ch: Chan)
    ensures (sent + multiset(values))[ch] == sent[ch] + (if ch in values then 1 else 0)
  {
  }

  lemma DrainKeepsWaiter(w: World, v: World, u: Tid)
    requires Correlated(w) && u in w.waiters && v.waiters == w.waiters && v.resolvers == w.resolvers
    requires v.conn == Drained(w.conn) && v.sent == w.sent + multiset(w.conn.pending.Values)
    ensures WaiterOk(v, u)
  {
    hide Correlated;
    assert WaiterOk(w, u) && (u in w.conn.pending.Values ==> Listed(w.waiters[u])) by {
      WaiterFacts(w, u);
      if u in w.conn.pending.Values { var id := PendingChan(w, u); }
    }
    DrainCounts(w.sent, w.conn.pending.Values, u);
    DrainedBuffers(w.conn, u);
    var p := w.waiters[u];
    if p.Writing? || p.Waiting? {
      if p.id in w.conn.pending && w.conn.pending[p.id] == u {
        assert u in w.conn.pending.Values;
      }
    }
    hide Drained;
  }

  lemma WaiterFacts(w: World, u: Tid)
    requires Correlated(w) && u in w.waiters
    ensures WaiterOk(w, u)
  {
  }

  lemma DrainKeepsResolver(w: World, v: World, q: nat)
    requires Correlated(w) && q in w.resolvers && v.waiters == w.waiters && v.resolvers == w.resolvers
    requires v.conn == Drained(w.conn) && v.sent == w.sent + multiset(w.conn.pending.Values)
    ensures ResolverOk(v, q)
  {
    assert ResolverOk(w, q);
    if w.resolvers[q].Sending? {
      var ch := w.resolvers[q].ch;
      assert SendsTo(w.resolvers, q, ch);
      if ch in w.conn.pending.Values { var id := PendingChan(w, ch); assert false; }
      DrainCounts(w.sent, w.conn.pending.Values, ch);
      DrainedBuffers(w.conn, ch);
    }
    hide Drained, Correlated;
  }

  lemma DrainKeepsSends(w: World, v: World, ch: Chan)
    requires Correlated(w) && v.waiters == w.waiters
    requires v.conn == Drained(w.conn) && v.sent == w.sent + multiset(w.conn.pending.Values)
    ensures SentOk(v, ch) && (ch in v.conn.buffers ==> BufferOk(v, ch))
  {
    assert SentOk(w, ch) && (ch in w.conn.buffers ==> BufferOk(w, ch));
    if ch in w.conn.pending.Values { var id := PendingChan(w, ch); }
    DrainCounts(w.sent, w.conn.pending.Values, ch);
    DrainedBuffers(w.conn, ch);
    hide Drained, Correlated;
  }

  lemma DrainKeeps(w: World)
    requires Correlated(w)
    ensures Correlated(w.(conn := Drained(w.conn), phase := Down, sent := w.sent + multiset(w.conn.pending.Values)))
  {
    var v := w.(conn := Drained(w.conn), phase := Down, sent := w.sent + multiset(w.conn.pending.Values));
    assert v.conn.pending == map[];
    hide Correlated, Drained, WaiterOk, ResolverOk, SentOk, BufferOk, DistinctIds;
    forall u | u in v.waiters ensures WaiterOk(v, u) { DrainKeepsWaiter(w, v, u); }
    forall u, x | u in v.waiters && x in v.waiters ensures DistinctIds(v, u, x) { DrainKeepsIds(w, v, u, x); }
    forall q | q in v.resolvers ensures ResolverOk(v, q) { DrainKeepsResolver(w, v, q); }
    forall ch ensures SentOk(v, ch) && (ch in v.conn.buffers ==> BufferOk(v, ch)) { DrainKeepsSends(w, v, ch); }
    EmptyPending(v);
  }

  lemma DrainKeepsIds(w: World, v: World, u: Tid, x: Tid)
    requires Correlated(w) && v.waiters == w.waiters && u in w.waiters && x in w.waiters
    ensures DistinctIds(v, u, x)
  {
    assert DistinctIds(w, u, x);
  }

  lemma EmptyPending(v: World)
    requires (forall t :: t in v.waiters ==> WaiterOk(v, t)) && v.conn.pending == map[]
    requires forall t, u :: t in v.waiters && u in v.waiters ==> DistinctIds(v, t, u)
    requires forall r :: r in v.resolvers ==> ResolverOk(v, r)
    requires forall ch :: SentOk(v, ch) && (ch in v.conn.buffers ==> BufferOk(v, ch))
    ensures Correlated(v)
  {
    hide WaiterOk, ResolverOk, DistinctIds;
  }

  // ---------- every step, every run ----------

  lemma AdvanceKeeps(w: World, t: Tid, writeOk: bool, exit: Exit)
    requires Correlated(w) && Enabled(w, Advance(t, writeOk, exit))
    ensures Correlated(Advanced(w, t, writeOk, exit))
  {
    hide Correlated;
    match w.waiters[t]
    case Fresh => NumberingKeeps(w, t);
    case Numbered(id) => RegisteringKeeps(w, t, id);
    case Writing(id) => QuietAdvance(w, t, if writeOk then Waiting(id) else Leaving(id, WriteFailed));
    case Waiting(id) =>
      match exit {
        case Receive => ReceivingKeeps(w, t, id);
        case Cancel => QuietAdvance(w, t, Leaving(id, Cancelled));
        case SeeClosed => QuietAdvance(w, t, Leaving(id, SawClosed));
      }
    case Leaving(id, out) => LeavingKeeps(w, t, id, out);
  }

  lemma ResolveKeeps(w: World, r: nat)
    requires Correlated(w) && Enabled(w, Resolve(r))
    ensures Correlated(Next(w, Resolve(r)))
  {
    hide Correlated;
    match w.resolvers[r]
    case Taking(f) =>
      if f.id.Some? && f.id.value in w.conn.pending {
        TakingKeeps(w, r, f);
      } else {
        UnknownIsDropped(w, r, f);
        FinishedFrameKeeps(w, r);
      }
    case Sending(f, ch) => SendingKeeps(w, r, f, ch);
  }

  lemma StepKeeps(w: World, step: Step)
    requires Correlated(w) && Enabled(w, step)
    ensures Correlated(Next(w, step))
  {
    hide Correlated, Advanced;
    match step
    case NewRequest(t) => NewRequestKeeps(w, t);
    case Advance(t, writeOk, exit) => AdvanceKeeps(w, t, writeOk, exit);
    case NewFrame(r, f) => NewFrameKeeps(w, r, f);
    case Resolve(r) => ResolveKeeps(w, r);
    case Close => ClosingKeeps(w);
    case Drain => DrainKeeps(w);
  }

  predicate Runs(w: World, steps: seq<Step>)
    decreases |steps|
  {
    steps == [] || (Enabled(w, steps[0]) && Runs(Next(w, steps[0]), steps[1..]))
  }

  function After(w: World, steps: seq<Step>): World
    requires Runs(w, steps)
    decreases |steps|
  {
    if steps == [] then w else After(Next(w, steps[0]), steps[1..])
  }

  lemma {:induction false} RunKeeps(w: World, steps: seq<Step>)
    requires Correlated(w) && Runs(w, steps)
    ensures Correlated(After(w, steps))
    decreases |steps|
  {
    hide Correlated, Enabled, Next;
    if steps != [] {
      StepKeeps(w, steps[0]);
      RunKeeps(Next(w, steps[0]), steps[1..]);
    }
  }

  lemma RunIsCorrelated(steps: seq<Step>)
    requires Runs(INIT, steps)
    ensures Correlated(After(INIT, steps))
  {
    assert Correlated(INIT);
    RunKeeps(INIT, steps);
  }

  // ---------- the theorems ----------

  /** No channel is ever sent to twice, so neither a reply nor the shutdown ever blocks on a full one. */
  lemma NoSendBlocks(steps: seq<Step>, ch: Chan, r: nat)
    requires Runs(INIT, steps)
    ensures var w := After(INIT, steps);
            && w.sent[ch] <= 1
            && (r in w.resolvers && !w.resolvers[r].Resolved? ==> Enabled(w, Resolve(r)))
            && (w.phase.Closing? ==> Enabled(w, Drain))
            && OnePerChan(w.conn.pending)
  {
    var w := After(INIT, steps);
    RunIsCorrelated(steps);
    assert SentOk(w, ch);
    if r in w.resolvers { assert ResolverOk(w, r); }
    forall id | id in w.conn.pending ensures w.conn.pending[id] !in w.conn.buffers { assert PendingOk(w, id); }
    forall id, jd | id in w.conn.pending && jd in w.conn.pending && w.conn.pending[id] == w.conn.pending[jd] ensures id == jd {
      assert PendingOk(w, id) && PendingOk(w, jd);
    }
    hide Correlated;
  }

  /** A request that returns a reply returns the one that bears its id, and no two requests share an id. */
  lemma RepliesMatch(steps: seq<Step>, t: Tid, u: Tid)
    requires Runs(INIT, steps)
    ensures var w := After(INIT, steps);
            && (t in w.waiters && w.waiters[t].Done? && w.waiters[t].out.Got? && w.waiters[t].out.r.Reply? ==>
                  w.waiters[t].out.r.frame.id == Some(w.waiters[t].id))
            && (t in w.waiters && u in w.waiters && IdOf(w.waiters[t]).Some? && IdOf(w.waiters[t]) == IdOf(w.waiters[u]) ==> t == u)
  {
    var w := After(INIT, steps);
    RunIsCorrelated(steps);
    if t in w.waiters {
      assert WaiterOk(w, t);
      if u in w.waiters { assert DistinctIds(w, t, u); }
    }
  }

  /** While a request waits, either its entry is still there for the reply to find, or a value is in its channel or on its way. */
  lemma NoReplyIsLost(steps: seq<Step>, t: Tid)
    requires Runs(INIT, steps) && t in After(INIT, steps).waiters && After(INIT, steps).waiters[t].Waiting?
    ensures var w := After(INIT, steps); var id := w.waiters[t].id;
            (id in w.conn.pending && w.conn.pending[id] == t) || Answered(w, t)
  {
    RunIsCorrelated(steps);
    assert WaiterOk(After(INIT, steps), t);
  }

  /** Once the connection is closed every waiting request can return; after the drain, one that was listed then finds its value waiting. */
  lemma NobodyIsLeftWaiting(steps: seq<Step>, t: Tid)
    requires Runs(INIT, steps) && t in After(INIT, steps).waiters && After(INIT, steps).waiters[t].Waiting?
    ensures var w := After(INIT, steps); w.conn.closed ==> Enabled(w, Advance(t, true, SeeClosed))
    ensures var w := After(INIT, steps);
            Enabled(w, Drain) && w.waiters[t].id in w.conn.pending ==> Enabled(Next(w, Drain), Advance(t, true, Receive))
  {
    var w := After(INIT, steps);
    RunIsCorrelated(steps);
    var id := w.waiters[t].id;
    if Enabled(w, Drain) && id in w.conn.pending {
      assert PendingOk(w, id) && DistinctIds(w, t, w.conn.pending[id]);
      assert w.conn.pending[id] in w.conn.pending.Values;
      DrainedBuffers(w.conn, t);
    }
  }

  /** After a reply was sent to a request, or the request has returned, no frame with its id finds it again. */
  lemma LateAndRepeatedRepliesAreDropped(steps: seq<Step>, t: Tid, r: nat, f: Frame)
    requires Runs(INIT, steps)
    requires var w := After(INIT, steps);
             && t in w.waiters && IdOf(w.waiters[t]).Some? && f.id == IdOf(w.waiters[t])
             && (w.sent[t] > 0 || w.waiters[t].Done? || exists q :: SendsTo(w.resolvers, q, t))
             && r in w.resolvers && w.resolvers[r] == Taking(f)
    ensures var w := After(INIT, steps); Next(w, Resolve(r)) == w.(resolvers := w.resolvers[r := Resolved])
  {
    var w := After(INIT, steps);
    RunIsCorrelated(steps);
    assert f.id.value in w.conn.pending ==> PendingOk(w, f.id.value) && DistinctIds(w, t, w.conn.pending[f.id.value]);
    UnknownIsDropped(w, r, f);
  }
}
