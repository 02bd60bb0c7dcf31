/**
 Reply correlation for outbound JSON-RPC requests (internal/acp/server.go; JSON-RPC
 2.0 Specification, sections 4 and 5): the pending map with its critical sections,
 and every interleaving of requesters, reply frames and the shutdown.
 */
module RpcCorrelation {
  import opened Wrappers

  type Id = nat
  type Tid = nat

  /** A reply channel of capacity one, named after the requester that made it. */
  type Chan = Tid

  /** A reply frame: its id as an integer, if it is one, and either an error or a result. */
  datatype Frame = Frame(id: Option<Id>, error: Option<string>, result: string)

  datatype Result = Reply(frame: Frame) | ConnectionClosed

  /** What a connection shares between its goroutines. */
  datatype Shared = Shared(nextID: Id, pending: map<Id, Chan>, closed: bool, buffers: map<Chan, Result>)

  // ---------- the critical sections as functions ----------

  function Register(s: Shared, id: Id, ch: Chan): Shared {
    s.(pending := s.pending[id := ch])
  }

  function Deregister(s: Shared, id: Id): Shared {
    s.(pending := s.pending - {id})
  }

  function Taken(s: Shared, f: Frame): Option<Chan> {
    if f.id.Some? && f.id.value in s.pending then Some(s.pending[f.id.value]) else None
  }

  function AfterTake(s: Shared, f: Frame): Shared {
    if f.id.Some? then Deregister(s, f.id.value) else s
  }

  function Deliver(s: Shared, ch: Chan, r: Result): Shared {
    s.(buffers := s.buffers[ch := r])
  }

  /** Every channel still pending gets the closing error. */
  function Drained(s: Shared): Shared {
    s.(pending := map[], buffers := map ch | ch in s.buffers.Keys + s.pending.Values ::
                                      if ch in s.pending.Values then ConnectionClosed else s.buffers[ch])
  }

  lemma DrainedIs(s: Shared, buffers: map<Chan, Result>)
    requires buffers.Keys == s.buffers.Keys + s.pending.Values
    requires forall ch :: ch in buffers && ch in s.pending.Values ==> buffers[ch] == ConnectionClosed
    requires forall ch :: ch in buffers && ch !in s.pending.Values ==> ch in s.buffers && buffers[ch] == s.buffers[ch]
    ensures Drained(s) == s.(pending := map[], buffers := buffers)
  {
  }

  class Conn {
    var nextID: Id
    var pending: map<Id, Chan>
    var closed: bool
    var buffers: map<Chan, Result>

    constructor ()
      ensures View() == Shared(0, map[], false, map[])
    {
      nextID, pending, closed, buffers := 0, map[], false, map[];
    }

    ghost function View(): Shared
      reads this
    {
      Shared(nextID, pending, closed, buffers)
    }

    /** nextID.Add(1). */
    method NewId() returns (id: Id)
      modifies this`nextID
      ensures View() == old(View()).(nextID := id) && id == old(nextID) + 1
    {
      nextID := nextID + 1;
      id := nextID;
    }

    method AddPending(id: Id, ch: Chan)
      modifies this`pending
      ensures View() == Register(old(View()), id, ch)
    {
      pending := pending[id := ch];
    }

    method RemovePending(id: Id)
      modifies this`pending
      ensures View() == Deregister(old(View()), id)
    {
      pending := pending - {id};
    }

    /** The locked part of resolve: look the channel up and take it out. */
    method Take(f: Frame) returns (ch: Option<Chan>)
      modifies this`pending
      ensures ch == Taken(old(View()), f) && View() == AfterTake(old(View()), f)
    {
      if f.id.None? {
        return None;
      }
      ch := if f.id.value in pending then Some(pending[f.id.value]) else None;
      pending := pending - {f.id.value};
    }

    /** The locked part of shutdown, one send and one delete at a time. No send finds a full channel. */
    method Drain()
      requires OnePerChan(pending) && forall id :: id in pending ==> pending[id] !in buffers
      modifies this`pending, this`buffers
      ensures View() == Drained(old(View()))
    {
      hide Drained, PartlyDrained;
      ghost var before := View();
      DrainBegins(before);
      while |pending| > 0
        invariant PartlyDrained(before, pending, buffers)
        decreases |pending|
      {
        var id :| id in pending;
        var ch := pending[id];
        DrainOne(before, pending, buffers, id);
        buffers := buffers[ch := ConnectionClosed];
        pending := pending - {id};
      }
      DrainEnds(before, pending, buffers);
    }
  }

  /** No two requests wait on one channel. */
  ghost predicate OnePerChan(pending: map<Id, Chan>) {
    forall id, jd :: id in pending && jd in pending && pending[id] == pending[jd] ==> id == jd
  }

  ghost predicate PartlyDrained(s: Shared, pending: map<Id, Chan>, buffers: map<Chan, Result>) {
    && OnePerChan(s.pending)
    && (forall id :: id in pending ==> id in s.pending && pending[id] == s.pending[id] && pending[id] !in buffers)
    && (forall id :: id in s.pending && id !in pending ==> s.pending[id] in buffers && buffers[s.pending[id]] == ConnectionClosed)
    && (forall ch :: ch in s.buffers ==> ch in buffers && buffers[ch] == s.buffers[ch] && forall id :: id in s.pending ==> s.pending[id] != ch)
    && (forall ch :: ch in buffers && ch !in s.buffers ==> exists id :: id in s.pending && s.pending[id] == ch)
  }

  lemma DrainBegins(s: Shared)
    requires OnePerChan(s.pending) && forall id :: id in s.pending ==> s.pending[id] !in s.buffers
    ensures PartlyDrained(s, s.pending, s.buffers)
  {
  }

  lemma OneLess(pending: map<Id, Chan>, id: Id)
    requires id in pending
    ensures |pending - {id}| < |pending|
  {
    assert pending.Keys == (pending - {id}).Keys + {id};
  }

  lemma DrainOne(s: Shared, pending: map<Id, Chan>, buffers: map<Chan, Result>, id: Id)
    requires PartlyDrained(s, pending, buffers) && id in pending
    ensures PartlyDrained(s, pending - {id}, buffers[pending[id] := ConnectionClosed]) && |pending - {id}| < |pending|
  {
    OneLess(pending, id);
  }

  lemma DrainEnds(s: Shared, pending: map<Id, Chan>, buffers: map<Chan, Result>)
    requires PartlyDrained(s, pending, buffers) && |pending| == 0
    ensures pending == map[] && Drained(s) == s.(pending := pending, buffers := buffers)
  {
    assert pending == map[];
    forall ch ensures ch in buffers <==> ch in s.buffers.Keys + s.pending.Values {}
    DrainedIs(s, buffers);
  }
}
