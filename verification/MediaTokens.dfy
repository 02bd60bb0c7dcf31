/**
 The media token store (vscode-extension/app.go): tokens expire after a fixed time
 and are capped in number. Expired entries are deleted lazily, from two sides; what
 a caller can see is nevertheless just the list of unexpired tokens, oldest first.
 */
module MediaTokens {
  import opened Wrappers

  type Token = string
  type Time = int

  datatype Entry = Entry(absPath: string, filename: string, mime: string, kind: string, size: int, modTime: Time, createdAt: Time, expiresAt: Time)

  const MEDIA_TOKEN_MAX := 256

  // ---------- orders of tokens ----------

  ghost predicate Distinct(order: seq<Token>) {
    forall i, j :: 0 <= i < j < |order| ==> order[i] != order[j]
  }

  ghost predicate InOrder(order: seq<Token>, expiry: map<Token, Time>) {
    && (forall i :: 0 <= i < |order| ==> order[i] in expiry)
    && (forall i, j :: 0 <= i < j < |order| ==> expiry[order[i]] <= expiry[order[j]])
  }

  /** The tokens that expire after t. */
  ghost function Live(order: seq<Token>, expiry: map<Token, Time>, t: Time): seq<Token>
    requires forall i :: 0 <= i < |order| ==> order[i] in expiry
  {
    if order == [] then []
    else (if expiry[order[0]] > t then [order[0]] else []) + Live(order[1..], expiry, t)
  }

  lemma TailInOrder(order: seq<Token>, expiry: map<Token, Time>)
    requires InOrder(order, expiry) && order != []
    ensures InOrder(order[1..], expiry)
  {
  }

  lemma TailDistinct(order: seq<Token>)
    requires Distinct(order) && order != []
    ensures Distinct(order[1..]) && forall tok :: tok in order[1..] <==> tok in order && tok != order[0]
  {
    forall tok ensures tok in order[1..] <==> tok in order && tok != order[0] {
      if tok in order && tok != order[0] {
        var i :| 0 <= i < |order| && order[i] == tok;
        assert order[1..][i - 1] == tok;
      }
    }
  }

  /** When nothing at the front has expired, nothing has. */
  lemma {:induction false} AllLive(order: seq<Token>, expiry: map<Token, Time>, t: Time)
    requires InOrder(order, expiry) && (order != [] ==> expiry[order[0]] > t)
    ensures Live(order, expiry, t) == order
    decreases |order|
  {
    if order != [] {
      TailInOrder(order, expiry);
      AllLive(order[1..], expiry, t);
    }
  }

  /** At any time the expired tokens are a prefix: what is live is a tail of the order. */
  lemma {:induction false} LiveIsTail(order: seq<Token>, expiry: map<Token, Time>, t: Time) returns (n: nat)
    requires InOrder(order, expiry)
    ensures n <= |order| && Live(order, expiry, t) == order[n..]
    ensures forall i :: 0 <= i < |order| ==> (i < n <==> expiry[order[i]] <= t)
    decreases |order|
  {
    if order == [] || expiry[order[0]] > t {
      AllLive(order, expiry, t);
      n := 0;
    } else {
      TailInOrder(order, expiry);
      var m := LiveIsTail(order[1..], expiry, t);
      n := m + 1;
      assert order[1..][m..] == order[n..];
      forall i | 0 <= i < |order| ensures i < n <==> expiry[order[i]] <= t {
        if i > 0 { assert order[1..][i - 1] == order[i]; }
      }
    }
  }

  /** Every entry is in the order with its true expiry, and what the order holds without an entry has expired. */
  ghost predicate Backed(byTok: map<Token, Entry>, order: seq<Token>, expiry: map<Token, Time>, clock: Time)
    requires forall i :: 0 <= i < |order| ==> order[i] in expiry
  {
    && (forall tok :: tok in byTok ==> tok in order && byTok[tok].expiresAt == expiry[tok])
    && (forall tok :: tok in order && tok !in byTok ==> expiry[tok] < clock)
  }

  /**
   The order is what was made from the gone-th token on; what went before has expired,
   or has maxN newer ones.
   */
  ghost predicate Traces(made: seq<Token>, gone: nat, order: seq<Token>, expiry: map<Token, Time>, clock: Time, maxN: nat)
    requires forall i :: 0 <= i < |made| ==> made[i] in expiry
  {
    && gone <= |made| && order == made[gone..]
    && forall i :: 0 <= i < gone ==> expiry[made[i]] <= clock || i < |made| - maxN
  }

  lemma TraceFront(made: seq<Token>, gone: nat, order: seq<Token>, expiry: map<Token, Time>, clock: Time, maxN: nat)
    requires forall i :: 0 <= i < |made| ==> made[i] in expiry
    requires Traces(made, gone, order, expiry, clock, maxN) && order != []
    requires expiry[order[0]] <= clock || |order| > maxN
    ensures Traces(made, gone + 1, order[1..], expiry, clock, maxN)
  {
    assert made[gone..][1..] == made[gone + 1..];
  }

  lemma TraceBack(made: seq<Token>, gone: nat, order: seq<Token>, expiry: map<Token, Time>, clock: Time, maxN: nat, tok: Token, at: Time, now: Time)
    requires forall i :: 0 <= i < |made| ==> made[i] in expiry
    requires Traces(made, gone, order, expiry, clock, maxN) && tok !in expiry && clock <= now
    ensures Traces(made + [tok], gone, order + [tok], expiry[tok := at], now, maxN)
  {
    assert (made + [tok])[gone..] == made[gone..] + [tok];
  }

  /** The whole invariant, on values. */
  ghost predicate Consistent(
      byTok: map<Token, Entry>, order: seq<Token>, made: seq<Token>, gone: nat, expiry: map<Token, Time>, clock: Time, maxN: nat, ttl: nat) {
    && Distinct(order) && InOrder(order, expiry)
    && Backed(byTok, order, expiry, clock)
    && Distinct(made) && (forall tok :: tok in expiry <==> tok in made) && Traces(made, gone, order, expiry, clock, maxN)
    && (forall tok :: tok in expiry ==> expiry[tok] <= clock + ttl)
  }

  /** The last n of s. */
  function Newest<T>(s: seq<T>, n: nat): seq<T> {
    if |s| <= n then s else s[|s| - n..]
  }

  // ---------- the store ----------

  class MediaTokenStore {
    var byTok: map<Token, Entry>
    var order: seq<Token>
    const maxN: nat
    const ttl: nat

    ghost var made: seq<Token>           // every token ever made, in order
    ghost var gone: nat                  // how many of them are no longer in the order
    ghost var expiry: map<Token, Time>   // of every token ever made
    ghost var clock: Time                // the latest time read

    ghost predicate Valid()
      reads this
    {
      Consistent(byTok, order, made, gone, expiry, clock, maxN, ttl)
    }

    ghost predicate Capped()
      reads this
    {
      |order| <= maxN
    }

    /** The tokens a caller may still use after t, oldest first. */
    ghost function LiveAt(t: Time): seq<Token>
      reads this
      requires Valid()
    {
      Live(order, expiry, t)
    }

    constructor (ttl: nat, now: Time)
      ensures Valid() && maxN == MEDIA_TOKEN_MAX && this.ttl == ttl && made == [] && expiry == map[] && clock == now && Capped()
    {
      byTok, order, maxN, this.ttl := map[], [], MEDIA_TOKEN_MAX, ttl;
      made, gone, expiry, clock := [], 0, map[], now;
    }

    /** cleanupLocked: afterwards the order holds exactly the unexpired tokens, the newest maxN of them, each with its entry. */
    method Cleanup(now: Time)
      requires Valid() && clock <= now
      modifies this`byTok, this`order, this`clock, this`gone
      ensures Valid() && clock == now
      ensures order == Newest(old(LiveAt(now)), maxN) && forall tok :: tok in byTok <==> tok in order
      ensures forall tok :: tok in byTok ==> tok in old(byTok) && byTok[tok] == old(byTok)[tok]
    {
      hide Live, Newest, Consistent;
      ghost var live := LiveAt(now);
      ClockMoves(byTok, order, made, gone, expiry, clock, now, maxN, ttl);
      clock := now;
      while |order| > 0
        invariant Valid() && clock == now
        invariant LiveAt(now) == live
        invariant forall tok :: tok in byTok ==> tok in old(byTok) && byTok[tok] == old(byTok)[tok]
        decreases |order|
      {
        var tok := order[0];
        FrontEntry(byTok, order, made, gone, expiry, now, maxN, ttl);
        if tok !in byTok {
          DropFront(byTok, order, made, gone, expiry, now, maxN, ttl);
          gone, order := gone + 1, order[1..];
          continue;
        }
        if !(now < byTok[tok].expiresAt) {
          DropFront(byTok, order, made, gone, expiry, now, maxN, ttl);
          byTok := byTok - {tok};
          gone, order := gone + 1, order[1..];
          continue;
        }
        break;
      }
      UpToDate(byTok, order, made, gone, expiry, now, maxN, ttl);
      Trim();
    }

    /** The loop that cuts the order down to maxN from its old end. */
    method Trim()
      requires Valid() && forall tok :: tok in order ==> tok in byTok
      modifies this`byTok, this`order, this`gone
      ensures Valid() && order == Newest(old(order), maxN) && forall tok :: tok in byTok <==> tok in order
      ensures forall tok :: tok in byTok ==> tok in old(byTok) && byTok[tok] == old(byTok)[tok]
    {
      hide Consistent, Newest;
      while |order| > maxN
        invariant Valid() && forall tok :: tok in order ==> tok in byTok
        invariant Newest(order, maxN) == Newest(old(order), maxN)
        invariant forall tok :: tok in byTok ==> tok in old(byTok) && byTok[tok] == old(byTok)[tok]
        decreases |order|
      {
        EvictFront(byTok, order, made, gone, expiry, clock, maxN, ttl);
        NewestOfTail(order, maxN);
        byTok := byTok - {order[0]};
        gone, order := gone + 1, order[1..];
      }
      Backs(byTok, order, made, gone, expiry, clock, maxN, ttl);
    }

    /**
     A new token. now1 and now2 are the two readings of the clock, before and after
     drawing the token, which is one never made before.
     */
    method Create(token: Token, absPath: string, filename: string, mime: string, kind: string, size: int, modTime: Time, now1: Time, now2: Time)
      requires Valid() && clock <= now1 <= now2 && token !in expiry
      modifies this
      ensures Valid() && Capped() && clock == now2
      ensures made == old(made) + [token] && expiry == old(expiry)[token := now2 + ttl]
      ensures order == Newest(Newest(old(LiveAt(now1)), maxN) + [token], maxN) && forall tok :: tok in byTok <==> tok in order
      ensures forall tok :: tok in byTok && tok != token ==> tok in old(byTok) && byTok[tok] == old(byTok)[tok]
      ensures maxN > 0 ==> token in byTok && byTok[token] == Entry(absPath, filename, mime, kind, size, modTime, now2, now2 + ttl)
    {
      hide Consistent, Live;
      Cleanup(now1);
      var e := Entry(absPath, filename, mime, kind, size, modTime, now2, now2 + ttl);
      GrowsByOne(byTok, order, made, gone, expiry, clock, maxN, ttl, token, e, now2);
      made, expiry := made + [token], expiry[token := now2 + ttl];
      byTok := byTok[token := e];
      order := order + [token];
      clock := now2;
      Trim();
      if maxN > 0 {
        assert order[|order| - 1] == token;
      }
    }

    /** The entry, up to the very moment of its expiry; an expired one goes. */
    method Get(token: Token, now: Time) returns (e: Option<Entry>)
      requires Valid() && clock <= now
      modifies this`byTok, this`clock
      ensures Valid() && clock == now
      ensures e == if token in old(byTok) && now <= old(byTok)[token].expiresAt then Some(old(byTok)[token]) else None
      ensures forall tok :: tok in byTok <==> tok in old(byTok) && (tok == token ==> e.Some?)
      ensures forall tok :: tok in byTok ==> byTok[tok] == old(byTok)[tok]
    {
      hide Traces;
      ClockMoves(byTok, order, made, gone, expiry, clock, now, maxN, ttl);
      clock := now;
      if token !in byTok {
        return None;
      }
      if now > byTok[token].expiresAt {
        byTok := byTok - {token};
        return None;
      }
      return Some(byTok[token]);
    }

    /**
     A token is usable after t exactly when it has not expired then and fewer than
     maxN tokens were made after it.
     */
    lemma UsableExactly(i: nat, t: Time)
      requires Valid() && Capped() && clock <= t && i < |made|
      ensures made[i] in LiveAt(t) <==> expiry[made[i]] > t && |made| - 1 - i < maxN
    {
      var n := LiveIsTail(order, expiry, t);
      hide Live;
      TailOfMade(made, gone, order, n, i);
    }

    /** What a caller can get is what is live: at any later time t an unexpired token has its entry, and an entry that has not expired is live. */
    lemma VisibleIsLive(tok: Token, t: Time)
      requires Valid() && clock <= t
      ensures tok in LiveAt(t) <==> tok in byTok && byTok[tok].expiresAt > t
    {
      var n := LiveIsTail(order, expiry, t);
      hide Live;
      hide Distinct, Traces;
      if tok in byTok && byTok[tok].expiresAt > t {
        var i :| 0 <= i < |order| && order[i] == tok;
        assert order[n..][i - n] == tok;
      }
    }
  }

  lemma TailOfMade(made: seq<Token>, gone: nat, order: seq<Token>, n: nat, i: nat)
    requires Distinct(made) && gone <= |made| && order == made[gone..] && n <= |order| && i < |made|
    ensures made[i] in order[n..] <==> i >= gone + n
  {
    if made[i] in order[n..] {
      var j :| 0 <= j < |order[n..]| && order[n..][j] == made[i];
      assert made[gone + n + j] == made[i];
    }
    if i >= gone + n {
      assert order[n..][i - gone - n] == made[i];
    }
  }

  lemma ClockMoves(
      byTok: map<Token, Entry>, order: seq<Token>, made: seq<Token>, gone: nat, expiry: map<Token, Time>, clock: Time, now: Time, maxN: nat, ttl: nat)
    requires Consistent(byTok, order, made, gone, expiry, clock, maxN, ttl) && clock <= now
    ensures Consistent(byTok, order, made, gone, expiry, now, maxN, ttl)
  {
  }

  lemma FrontEntry(
      byTok: map<Token, Entry>, order: seq<Token>, made: seq<Token>, gone: nat, expiry: map<Token, Time>, now: Time, maxN: nat, ttl: nat)
    requires Consistent(byTok, order, made, gone, expiry, now, maxN, ttl) && order != []
    ensures order[0] in expiry && (order[0] in byTok ==> byTok[order[0]].expiresAt == expiry[order[0]])
  {
  }

  /** Dropping the front of the order, which has expired or of which there are too many. */
  lemma FrontGoes(
      byTok: map<Token, Entry>, order: seq<Token>, made: seq<Token>, gone: nat, expiry: map<Token, Time>, now: Time, maxN: nat, ttl: nat)
    requires Consistent(byTok, order, made, gone, expiry, now, maxN, ttl) && order != []
    requires expiry[order[0]] <= now || |order| > maxN
    ensures Consistent(byTok - {order[0]}, order[1..], made, gone + 1, expiry, now, maxN, ttl)
  {
    TailDistinct(order);
    TailInOrder(order, expiry);
    TraceFront(made, gone, order, expiry, now, maxN);
    hide Distinct, InOrder, Traces;
  }

  lemma DropFront(
      byTok: map<Token, Entry>, order: seq<Token>, made: seq<Token>, gone: nat, expiry: map<Token, Time>, now: Time, maxN: nat, ttl: nat)
    requires Consistent(byTok, order, made, gone, expiry, now, maxN, ttl) && order != []
    requires order[0] in byTok ==> byTok[order[0]].expiresAt <= now
    ensures Consistent(byTok - {order[0]}, order[1..], made, gone + 1, expiry, now, maxN, ttl)
    ensures order[0] !in byTok ==> byTok - {order[0]} == byTok
    ensures Live(order[1..], expiry, now) == Live(order, expiry, now)
  {
    hide Distinct, Traces;
    assert order[0] in order && order[0] in expiry && expiry[order[0]] <= now;
    FrontGoes(byTok, order, made, gone, expiry, now, maxN, ttl);
    TailInOrder(order, expiry);
  }

  lemma EvictFront(
      byTok: map<Token, Entry>, order: seq<Token>, made: seq<Token>, gone: nat, expiry: map<Token, Time>, now: Time, maxN: nat, ttl: nat)
    requires Consistent(byTok, order, made, gone, expiry, now, maxN, ttl) && |order| > maxN
    ensures Consistent(byTok - {order[0]}, order[1..], made, gone + 1, expiry, now, maxN, ttl)
    ensures forall tok :: tok in order[1..] ==> tok in order && tok != order[0]
  {
    FrontGoes(byTok, order, made, gone, expiry, now, maxN, ttl);
    TailDistinct(order);
  }

  lemma NewestOfTail<T>(s: seq<T>, n: nat)
    requires |s| > n
    ensures Newest(s[1..], n) == Newest(s, n)
  {
  }

  lemma Backs(
      byTok: map<Token, Entry>, order: seq<Token>, made: seq<Token>, gone: nat, expiry: map<Token, Time>, now: Time, maxN: nat, ttl: nat)
    requires Consistent(byTok, order, made, gone, expiry, now, maxN, ttl) && |order| <= maxN
    ensures Newest(order, maxN) == order && forall tok :: tok in byTok ==> tok in order
  {
  }

  /** Once the front is an unexpired token with its entry, the order is what is live, and all of it has entries. */
  lemma UpToDate(
      byTok: map<Token, Entry>, order: seq<Token>, made: seq<Token>, gone: nat, expiry: map<Token, Time>, now: Time, maxN: nat, ttl: nat)
    requires Consistent(byTok, order, made, gone, expiry, now, maxN, ttl)
    requires order != [] ==> order[0] in byTok && byTok[order[0]].expiresAt > now
    ensures Live(order, expiry, now) == order && forall tok :: tok in order ==> tok in byTok
  {
    AllLive(order, expiry, now);
  }

  lemma GrowsByOne(
      byTok: map<Token, Entry>, order: seq<Token>, made: seq<Token>, gone: nat, expiry: map<Token, Time>, clock: Time, maxN: nat, ttl: nat,
      token: Token, e: Entry, now: Time)
    requires Consistent(byTok, order, made, gone, expiry, clock, maxN, ttl)
    requires clock <= now && token !in expiry && e.expiresAt == now + ttl && forall tok :: tok in order ==> tok in byTok
    ensures Consistent(byTok[token := e], order + [token], made + [token], gone, expiry[token := now + ttl], now, maxN, ttl)
    ensures forall tok :: tok in order + [token] ==> tok in byTok[token := e]
  {
    hide Distinct;
    KeysGrow(made, expiry, token, now + ttl);
    assert token !in order by { OrderIsKnown(order, expiry, token); }
    TraceBack(made, gone, order, expiry, clock, maxN, token, now + ttl, now);
    OrderGrows(order, expiry, token, now + ttl);
    BackingGrows(byTok, order, expiry, clock, token, e, now);
    hide Traces, InOrder, Backed;
    DistinctGrows(order, token);
    DistinctGrows(made, token);
  }

  lemma OrderIsKnown(order: seq<Token>, expiry: map<Token, Time>, token: Token)
    requires InOrder(order, expiry) && token !in expiry
    ensures token !in order
  {
  }

  lemma KeysGrow(made: seq<Token>, expiry: map<Token, Time>, token: Token, at: Time)
    requires (forall tok :: tok in expiry <==> tok in made) && token !in expiry
    ensures token !in made && (forall tok :: tok in expiry[token := at] <==> tok in made + [token])
    ensures forall i :: 0 <= i < |made| ==> made[i] in expiry
  {
  }

  lemma DistinctGrows(order: seq<Token>, token: Token)
    requires Distinct(order) && token !in order
    ensures Distinct(order + [token])
  {
  }

  lemma OrderGrows(order: seq<Token>, expiry: map<Token, Time>, token: Token, at: Time)
    requires InOrder(order, expiry) && token !in expiry && forall tok :: tok in expiry ==> expiry[tok] <= at
    ensures InOrder(order + [token], expiry[token := at])
  {
  }

  lemma BackingGrows(byTok: map<Token, Entry>, order: seq<Token>, expiry: map<Token, Time>, clock: Time, token: Token, e: Entry, now: Time)
    requires InOrder(order, expiry) && Backed(byTok, order, expiry, clock) && clock <= now && token !in expiry
    requires forall tok :: tok in order ==> tok in byTok
    ensures Backed(byTok[token := e], order + [token], expiry[token := e.expiresAt], now)
  {
    hide InOrder;
  }

  /** With the cap already kept, only a full store loses an unexpired token, and only the oldest. */
  lemma CreateEvictsOnlyOldest(live: seq<Token>, token: Token, maxN: nat)
    requires |live| <= maxN && maxN > 0
    ensures Newest(Newest(live, maxN) + [token], maxN) == (if |live| < maxN then live else live[1..]) + [token]
  {
  }
}
