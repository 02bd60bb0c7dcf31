/**
 Prompt-history paging (vscode-extension/app.go): a tape over all session files,
 read lazily page by page behind a cursor. The pages are slices of one flat list,
 and the cache fixes every session at its first read.
 */
module PromptTape {
  import opened Wrappers

  type Path = string
  type Nonce = string

  datatype Entry = Entry(session: Path, turn: nat, text: string)

  /** A session file as it can be read at some moment; a path without one does not exist. */
  datatype File = Unreadable | Prompts(entries: seq<Entry>)

  type Disk = map<Path, File>

  /** A decoded cursor; the fields are whatever the client sent. */
  datatype Cursor = Cursor(nonce: Nonce, session: int, offset: int)

  datatype Page = Page(entries: seq<Entry>, nonce: Nonce, older: Option<Cursor>, hasOlder: bool)

  const PAGE_LIMIT := 50
  const MAX_PAGE_LIMIT := 200

  function PageLimit(limit: int): (n: nat)
    ensures 1 <= n <= MAX_PAGE_LIMIT
    ensures limit <= 0 ==> n == PAGE_LIMIT
    ensures limit > MAX_PAGE_LIMIT ==> n == MAX_PAGE_LIMIT
    ensures 1 <= limit <= MAX_PAGE_LIMIT ==> n == limit
  {
    if limit <= 0 then PAGE_LIMIT else if limit > MAX_PAGE_LIMIT then MAX_PAGE_LIMIT else limit
  }

  function Min(a: int, b: int): int {
    if a < b then a else b
  }

  // ---------- the flat list ----------

  function Flat(sessions: seq<seq<Entry>>): seq<Entry> {
    if sessions == [] then [] else sessions[0] + Flat(sessions[1..])
  }

  /** The index in the flat list that a cursor stands at; an offset past a session's end stands at its end. */
  function Position(sessions: seq<seq<Entry>>, session: nat, offset: nat): (pos: nat)
    ensures pos <= |Flat(sessions)|
    decreases session
  {
    if sessions == [] then 0
    else if session == 0 then Min(offset, |sessions[0]|)
    else |sessions[0]| + Position(sessions[1..], session - 1, offset)
  }

  lemma {:induction false} PositionAtEnd(sessions: seq<seq<Entry>>, session: nat, offset: nat)
    requires session >= |sessions|
    ensures Position(sessions, session, offset) == |Flat(sessions)|
    decreases session
  {
    if sessions != [] {
      PositionAtEnd(sessions[1..], session - 1, offset);
    }
  }

  /** The end of a session and the start of the next are the same place. */
  lemma {:induction false} PositionNext(sessions: seq<seq<Entry>>, session: nat, offset: nat)
    requires session < |sessions| && offset >= |sessions[session]|
    ensures Position(sessions, session + 1, 0) == Position(sessions, session, offset)
    decreases session
  {
    if session > 0 {
      PositionNext(sessions[1..], session - 1, offset);
    } else {
      assert Position(sessions[1..], 0, 0) == 0;
    }
  }

  /** A run of one session's entries is a run of the flat list. */
  lemma {:induction false} FlatSlice(sessions: seq<seq<Entry>>, session: nat, offset: nat, end: nat)
    requires session < |sessions| && offset <= end <= |sessions[session]|
    ensures var pos := Position(sessions, session, offset);
            && Position(sessions, session, end) == pos + (end - offset) <= |Flat(sessions)|
            && Flat(sessions)[pos..pos + (end - offset)] == sessions[session][offset..end]
    decreases session
  {
    if session > 0 {
      FlatSlice(sessions[1..], session - 1, offset, end);
      var pos := Position(sessions[1..], session - 1, offset);
      assert Flat(sessions)[|sessions[0]| + pos..|sessions[0]| + pos + (end - offset)] == Flat(sessions[1..])[pos..pos + (end - offset)];
    } else {
      assert Flat(sessions)[offset..end] == sessions[0][offset..end];
    }
  }

  /** What lies before a cursor's place. */
  function Before(sessions: seq<seq<Entry>>, session: nat, offset: nat): seq<Entry>
    decreases session
  {
    if sessions == [] then []
    else if session == 0 then sessions[0][..Min(offset, |sessions[0]|)]
    else sessions[0] + Before(sessions[1..], session - 1, offset)
  }

  lemma {:induction false} BeforeIsPrefix(sessions: seq<seq<Entry>>, session: nat, offset: nat)
    ensures Flat(sessions)[..Position(sessions, session, offset)] == Before(sessions, session, offset)
    decreases session
  {
    if sessions != [] && session > 0 {
      BeforeIsPrefix(sessions[1..], session - 1, offset);
      PrefixOfConcat(sessions[0], Flat(sessions[1..]), Position(sessions[1..], session - 1, offset));
    }
  }

  /** It depends only on the sessions up to there. */
  lemma {:induction false} BeforeDependsOn(a: seq<seq<Entry>>, b: seq<seq<Entry>>, session: nat, offset: nat)
    requires |a| == |b| && forall i :: 0 <= i < session && i < |a| ==> a[i] == b[i]
    requires offset > 0 && session < |a| ==> a[session] == b[session]
    ensures Before(a, session, offset) == Before(b, session, offset)
    decreases session
  {
    if a != [] && session > 0 {
      BeforeDependsOn(a[1..], b[1..], session - 1, offset);
    }
  }

  lemma PrefixOfConcat(head: seq<Entry>, rest: seq<Entry>, pos: nat)
    requires pos <= |rest|
    ensures (head + rest)[..|head| + pos] == head + rest[..pos]
  {
  }

  lemma Joins(flat: seq<Entry>, pos: nat, n: nat, more: nat)
    requires pos + n + more <= |flat|
    ensures flat[pos..pos + n] + flat[pos + n..pos + n + more] == flat[pos..pos + n + more]
  {
  }

  /** out is the run of the flat list from the first place to the second. */
  ghost predicate Walked(view: seq<seq<Entry>>, pos: nat, session: nat, offset: nat, out: seq<Entry>) {
    pos + |out| == Position(view, session, offset) && out == Flat(view)[pos..pos + |out|]
  }

  lemma WalkedStart(view: seq<seq<Entry>>, session: nat, offset: nat)
    ensures Walked(view, Position(view, session, offset), session, offset, [])
  {
  }

  predicate Further(session0: int, offset0: int, session: int, offset: int) {
    session > session0 || (session == session0 && offset > offset0)
  }

  predicate NotBefore(session0: int, offset0: int, session: int, offset: int) {
    (session == session0 && offset == offset0) || Further(session0, offset0, session, offset)
  }

  lemma FurtherSkip(session0: int, offset0: int, session: int, offset: int)
    requires NotBefore(session0, offset0, session, offset)
    ensures Further(session0, offset0, session + 1, 0)
  {
  }

  lemma FurtherTake(session0: int, offset0: int, session: int, offset: int, end: int)
    requires NotBefore(session0, offset0, session, offset) && offset < end
    ensures Further(session0, offset0, session, end)
  {
  }

  lemma WalkedSkip(view: seq<seq<Entry>>, pos: nat, session: nat, offset: nat, out: seq<Entry>)
    requires Walked(view, pos, session, offset, out) && session < |view| && offset >= |view[session]|
    ensures Walked(view, pos, session + 1, 0, out)
  {
    PositionNext(view, session, offset);
  }

  lemma WalkedTake(view: seq<seq<Entry>>, pos: nat, session: nat, offset: nat, out: seq<Entry>, end: nat)
    requires Walked(view, pos, session, offset, out) && session < |view| && offset <= end <= |view[session]|
    ensures Walked(view, pos, session, end, out + view[session][offset..end])
  {
    hide Flat, Position;
    FlatSlice(view, session, offset, end);
    Joins(Flat(view), pos, |out|, end - offset);
  }

  /** A full page ends at its limit; a page that ran off the last session ends at the end of the list. */
  lemma WalkedPage(view: seq<seq<Entry>>, pos: nat, session: nat, offset: nat, out: seq<Entry>, limit: nat)
    requires Walked(view, pos, session, offset, out) && |out| <= limit && (session < |view| ==> |out| == limit)
    ensures out == Flat(view)[pos..Min(pos + limit, |Flat(view)|)]
    ensures session >= |view| ==> pos + limit >= |Flat(view)|
    ensures session < |view| ==> Position(view, session, offset) == pos + limit
  {
    hide Flat, Position;
    if session >= |view| {
      PositionAtEnd(view, session, offset);
    }
  }

  // ---------- the tape ----------

  class Tape {
    const nonce: Nonce
    const sessions: seq<Path>
    var loaded: map<Path, seq<Entry>>

    constructor (nonce: Nonce, sessions: seq<Path>)
      ensures this.nonce == nonce && this.sessions == sessions && loaded == map[]
    {
      this.nonce, this.sessions, loaded := nonce, sessions, map[];
    }

    /** What the tape takes a session to hold: its first reading, or else what the disk says now. */
    ghost function Seen(path: Path, disk: Disk): seq<Entry>
      reads this
    {
      if path in loaded then loaded[path]
      else if path in disk && disk[path].Prompts? then disk[path].entries
      else []
    }

    ghost function View(disk: Disk): (view: seq<seq<Entry>>)
      reads this
      ensures |view| == |sessions|
    {
      seq(|sessions|, i requires 0 <= i < |sessions| reads this => Seen(sessions[i], disk))
    }

    /** Every session before the cursor's place, and the one it is inside of, has been read. */
    ghost predicate ReadUpTo(session: nat, offset: nat)
      reads this
    {
      && (forall i :: 0 <= i < session && i < |sessions| ==> sessions[i] in loaded)
      && (offset > 0 && session < |sessions| ==> sessions[session] in loaded)
    }

    method EntriesForSession(index: int, disk: Disk) returns (entries: seq<Entry>, failed: bool)
      requires 0 <= index < |sessions|
      modifies this
      ensures old(loaded.Keys) + {sessions[index]} == loaded.Keys
      ensures forall p :: p in old(loaded) ==> loaded[p] == old(loaded)[p]
      ensures View(disk) == old(View(disk))
      ensures forall s, o :: old(ReadUpTo(s, o)) ==> ReadUpTo(s, o)
      ensures entries == View(disk)[index] == loaded[sessions[index]] && (failed ==> entries == [])
      ensures var path := sessions[index];
              if path in old(loaded) then entries == old(loaded)[path] && !failed
              else if path in disk && disk[path].Prompts? then entries == disk[path].entries && !failed
              else entries == [] && (failed <==> path in disk)
    {
      var path := sessions[index];
      if path in loaded {
        return loaded[path], false;
      }
      if path !in disk {
        loaded := loaded[path := []];
        return [], false;
      }
      match disk[path]
      case Unreadable =>
        loaded := loaded[path := []];
        return [], true;
      case Prompts(read) =>
        loaded := loaded[path := read];
        return read, false;
    }

    lemma ReadSkip(session: nat, offset: nat)
      requires session < |sessions| && sessions[session] in loaded
      ensures ReadUpTo(session, offset) ==> ReadUpTo(session + 1, 0)
    {
    }

    lemma ReadTake(session: nat, offset: nat, end: nat)
      requires session < |sessions| && sessions[session] in loaded
      ensures ReadUpTo(session, offset) ==> ReadUpTo(session, end)
    {
    }

    lemma ReadEnd(session: nat, offset: nat)
      requires session >= |sessions|
      ensures ReadUpTo(session, offset) ==> ReadUpTo(|sessions|, 0)
    {
    }

    lemma LoadedIsSeen(index: nat, disk: Disk)
      requires index < |sessions| && sessions[index] in loaded
      ensures View(disk)[index] == loaded[sessions[index]]
    {
    }

    ghost function Start(cursor: Option<Cursor>): (int, int) {
      if cursor.Some? && cursor.value.nonce == nonce then
        (if cursor.value.session < 0 then 0 else cursor.value.session, if cursor.value.offset < 0 then 0 else cursor.value.offset)
      else (0, 0)
    }

    /**
     One page: the next limit entries of the flat list after the cursor, and a
     cursor that stands right behind them. The page is short only at the end.
     */
    method ReadOlder(cursor: Option<Cursor>, limit: nat, disk: Disk) returns (page: Page)
      requires limit >= 1
      modifies this
      ensures View(disk) == old(View(disk)) && old(loaded.Keys) <= loaded.Keys
      ensures forall p :: p in old(loaded) ==> loaded[p] == old(loaded)[p]
      ensures var flat, pos := Flat(View(disk)), Position(View(disk), Start(cursor).0, Start(cursor).1);
              && page.entries == flat[pos..Min(pos + limit, |flat|)]
              && (page.hasOlder ==> |page.entries| == limit)
              && (!page.hasOlder ==> pos + limit >= |flat|)
              && (page.hasOlder <==> page.older.Some?)
              && (page.hasOlder ==>
                    var c := page.older.value;
                    && c.nonce == nonce && 0 <= c.session < |sessions| && 0 <= c.offset
                    && Position(View(disk), c.session, c.offset) == pos + limit
                    && Further(Start(cursor).0, Start(cursor).1, c.session, c.offset)
                    && (c.offset > 0 ==> sessions[c.session] in loaded && c.offset < |loaded[sessions[c.session]]|))
      ensures old(ReadUpTo(Start(cursor).0, Start(cursor).1)) ==>
                if page.hasOlder then ReadUpTo(page.older.value.session, page.older.value.offset) else ReadUpTo(|sessions|, 0)
    {
      hide Flat, Position, View, Seen, Walked, ReadUpTo, Further;
      var sessionIndex, offset := 0, 0;
      if cursor.Some? && cursor.value.nonce == nonce {
        sessionIndex, offset := cursor.value.session, cursor.value.offset;
      }
      if sessionIndex < 0 {
        sessionIndex := 0;
      }
      if offset < 0 {
        offset := 0;
      }
      var out := [];
      ghost var view := View(disk);
      ghost var pos := Position(view, sessionIndex, offset);
      ghost var session0, offset0 := sessionIndex, offset;
      WalkedStart(view, sessionIndex, offset);
      while sessionIndex < |sessions| && |out| < limit
        invariant 0 <= sessionIndex && 0 <= offset && |out| <= limit
        invariant View(disk) == view && old(loaded.Keys) <= loaded.Keys
        invariant forall p :: p in old(loaded) ==> loaded[p] == old(loaded)[p]
        invariant Walked(view, pos, sessionIndex, offset, out)
        invariant Further(session0, offset0, sessionIndex, offset) || (sessionIndex == session0 && offset == offset0 && out == [])
        invariant out != [] && offset > 0 && sessionIndex < |sessions| ==> sessions[sessionIndex] in loaded
        invariant old(ReadUpTo(session0, offset0)) ==> ReadUpTo(sessionIndex, offset)
        decreases |sessions| - sessionIndex, limit - |out|
      {
        var entries, failed := EntriesForSession(sessionIndex, disk);
        if failed || offset >= |entries| {
          WalkedSkip(view, pos, sessionIndex, offset, out);
          FurtherSkip(session0, offset0, sessionIndex, offset);
          ReadSkip(sessionIndex, offset);
          sessionIndex, offset := sessionIndex + 1, 0;
          continue;
        }
        var end := Min(|entries|, offset + limit - |out|);
        WalkedTake(view, pos, sessionIndex, offset, out, end);
        FurtherTake(session0, offset0, sessionIndex, offset, end);
        ReadTake(sessionIndex, offset, end);
        out := out + entries[offset..end];
        offset := end;
        if offset >= |entries| && |out| < limit {
          WalkedSkip(view, pos, sessionIndex, offset, out);
          FurtherSkip(session0, offset0, sessionIndex, offset);
          ReadSkip(sessionIndex, offset);
          sessionIndex, offset := sessionIndex + 1, 0;
        }
      }
      if sessionIndex < |sessions| {
        if sessions[sessionIndex] in loaded && offset >= |loaded[sessions[sessionIndex]]| {
          LoadedIsSeen(sessionIndex, disk);
          WalkedSkip(view, pos, sessionIndex, offset, out);
          FurtherSkip(session0, offset0, sessionIndex, offset);
          ReadSkip(sessionIndex, offset);
          sessionIndex, offset := sessionIndex + 1, 0;
        }
      }
      var hasOlder := sessionIndex < |sessions|;
      if !hasOlder {
        ReadEnd(sessionIndex, offset);
      }
      WalkedPage(view, pos, sessionIndex, offset, out, limit);
      page := Page(out, nonce, if hasOlder then Some(Cursor(nonce, sessionIndex, offset)) else None, hasOlder);
    }

    /** ScanPromptHistory on an existing tape: whatever limit a client asks for, it gets a page of a legal size. */
    method Scan(cursor: Option<Cursor>, limit: int, disk: Disk) returns (page: Page)
      modifies this
      ensures View(disk) == old(View(disk))
      ensures var flat, pos := Flat(View(disk)), Position(View(disk), Start(cursor).0, Start(cursor).1);
              && page.entries == flat[pos..Min(pos + PageLimit(limit), |flat|)]
              && (page.hasOlder ==> 1 <= |page.entries| <= MAX_PAGE_LIMIT)
              && (!page.hasOlder ==> pos + |page.entries| == |flat|)
      ensures cursor.None? || cursor.value.nonce != nonce ==> page.entries == Flat(View(disk))[..Min(PageLimit(limit), |Flat(View(disk))|)]
      ensures cursor.Some? && cursor.value.nonce == nonce ==>
                var s, o := cursor.value.session, cursor.value.offset;
                var pos := Position(View(disk), if s < 0 then 0 else s, if o < 0 then 0 else o);
                page.entries == Flat(View(disk))[pos..Min(pos + PageLimit(limit), |Flat(View(disk))|)]
    {
      hide Flat, View;
      FirstPlace(View(disk));
      hide Position;
      page := ReadOlder(cursor, PageLimit(limit), disk);
    }

    /** readAll: the walk with the largest pages. */
    method ReadAll(disks: nat -> Disk) returns (out: seq<Entry>)
      modifies this
      ensures forall i :: 0 <= i < |sessions| ==> sessions[i] in loaded
      ensures out == Flat(View(map[]))
      ensures (forall n :: disks(n) == disks(0)) ==> out == Flat(old(View(disks(0))))
    {
      hide Flat, View;
      out := WalkAll(MAX_PAGE_LIMIT, disks);
    }

    /**
     The whole tape along the cursors, in pages of any size; the files may change
     between pages. Every session appears once, in order, as it was at its first reading.
     */
    method WalkAll(limit: nat, disks: nat -> Disk) returns (out: seq<Entry>)
      requires limit >= 1
      modifies this
      ensures forall i :: 0 <= i < |sessions| ==> sessions[i] in loaded
      ensures forall p :: p in old(loaded) ==> p in loaded && loaded[p] == old(loaded)[p]
      ensures out == Flat(View(map[]))
      ensures (forall n :: disks(n) == disks(0)) ==> out == Flat(old(View(disks(0))))
    {
      hide Flat, Position, View, Seen, Before, ReadUpTo, Min;
      out := [];
      var cursor: Option<Cursor> := None;
      var n := 0;
      ghost var still := forall k :: disks(k) == disks(0);
      ghost var first := View(disks(0));
      StartIsEmpty(View(disks(0)));
      NothingToRead();
      while true
        invariant cursor.Some? ==> cursor.value.nonce == nonce && 0 <= cursor.value.session < |sessions| && 0 <= cursor.value.offset
        invariant ReadUpTo(Start(cursor).0, Start(cursor).1)
        invariant Start(cursor).1 > 0 ==>
                    Start(cursor).0 < |sessions| && sessions[Start(cursor).0] in loaded &&
                    Start(cursor).1 < |loaded[sessions[Start(cursor).0]]|
        invariant forall p :: p in old(loaded) ==> p in loaded && loaded[p] == old(loaded)[p]
        invariant out == Before(View(disks(n)), Start(cursor).0, Start(cursor).1)
        invariant still ==> View(disks(n)) == first
        decreases |sessions| - Start(cursor).0, if Start(cursor).1 == 0 then 1 else 0,
                  if Start(cursor).1 == 0 then 0 else |loaded[sessions[Start(cursor).0]]| - Start(cursor).1
      {
        ghost var view, s, o := View(disks(n)), Start(cursor).0, Start(cursor).1;
        var page := ReadOlder(cursor, limit, disks(n));
        BeforeIsPrefix(view, s, o);
        PageAppended(Flat(view), Position(view, s, o), limit, out, page.entries);
        out := out + page.entries;
        if !page.hasOlder || page.older.None? {
          SeenWhenLoaded(disks(n), map[]);
          return;
        }
        cursor := page.older;
        BeforeIsPrefix(view, cursor.value.session, cursor.value.offset);
        ViewUpTo(disks(n), disks(n + 1), cursor.value.session, cursor.value.offset);
        n := n + 1;
      }
    }

    lemma SeenWhenLoaded(d: Disk, e: Disk)
      requires ReadUpTo(|sessions|, 0)
      ensures View(d) == View(e)
      ensures forall i :: 0 <= i < |sessions| ==> sessions[i] in loaded
    {
    }

    lemma NothingToRead()
      ensures ReadUpTo(0, 0)
    {
    }

    lemma ViewUpTo(d: Disk, e: Disk, session: nat, offset: nat)
      requires ReadUpTo(session, offset)
      ensures Before(View(d), session, offset) == Before(View(e), session, offset)
    {
      BeforeDependsOn(View(d), View(e), session, offset);
    }
  }

  lemma FirstPlace(sessions: seq<seq<Entry>>)
    ensures Position(sessions, 0, 0) == 0
  {
  }

  /** A page put behind what was read: the list up to the page's end. */
  lemma PageAppended(flat: seq<Entry>, pos: nat, limit: nat, read: seq<Entry>, page: seq<Entry>)
    requires pos <= |flat| && read == flat[..pos] && page == flat[pos..Min(pos + limit, |flat|)]
    ensures pos + limit >= |flat| ==> read + page == flat
    ensures pos + limit <= |flat| ==> read + page == flat[..pos + limit]
  {
  }

  lemma StartIsEmpty(sessions: seq<seq<Entry>>)
    ensures Before(sessions, 0, 0) == []
  {
  }
}
