/**
 The on-disk redirect that lets a session be found again by id after a recovery
 moved it to another file (internal/acp/service.go). The sidecars of one session
 directory are changed in place; a lookup follows at most one redirect.
 */
module AcpRedirect {
  import opened Wrappers
  import opened Messages

  type Name = string
  type Time = int

  /** The sidecar of a transcript file; an absent time is the zero time. */
  datatype Meta = Meta(
    sessionID: string,
    cwd: string,
    model: string,
    effort: Option<string>,
    title: string,
    created: Option<Time>,
    updated: Option<Time>,
    active: Name)

  datatype Sidecar = Garbled | Readable(meta: Meta)

  /** One session directory: the sidecars by the transcript they belong to, and the transcripts that exist. */
  datatype Disk = Disk(metas: map<Name, Sidecar>, files: set<Name>)

  const EMPTY_META := Meta("", "", "", None, "", None, None, "")

  function TranscriptName(id: string): Name {
    id + ['.', 'j', 's', 'o', 'n', 'l']
  }

  function IdOfTranscript(name: Name): string {
    if |name| >= 6 && name[|name| - 6..] == ['.', 'j', 's', 'o', 'n', 'l'] then name[..|name| - 6] else name
  }

  /** A base name: nothing that would leave the directory. */
  predicate Plain(name: Name) {
    '/' !in name
  }

  function MetaOf(d: Disk, name: Name): Option<Meta> {
    if name in d.metas && d.metas[name].Readable? then Some(d.metas[name].meta) else None
  }

  predicate Claims(d: Disk, name: Name, id: string) {
    MetaOf(d, name).Some? && MetaOf(d, name).value.sessionID == id
  }

  /** The file the id-keyed sidecar points away to, if it says so at all. */
  function RedirectOf(d: Disk, id: string): Option<Name> {
    var m := MetaOf(d, TranscriptName(id));
    if m.None? then None
    else
      var active := TrimSpace(m.value.active);
      if active == "" || active == TranscriptName(id) then None else Some(active)
  }

  function Resolve(d: Disk, id: string): Name {
    var to := RedirectOf(d, id);
    if to.Some? && Plain(to.value) && to.value in d.files && Claims(d, to.value, id) then to.value else TranscriptName(id)
  }

  function Filled(name: Name, m: Meta, now: Time): Meta {
    var created := if m.created.None? then now else m.created.value;
    m.(sessionID := if m.sessionID == "" then IdOfTranscript(name) else m.sessionID,
       created := Some(created),
       updated := if m.updated.None? then Some(created) else m.updated)
  }

  function Save(d: Disk, name: Name, m: Meta, now: Time, ok: bool): Disk {
    if ok then d.(metas := d.metas[name := Readable(Filled(name, m, now))]) else d
  }

  /** The id-keyed sidecar with the redirect in it; everything it already said stays. */
  function Redirected(d: Disk, id: string, m: Meta, recovery: Name): Meta {
    var base := if MetaOf(d, TranscriptName(id)).Some? then MetaOf(d, TranscriptName(id)).value else EMPTY_META;
    base.(sessionID := if base.sessionID == "" then id else base.sessionID,
          cwd := if base.cwd == "" then m.cwd else base.cwd,
          created := if base.created.None? then m.created else base.created,
          active := recovery)
  }

  /** What a recovery commit writes, given which of its two saves succeed. */
  function CommitRecovery(d: Disk, id: string, m: Meta, recovery: Name, now: Time, metaOk: bool, redirectOk: bool): Disk {
    var first := Save(d, recovery, m, now, metaOk);
    if TranscriptName(id) == recovery then first
    else Save(first, TranscriptName(id), Redirected(first, id, m, recovery), now, redirectOk)
  }

  // ---------- the directory changed in place ----------

  class SessionDir {
    var metas: map<Name, Sidecar>
    var files: set<Name>

    constructor (metas: map<Name, Sidecar>, files: set<Name>)
      ensures View() == Disk(metas, files)
    {
      this.metas, this.files := metas, files;
    }

    ghost function View(): Disk
      reads this
    {
      Disk(metas, files)
    }

    /** loadACPMeta: ok says that the sidecar exists, failed that it could not be read. */
    method Load(name: Name) returns (m: Meta, ok: bool, failed: bool)
      ensures ok == MetaOf(View(), name).Some? && (ok ==> m == MetaOf(View(), name).value)
      ensures failed == (name in metas && metas[name].Garbled?)
      ensures !ok ==> m == EMPTY_META
    {
      if name !in metas {
        return EMPTY_META, false, false;
      }
      match metas[name]
      case Garbled => return EMPTY_META, false, true;
      case Readable(meta) => return meta, true, false;
    }

    method ResolveTranscript(id: string) returns (name: Name)
      ensures name == Resolve(View(), id)
    {
      var path := TranscriptName(id);
      var m, ok, failed := Load(path);
      if failed || !ok {
        return path;
      }
      var active := TrimSpace(m.active);
      if active == "" || active == path {
        return path;
      }
      if !Plain(active) {
        return path;
      }
      if active !in files {
        return path;
      }
      var target, found, unreadable := Load(active);
      if unreadable || !found || target.sessionID != id {
        return path;
      }
      return active;
    }

    method SaveMeta(name: Name, m: Meta, now: Time, ok: bool)
      modifies this
      ensures View() == Save(old(View()), name, m, now, ok)
    {
      var meta := m;
      if meta.sessionID == "" {
        meta := meta.(sessionID := IdOfTranscript(name));
      }
      if meta.created.None? {
        meta := meta.(created := Some(now));
      }
      if meta.updated.None? {
        meta := meta.(updated := meta.created);
      }
      if ok {
        metas := metas[name := Readable(meta)];
      }
    }

    /** The last part of the recovery callback: the recovery file's sidecar, then the redirect. */
    method BindRecovery(id: string, m: Meta, recovery: Name, now: Time, metaOk: bool, redirectOk: bool)
      modifies this
      ensures View() == CommitRecovery(old(View()), id, m, recovery, now, metaOk, redirectOk)
    {
      SaveMeta(recovery, m, now, metaOk);
      var idPath := TranscriptName(id);
      if idPath != recovery {
        var idMeta, ok, failed := Load(idPath);
        if idMeta.sessionID == "" {
          idMeta := idMeta.(sessionID := id);
        }
        if idMeta.cwd == "" {
          idMeta := idMeta.(cwd := m.cwd);
        }
        if idMeta.created.None? {
          idMeta := idMeta.(created := m.created);
        }
        idMeta := idMeta.(active := recovery);
        SaveMeta(idPath, idMeta, now, redirectOk);
      }
    }
  }

  // ---------- what a lookup finds ----------

  /** A name the controller gives a recovery file: a base name, without blanks around it. */
  predicate FileName(n: Name) {
    Plain(n) && n != "" && TrimSpace(n) == n
  }

  /** The id-keyed sidecar names n, n exists, and n's own sidecar claims the id. */
  predicate LeadsTo(d: Disk, id: string, n: Name) {
    RedirectOf(d, id) == Some(n) && Plain(n) && n in d.files && Claims(d, n, id)
  }

  /** A lookup leaves the id-keyed file for exactly the one file that is named there, exists and claims the id; no second redirect is read. */
  lemma ResolveLeadsTo(d: Disk, id: string, n: Name)
    requires n != TranscriptName(id)
    ensures Resolve(d, id) == n <==> LeadsTo(d, id, n)
  {
  }

  // ---------- what a sidecar then says ----------

  /**
   What is saved is read back: all that the metadata said, with the id of the file's
   name if it named none, and times if it had none. Every other sidecar stays.
   */
  lemma SavedIsReadBack(d: Disk, name: Name, m: Meta, now: Time, other: Name)
    ensures var after := Save(d, name, m, now, true);
            && MetaOf(after, name).Some?
            && var got := MetaOf(after, name).value;
               && got.cwd == m.cwd && got.model == m.model && got.effort == m.effort && got.title == m.title && got.active == m.active
               && (m.sessionID != "" ==> got.sessionID == m.sessionID)
               && (m.sessionID == "" ==> got.sessionID == IdOfTranscript(name))
               && (m.created.Some? ==> got.created == m.created) && (m.created.None? ==> got.created == Some(now))
               && (m.updated.Some? ==> got.updated == m.updated) && (m.updated.None? ==> got.updated == got.created)
               && (other != name ==> MetaOf(after, other) == MetaOf(d, other)) && after.files == d.files
    ensures Save(d, name, m, now, false) == d
  {
  }

  lemma TranscriptNames(id: string)
    ensures IdOfTranscript(TranscriptName(id)) == id
  {
  }

  // ---------- one recovery commit ----------

  /** The sidecar metadata of a live session: its own id, and never a redirect. */
  predicate OfSession(m: Meta, id: string) {
    id != "" && m.sessionID == id && m.active == ""
  }

  /** After the first save the recovery file's sidecar claims the id: just written, or found so. */
  predicate ClaimsAfter(d: Disk, id: string, recovery: Name, metaOk: bool) {
    recovery in d.files && (metaOk || Claims(d, recovery, id))
  }

  /**
   What a lookup finds after a recovery commit, whichever of its two saves succeed
   and whatever the directory held. If the id-keyed sidecar now names the recovery
   file, that file exactly when its own sidecar claims the id, else the id-keyed one;
   if the redirect was lost, what it found before. A recovery onto the id-keyed file
   itself needs no redirect.
   */
  lemma CommitResolves(d: Disk, id: string, m: Meta, recovery: Name, now: Time, metaOk: bool, redirectOk: bool)
    requires OfSession(m, id) && FileName(recovery)
    ensures Resolve(CommitRecovery(d, id, m, recovery, now, metaOk, redirectOk), id) ==
            if recovery == TranscriptName(id) then (if metaOk then recovery else Resolve(d, id))
            else if !redirectOk && RedirectOf(d, id) != Some(recovery) then Resolve(d, id)
            else if ClaimsAfter(d, id, recovery, metaOk) then recovery
            else TranscriptName(id)
  {
    var first := Save(d, recovery, m, now, metaOk);
    assert TrimSpace("") == "";
    assert recovery != TranscriptName(id) ==> MetaOf(first, TranscriptName(id)) == MetaOf(d, TranscriptName(id));
    hide TranscriptName, TrimSpace, Plain, IdOfTranscript;
  }

  /** The commit leaves every other sidecar alone, and of the id-keyed one everything that it said. */
  lemma CommitKeepsTheRest(d: Disk, id: string, m: Meta, recovery: Name, now: Time, metaOk: bool, redirectOk: bool, other: Name)
    requires recovery != TranscriptName(id)
    ensures var after := CommitRecovery(d, id, m, recovery, now, metaOk, redirectOk);
            && after.files == d.files
            && (other != recovery && other != TranscriptName(id) ==> MetaOf(after, other) == MetaOf(d, other))
            && (MetaOf(d, TranscriptName(id)).Some? && MetaOf(after, TranscriptName(id)).Some? ==>
                  var before, later := MetaOf(d, TranscriptName(id)).value, MetaOf(after, TranscriptName(id)).value;
                  later.model == before.model && later.effort == before.effort && later.title == before.title
                  && (before.cwd != "" ==> later.cwd == before.cwd)
                  && (before.sessionID != "" ==> later.sessionID == before.sessionID)
                  && (before.created.Some? ==> later.created == before.created))
  {
  }

  /** After a commit whose saves succeeded the recovery file has the session's metadata, and the id-keyed sidecar names it. */
  lemma CommitRecords(d: Disk, id: string, m: Meta, recovery: Name, now: Time)
    requires OfSession(m, id) && recovery != TranscriptName(id)
    ensures var after := CommitRecovery(d, id, m, recovery, now, true, true);
            && MetaOf(after, recovery).Some? && MetaOf(after, TranscriptName(id)).Some?
            && var there, here := MetaOf(after, recovery).value, MetaOf(after, TranscriptName(id)).value;
               && there.sessionID == id && there.cwd == m.cwd && there.model == m.model && there.title == m.title && there.active == ""
               && here.active == recovery
               && (MetaOf(d, TranscriptName(id)).None? ==>
                     here.sessionID == id && here.cwd == m.cwd && here.title == "" && (m.created.Some? ==> here.created == m.created))
  {
    hide TranscriptName, IdOfTranscript;
  }

  // ---------- whole runs ----------

  /** What happens around one session's files, and which of the saves succeed. */
  datatype Event =
    | Saved(m: Meta, ok: bool)                  // turn end or config commit writes the live file's sidecar
    | Recovered(m: Meta, recovery: Name, metaOk: bool, redirectOk: bool)   // the controller moved to another file, new or found there
    | Restarted(m: Meta, ok: bool)              // another process opens the id
    | Elsewhere(name: Name, sidecar: Sidecar)   // some other session's file and sidecar

  datatype State = State(disk: Disk, live: Name)

  predicate Happens(s: State, id: string, e: Event) {
    match e
    case Saved(m, _) => OfSession(m, id)
    case Recovered(m, recovery, _, _) => OfSession(m, id) && FileName(recovery)
    case Restarted(m, _) => OfSession(m, id)
    case Elsewhere(name, sidecar) => name != TranscriptName(id) && name != s.live && (sidecar.Readable? ==> sidecar.meta.sessionID != id)
  }

  /** A process opens the file that the lookup finds if it exists, its sidecar is no garbage, and the new one can be saved. */
  predicate Opens(s: State, id: string, ok: bool) {
    var path := Resolve(s.disk, id);
    path in s.disk.files && !(path in s.disk.metas && s.disk.metas[path].Garbled?) && ok
  }

  function After1(s: State, id: string, e: Event, now: Time): State {
    match e
    case Saved(m, ok) => if s.live in s.disk.files then s.(disk := Save(s.disk, s.live, m, now, ok)) else s
    case Recovered(m, recovery, metaOk, redirectOk) =>
      State(CommitRecovery(s.disk.(files := s.disk.files + {recovery}), id, m, recovery, now, metaOk, redirectOk), recovery)
    case Restarted(m, ok) =>
      var path := Resolve(s.disk, id);
      if Opens(s, id, ok) then State(Save(s.disk, path, m, now, true), path) else s
    case Elsewhere(name, sidecar) =>
      s.(disk := Disk(s.disk.metas[name := sidecar], s.disk.files + {name}))
  }

  predicate Happen(s: State, id: string, es: seq<Event>, now: Time)
    decreases |es|
  {
    es == [] || (Happens(s, id, es[0]) && Happen(After1(s, id, es[0], now), id, es[1..], now + 1))
  }

  function AfterAll(s: State, id: string, es: seq<Event>, now: Time): State
    decreases |es|
  {
    if es == [] then s else AfterAll(After1(s, id, es[0], now), id, es[1..], now + 1)
  }

  // ---------- what a lookup finds after any run ----------

  /** The states that the events of a run find. */
  function Before(s: State, id: string, es: seq<Event>, now: Time): (states: seq<State>)
    ensures |states| == |es|
    decreases |es|
  {
    if es == [] then [] else [s] + Before(After1(s, id, es[0], now), id, es[1..], now + 1)
  }

  /** The event puts the session's own metadata into the sidecar of file n. */
  predicate SavesOwn(s: State, id: string, e: Event, n: Name) {
    match e
    case Saved(_, ok) => ok && n == s.live && n in s.disk.files
    case Recovered(_, recovery, metaOk, _) => metaOk && n == recovery
    case Restarted(_, ok) => Opens(s, id, ok) && n == Resolve(s.disk, id)
    case Elsewhere(_, _) => false
  }

  /** The event is a recovery whose redirect to n was saved. */
  predicate Redirects(id: string, e: Event, n: Name) {
    e.Recovered? && e.redirectOk && n == e.recovery && n != TranscriptName(id)
  }

  predicate WritesIdKeyed(s: State, id: string, e: Event) {
    SavesOwn(s, id, e, TranscriptName(id)) || (e.Recovered? && Redirects(id, e, e.recovery))
  }

  predicate Overwrites(e: Event, n: Name) {
    e.Elsewhere? && e.name == n
  }

  ghost predicate NoIdKeyedFrom(states: seq<State>, id: string, es: seq<Event>, i: nat)
    requires |states| == |es|
  {
    forall j :: i <= j < |es| ==> !WritesIdKeyed(states[j], id, es[j])
  }

  /** Event i was the last to write the id-keyed sidecar, and wrote the redirect to n. */
  ghost predicate LastRedirect(states: seq<State>, id: string, es: seq<Event>, i: nat, n: Name)
    requires |states| == |es|
  {
    i < |es| && Redirects(id, es[i], n) && NoIdKeyedFrom(states, id, es, i + 1)
  }

  ghost predicate NotOverwrittenFrom(es: seq<Event>, i: nat, n: Name) {
    forall j :: i <= j < |es| ==> !Overwrites(es[j], n)
  }

  /** Event i saved the session's metadata beside n, and no other session's came there since. */
  ghost predicate LastClaim(states: seq<State>, id: string, es: seq<Event>, i: nat, n: Name)
    requires |states| == |es|
  {
    i < |es| && SavesOwn(states[i], id, es[i], n) && NotOverwrittenFrom(es, i + 1, n)
  }

  ghost predicate LastRedirected(states: seq<State>, id: string, es: seq<Event>, n: Name)
    requires |states| == |es|
  {
    exists i: nat :: LastRedirect(states, id, es, i, n)
  }

  ghost predicate Claimed(states: seq<State>, id: string, es: seq<Event>, n: Name)
    requires |states| == |es|
  {
    exists i: nat :: LastClaim(states, id, es, i, n)
  }

  /** Over a run the redirect to n comes from a commit in it, or was there before and stayed. */
  ghost predicate RedirectStands(s: State, id: string, es: seq<Event>, now: Time, n: Name) {
    || LastRedirected(Before(s, id, es, now), id, es, n)
    || (RedirectOf(s.disk, id) == Some(n) && NoIdKeyedFrom(Before(s, id, es, now), id, es, 0))
  }

  /** The claim beside n likewise. */
  ghost predicate ClaimStands(s: State, id: string, es: seq<Event>, now: Time, n: Name) {
    || Claimed(Before(s, id, es, now), id, es, n)
    || (Claims(s.disk, n, id) && NotOverwrittenFrom(es, 0, n))
  }

  /** A save of the session's own metadata. */
  lemma OwnSave(d: Disk, id: string, name: Name, m: Meta, now: Time, ok: bool, n: Name)
    requires OfSession(m, id)
    ensures RedirectOf(Save(d, name, m, now, ok), id) == if ok && name == TranscriptName(id) then None else RedirectOf(d, id)
    ensures Claims(Save(d, name, m, now, ok), n, id) <==> (ok && n == name) || Claims(d, n, id)
  {
    hide TranscriptName, IdOfTranscript;
    assert TrimSpace("") == "";
    hide TrimSpace;
  }

  /** The save of a redirect. */
  lemma RedirectSave(d: Disk, id: string, m: Meta, recovery: Name, now: Time, ok: bool, n: Name)
    requires FileName(recovery) && recovery != TranscriptName(id) && n != TranscriptName(id)
    ensures var after := Save(d, TranscriptName(id), Redirected(d, id, m, recovery), now, ok);
            && RedirectOf(after, id) == (if ok then Some(recovery) else RedirectOf(d, id))
            && (Claims(after, n, id) <==> Claims(d, n, id))
  {
    hide TranscriptName, IdOfTranscript, Plain, TrimSpace;
  }

  lemma CommitEffects(d: Disk, id: string, m: Meta, recovery: Name, now: Time, metaOk: bool, redirectOk: bool, n: Name)
    requires OfSession(m, id) && FileName(recovery) && n != TranscriptName(id)
    ensures var after := CommitRecovery(d, id, m, recovery, now, metaOk, redirectOk);
            && RedirectOf(after, id) == (if recovery == TranscriptName(id) then if metaOk then None else RedirectOf(d, id)
                                         else if redirectOk then Some(recovery) else RedirectOf(d, id))
            && (Claims(after, n, id) <==> (metaOk && n == recovery) || Claims(d, n, id))
            && after.files == d.files
  {
    hide TranscriptName, FileName, OfSession, Redirected, RedirectOf, Claims;
    OwnSave(d, id, recovery, m, now, metaOk, n);
    if recovery != TranscriptName(id) {
      RedirectSave(Save(d, recovery, m, now, metaOk), id, m, recovery, now, redirectOk, n);
    }
  }

  /** What one event does to the redirect and to the claim of a file. */
  lemma StepLookup(s: State, id: string, e: Event, now: Time, n: Name)
    requires Happens(s, id, e) && n != TranscriptName(id)
    ensures var d := After1(s, id, e, now).disk;
            && (RedirectOf(d, id) == Some(n) <==>
                  Redirects(id, e, n) || (RedirectOf(s.disk, id) == Some(n) && !WritesIdKeyed(s, id, e)))
            && (Claims(d, n, id) <==> SavesOwn(s, id, e, n) || (Claims(s.disk, n, id) && !Overwrites(e, n)))
            && s.disk.files <= d.files && (Redirects(id, e, n) ==> Plain(n) && n in d.files)
  {
    hide TranscriptName, Plain, Resolve, Save, OfSession, CommitRecovery, Opens;
    match e
    case Saved(m, ok) =>
      hide RedirectOf, Claims;
      OwnSave(s.disk, id, s.live, m, now, ok, n);
      assert Save(s.disk, s.live, m, now, ok).files == s.disk.files by { SaveKeepsFiles(s.disk, s.live, m, now, ok); }
    case Recovered(m, recovery, metaOk, redirectOk) =>
      var d := s.disk.(files := s.disk.files + {recovery});
      assert RedirectOf(d, id) == RedirectOf(s.disk, id) && Claims(d, n, id) == Claims(s.disk, n, id);
      hide RedirectOf, Claims;
      CommitEffects(d, id, m, recovery, now, metaOk, redirectOk, n);
    case Restarted(m, ok) =>
      hide RedirectOf, Claims;
      OwnSave(s.disk, id, Resolve(s.disk, id), m, now, true, n);
      SaveKeepsFiles(s.disk, Resolve(s.disk, id), m, now, true);
    case Elsewhere(name, sidecar) =>
      hide TrimSpace;
  }

  lemma SaveKeepsFiles(d: Disk, name: Name, m: Meta, now: Time, ok: bool)
    ensures Save(d, name, m, now, ok).files == d.files
  {
  }

  /** The first event and the rest of a run. */
  lemma RedirectAlong(s: State, rest: seq<State>, id: string, es: seq<Event>, n: Name)
    requires |es| == |rest| + 1
    ensures LastRedirected([s] + rest, id, es, n) <==>
              LastRedirected(rest, id, es[1..], n) || (Redirects(id, es[0], n) && NoIdKeyedFrom(rest, id, es[1..], 0))
    ensures NoIdKeyedFrom([s] + rest, id, es, 0) <==> !WritesIdKeyed(s, id, es[0]) && NoIdKeyedFrom(rest, id, es[1..], 0)
  {
    hide WritesIdKeyed, Redirects;
    var all := [s] + rest;
    NoIdKeyedShift(s, rest, id, es, 0);
    assert all[0] == s;
    if i: nat :| LastRedirect(all, id, es, i, n) {
      NoIdKeyedShift(s, rest, id, es, i);
      if i > 0 { assert LastRedirect(rest, id, es[1..], i - 1, n); }
    }
    if i: nat :| LastRedirect(rest, id, es[1..], i, n) {
      NoIdKeyedShift(s, rest, id, es, i + 1);
      assert LastRedirect(all, id, es, i + 1, n);
    }
    if Redirects(id, es[0], n) && NoIdKeyedFrom(rest, id, es[1..], 0) {
      assert LastRedirect(all, id, es, 0, n);
    }
  }

  lemma NoIdKeyedShift(s: State, rest: seq<State>, id: string, es: seq<Event>, i: nat)
    requires i < |es| == |rest| + 1
    ensures NoIdKeyedFrom([s] + rest, id, es, i + 1) <==> NoIdKeyedFrom(rest, id, es[1..], i)
  {
    hide WritesIdKeyed;
    var all := [s] + rest;
    if NoIdKeyedFrom(all, id, es, i + 1) {
      forall j | i <= j < |es[1..]| ensures !WritesIdKeyed(rest[j], id, es[1..][j]) { assert !WritesIdKeyed(all[j + 1], id, es[j + 1]); }
    }
    if NoIdKeyedFrom(rest, id, es[1..], i) {
      forall j | i + 1 <= j < |es| ensures !WritesIdKeyed(all[j], id, es[j]) { assert !WritesIdKeyed(rest[j - 1], id, es[1..][j - 1]); }
    }
  }

  lemma ClaimAlong(s: State, rest: seq<State>, id: string, es: seq<Event>, n: Name)
    requires |es| == |rest| + 1
    ensures Claimed([s] + rest, id, es, n) <==>
              Claimed(rest, id, es[1..], n) || (SavesOwn(s, id, es[0], n) && NotOverwrittenFrom(es[1..], 0, n))
    ensures NotOverwrittenFrom(es, 0, n) <==> !Overwrites(es[0], n) && NotOverwrittenFrom(es[1..], 0, n)
  {
    hide SavesOwn, Overwrites;
    var all := [s] + rest;
    OverwritesShift(es, 0, n);
    assert all[0] == s;
    if i: nat :| LastClaim(all, id, es, i, n) {
      OverwritesShift(es, i, n);
      if i > 0 { assert LastClaim(rest, id, es[1..], i - 1, n); }
    }
    if i: nat :| LastClaim(rest, id, es[1..], i, n) {
      OverwritesShift(es, i + 1, n);
      assert LastClaim(all, id, es, i + 1, n);
    }
    if SavesOwn(s, id, es[0], n) && NotOverwrittenFrom(es[1..], 0, n) {
      assert LastClaim(all, id, es, 0, n);
    }
  }

  lemma OverwritesShift(es: seq<Event>, i: nat, n: Name)
    requires i < |es|
    ensures NotOverwrittenFrom(es, i + 1, n) <==> NotOverwrittenFrom(es[1..], i, n)
  {
    hide Overwrites;
    if NotOverwrittenFrom(es, i + 1, n) {
      forall j | i <= j < |es[1..]| ensures !Overwrites(es[1..][j], n) { assert !Overwrites(es[j + 1], n); }
    }
    if NotOverwrittenFrom(es[1..], i, n) {
      forall j | i + 1 <= j < |es| ensures !Overwrites(es[j], n) { assert !Overwrites(es[1..][j - 1], n); }
    }
  }

  /** Redirect and claim at the end of a run, from its events; a redirect written in it leads to a file that exists. */
  lemma {:induction false} RunLookup(s: State, id: string, es: seq<Event>, now: Time, n: Name)
    requires Happen(s, id, es, now) && n != TranscriptName(id)
    ensures var d := AfterAll(s, id, es, now).disk;
            && (RedirectOf(d, id) == Some(n) <==> RedirectStands(s, id, es, now, n))
            && (Claims(d, n, id) <==> ClaimStands(s, id, es, now, n))
            && s.disk.files <= d.files
            && (LastRedirected(Before(s, id, es, now), id, es, n) ==> Plain(n) && n in d.files)
    decreases |es|
  {
    hide Happens, After1, RedirectOf, Claims, Redirects, WritesIdKeyed, SavesOwn, Overwrites, TranscriptName, Plain;
    if es != [] {
      var next := After1(s, id, es[0], now);
      var rest := Before(next, id, es[1..], now + 1);
      StepLookup(s, id, es[0], now, n);
      RunLookup(next, id, es[1..], now + 1, n);
      RedirectAlong(s, rest, id, es, n);
      ClaimAlong(s, rest, id, es, n);
      hide NoIdKeyedFrom, NotOverwrittenFrom, LastRedirected, Claimed;
    }
  }

  /**
   Whichever saves of a run fail, a lookup then finds a file other than the id-keyed
   one exactly if the last event that wrote the id-keyed sidecar was a redirect to it
   and the session's metadata was saved beside it, or was there already, and not
   overwritten since. Otherwise it finds the id-keyed file.
   */
  lemma LookupExactly(s: State, id: string, es: seq<Event>, now: Time, n: Name)
    requires RedirectOf(s.disk, id) == None && Happen(s, id, es, now) && n != TranscriptName(id)
    ensures Resolve(AfterAll(s, id, es, now).disk, id) == n <==>
            LastRedirected(Before(s, id, es, now), id, es, n) && ClaimStands(s, id, es, now, n)
  {
    RunLookup(s, id, es, now, n);
    ResolveLeadsTo(AfterAll(s, id, es, now).disk, id, n);
    hide Resolve, RedirectOf, Claims, ClaimStands, LastRedirected, NoIdKeyedFrom, TranscriptName, Happen, AfterAll, Before;
  }

  // ---------- when the lookup follows the session ----------

  /** The directory leads from the id to the live file: no redirect, or one that leads there. */
  predicate Tracks(s: State, id: string) {
    if s.live == TranscriptName(id) then RedirectOf(s.disk, id) == None else LeadsTo(s.disk, id, s.live)
  }

  lemma StepTracks(s: State, id: string, e: Event, now: Time)
    requires Happens(s, id, e) && (Tracks(s, id) || e.Recovered?) && (e.Recovered? ==> e.metaOk && e.redirectOk)
    ensures Tracks(After1(s, id, e, now), id)
  {
    hide TranscriptName, IdOfTranscript, Plain;
    assert TrimSpace("") == "";
  }

  /** The file a run wrote last: the last recovery's, or else the one it started with. */
  function LastWritten(es: seq<Event>, start: Name): Name {
    if es == [] then start else LastWritten(es[1..], if es[0].Recovered? then es[0].recovery else start)
  }

  predicate Recovers(es: seq<Event>) {
    exists i :: 0 <= i < |es| && es[i].Recovered?
  }

  /** Both saves of the last recovery succeeded. */
  predicate LastCommitSaved(es: seq<Event>) {
    forall i :: 0 <= i < |es| && es[i].Recovered? && !Recovers(es[i + 1..]) ==> es[i].metaOk && es[i].redirectOk
  }

  lemma LastWrittenIgnores(es: seq<Event>, a: Name, b: Name)
    requires Recovers(es)
    ensures LastWritten(es, a) == LastWritten(es, b)
  {
    if !es[0].Recovered? {
      TailRecovers(es);
      LastWrittenIgnores(es[1..], a, b);
    }
  }

  lemma TailRecovers(es: seq<Event>)
    requires es != []
    ensures Recovers(es) <==> es[0].Recovered? || Recovers(es[1..])
    ensures LastCommitSaved(es) ==> LastCommitSaved(es[1..])
    ensures LastCommitSaved(es) && es[0].Recovered? && !Recovers(es[1..]) ==> es[0].metaOk && es[0].redirectOk
  {
    if i :| 0 <= i < |es| && es[i].Recovered? {
      if i > 0 { assert es[1..][i - 1].Recovered?; }
    }
    if i :| 0 <= i < |es[1..]| && es[1..][i].Recovered? { assert es[i + 1].Recovered?; }
    if LastCommitSaved(es) {
      forall i | 0 <= i < |es[1..]| && es[1..][i].Recovered? && !Recovers(es[1..][i + 1..])
        ensures es[1..][i].metaOk && es[1..][i].redirectOk
      {
        assert es[1..][i + 1..] == es[i + 2..] && es[i + 1].Recovered?;
      }
    }
  }

  lemma {:induction false} RunTracks(s: State, id: string, es: seq<Event>, now: Time)
    requires (Tracks(s, id) || Recovers(es)) && LastCommitSaved(es) && Happen(s, id, es, now)
    ensures Tracks(AfterAll(s, id, es, now), id) && AfterAll(s, id, es, now).live == LastWritten(es, s.live)
    decreases |es|
  {
    if es != [] {
      var e, rest, next := es[0], es[1..], After1(s, id, es[0], now);
      TailRecovers(es);
      assert Tracks(s, id) ==> Resolve(s.disk, id) == s.live;
      assert Tracks(s, id) || e.Recovered? ==> next.live == if e.Recovered? then e.recovery else s.live;
      hide Tracks, Happens, After1, Resolve, Recovers, LastCommitSaved;
      if Recovers(rest) {
        LastWrittenIgnores(rest, next.live, if e.Recovered? then e.recovery else s.live);
      } else {
        StepTracks(s, id, e, now);
      }
      RunTracks(next, id, rest, now + 1);
    } else {
      assert !Recovers(es);
    }
  }

  /**
   Over any sequence of saves, recoveries, restarts and other sessions' doings, a
   lookup by id finds the file last written, however many recoveries came before
   and whatever of theirs was lost, if the last recovery's two saves succeeded.
   */
  lemma LookupFollowsLastWrite(s: State, id: string, es: seq<Event>, now: Time)
    requires s.live == TranscriptName(id) && RedirectOf(s.disk, id) == None && Happen(s, id, es, now) && LastCommitSaved(es)
    ensures Resolve(AfterAll(s, id, es, now).disk, id) == LastWritten(es, TranscriptName(id))
  {
    RunTracks(s, id, es, now);
  }

  /** A crash after the first of a recovery commit's two writes leaves the lookup on the file it found before. */
  lemma CrashBetweenWrites(s: State, id: string, m: Meta, recovery: Name, now: Time)
    requires Tracks(s, id) && OfSession(m, id) && FileName(recovery) && recovery != TranscriptName(id)
    ensures var d := s.disk.(files := s.disk.files + {recovery});
            && Resolve(Save(d, recovery, m, now, true), id) == s.live
            && Resolve(CommitRecovery(d, id, m, recovery, now, true, true), id) == recovery
  {
    hide TranscriptName, IdOfTranscript, Plain;
  }
}
