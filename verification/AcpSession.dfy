/**
 One open ACP session: the fields that the source keeps under the session
 mutex, and its critical sections (internal/acp/service.go). Each section is a
 method of AcpSession proved equal to a function on the Session value; the
 protocol over all interleavings (AcpProtocol) is built from the same functions.
 */
module AcpSession {
  import opened Wrappers

  type Path = string
  type Tid = nat
  type Obj = nat

  /** A done channel, named after the thread that made it. */
  datatype Chan = Chan(owner: Tid, seq_: nat)

  /** A controller, named after the session object it was built for. */
  datatype Ctrl = Ctrl(owner: Obj, seq_: nat)

  datatype ConfigState = ConfigState(model: string, effort: Option<string>)

  /** What the controller reports about itself. */
  datatype Status = Status(running: bool, pendingPrompt: bool, backgroundJobs: nat)

  /** The fields of acpSession; a lease is named by the file it guards. */
  datatype Session = Session(
    running: bool,
    done: Option<Chan>,
    deleted: bool,
    maint: Option<Chan>,
    pending: Option<ConfigState>,
    ctrl: Ctrl,
    config: ConfigState,
    transcript: Option<Path>,
    lease: Option<Path>)

  // ---------- the critical sections as functions ----------

  predicate Admits(s: Session) {
    !s.running && !s.deleted && s.maint.None? && s.pending.None?
  }

  function BeginTurn(s: Session, ch: Chan): Session {
    s.(running := true, done := Some(ch))
  }

  function FinishTurn(s: Session): Session {
    s.(running := false, done := None)
  }

  function MarkDeleted(s: Session): Session {
    s.(deleted := true)
  }

  function EndMaintenance(s: Session, ch: Chan): Session {
    if s.maint == Some(ch) then s.(maint := None) else s
  }

  /** How rebuildSession's first critical section ends. */
  datatype Entry = RefusedDeleted | RefusedPrompt | RefusedJobs | Queued | Claimed

  function RebuildEntry(s: Session, status: Status): Entry {
    if s.deleted then RefusedDeleted
    else if status.pendingPrompt then RefusedPrompt
    else if !s.running && !status.running && status.backgroundJobs > 0 then RefusedJobs
    else if s.running || status.running || s.maint.Some? then Queued
    else Claimed
  }

  function EnterRebuild(s: Session, status: Status, cfg: ConfigState, ch: Chan): Session {
    match RebuildEntry(s, status)
    case Queued => s.(pending := Some(cfg))
    case Claimed => s.(pending := None, maint := Some(ch))
    case _ => s
  }

  predicate CommitsRebuild(s: Session, cur: Ctrl) {
    !s.deleted && s.ctrl == cur
  }

  function CommitRebuild(s: Session, cur: Ctrl, next: Ctrl, cfg: ConfigState): Session {
    if CommitsRebuild(s, cur) then s.(ctrl := next, config := cfg) else s
  }

  /** Moves the bookkeeping to a recovery file; refused once the session is deleted. */
  function BindRecovery(s: Session, path: Path): Session {
    if s.deleted then s else s.(lease := Some(path), transcript := Some(path))
  }

  predicate MayDrop(s: Session) {
    !s.deleted && !s.running && s.maint.None?
  }

  function DropPending(s: Session): Session {
    if MayDrop(s) then s.(pending := None) else s
  }

  function TakeLease(s: Session): Session {
    s.(lease := None)
  }

  // ---------- the session object ----------

  class AcpSession {
    var running: bool
    var done: Option<Chan>
    var deleted: bool
    var maintenanceDone: Option<Chan>
    var pendingConfig: Option<ConfigState>
    var ctrl: Ctrl
    var config: ConfigState
    var transcript: Option<Path>
    var lease: Option<Path>

    constructor (ctrl: Ctrl, config: ConfigState, path: Option<Path>)
      ensures View() == Session(false, None, false, None, None, ctrl, config, path, path)
    {
      running, done, deleted := false, None, false;
      maintenanceDone, pendingConfig := None, None;
      this.ctrl, this.config := ctrl, config;
      transcript, lease := path, path;
    }

    ghost function View(): Session
      reads this
    {
      Session(running, done, deleted, maintenanceDone, pendingConfig, ctrl, config, transcript, lease)
    }

    /** begin: a queued config blocks new turns, so no prompt runs on the outgoing one. */
    method Begin(ch: Chan) returns (ok: bool)
      modifies this
      ensures ok == Admits(old(View()))
      ensures View() == if ok then BeginTurn(old(View()), ch) else old(View())
      ensures ok <==> !old(running) && !old(deleted) && old(maintenanceDone).None? && old(pendingConfig).None?
      ensures ok ==> running && done == Some(ch)
    {
      if running || deleted || maintenanceDone != None || pendingConfig != None {
        return false;
      }
      running := true;
      done := Some(ch);
      return true;
    }

    /** finish, up to the close of the returned channel. */
    method Finish() returns (toClose: Option<Chan>)
      modifies this
      ensures toClose == old(done) && View() == FinishTurn(old(View()))
      ensures !running && done.None?
    {
      toClose := done;
      running := false;
      done := None;
    }

    /** The section of deleteAndWait (del) and abortAndWait: what the caller then waits for. */
    method CaptureForEnd(del: bool) returns (waitDone: Option<Chan>, waitMaint: Option<Chan>)
      modifies this
      ensures waitDone == old(done) && waitMaint == old(maintenanceDone)
      ensures View() == if del then MarkDeleted(old(View())) else old(View())
      ensures deleted <==> old(deleted) || del
    {
      if del {
        deleted := true;
      }
      waitDone, waitMaint := done, maintenanceDone;
    }

    method FinishMaintenance(ch: Chan) returns (closeDone: bool)
      modifies this
      ensures closeDone == (old(maintenanceDone) == Some(ch)) && View() == EndMaintenance(old(View()), ch)
      ensures maintenanceDone == if closeDone then None else old(maintenanceDone)
    {
      closeDone := false;
      if maintenanceDone == Some(ch) {
        maintenanceDone := None;
        closeDone := true;
      }
    }

    /** rebuildSession's first section: refuse, queue, or claim the queue together with the maintenance slot. */
    method Enter(status: Status, cfg: ConfigState, ch: Chan) returns (entry: Entry, cur: Ctrl)
      modifies this
      ensures entry == RebuildEntry(old(View()), status) && cur == old(ctrl)
      ensures View() == EnterRebuild(old(View()), status, cfg, ch)
      ensures entry.RefusedDeleted? <==> old(deleted)
      ensures entry.RefusedPrompt? <==> !old(deleted) && status.pendingPrompt
      ensures entry.RefusedJobs? <==>
                !old(deleted) && !status.pendingPrompt && !old(running) && !status.running && status.backgroundJobs > 0
      ensures entry.Claimed? <==>
                !old(deleted) && !status.pendingPrompt && !old(running) && !status.running && status.backgroundJobs == 0
                && old(maintenanceDone).None?
      ensures entry.Queued? ==> pendingConfig == Some(cfg) && maintenanceDone == old(maintenanceDone)
      ensures entry.Claimed? ==> pendingConfig.None? && maintenanceDone == Some(ch)
      ensures !entry.Queued? && !entry.Claimed? ==> View() == old(View())
    {
      cur := ctrl;
      if deleted {
        return RefusedDeleted, cur;
      }
      if status.pendingPrompt {
        return RefusedPrompt, cur;
      }
      if !running && !status.running && status.backgroundJobs > 0 {
        return RefusedJobs, cur;
      }
      if running || status.running || maintenanceDone != None {
        pendingConfig := Some(cfg);
        return Queued, cur;
      }
      pendingConfig := None;
      maintenanceDone := Some(ch);
      return Claimed, cur;
    }

    /** rebuildSession's commit. */
    method Commit(cur: Ctrl, next: Ctrl, cfg: ConfigState) returns (ok: bool)
      modifies this
      ensures ok == CommitsRebuild(old(View()), cur) && View() == CommitRebuild(old(View()), cur, next, cfg)
      ensures ok <==> !old(deleted) && old(ctrl) == cur
      ensures ok ==> ctrl == next && config == cfg
    {
      if deleted {
        return false;
      }
      if ctrl != cur {
        return false;
      }
      ctrl := next;
      config := cfg;
      return true;
    }

    /** The section of the recovery callback: swap lease and transcript together. */
    method Bind(path: Path) returns (ok: bool, old_: Option<Path>)
      modifies this
      ensures ok == !old(deleted) && View() == BindRecovery(old(View()), path)
      ensures ok ==> old_ == old(lease)
      ensures ok ==> lease == Some(path) && transcript == Some(path)
    {
      if deleted {
        return false, None;
      }
      old_ := lease;
      lease := Some(path);
      transcript := Some(path);
      return true, old_;
    }

    /** applyPendingSessionConfig's first section: the queue is read, not claimed. */
    method ReadPending() returns (cfg: Option<ConfigState>)
      ensures cfg == if deleted then None else pendingConfig
    {
      if deleted || pendingConfig == None {
        return None;
      }
      return pendingConfig;
    }

    /** applyPendingSessionConfig after a failed attempt. */
    method Drop()
      modifies this
      ensures View() == DropPending(old(View()))
      ensures pendingConfig == if !old(deleted) && !old(running) && old(maintenanceDone).None? then None else old(pendingConfig)
    {
      if !deleted && !running && maintenanceDone == None {
        pendingConfig := None;
      }
    }

    /** releaseSessionLease, up to the release of the returned lease. Idempotent. */
    method ReleaseSessionLease() returns (taken: Option<Path>)
      modifies this
      ensures taken == old(lease) && View() == TakeLease(old(View()))
      ensures lease.None?
    {
      taken := lease;
      lease := None;
    }
  }
}
