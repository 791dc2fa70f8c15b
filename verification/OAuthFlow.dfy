/** One OAuth flow record, the snapshot a poll hands out, and the snapshot validator
    (internal/oauth/flow.go, internal/oauth/status.go). */
module OAuthFlow {
  import opened Wrappers

  /** Names one concurrent activity: a request goroutine, a timer callback, a poll. */
  type Tid = nat

  datatype FlowMethod = Browser | Device
  datatype Rail = RailUnknown | RailLoopback | RailManualPaste
  datatype FlowStatus = Idle | Pending | Success | Error
  datatype TerminalError = TerminalError(code: string, message: string)

  /** What happened to a flow so far. No branch of the program depends on it. */
  datatype FlowLog = FlowLog(
    order: nat,            // its place among the flows started
    winner: Option<Tid>,   // the activity whose compare-and-swap consumed the flow
    byRail: bool,          // the winner was a browser rail
    exchanges: nat,        // calls of Provider.ExchangeCode
    inserted: seq<int>,    // account ids inserted for this flow
    marked: nat,           // terminal snapshots delivered together with terminalReported
    raced: nat,            // terminal snapshots delivered through the pending branch
    stored: bool,          // entered the released-flow map
    left: bool)            // left the flow slot

  datatype Flow = Flow(
    id: string,
    meth: FlowMethod,
    state: string,
    userCode: string,
    verificationURL: string,
    createdAt: int,
    expiresAt: int,
    listenerBound: bool,
    consumed: bool,
    consumedBy: Rail,
    status: FlowStatus,
    account: Option<int>,
    error: Option<TerminalError>,
    reported: bool,
    terminalClosed: bool,
    writer: Option<Tid>,   // holder of the flow's write lock
    log: FlowLog)

  const NO_LOG := FlowLog(0, None, false, 0, [], 0, 0, false, false)

  /** A flow as StartBrowser and StartDevice build it. Times are nonzero instants. */
  predicate Fresh(f: Flow) {
    && f.id != "" && f.createdAt != 0 && f.expiresAt != 0
    && (f.meth == Device ==> f.userCode != "" && f.verificationURL != "")
    && !f.consumed && f.consumedBy == RailUnknown
    && f.status == Pending && f.account == None && f.error == None
    && !f.reported && !f.terminalClosed && f.writer == None
    && f.log == NO_LOG
  }

  function AccessDenied(): TerminalError { TerminalError("access_denied", "User denied consent") }
  function Cancelled(): TerminalError { TerminalError("cancelled", "Authentication cancelled") }
  function Expired(meth: FlowMethod): TerminalError {
    if meth == Device then TerminalError("expired_token", "Device code expired")
    else TerminalError("flow_expired", "Authentication expired")
  }

  // ---------------------------------------------------------------- snapshots

  datatype Snapshot = Snapshot(
    status: FlowStatus,
    meth: Option<FlowMethod>,
    flowId: string,
    listenerBound: bool,
    expiresAt: int,
    createdAt: int,
    userCode: string,
    verificationURL: string,
    rail: Rail,
    account: Option<int>,
    error: Option<TerminalError>)

  function SnapshotOf(f: Flow): Snapshot {
    Snapshot(f.status, Some(f.meth), f.id, f.listenerBound, f.expiresAt, f.createdAt,
             f.userCode, f.verificationURL, f.consumedBy, f.account, f.error)
  }

  /** The first complaint FlowSnapshot.Validate raises, in its own order of checks. */
  function Complaint(s: Snapshot): Option<string> {
    match s.status
    case Idle => None
    case Pending =>
      if s.flowId == "" then Some("pending flow_id is empty")
      else if s.createdAt == 0 then Some("pending created_at is zero")
      else if s.expiresAt == 0 then Some("pending expires_at is zero")
      else if s.meth == Some(Browser) then None
      else if s.meth == Some(Device) then
        if s.userCode == "" then Some("pending device user_code is empty")
        else if s.verificationURL == "" then Some("pending device verification_url is empty")
        else None
      else Some("pending method is unsupported")
    case Success =>
      if s.flowId == "" then Some("success flow_id is empty")
      else if s.account == None then Some("success account is nil")
      else if s.meth == Some(Browser) then
        if s.rail == RailUnknown then Some("browser success rail is empty") else None
      else if s.meth == Some(Device) then None
      else Some("success method is unsupported")
    case Error =>
      if s.flowId == "" then Some("error flow_id is empty")
      else if s.error == None then Some("error payload is nil")
      else if s.error.value.code == "" then Some("error code is empty")
      else if s.error.value.message == "" then Some("error message is empty")
      else if s.meth == None then Some("error method is unsupported")
      else None
  }

  predicate Terminal(s: FlowStatus) { s == Success || s == Error }

  // ---------------------------------------------------------------- the flow invariant

  /** What every reachable flow record satisfies. */
  predicate FlowOk(f: Flow) {
    && f.id != "" && f.createdAt != 0 && f.expiresAt != 0
    && (f.meth == Device ==> f.userCode != "" && f.verificationURL != "")
    && f.status != Idle
    && (f.consumed <==> f.log.winner.Some?)
    && (!f.consumed ==>
          && f.consumedBy == RailUnknown && f.status == Pending && !f.log.byRail
          && f.log.exchanges == 0 && f.log.inserted == [])
    // a rail that has won but not yet published its name still holds the write lock
    && (f.log.byRail && f.consumedBy == RailUnknown ==> f.writer == f.log.winner)
    && f.log.exchanges <= 1 && |f.log.inserted| <= 1
    && (f.log.exchanges == 1 ==> f.log.byRail)
    && (f.status == Pending ==> f.account == None && f.error == None)
    && (f.status == Success ==>
          && f.account.Some? && f.log.inserted == [f.account.value] && f.error == None
          && (f.log.byRail ==> f.log.exchanges == 1 && f.consumedBy != RailUnknown)
          && (f.meth == Browser ==> f.log.byRail))
    && (f.status == Error ==> f.error.Some? && f.account == None && f.log.inserted == [])
    && (f.terminalClosed ==> Terminal(f.status))
    && (f.reported ==> Terminal(f.status))
    && f.log.marked == (if f.reported then 1 else 0)
  }

  /** Every snapshot of a reachable flow passes the validator, except an error snapshot whose
      provider sent an empty code or an empty message; those fail, always. */
  lemma SnapshotValidity(f: Flow)
    requires FlowOk(f)
    ensures Complaint(SnapshotOf(f)).None? <==>
            (f.status == Error ==> f.error.value.code != "" && f.error.value.message != "")
  {
    var complaint := Complaint(SnapshotOf(f));
    if f.status == Success && f.meth == Browser {
      assert f.consumedBy != RailUnknown;
    }
  }
}
