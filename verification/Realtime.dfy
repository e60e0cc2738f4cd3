/** The realtime socket of a tab and everything that can happen to it, in any order
    (frontend/src/Realtime/realtimeClient.js). */
module Realtime {
  import opened Arithmetic
  import opened Seqs
  import opened Text
  import opened Unicode
  import CI = ClientIdentity
  import LB = LockStateBatch

  datatype ReadyState = Connecting | Open | Closing | Closed

  /** A WebSocket, with what the listeners of its connection have captured. */
  datatype Socket = Socket(key: string, session: Option<string>, resumeFrom: Option<string>, state: ReadyState)

  /** An open handler that waits for the answer to its session_resume. */
  datatype Waiting = Waiting(previousSession: Option<string>, answer: Option<bool>)

  datatype Hint = Hint(accountId: string, clientId: string)

  /** The module variables. Sockets and timers are named by numbers. */
  datatype Vars = Vars(
    socket: Option<nat>, connectKey: Option<string>, lastConnectParams: Option<string>,
    reconnectTimer: Option<nat>, pingTimer: Option<nat>, manualClose: bool, reconnectAttempt: nat,
    lastSuccessfulOpenSessionId: Option<string>, resumeHint: Option<Hint>, resumeBootstrap: Option<nat>)

  /** The browser: all sockets, the armed timeouts with their delays, the running intervals with the
      socket they ping, the open handlers that wait, and which sockets asked for a baseline sync. */
  datatype Browser = Browser(
    sockets: map<nat, Socket>, timeouts: map<nat, nat>, intervals: map<nat, nat>, waiting: map<nat, Waiting>,
    synced: set<nat>, refetched: set<nat>, next: nat)

  datatype State = State(v: Vars, b: Browser, batch: LB.Batch, identity: CI.Identity)

  const BASE_MS := 750
  const MAX_MS := 20_000
  const HANDOFF_MS := MAX_MS + 5_000

  // ----- The operations on values -----

  function Delay(attempt: nat): nat
  {
    var d := BASE_MS * Pow2(attempt);
    if MAX_MS < d then MAX_MS else d
  }

  function Drop<T>(m: map<nat, T>, t: Option<nat>): map<nat, T>
  {
    if t.Some? then m - {t.value} else m
  }

  function ClearTimers(s: State): State
  {
    s.(v := s.v.(reconnectTimer := None, pingTimer := None),
       b := s.b.(timeouts := Drop(s.b.timeouts, s.v.reconnectTimer), intervals := Drop(s.b.intervals, s.v.pingTimer)))
  }

  function ScheduleReconnect(s: State): State
  {
    if s.v.manualClose || s.v.lastConnectParams == None then s
    else
      var c := ClearTimers(s);
      c.(v := c.v.(reconnectAttempt := s.v.reconnectAttempt + 1, reconnectTimer := Some(s.b.next)),
         b := c.b.(timeouts := c.b.timeouts[s.b.next := Delay(s.v.reconnectAttempt)], next := s.b.next + 1))
  }

  /** `socket.close(...)`. */
  function CloseSocket(b: Browser, id: nat): Browser
  {
    if id in b.sockets && !b.sockets[id].state.Closed? then
      b.(sockets := b.sockets[id := b.sockets[id].(state := Closing)])
    else b
  }

  function IsOpen(s: State): bool
  {
    s.v.socket.Some? && s.v.socket.value in s.b.sockets && s.b.sockets[s.v.socket.value].state.Open?
  }

  function ResumeFrom(hint: Option<Hint>, accountId: string): Option<string>
  {
    if hint.Some? && hint.value.accountId == accountId && hint.value.clientId != "" then Some(hint.value.clientId)
    else None
  }

  /** `connectRealtime` up to the point where it drops the socket it replaces. */
  function Prepared(s: State, accountId: string): State
  {
    var c := ClearTimers(s);
    c.(v := c.v.(lastConnectParams := Some(accountId), manualClose := false, connectKey := Some(accountId),
                 resumeHint := None))
  }

  /** `connectRealtime`; `constructed` says whether the WebSocket constructor returns. */
  function Connect(s: State, accountId: string, session: Option<string>, constructed: bool): State
  {
    if accountId == "" then s
    else if IsOpen(s) && s.v.connectKey == Some(accountId) then s.(v := s.v.(lastConnectParams := Some(accountId)))
    else
      var r := Dropped(Prepared(s, accountId));
      if constructed then Constructed(r, Socket(accountId, session, ResumeFrom(s.v.resumeHint, accountId), Connecting))
      else ScheduleReconnect(r)
  }

  /** Close the current socket, if there is one, to make room for another. */
  function Dropped(s: State): State
  {
    if s.v.socket.Some? then
      s.(v := s.v.(socket := None), b := CloseSocket(s.b, s.v.socket.value),
         identity := CI.After(s.identity, CI.SoftClear))
    else s
  }

  function Constructed(s: State, socket: Socket): State
  {
    s.(v := s.v.(socket := Some(s.b.next)), b := s.b.(sockets := s.b.sockets[s.b.next := socket], next := s.b.next + 1))
  }

  function Disconnect(s: State): State
  {
    var c := ClearTimers(Forgotten(s));
    c.(v := c.v.(socket := None), b := if s.v.socket.Some? then CloseSocket(c.b, s.v.socket.value) else c.b)
  }

  /** `disconnectRealtime` up to the point where it turns to the timers and the socket. */
  function Forgotten(s: State): State
  {
    State(
      s.v.(resumeBootstrap := None, manualClose := true, connectKey := None, lastConnectParams := None,
           lastSuccessfulOpenSessionId := None, reconnectAttempt := 0),
      Answered(s.b, s.v.resumeBootstrap, false),
      LB.RejectedAll(s.batch, LB.Disconnected),
      CI.After(s.identity, CI.HardClear))
  }

  /** Resolve the promise of the handler that waits for a resume acknowledgement, if there is one. */
  function Answered(b: Browser, bootstrap: Option<nat>, skip: bool): Browser
  {
    if bootstrap.Some? && bootstrap.value in b.waiting then
      b.(waiting := b.waiting[bootstrap.value := b.waiting[bootstrap.value].(answer := Some(skip))])
    else b
  }

  /** The end of the open handler of `id`, after the wait if there was one. */
  function FinishOpen(s: State, id: nat, previous: Option<string>, attempted: bool, skipped: bool): State
    requires id in s.b.sockets
  {
    if s.v.socket != Some(id) then s
    else
      var session := s.b.sockets[id].session;
      var sync := previous == None || previous != session || (attempted && !skipped);
      var refetch := previous != None && previous != session;
      s.(v := s.v.(pingTimer := Some(s.b.next)),
         b := s.b.(intervals := s.b.intervals[s.b.next := id], next := s.b.next + 1,
                   synced := if sync then s.b.synced + {id} else s.b.synced,
                   refetched := if refetch then s.b.refetched + {id} else s.b.refetched))
  }

  /** The open event; `sent` says whether sending a session_resume succeeds. */
  function Opened(s: State, id: nat, sent: bool): State
    requires id in s.b.sockets
  {
    var o := s.(b := s.b.(sockets := s.b.sockets[id := s.b.sockets[id].(state := Open)]));
    if s.v.socket != Some(id) then o
    else
      var previous := s.v.lastSuccessfulOpenSessionId;
      var r := o.(v := o.v.(reconnectAttempt := 0, lastSuccessfulOpenSessionId := s.b.sockets[id].session));
      if s.b.sockets[id].resumeFrom == None then FinishOpen(r, id, previous, false, false)
      else if !sent then FinishOpen(r.(v := r.v.(resumeBootstrap := None)), id, previous, true, false)
      else
        r.(v := r.v.(resumeBootstrap := Some(id)), b := r.b.(waiting := r.b.waiting[id := Waiting(previous, None)]))
  }

  /** A waiting open handler goes on: it was answered, or 400 ms have passed. */
  function Continued(s: State, id: nat): State
    requires id in s.b.sockets && id in s.b.waiting
  {
    var w := s.b.waiting[id];
    FinishOpen(s.(v := s.v.(resumeBootstrap := None), b := s.b.(waiting := s.b.waiting - {id})),
               id, w.previousSession, true, w.answer == Some(true))
  }

  function ResumeAcked(s: State, id: nat, skip: bool): State
  {
    if s.v.socket != Some(id) || s.v.resumeBootstrap == None then s
    else s.(v := s.v.(resumeBootstrap := None), b := Answered(s.b, s.v.resumeBootstrap, skip))
  }

  function Announced(s: State, id: nat, clientID: string): State
  {
    if s.v.socket != Some(id) then s else s.(identity := CI.After(s.identity, CI.Assign(clientID)))
  }

  function BatchAcked(s: State, id: nat, requestId: string, ok: bool): State
  {
    if s.v.socket != Some(id) then s else s.(batch := LB.Acked(s.batch, requestId, ok))
  }

  function BatchRequested(s: State, requestId: string, sent: bool): State
  {
    if IsOpen(s) then s.(batch := LB.Requested(s.batch, requestId, sent)) else s
  }

  /** The state after the current socket has closed, before another connection is scheduled. */
  function ClosedDown(s: State, id: nat): State
    requires id in s.b.sockets
  {
    var c := ClearTimers(s.(b := s.b.(sockets := s.b.sockets[id := s.b.sockets[id].(state := Closed)])));
    State(c.v.(socket := None), c.b, LB.RejectedAll(s.batch, LB.SocketClosed), CI.After(s.identity, CI.SoftClear))
  }

  function SocketClosed(s: State, id: nat): State
    requires id in s.b.sockets
  {
    var o := s.(b := s.b.(sockets := s.b.sockets[id := s.b.sockets[id].(state := Closed)]));
    if s.v.socket != Some(id) then o
    else
      var r := ClosedDown(s, id);
      if !s.v.manualClose && s.v.connectKey == Some(s.b.sockets[id].key) then ScheduleReconnect(r) else r
  }

  /** The state in which a reconnect timer that has gone off connects. */
  function TimerOff(s: State, timer: nat): State
  {
    s.(v := s.v.(reconnectTimer := None), b := s.b.(timeouts := s.b.timeouts - {timer}))
  }

  function ReconnectFired(s: State, timer: nat, session: Option<string>, constructed: bool): State
  {
    var r := TimerOff(s, timer);
    if s.v.lastConnectParams.Some? then Connect(r, s.v.lastConnectParams.value, session, constructed) else r
  }

  function Stashed(s: State, isLoggedIn: bool, accountId: string): State
  {
    if !isLoggedIn || accountId == "" || s.identity.current == None then s
    else s.(v := s.v.(resumeHint := Some(Hint(accountId, s.identity.current.value))))
  }

  // ----- The module -----

  class RealtimeClient {
    var socket: Option<nat>
    var connectKey: Option<string>
    var lastConnectParams: Option<string>
    var reconnectTimer: Option<nat>
    var pingTimer: Option<nat>
    var manualClose: bool
    var reconnectAttempt: nat
    var lastSuccessfulOpenSessionId: Option<string>
    var resumeHint: Option<Hint>
    var resumeBootstrap: Option<nat>
    var browser: Browser
    const batches: LB.PendingBatches
    const clientIdentity: CI.ClientIdentityModule

    constructor ()
      ensures fresh(batches) && fresh(clientIdentity) && View() == INITIAL
    {
      socket, connectKey, lastConnectParams, reconnectTimer, pingTimer := None, None, None, None, None;
      manualClose, reconnectAttempt, lastSuccessfulOpenSessionId := false, 0, None;
      resumeHint, resumeBootstrap := None, None;
      browser := INITIAL.b;
      batches := new LB.PendingBatches();
      clientIdentity := new CI.ClientIdentityModule();
    }

    function Variables(): Vars
      reads this
    {
      Vars(socket, connectKey, lastConnectParams, reconnectTimer, pingTimer, manualClose, reconnectAttempt,
           lastSuccessfulOpenSessionId, resumeHint, resumeBootstrap)
    }

    function View(): State
      reads this, batches, clientIdentity
    {
      State(Variables(), browser, batches.View(), clientIdentity.View())
    }

    method ClearAllTimers()
      modifies this
      ensures View() == ClearTimers(old(View()))
    {
      if reconnectTimer != None {
        browser := browser.(timeouts := browser.timeouts - {reconnectTimer.value});
        reconnectTimer := None;
      }
      if pingTimer != None {
        browser := browser.(intervals := browser.intervals - {pingTimer.value});
        pingTimer := None;
      }
    }

    method ScheduleAnotherConnect()
      modifies this
      ensures View() == ScheduleReconnect(old(View()))
    {
      if manualClose {
        return;
      }
      if lastConnectParams == None {
        return;
      }
      var delay := Delay(reconnectAttempt);
      reconnectAttempt := reconnectAttempt + 1;
      ClearAllTimers();
      reconnectTimer := Some(browser.next);
      browser := browser.(timeouts := browser.timeouts[browser.next := delay], next := browser.next + 1);
    }

    method ConnectRealtime(accountId: string, session: Option<string>, constructed: bool)
      modifies this, clientIdentity
      ensures View() == Connect(old(View()), accountId, session, constructed)
    {
      if accountId == "" {
        return;
      }
      lastConnectParams := Some(accountId);
      if socket != None && socket.value in browser.sockets && browser.sockets[socket.value].state.Open?
         && connectKey == Some(accountId) {
        return;
      }
      var sessionResumePreviousId := PrepareConnect(accountId);
      DropSocket();
      if constructed {
        ConstructSocket(Socket(accountId, session, sessionResumePreviousId, Connecting));
      } else {
        ScheduleAnotherConnect();
      }
    }

    method PrepareConnect(accountId: string) returns (sessionResumePreviousId: Option<string>)
      requires lastConnectParams == Some(accountId)
      modifies this
      ensures View() == Prepared(old(View()), accountId)
      ensures sessionResumePreviousId == ResumeFrom(old(resumeHint), accountId)
    {
      manualClose := false;
      connectKey := Some(accountId);
      ClearAllTimers();
      sessionResumePreviousId := TakeResumeHint(accountId);
    }

    method TakeResumeHint(accountId: string) returns (sessionResumePreviousId: Option<string>)
      modifies `resumeHint
      ensures resumeHint == None && sessionResumePreviousId == ResumeFrom(old(resumeHint), accountId)
    {
      sessionResumePreviousId := None;
      if resumeHint != None {
        var h := resumeHint.value;
        resumeHint := None;
        if h.accountId == accountId && h.clientId != "" {
          sessionResumePreviousId := Some(h.clientId);
        }
      }
    }

    method DropSocket()
      modifies this, clientIdentity
      ensures View() == Dropped(old(View()))
    {
      if socket != None {
        browser := CloseSocket(browser, socket.value);
        socket := None;
        clientIdentity.ClearRealtimeClientID();
      }
    }

    method ConstructSocket(socket: Socket)
      modifies this
      ensures View() == Constructed(old(View()), socket)
    {
      var ws := browser.next;
      browser := browser.(sockets := browser.sockets[ws := socket], next := ws + 1);
      this.socket := Some(ws);
    }

    method DisconnectRealtime()
      modifies this, batches, clientIdentity
      ensures View() == Disconnect(old(View()))
    {
      Forget();
      ClearAllTimers();
      if socket != None {
        browser := CloseSocket(browser, socket.value);
        socket := None;
      }
    }

    /** Resolve the promise of the handler that waits, if one does. */
    method ReleaseBootstrap(skip: bool)
      modifies `browser, `resumeBootstrap
      ensures browser == Answered(old(browser), old(resumeBootstrap), skip) && resumeBootstrap == None
    {
      if resumeBootstrap != None {
        browser := Answered(browser, resumeBootstrap, skip);
        resumeBootstrap := None;
      }
    }

    method Forget()
      modifies this, batches, clientIdentity
      ensures View() == Forgotten(old(View()))
    {
      batches.RejectAll(LB.Disconnected);
      ReleaseBootstrap(false);
      manualClose := true;
      connectKey := None;
      lastConnectParams := None;
      lastSuccessfulOpenSessionId := None;
      reconnectAttempt := 0;
      clientIdentity.ClearRealtimeClientIdentityHard();
    }

    /** The part of the open listener from the check after the wait to its end. */
    method StartSession(
      ws: nat, prevOpenSessionId: Option<string>, attemptedSessionResume: bool, resumeSkippedBaseline: bool)
      requires ws in browser.sockets
      modifies this
      ensures View() == FinishOpen(old(View()), ws, prevOpenSessionId, attemptedSessionResume, resumeSkippedBaseline)
    {
      if socket != Some(ws) {
        return;
      }
      var sessionIdForWs := browser.sockets[ws].session;
      var sessionIdentityChanged := prevOpenSessionId == None || prevOpenSessionId != sessionIdForWs;
      var shouldSync := sessionIdentityChanged || (attemptedSessionResume && !resumeSkippedBaseline);
      if shouldSync {
        browser := browser.(synced := browser.synced + {ws});
      }
      var shouldRefetchPlannerJobs := prevOpenSessionId != None && prevOpenSessionId != sessionIdForWs;
      if shouldRefetchPlannerJobs {
        browser := browser.(refetched := browser.refetched + {ws});
      }
      pingTimer := Some(browser.next);
      browser := browser.(intervals := browser.intervals[browser.next := ws], next := browser.next + 1);
    }

    method OnOpen(ws: nat, sent: bool)
      requires ws in browser.sockets
      modifies this
      ensures View() == Opened(old(View()), ws, sent)
    {
      browser := browser.(sockets := browser.sockets[ws := browser.sockets[ws].(state := Open)]);
      if socket != Some(ws) {
        return;
      }
      reconnectAttempt := 0;
      var prevOpenSessionId := lastSuccessfulOpenSessionId;
      lastSuccessfulOpenSessionId := browser.sockets[ws].session;
      var attemptedSessionResume := browser.sockets[ws].resumeFrom != None;
      if attemptedSessionResume {
        if sent {
          resumeBootstrap := Some(ws);
          browser := browser.(waiting := browser.waiting[ws := Waiting(prevOpenSessionId, None)]);
          return;
        }
        resumeBootstrap := None;
      }
      StartSession(ws, prevOpenSessionId, attemptedSessionResume, false);
    }

    method AfterWait(ws: nat)
      requires ws in browser.sockets && ws in browser.waiting
      modifies this
      ensures View() == Continued(old(View()), ws)
    {
      var w := browser.waiting[ws];
      browser := browser.(waiting := browser.waiting - {ws});
      resumeBootstrap := None;
      StartSession(ws, w.previousSession, true, w.answer == Some(true));
    }

    method OnResumeAck(ws: nat, skipBaselineSync: bool)
      modifies this
      ensures View() == ResumeAcked(old(View()), ws, skipBaselineSync)
    {
      if socket != Some(ws) {
        return;
      }
      ReleaseBootstrap(skipBaselineSync);
    }

    method OnConnected(ws: nat, clientID: string)
      modifies clientIdentity
      ensures View() == Announced(old(View()), ws, clientID)
    {
      if socket != Some(ws) {
        return;
      }
      clientIdentity.SetRealtimeClientID(clientID);
    }

    method OnBatchAck(ws: nat, requestId: string, ok: bool)
      modifies batches
      ensures View() == BatchAcked(old(View()), ws, requestId, ok)
    {
      if socket != Some(ws) {
        return;
      }
      batches.OnAck(requestId, ok);
    }

    method RequestDocumentLockLockStateBatch(requestId: string, sent: bool) returns (connected: bool)
      modifies batches
      ensures connected == IsOpen(old(View()))
      ensures View() == BatchRequested(old(View()), requestId, sent)
    {
      if socket == None || socket.value !in browser.sockets || !browser.sockets[socket.value].state.Open? {
        return false;
      }
      batches.Request(requestId, sent);
      return true;
    }

    method OnClose(ws: nat)
      requires ws in browser.sockets
      modifies this, batches, clientIdentity
      ensures View() == SocketClosed(old(View()), ws)
    {
      browser := browser.(sockets := browser.sockets[ws := browser.sockets[ws].(state := Closed)]);
      if socket != Some(ws) {
        return;
      }
      batches.RejectAll(LB.SocketClosed);
      ClearAllTimers();
      socket := None;
      clientIdentity.ClearRealtimeClientID();
      if !manualClose && connectKey == Some(browser.sockets[ws].key) {
        if lastConnectParams == None {
          return;
        }
        ScheduleAnotherConnect();
      }
    }

    method OnReconnectTimer(timer: nat, session: Option<string>, constructed: bool)
      modifies this, clientIdentity
      ensures View() == ReconnectFired(old(View()), timer, session, constructed)
    {
      browser := browser.(timeouts := browser.timeouts - {timer});
      reconnectTimer := None;
      if lastConnectParams != None {
        ConnectRealtime(lastConnectParams.value, session, constructed);
      }
    }

    method StashRealtimeSessionResumeHint(isLoggedIn: bool, accountID: string)
      modifies this
      ensures View() == Stashed(old(View()), isLoggedIn, accountID)
    {
      var cid := clientIdentity.wsClientID;
      if !isLoggedIn || accountID == "" || cid == None {
        return;
      }
      resumeHint := Some(Hint(accountID, cid.value));
    }
  }

  const INITIAL := State(
    Vars(None, None, None, None, None, false, 0, None, None, None),
    Browser(map[], map[], map[], map[], {}, {}, 0), LB.EMPTY, CI.FRESH)

  // ----- Runs -----

  datatype Event =
    | CallConnect(accountId: string, session: Option<string>, constructed: bool)
    | CallDisconnect
    | CallStash(isLoggedIn: bool, accountId: string)
    | CallRequest(requestId: string, sent: bool)
    | SocketOpens(id: nat, sent: bool)
    | SocketStartsClosing(id: nat)
    | SocketCloses(id: nat)
    | ResumeAckArrives(id: nat, skip: bool)
    | ConnectedArrives(id: nat, clientID: string)
    | BatchAckArrives(id: nat, requestId: string, ok: bool)
    | HandlerContinues(id: nat)
    | ReconnectTimerFires(timer: nat, session: Option<string>, constructed: bool)
    | RequestTimerFires(timer: nat)

  /** What the browser can do: a socket opens once, and closes once for good; only armed timers go
      off; request ids are not repeated. */
  predicate Enabled(s: State, e: Event)
  {
    match e
    case CallConnect(_, _, _) => true
    case CallDisconnect => true
    case CallStash(_, _) => true
    case CallRequest(requestId, _) =>
      requestId != "" && requestId !in s.batch.pending && requestId !in s.batch.outcomes
    case SocketOpens(id, _) => id in s.b.sockets && s.b.sockets[id].state.Connecting?
    case SocketStartsClosing(id) => id in s.b.sockets && !s.b.sockets[id].state.Closed?
    case SocketCloses(id) => id in s.b.sockets && !s.b.sockets[id].state.Closed?
    case ResumeAckArrives(id, _) => id in s.b.sockets
    case ConnectedArrives(id, _) => id in s.b.sockets
    case BatchAckArrives(id, _, _) => id in s.b.sockets
    case HandlerContinues(id) => id in s.b.sockets && id in s.b.waiting
    case ReconnectTimerFires(timer, _, _) => timer in s.b.timeouts
    case RequestTimerFires(timer) => timer in s.batch.timers
  }

  function Next(s: State, e: Event): State
    requires Enabled(s, e)
  {
    match e
    case CallConnect(accountId, session, constructed) => Connect(s, accountId, session, constructed)
    case CallDisconnect => Disconnect(s)
    case CallStash(isLoggedIn, accountId) => Stashed(s, isLoggedIn, accountId)
    case CallRequest(requestId, sent) => BatchRequested(s, requestId, sent)
    case SocketOpens(id, sent) => Opened(s, id, sent)
    case SocketStartsClosing(id) => s.(b := CloseSocket(s.b, id))
    case SocketCloses(id) => SocketClosed(s, id)
    case ResumeAckArrives(id, skip) => ResumeAcked(s, id, skip)
    case ConnectedArrives(id, clientID) => Announced(s, id, clientID)
    case BatchAckArrives(id, requestId, ok) => BatchAcked(s, id, requestId, ok)
    case HandlerContinues(id) => Continued(s, id)
    case ReconnectTimerFires(timer, session, constructed) => ReconnectFired(s, timer, session, constructed)
    case RequestTimerFires(timer) => s.(batch := LB.TimerFired(s.batch, timer))
  }

  /** The states that a run of events passes through. */
  ghost predicate Run(states: seq<State>, es: seq<Event>)
  {
    && |states| == |es| + 1 && states[0] == INITIAL
    && forall i :: 0 <= i < |es| ==> Enabled(states[i], es[i]) && states[i + 1] == Next(states[i], es[i])
  }

  /** The account that an event connects to anew, past the early returns of `connectRealtime`. */
  function Attempt(s: State, e: Event): Option<string>
  {
    var wanted :=
      match e
      case CallConnect(accountId, _, _) => Some(accountId)
      case ReconnectTimerFires(_, _, _) => s.v.lastConnectParams
      case _ => None;
    if wanted == None || wanted.value == "" || (IsOpen(s) && s.v.connectKey == wanted) then None else wanted
  }

  /** Whether the WebSocket constructor returns. */
  predicate Constructs(e: Event)
  {
    match e
    case CallConnect(_, _, constructed) => constructed
    case ReconnectTimerFires(_, _, constructed) => constructed
    case _ => false
  }

  // ----- What every run keeps -----

  /** A connection is wanted: `connectRealtime` was called, and not `disconnectRealtime` since. */
  predicate Wanted(s: State)
  {
    s.v.lastConnectParams.Some?
  }

  /** The current socket belongs to the wanted account. Its open handler has run to the end just
      when a ping interval is running, and then it is the only one. */
  ghost predicate SocketOk(s: State)
  {
    && (s.v.socket.Some? ==>
          && s.v.socket.value in s.b.sockets && !s.b.sockets[s.v.socket.value].state.Closed?
          && s.v.connectKey == Some(s.b.sockets[s.v.socket.value].key))
    && (s.v.socket.Some? && s.b.sockets[s.v.socket.value].state.Connecting? ==>
          s.v.pingTimer == None && s.v.socket.value !in s.b.waiting)
    && (s.v.socket.Some? && s.v.socket.value in s.b.waiting ==> s.v.pingTimer == None)
    && (s.v.socket.Some? && s.b.sockets[s.v.socket.value].state.Open? && s.v.socket.value !in s.b.waiting ==>
          s.v.pingTimer.Some?)
  }

  ghost predicate TimersOk(s: State)
  {
    && s.b.timeouts.Keys == (if s.v.reconnectTimer.Some? then {s.v.reconnectTimer.value} else {})
    && (forall t :: t in s.b.timeouts ==> BASE_MS <= s.b.timeouts[t] <= MAX_MS)
    && (s.v.pingTimer == None ==> s.b.intervals == map[])
    && (s.v.pingTimer.Some? ==> s.v.socket.Some? && s.b.intervals == map[s.v.pingTimer.value := s.v.socket.value])
  }

  /** A wanted connection has a socket or a reconnect timer, but not both; otherwise there is neither. */
  ghost predicate ConnectionOk(s: State)
  {
    && (Wanted(s) ==> !s.v.manualClose && s.v.lastConnectParams.value != "" && s.v.connectKey == s.v.lastConnectParams)
    && (s.v.socket.Some? || s.v.reconnectTimer.Some? <==> Wanted(s))
    && !(s.v.socket.Some? && s.v.reconnectTimer.Some?)
  }

  ghost predicate WaitingOk(s: State)
  {
    && (forall id :: id in s.b.waiting ==> id in s.b.sockets)
    && (s.v.resumeBootstrap.Some? ==>
          s.v.resumeBootstrap.value in s.b.waiting && s.b.waiting[s.v.resumeBootstrap.value].answer == None)
    && (forall id :: id in s.b.sockets ==> id < s.b.next)
  }

  ghost predicate BatchOk(s: State)
  {
    LB.Inv(s.batch, s.batch.pending.Keys + s.batch.outcomes.Keys)
  }

  ghost predicate Inv(s: State)
  {
    && SocketOk(s) && TimersOk(s) && ConnectionOk(s) && WaitingOk(s) && BatchOk(s)
    && (s.identity.current != None ==> s.v.socket.Some?) && s.b.refetched <= s.b.synced
  }

  lemma {:induction false} DelayBounds(attempt: nat)
    ensures BASE_MS <= Delay(attempt) <= MAX_MS
  {
    Pow2Positive(attempt);
  }

  /** What does not depend on the connection. */
  ghost predicate RestOk(s: State)
  {
    WaitingOk(s) && BatchOk(s) && s.b.refetched <= s.b.synced
  }

  ghost predicate WantedFor(s: State, accountId: string)
  {
    && s.v.lastConnectParams == Some(accountId) && s.v.connectKey == Some(accountId) && accountId != ""
    && !s.v.manualClose
  }

  /** No socket and no timer: where another connection is made from. */
  ghost predicate Blank(s: State)
  {
    && s.v.socket == None && s.v.reconnectTimer == None && s.v.pingTimer == None && s.b.timeouts == map[]
    && s.b.intervals == map[] && s.identity.current == None && RestOk(s)
  }

  lemma ConstructedKeepsInv(s: State, socket: Socket)
    requires Blank(s) && WantedFor(s, socket.key) && socket.state.Connecting?
    ensures Inv(Constructed(s, socket))
  {
    var s', id := Constructed(s, socket), s.b.next;
    assert id !in s.b.waiting;
    assert SocketOk(s') && TimersOk(s') && ConnectionOk(s') && WaitingOk(s');
  }

  lemma ScheduledKeepsInv(s: State, accountId: string)
    requires Blank(s) && WantedFor(s, accountId)
    ensures Inv(ScheduleReconnect(s))
  {
    DelayBounds(s.v.reconnectAttempt);
    var s' := ScheduleReconnect(s);
    assert s'.b.timeouts == map[s.b.next := Delay(s.v.reconnectAttempt)];
    assert SocketOk(s') && TimersOk(s') && ConnectionOk(s') && WaitingOk(s');
  }

  lemma ClearedTimers(s: State)
    requires TimersOk(s)
    ensures ClearTimers(s).b.timeouts == map[] && ClearTimers(s).b.intervals == map[]
  {
    var c := ClearTimers(s);
    assert c.b.timeouts.Keys == {};
  }

  lemma DroppedIsBlank(s: State)
    requires s.v.reconnectTimer == None && s.v.pingTimer == None && s.b.timeouts == map[] && s.b.intervals == map[]
    requires RestOk(s) && (s.identity.current != None ==> s.v.socket.Some?)
    ensures Blank(Dropped(s))
    ensures Dropped(s).v == s.v.(socket := None)
  {
    assert WaitingOk(Dropped(s));
  }

  lemma ConnectsAnew(s: State, accountId: string, session: Option<string>, constructed: bool)
    requires TimersOk(s) && RestOk(s) && (s.identity.current != None ==> s.v.socket.Some?)
    requires accountId != "" && !(IsOpen(s) && s.v.connectKey == Some(accountId))
    ensures Inv(Connect(s, accountId, session, constructed))
  {
    ClearedTimers(s);
    var d := Prepared(s, accountId);
    assert RestOk(d);
    DroppedIsBlank(d);
    if constructed {
      ConstructedKeepsInv(Dropped(d), Socket(accountId, session, ResumeFrom(s.v.resumeHint, accountId), Connecting));
    } else {
      ScheduledKeepsInv(Dropped(d), accountId);
    }
  }

  lemma CallConnectKeepsInv(s: State, e: Event)
    requires Inv(s) && e.CallConnect? && Enabled(s, e)
    ensures Inv(Next(s, e))
  {
    if e.accountId != "" && !(IsOpen(s) && s.v.connectKey == Some(e.accountId)) {
      ConnectsAnew(s, e.accountId, e.session, e.constructed);
    }
  }

  lemma CallDisconnectKeepsInv(s: State, e: Event)
    requires Inv(s) && e.CallDisconnect? && Enabled(s, e)
    ensures Inv(Next(s, e))
  {
    var s' := Next(s, e);
    LB.RejectAllKeepsInv(s.batch, s.batch.pending.Keys + s.batch.outcomes.Keys, LB.Disconnected);
  }

  lemma ClosedDownIsBlank(s: State, id: nat)
    requires Inv(s) && id in s.b.sockets && s.v.socket == Some(id)
    ensures Blank(ClosedDown(s, id)) && WantedFor(ClosedDown(s, id), s.b.sockets[id].key)
  {
    LB.RejectAllKeepsInv(s.batch, s.batch.pending.Keys + s.batch.outcomes.Keys, LB.SocketClosed);
    var o := s.(b := s.b.(sockets := s.b.sockets[id := s.b.sockets[id].(state := Closed)]));
    ClearedTimers(o);
    assert WaitingOk(ClosedDown(s, id));
  }

  lemma StaleCloseKeepsInv(s: State, id: nat)
    requires Inv(s) && id in s.b.sockets && s.v.socket != Some(id)
    ensures Inv(SocketClosed(s, id))
  {
    var s' := SocketClosed(s, id);
    assert SocketOk(s') && TimersOk(s') && ConnectionOk(s') && WaitingOk(s');
  }

  lemma SocketClosesKeepsInv(s: State, e: Event)
    requires Inv(s) && e.SocketCloses? && Enabled(s, e)
    ensures Inv(Next(s, e))
  {
    if s.v.socket == Some(e.id) {
      ClosedDownIsBlank(s, e.id);
      ScheduledKeepsInv(ClosedDown(s, e.id), s.b.sockets[e.id].key);
    } else {
      StaleCloseKeepsInv(s, e.id);
    }
  }

  lemma ReconnectTimerFiresKeepsInv(s: State, e: Event)
    requires Inv(s) && e.ReconnectTimerFires? && Enabled(s, e)
    ensures Inv(Next(s, e))
  {
    var r := TimerOff(s, e.timer);
    assert r.b.timeouts.Keys == {};
    assert TimersOk(r) && WaitingOk(r);
    ConnectsAnew(r, s.v.lastConnectParams.value, e.session, e.constructed);
  }

  /** What is needed when the open handler of `id` comes to its end. */
  ghost predicate CanFinish(s: State, id: nat)
  {
    && id in s.b.sockets && TimersOk(s) && ConnectionOk(s) && RestOk(s)
    && (s.identity.current != None ==> s.v.socket.Some?)
    && if s.v.socket == Some(id) then
         && s.v.pingTimer == None && id !in s.b.waiting && s.v.connectKey == Some(s.b.sockets[id].key)
         && !s.b.sockets[id].state.Closed? && !s.b.sockets[id].state.Connecting?
       else SocketOk(s)
  }

  lemma FinishKeepsInv(s: State, id: nat, previous: Option<string>, attempted: bool, skipped: bool)
    requires CanFinish(s, id)
    ensures Inv(FinishOpen(s, id, previous, attempted, skipped))
  {
    var s' := FinishOpen(s, id, previous, attempted, skipped);
    if s.v.socket == Some(id) {
      assert s'.b.intervals == map[s.b.next := id];
      assert SocketOk(s') && TimersOk(s') && ConnectionOk(s') && WaitingOk(s');
    }
  }

  /** The open event as far as the session_resume. */
  function JustOpened(s: State, id: nat): State
    requires id in s.b.sockets
  {
    s.(v := s.v.(reconnectAttempt := 0, lastSuccessfulOpenSessionId := s.b.sockets[id].session),
       b := s.b.(sockets := s.b.sockets[id := s.b.sockets[id].(state := Open)]))
  }

  lemma StaleOpenKeepsInv(s: State, id: nat, sent: bool)
    requires Inv(s) && id in s.b.sockets && s.v.socket != Some(id)
    ensures Inv(Opened(s, id, sent))
  {
    var s' := Opened(s, id, sent);
    assert SocketOk(s') && TimersOk(s') && ConnectionOk(s') && WaitingOk(s');
  }

  lemma JustOpenedCanFinish(s: State, id: nat)
    requires Inv(s) && id in s.b.sockets && s.b.sockets[id].state.Connecting? && s.v.socket == Some(id)
    ensures CanFinish(JustOpened(s, id), id)
    ensures var r := JustOpened(s, id);
      CanFinish(r.(v := r.v.(resumeBootstrap := None)), id)
  {
    var r := JustOpened(s, id);
    assert WaitingOk(r) && TimersOk(r);
  }

  lemma WaitKeepsInv(s: State, id: nat, previous: Option<string>)
    requires CanFinish(s, id) && s.v.socket == Some(id)
    ensures Inv(s.(v := s.v.(resumeBootstrap := Some(id)),
                   b := s.b.(waiting := s.b.waiting[id := Waiting(previous, None)])))
  {
    var s' := s.(v := s.v.(resumeBootstrap := Some(id)),
                 b := s.b.(waiting := s.b.waiting[id := Waiting(previous, None)]));
    assert SocketOk(s') && TimersOk(s') && ConnectionOk(s') && WaitingOk(s');
  }

  lemma SocketOpensKeepsInv(s: State, e: Event)
    requires Inv(s) && e.SocketOpens? && Enabled(s, e)
    ensures Inv(Next(s, e))
  {
    if s.v.socket == Some(e.id) {
      JustOpenedCanFinish(s, e.id);
      var r, previous := JustOpened(s, e.id), s.v.lastSuccessfulOpenSessionId;
      WaitKeepsInv(r, e.id, previous);
      FinishKeepsInv(r, e.id, previous, false, false);
      FinishKeepsInv(r.(v := r.v.(resumeBootstrap := None)), e.id, previous, true, false);
    } else {
      StaleOpenKeepsInv(s, e.id, e.sent);
    }
  }

  lemma HandlerContinuesKeepsInv(s: State, e: Event)
    requires Inv(s) && e.HandlerContinues? && Enabled(s, e)
    ensures Inv(Next(s, e))
  {
    var w, r := s.b.waiting[e.id], s.(v := s.v.(resumeBootstrap := None), b := s.b.(waiting := s.b.waiting - {e.id}));
    assert WaitingOk(r) && TimersOk(r);
    FinishKeepsInv(r, e.id, w.previousSession, true, w.answer == Some(true));
  }

  lemma ResumeAckArrivesKeepsInv(s: State, e: Event)
    requires Inv(s) && e.ResumeAckArrives? && Enabled(s, e)
    ensures Inv(Next(s, e))
  {
    var s' := Next(s, e);
    assert s'.b.waiting.Keys == s.b.waiting.Keys;
    assert SocketOk(s') && TimersOk(s') && ConnectionOk(s') && WaitingOk(s');
  }

  lemma BatchKeepsInv(s: State, e: Event)
    requires Inv(s) && (e.CallRequest? || e.BatchAckArrives? || e.RequestTimerFires?) && Enabled(s, e)
    ensures Inv(Next(s, e))
  {
    var s' := Next(s, e);
    var issued := s.batch.pending.Keys + s.batch.outcomes.Keys;
    match e {
      case CallRequest(requestId, sent) => LB.RequestKeepsInv(s.batch, issued, requestId, sent);
      case BatchAckArrives(_, requestId, ok) => LB.AckKeepsInv(s.batch, issued, requestId, ok);
      case RequestTimerFires(timer) => LB.TimeoutKeepsInv(s.batch, issued, timer);
    }
  }

  lemma StepKeepsInv(s: State, e: Event)
    requires Inv(s) && Enabled(s, e)
    ensures Inv(Next(s, e))
  {
    match e {
      case CallConnect(_, _, _) => CallConnectKeepsInv(s, e);
      case CallDisconnect => CallDisconnectKeepsInv(s, e);
      case SocketCloses(_) => SocketClosesKeepsInv(s, e);
      case ReconnectTimerFires(_, _, _) => ReconnectTimerFiresKeepsInv(s, e);
      case SocketOpens(_, _) => SocketOpensKeepsInv(s, e);
      case HandlerContinues(_) => HandlerContinuesKeepsInv(s, e);
      case ResumeAckArrives(_, _) => ResumeAckArrivesKeepsInv(s, e);
      case CallRequest(_, _) => BatchKeepsInv(s, e);
      case BatchAckArrives(_, _, _) => BatchKeepsInv(s, e);
      case RequestTimerFires(_) => BatchKeepsInv(s, e);
      case CallStash(_, _) =>
      case SocketStartsClosing(_) =>
      case ConnectedArrives(_, _) =>
    }
  }

  lemma {:induction false} RunsKeepInv(states: seq<State>, es: seq<Event>, n: nat)
    requires Run(states, es) && n < |states|
    ensures Inv(states[n])
  {
    if n > 0 {
      RunsKeepInv(states, es, n - 1);
      StepKeepsInv(states[n - 1], es[n - 1]);
    }
  }

  // ----- Main results -----

  /** Over every run: a wanted connection has a socket or one armed reconnect timer, never both and
      never neither; one that is not wanted has none of them, and no other timeout is ever armed. */
  lemma NeverStrandedNeverDoubled(states: seq<State>, es: seq<Event>, n: nat)
    requires Run(states, es) && n < |states|
    ensures var s := states[n];
      && (Wanted(s) <==> (s.v.socket.Some? && s.b.timeouts == map[]) || (s.v.socket == None && |s.b.timeouts| == 1))
      && (!Wanted(s) <==> s.v.socket == None && s.b.timeouts == map[])
  {
    RunsKeepInv(states, es, n);
    var s := states[n];
    assert |s.b.timeouts| == |s.b.timeouts.Keys|;
    assert s.b.timeouts.Keys == {} ==> s.b.timeouts == map[];
  }

  /** Over every run at most one ping interval is running; it pings the current socket, and an open
      current socket whose open handler is through has it. */
  lemma OnePing(states: seq<State>, es: seq<Event>, n: nat)
    requires Run(states, es) && n < |states|
    ensures var s := states[n];
      && (forall t :: t in s.b.intervals ==> s.v.pingTimer == Some(t) && s.v.socket == Some(s.b.intervals[t]))
      && (IsOpen(s) && s.v.socket.value !in s.b.waiting ==>
            s.v.pingTimer.Some? && s.b.intervals.Keys == {s.v.pingTimer.value})
  {
    RunsKeepInv(states, es, n);
  }

  /** Over every run a client id is live only while there is a current socket. */
  lemma ClientIdNeedsSocket(states: seq<State>, es: seq<Event>, n: nat)
    requires Run(states, es) && n < |states| && states[n].identity.current != None
    ensures states[n].v.socket.Some?
  {
    RunsKeepInv(states, es, n);
  }

  /** Over every run each lock-state-batch request that was made is pending with an armed timer of
      its own, or was settled once; the two exclude each other, and no other timer is armed. */
  lemma RequestsSettleOnce(states: seq<State>, es: seq<Event>, n: nat, requestId: string)
    requires Run(states, es) && n < |states|
    ensures var b := states[n].batch;
      && |LB.OutcomesOf(b, requestId)| <= 1
      && (requestId in b.pending <==> exists t :: t in b.timers && b.timers[t] == requestId)
      && (requestId in b.pending ==> LB.OutcomesOf(b, requestId) == [])
  {
    RunsKeepInv(states, es, n);
  }

  /** Sockets are only added, and none starts connecting again; handlers, syncs and requests stay. */
  ghost predicate OnlySockets(s: State, s': State)
  {
    && (forall id :: id in s.b.sockets ==>
          id in s'.b.sockets && (s'.b.sockets[id].state.Connecting? ==> s.b.sockets[id].state.Connecting?))
    && s'.b.waiting == s.b.waiting && s'.b.synced == s.b.synced && s'.batch == s.batch
  }

  lemma DroppedFrame(s: State, accountId: string)
    ensures OnlySockets(s, Dropped(Prepared(s, accountId))) && Dropped(Prepared(s, accountId)).b.next == s.b.next
    ensures Dropped(Prepared(s, accountId)).b.sockets.Keys == s.b.sockets.Keys
  {
  }

  lemma FramesCompose(s: State, d: State, r: State)
    requires OnlySockets(s, d) && OnlySockets(d, r)
    ensures OnlySockets(s, r)
  {
  }

  lemma ScheduledFrame(s: State)
    ensures OnlySockets(s, ScheduleReconnect(s))
  {
  }

  lemma ConstructedFrame(s: State, socket: Socket)
    requires s.b.next !in s.b.sockets
    ensures OnlySockets(s, Constructed(s, socket))
  {
  }

  lemma ConnectFrame(s: State, accountId: string, session: Option<string>, constructed: bool)
    requires s.b.next !in s.b.sockets
    ensures OnlySockets(s, Connect(s, accountId, session, constructed))
  {
    var d := Dropped(Prepared(s, accountId));
    DroppedFrame(s, accountId);
    if constructed {
      var socket := Socket(accountId, session, ResumeFrom(s.v.resumeHint, accountId), Connecting);
      ConstructedFrame(d, socket);
      FramesCompose(s, d, Constructed(d, socket));
    } else {
      ScheduledFrame(d);
      FramesCompose(s, d, ScheduleReconnect(d));
    }
  }

  /** Connecting, by the application or by the timer, touches only sockets. */
  lemma ConnectingFrame(s: State, e: Event)
    requires WaitingOk(s) && Enabled(s, e) && (e.CallConnect? || e.ReconnectTimerFires?)
    ensures OnlySockets(s, Next(s, e))
  {
    match e {
      case CallConnect(accountId, session, constructed) => ConnectFrame(s, accountId, session, constructed);
      case ReconnectTimerFires(timer, session, constructed) =>
        if s.v.lastConnectParams.Some? {
          ConnectFrame(TimerOff(s, timer), s.v.lastConnectParams.value, session, constructed);
        }
    }
  }

  ghost predicate Issued(s: State, requestId: string)
  {
    requestId in s.batch.pending || requestId in s.batch.outcomes
  }

  lemma RejectKeepsIssued(b: LB.Batch, reason: LB.Reason, requestId: string)
    requires requestId in b.pending || requestId in b.outcomes
    ensures requestId in LB.RejectedAll(b, reason).outcomes
  {
  }

  lemma ConnectingKeepsIssued(s: State, e: Event, requestId: string)
    requires WaitingOk(s) && Enabled(s, e) && (e.CallConnect? || e.ReconnectTimerFires?) && Issued(s, requestId)
    ensures Issued(Next(s, e), requestId)
  {
    ConnectingFrame(s, e);
  }

  lemma BatchKeepsIssued(s: State, e: Event, requestId: string)
    requires Enabled(s, e) && (e.CallRequest? || e.BatchAckArrives? || e.RequestTimerFires?) && Issued(s, requestId)
    ensures Issued(Next(s, e), requestId)
  {
  }

  lemma StepKeepsIssued(s: State, e: Event, requestId: string)
    requires Inv(s) && Enabled(s, e) && Issued(s, requestId)
    ensures Issued(Next(s, e), requestId)
  {
    match e {
      case CallConnect(_, _, _) => ConnectingKeepsIssued(s, e, requestId);
      case ReconnectTimerFires(_, _, _) => ConnectingKeepsIssued(s, e, requestId);
      case CallDisconnect => RejectKeepsIssued(s.batch, LB.Disconnected, requestId);
      case SocketCloses(_) => RejectKeepsIssued(s.batch, LB.SocketClosed, requestId);
      case CallRequest(_, _) => BatchKeepsIssued(s, e, requestId);
      case BatchAckArrives(_, _, _) => BatchKeepsIssued(s, e, requestId);
      case RequestTimerFires(_) => BatchKeepsIssued(s, e, requestId);
      case _ =>
    }
  }

  lemma {:induction false} IssuedStays(states: seq<State>, es: seq<Event>, m: nat, n: nat, requestId: string)
    requires Run(states, es) && m <= n < |states| && Issued(states[m], requestId)
    ensures Issued(states[n], requestId)
    decreases n - m
  {
    if m < n {
      RunsKeepInv(states, es, m);
      StepKeepsIssued(states[m], es[m], requestId);
      IssuedStays(states, es, m + 1, n, requestId);
    }
  }

  lemma RequestIsIssued(s: State, e: Event)
    requires Enabled(s, e) && e.CallRequest? && IsOpen(s)
    ensures Issued(Next(s, e), e.requestId)
  {
  }

  /** A request that was made is never lost: from then on it is pending or settled. */
  lemma RequestsAreNotLost(states: seq<State>, es: seq<Event>, i: nat, n: nat)
    requires Run(states, es) && i < n < |states| && es[i].CallRequest? && IsOpen(states[i])
    ensures var b := states[n].batch;
      es[i].requestId in b.pending || |LB.OutcomesOf(b, es[i].requestId)| == 1
  {
    RequestIsIssued(states[i], es[i]);
    IssuedStays(states, es, i + 1, n, es[i].requestId);
    RunsKeepInv(states, es, n);
  }

  /** What an event settles a pending request with, if it does. */
  function Cause(s: State, e: Event, requestId: string): Option<LB.Outcome>
  {
    match e
    case BatchAckArrives(id, r, ok) =>
      if s.v.socket == Some(id) && r == requestId then Some(if ok then LB.Resolved else LB.Failed(LB.ServerError))
      else None
    case SocketCloses(id) => if s.v.socket == Some(id) then Some(LB.Failed(LB.SocketClosed)) else None
    case CallDisconnect => Some(LB.Failed(LB.Disconnected))
    case RequestTimerFires(timer) =>
      if timer in s.batch.timers && s.batch.timers[timer] == requestId then Some(LB.Failed(LB.TimedOut)) else None
    case _ => None
  }

  /** The first such event from `i` on, before `n`. */
  function FirstCause(states: seq<State>, es: seq<Event>, i: nat, n: nat, requestId: string): Option<LB.Outcome>
    requires i <= n <= |es| && n < |states|
    decreases n - i
  {
    if i == n then None
    else
      var o := Cause(states[i], es[i], requestId);
      if o.Some? then o else FirstCause(states, es, i + 1, n, requestId)
  }

  lemma RejectSettles(b: LB.Batch, reason: LB.Reason, requestId: string)
    requires requestId in b.pending && requestId !in b.outcomes
    ensures LB.OutcomesOf(LB.RejectedAll(b, reason), requestId) == [LB.Failed(reason)]
    ensures requestId !in LB.RejectedAll(b, reason).pending
  {
  }

  /** The events that can change the requests. */
  predicate TouchesBatch(e: Event)
  {
    e.CallRequest? || e.BatchAckArrives? || e.RequestTimerFires? || e.CallDisconnect? || e.SocketCloses?
  }

  lemma OthersKeepBatch(s: State, e: Event)
    requires WaitingOk(s) && Enabled(s, e) && !TouchesBatch(e)
    ensures Next(s, e).batch == s.batch
  {
    match e {
      case CallConnect(_, _, _) => ConnectingFrame(s, e);
      case ReconnectTimerFires(_, _, _) => ConnectingFrame(s, e);
      case _ =>
    }
  }

  lemma BatchStepSettles(s: State, e: Event, requestId: string)
    requires BatchOk(s) && Enabled(s, e) && requestId in s.batch.pending && requestId != ""
    requires e.CallRequest? || e.BatchAckArrives? || e.RequestTimerFires?
    ensures var o, b := Cause(s, e, requestId), Next(s, e).batch;
      && (requestId in b.pending <==> o == None)
      && LB.OutcomesOf(b, requestId) == if o == None then [] else [o.value]
  {
    match e {
      case CallRequest(_, _) =>
      case BatchAckArrives(_, _, _) =>
      case RequestTimerFires(_) =>
    }
  }

  lemma RejectingStepSettles(s: State, e: Event, requestId: string)
    requires BatchOk(s) && Enabled(s, e) && requestId in s.batch.pending && (e.CallDisconnect? || e.SocketCloses?)
    ensures var o, b := Cause(s, e, requestId), Next(s, e).batch;
      && (requestId in b.pending <==> o == None)
      && LB.OutcomesOf(b, requestId) == if o == None then [] else [o.value]
  {
    if e.CallDisconnect? {
      RejectSettles(s.batch, LB.Disconnected, requestId);
      assert Next(s, e).batch == LB.RejectedAll(s.batch, LB.Disconnected);
    } else {
      RejectSettles(s.batch, LB.SocketClosed, requestId);
      assert Next(s, e).batch
          == if s.v.socket == Some(e.id) then LB.RejectedAll(s.batch, LB.SocketClosed) else s.batch;
    }
  }

  lemma StepSettles(s: State, e: Event, requestId: string)
    requires Inv(s) && Enabled(s, e) && requestId in s.batch.pending && requestId != ""
    ensures var o, b := Cause(s, e, requestId), Next(s, e).batch;
      && (requestId in b.pending <==> o == None)
      && LB.OutcomesOf(b, requestId) == if o == None then [] else [o.value]
  {
    match e {
      case CallDisconnect => RejectingStepSettles(s, e, requestId);
      case SocketCloses(_) => RejectingStepSettles(s, e, requestId);
      case CallRequest(_, _) => BatchStepSettles(s, e, requestId);
      case BatchAckArrives(_, _, _) => BatchStepSettles(s, e, requestId);
      case RequestTimerFires(_) => BatchStepSettles(s, e, requestId);
      case _ => OthersKeepBatch(s, e);
    }
  }

  lemma StepKeepsOutcome(s: State, e: Event, requestId: string)
    requires Inv(s) && Enabled(s, e) && requestId in s.batch.outcomes
    ensures requestId in Next(s, e).batch.outcomes && requestId !in Next(s, e).batch.pending
    ensures Next(s, e).batch.outcomes[requestId] == s.batch.outcomes[requestId]
  {
    if !TouchesBatch(e) {
      OthersKeepBatch(s, e);
    }
  }

  lemma {:induction false} OutcomeStays(states: seq<State>, es: seq<Event>, i: nat, n: nat, requestId: string)
    requires Run(states, es) && i <= n < |states| && requestId in states[i].batch.outcomes
    ensures requestId in states[n].batch.outcomes && requestId !in states[n].batch.pending
    ensures states[n].batch.outcomes[requestId] == states[i].batch.outcomes[requestId]
    decreases n - i
  {
    RunsKeepInv(states, es, i);
    if i < n {
      StepKeepsOutcome(states[i], es[i], requestId);
      OutcomeStays(states, es, i + 1, n, requestId);
    }
  }

  lemma {:induction false} PendingUntilCause(states: seq<State>, es: seq<Event>, i: nat, n: nat, requestId: string)
    requires Run(states, es) && i <= n < |states| && requestId in states[i].batch.pending && requestId != ""
    ensures var o, b := FirstCause(states, es, i, n, requestId), states[n].batch;
      && (requestId in b.pending <==> o == None)
      && LB.OutcomesOf(b, requestId) == if o == None then [] else [o.value]
    decreases n - i
  {
    RunsKeepInv(states, es, i);
    if i < n {
      StepSettles(states[i], es[i], requestId);
      if Cause(states[i], es[i], requestId) == None {
        PendingUntilCause(states, es, i + 1, n, requestId);
      } else {
        OutcomeStays(states, es, i + 1, n, requestId);
      }
    }
  }

  /** Over every run: a request is settled by the first of its acknowledgement, its timeout, the close of
      the current socket and a disconnect, with what that stands for; at once when it cannot be sent. */
  lemma FirstCauseSettles(states: seq<State>, es: seq<Event>, i: nat, n: nat)
    requires Run(states, es) && i < n < |states| && es[i].CallRequest? && IsOpen(states[i])
    ensures var o := if !es[i].sent then Some(LB.Failed(LB.SendFailed))
                     else FirstCause(states, es, i + 1, n, es[i].requestId);
      && (es[i].requestId in states[n].batch.pending <==> o == None)
      && LB.OutcomesOf(states[n].batch, es[i].requestId) == if o == None then [] else [o.value]
  {
    if es[i].sent {
      PendingUntilCause(states, es, i + 1, n, es[i].requestId);
    } else {
      OutcomeStays(states, es, i + 1, n, es[i].requestId);
    }
  }

  /** Closing the current socket and disconnecting leave no request pending. */
  lemma NothingPendingOffline(s: State, e: Event)
    requires Inv(s) && Enabled(s, e)
    requires e.CallDisconnect? || (e.SocketCloses? && s.v.socket == Some(e.id))
    ensures Next(s, e).batch.pending == map[] && Next(s, e).batch.timers == map[]
    ensures forall id :: id in s.batch.pending ==> |LB.OutcomesOf(Next(s, e).batch, id)| == 1
  {
    StepKeepsInv(s, e);
    var issued := s.batch.pending.Keys + s.batch.outcomes.Keys;
    LB.RejectAllKeepsInv(s.batch, issued, LB.Disconnected);
    LB.RejectAllKeepsInv(s.batch, issued, LB.SocketClosed);
  }

  // ----- Disconnecting -----

  /** Nothing is wanted, and nothing runs. */
  ghost predicate Quiet(s: State)
  {
    && !Wanted(s) && s.v.socket == None && s.b.timeouts == map[] && s.b.intervals == map[] && s.identity.current == None
  }

  lemma StepKeepsQuiet(s: State, e: Event)
    requires Inv(s) && Quiet(s) && Enabled(s, e) && !e.CallConnect?
    ensures Quiet(Next(s, e)) && Next(s, e).b.sockets.Keys == s.b.sockets.Keys
  {
    StepKeepsInv(s, e);
    match e {
      case CallDisconnect =>
      case SocketOpens(_, _) =>
      case SocketCloses(_) =>
      case HandlerContinues(_) =>
      case _ =>
    }
  }

  lemma DisconnectIsQuiet(s: State)
    requires Inv(s)
    ensures Quiet(Disconnect(s)) && Disconnect(s).b.sockets.Keys == s.b.sockets.Keys
  {
    ClearedTimers(Forgotten(s));
  }

  /** From a disconnect on, until connect is called, no socket is made and no timer is armed. */
  lemma {:induction false} QuietAfterDisconnect(states: seq<State>, es: seq<Event>, i: nat, n: nat)
    requires Run(states, es) && i < n < |states| && es[i].CallDisconnect?
    requires forall k :: i < k < n ==> !es[k].CallConnect?
    ensures var s := states[n];
      && !Wanted(s) && s.v.socket == None && s.b.timeouts == map[] && s.b.intervals == map[]
      && s.b.sockets.Keys == states[i].b.sockets.Keys && s.identity.current == None
    decreases n
  {
    RunsKeepInv(states, es, n - 1);
    if n > i + 1 {
      QuietAfterDisconnect(states, es, i, n - 1);
      StepKeepsQuiet(states[n - 1], es[n - 1]);
    } else {
      DisconnectIsQuiet(states[i]);
    }
  }

  // ----- Sockets that are given up -----

  /** Every socket but the current one is closing or closed. */
  ghost predicate OthersClose(s: State)
  {
    forall id :: id in s.b.sockets && s.v.socket != Some(id) ==>
      s.b.sockets[id].state.Closing? || s.b.sockets[id].state.Closed?
  }

  lemma DroppedOthersClose(s: State, accountId: string)
    requires OthersClose(s)
    ensures OthersClose(Dropped(Prepared(s, accountId))) && Dropped(Prepared(s, accountId)).v.socket == None
    ensures Dropped(Prepared(s, accountId)).b.next == s.b.next
  {
  }

  lemma ConnectOthersClose(s: State, accountId: string, session: Option<string>, constructed: bool)
    requires OthersClose(s) && WaitingOk(s)
    ensures OthersClose(Connect(s, accountId, session, constructed))
  {
    var d := Dropped(Prepared(s, accountId));
    DroppedOthersClose(s, accountId);
    var r := ScheduleReconnect(d);
    assert r.b.sockets == d.b.sockets && r.v.socket == None;
  }

  lemma OpenedOthersClose(s: State, id: nat, sent: bool)
    requires OthersClose(s) && id in s.b.sockets && s.b.sockets[id].state.Connecting?
    ensures OthersClose(Opened(s, id, sent))
  {
    assert s.v.socket == Some(id);
    var s' := Opened(s, id, sent);
    assert s'.v.socket == s.v.socket;
    assert s'.b.sockets == s.b.sockets[id := s.b.sockets[id].(state := Open)];
  }

  lemma ContinuedOthersClose(s: State, id: nat)
    requires OthersClose(s) && id in s.b.sockets && id in s.b.waiting
    ensures OthersClose(Continued(s, id))
  {
    var s' := Continued(s, id);
    assert s'.v.socket == s.v.socket && s'.b.sockets == s.b.sockets;
  }

  lemma DisconnectOthersClose(s: State)
    requires OthersClose(s)
    ensures OthersClose(Disconnect(s))
  {
    var f := ClearTimers(Forgotten(s));
    assert f.b.sockets == s.b.sockets;
    var s' := Disconnect(s);
    assert s'.v.socket == None;
    assert s'.b.sockets == if s.v.socket.Some? then CloseSocket(f.b, s.v.socket.value).sockets else s.b.sockets;
  }

  lemma SocketClosedOthersClose(s: State, id: nat)
    requires OthersClose(s) && id in s.b.sockets
    ensures OthersClose(SocketClosed(s, id))
  {
    var s' := SocketClosed(s, id);
    assert s'.b.sockets == s.b.sockets[id := s.b.sockets[id].(state := Closed)];
    assert s'.v.socket == if s.v.socket == Some(id) then None else s.v.socket;
  }

  lemma StepOthersClose(s: State, e: Event)
    requires Inv(s) && OthersClose(s) && Enabled(s, e)
    ensures OthersClose(Next(s, e))
  {
    match e {
      case CallConnect(accountId, session, constructed) => ConnectOthersClose(s, accountId, session, constructed);
      case ReconnectTimerFires(timer, session, constructed) =>
        ConnectOthersClose(TimerOff(s, timer), s.v.lastConnectParams.value, session, constructed);
      case SocketOpens(id, sent) => OpenedOthersClose(s, id, sent);
      case HandlerContinues(id) => ContinuedOthersClose(s, id);
      case CallDisconnect => DisconnectOthersClose(s);
      case SocketCloses(id) => SocketClosedOthersClose(s, id);
      case SocketStartsClosing(_) =>
      case _ =>
    }
  }

  /** Over every run at most one socket is connecting or open, the current one: whichever is replaced
      or disconnected has been closed. */
  lemma {:induction false} GivenUpSocketsClose(states: seq<State>, es: seq<Event>, n: nat)
    requires Run(states, es) && n < |states|
    ensures OthersClose(states[n])
  {
    if n > 0 {
      GivenUpSocketsClose(states, es, n - 1);
      RunsKeepInv(states, es, n - 1);
      StepOthersClose(states[n - 1], es[n - 1]);
    }
  }

  /** So from a disconnect on, until connect is called, none is. */
  lemma AllSocketsCloseAfterDisconnect(states: seq<State>, es: seq<Event>, i: nat, n: nat)
    requires Run(states, es) && i < n < |states| && es[i].CallDisconnect?
    requires forall k :: i < k < n ==> !es[k].CallConnect?
    ensures forall id :: id in states[n].b.sockets ==>
      states[n].b.sockets[id].state.Closing? || states[n].b.sockets[id].state.Closed?
  {
    QuietAfterDisconnect(states, es, i, n);
    GivenUpSocketsClose(states, es, n);
  }

  // ----- Replaced sockets -----

  /** What the rest of the application can see: the variables, the requests, the identity, the timers. */
  ghost predicate Unchanged(s: State, s': State)
  {
    && s'.v == s.v && s'.batch == s.batch && s'.identity == s.identity
    && s'.b.timeouts == s.b.timeouts && s'.b.intervals == s.b.intervals
    && s'.b.synced == s.b.synced && s'.b.refetched == s.b.refetched && s'.b.waiting == s.b.waiting
  }

  /** The socket that an event comes from. */
  function Source(e: Event): Option<nat>
  {
    match e
    case SocketOpens(id, _) => Some(id)
    case SocketStartsClosing(id) => Some(id)
    case SocketCloses(id) => Some(id)
    case ResumeAckArrives(id, _) => Some(id)
    case ConnectedArrives(id, _) => Some(id)
    case BatchAckArrives(id, _, _) => Some(id)
    case _ => None
  }

  /** Events of sockets that are not current change nothing. */
  lemma StaleEventsAreIgnored(s: State, e: Event)
    requires Enabled(s, e) && Source(e).Some? && Source(e) != s.v.socket
    ensures Unchanged(s, Next(s, e))
  {
  }

  /** Not so for an open handler that a replaced socket left waiting: when it goes on it starts
      nothing, but it forgets whichever handler waits for an acknowledgement. */
  lemma StaleHandlerOnlyForgets(s: State, e: Event)
    requires Enabled(s, e) && e.HandlerContinues? && s.v.socket != Some(e.id)
    ensures var s' := Next(s, e);
      && s'.v == s.v.(resumeBootstrap := None)
      && Unchanged(s.(v := s'.v, b := s.b.(waiting := s.b.waiting - {e.id})), s')
    ensures Next(s, e).v == s.v <==> s.v.resumeBootstrap == None
  {
  }

  // ----- The client id -----

  /** What an event means for the client id: a socket that is dropped or closes takes it away softly,
      a disconnect for good, and the server announces one over the current socket. */
  function IdentityOps(s: State, e: Event): seq<CI.Op>
  {
    match e
    case CallDisconnect => [CI.HardClear]
    case SocketCloses(id) => if s.v.socket == Some(id) then [CI.SoftClear] else []
    case ConnectedArrives(id, clientID) => if s.v.socket == Some(id) then [CI.Assign(clientID)] else []
    case _ => if Attempt(s, e).Some? && s.v.socket.Some? then [CI.SoftClear] else []
  }

  function AllIdentityOps(states: seq<State>, es: seq<Event>, n: nat): seq<CI.Op>
    requires n <= |es| && n < |states|
  {
    if n == 0 then [] else AllIdentityOps(states, es, n - 1) + IdentityOps(states[n - 1], es[n - 1])
  }

  lemma RunOne(s: CI.Identity, op: CI.Op)
    ensures CI.RunFrom(s, [op]) == CI.After(s, op) && CI.RunFrom(s, []) == s
  {
    assert [op][1..] == [];
  }

  lemma ConnectFeedsIdentity(s: State, accountId: string, session: Option<string>, constructed: bool)
    ensures Connect(s, accountId, session, constructed).identity
         == if accountId == "" || (IsOpen(s) && s.v.connectKey == Some(accountId)) || s.v.socket == None then s.identity
            else CI.After(s.identity, CI.SoftClear)
  {
  }

  lemma StepFeedsIdentity(s: State, e: Event)
    requires Inv(s) && Enabled(s, e)
    ensures Next(s, e).identity == CI.RunFrom(s.identity, IdentityOps(s, e))
  {
    RunOne(s.identity, CI.SoftClear);
    match e {
      case CallConnect(accountId, session, constructed) => ConnectFeedsIdentity(s, accountId, session, constructed);
      case ReconnectTimerFires(timer, session, constructed) =>
        ConnectFeedsIdentity(TimerOff(s, timer), s.v.lastConnectParams.value, session, constructed);
      case CallDisconnect => RunOne(s.identity, CI.HardClear);
      case ConnectedArrives(_, clientID) => RunOne(s.identity, CI.Assign(clientID));
      case SocketCloses(_) =>
      case SocketOpens(_, _) =>
      case HandlerContinues(_) =>
      case _ =>
    }
  }

  /** Over every run the client id has gone through exactly these operations, so that all that is proved
      of their runs holds: a lock follows the client through every drop and replacement, and not beyond a
      disconnect. */
  lemma {:induction false} IdentityFollowsSocket(states: seq<State>, es: seq<Event>, n: nat)
    requires Run(states, es) && n < |states|
    ensures states[n].identity == CI.RunFrom(CI.FRESH, AllIdentityOps(states, es, n))
  {
    if n > 0 {
      var ops, last := AllIdentityOps(states, es, n - 1), IdentityOps(states[n - 1], es[n - 1]);
      IdentityFollowsSocket(states, es, n - 1);
      RunsKeepInv(states, es, n - 1);
      StepFeedsIdentity(states[n - 1], es[n - 1]);
      CI.RunAppend(CI.FRESH, ops, last);
    }
  }

  ghost predicate NoDisconnect(es: seq<Event>, i: nat, n: nat)
    requires n <= |es|
  {
    forall k :: i <= k < n ==> !es[k].CallDisconnect?
  }

  ghost predicate NoEmptyIds(es: seq<Event>, n: nat)
    requires n <= |es|
  {
    forall k :: 0 <= k < n && es[k].ConnectedArrives? ==> CI.IdOf(es[k].clientID) != None
  }

  function IdentityOpsSince(states: seq<State>, es: seq<Event>, i: nat, n: nat): seq<CI.Op>
    requires i <= n <= |es| && n < |states|
  {
    if n == i then [] else IdentityOpsSince(states, es, i, n - 1) + IdentityOps(states[n - 1], es[n - 1])
  }

  lemma {:induction false} OpsSplit(states: seq<State>, es: seq<Event>, i: nat, n: nat)
    requires i <= n <= |es| && n < |states|
    ensures AllIdentityOps(states, es, n) == AllIdentityOps(states, es, i) + IdentityOpsSince(states, es, i, n)
  {
    if i < n {
      OpsSplit(states, es, i, n - 1);
      Assoc(AllIdentityOps(states, es, i), IdentityOpsSince(states, es, i, n - 1),
            IdentityOps(states[n - 1], es[n - 1]));
    } else {
      assert AllIdentityOps(states, es, i) + [] == AllIdentityOps(states, es, i);
    }
  }

  lemma AppendKeepsPlain(a: seq<CI.Op>, b: seq<CI.Op>)
    ensures CI.NoEmptyAssignment(a) && CI.NoEmptyAssignment(b) ==> CI.NoEmptyAssignment(a + b)
    ensures CI.NoHardClear(a) && CI.NoHardClear(b) ==> CI.NoHardClear(a + b)
  {
  }

  lemma OpsOfOne(s: State, e: Event)
    ensures !(e.ConnectedArrives? && CI.IdOf(e.clientID) == None) ==> CI.NoEmptyAssignment(IdentityOps(s, e))
    ensures !e.CallDisconnect? ==> CI.NoHardClear(IdentityOps(s, e))
  {
  }

  lemma {:induction false} PlainSince(states: seq<State>, es: seq<Event>, i: nat, n: nat)
    requires i <= n <= |es| && n < |states|
    ensures NoEmptyIds(es, n) ==> CI.NoEmptyAssignment(IdentityOpsSince(states, es, i, n))
    ensures NoDisconnect(es, i, n) ==> CI.NoHardClear(IdentityOpsSince(states, es, i, n))
  {
    if i < n {
      PlainSince(states, es, i, n - 1);
      OpsOfOne(states[n - 1], es[n - 1]);
      AppendKeepsPlain(IdentityOpsSince(states, es, i, n - 1), IdentityOps(states[n - 1], es[n - 1]));
    }
  }

  /** A lock that belongs to the live client belongs to whichever client is live later, through any
      number of drops, reconnects and replacements, while nobody disconnects. */
  lemma LocksFollowReconnects(states: seq<State>, es: seq<Event>, i: nat, n: nat)
    requires Run(states, es) && i <= n < |states| && NoEmptyIds(es, n) && NoDisconnect(es, i, n)
    requires states[i].identity.current.Some? && states[n].identity.current.Some?
    ensures var events := CI.EventsFrom(states[i].identity, IdentityOpsSince(states, es, i, n));
      states[n].identity.current == Some(CI.RebindAll(states[i].identity.current.value, events))
  {
    var before, after := AllIdentityOps(states, es, i), IdentityOpsSince(states, es, i, n);
    IdentityFollowsSocket(states, es, i);
    IdentityFollowsSocket(states, es, n);
    OpsSplit(states, es, 0, i);
    OpsSplit(states, es, i, n);
    PlainSince(states, es, 0, i);
    PlainSince(states, es, i, n);
    assert AllIdentityOps(states, es, i) == IdentityOpsSince(states, es, 0, i);
    CI.RunAppend(CI.FRESH, before, after);
    CI.RunsAreFaithful(CI.FRESH, None, before);
    CI.LockFollowsClient(before, states[i].identity.current.value, after);
  }

  /** A disconnect leaves no id behind, and tells the handler that waits for an answer to go on. */
  lemma DisconnectForgets(s: State)
    ensures Disconnect(s).identity == CI.FRESH && Disconnect(s).v.resumeBootstrap == None
    ensures forall id :: s.v.resumeBootstrap == Some(id) && id in s.b.waiting ==>
      id in Disconnect(s).b.waiting && Disconnect(s).b.waiting[id].answer == Some(false)
  {
  }

  // ----- Baseline sync -----

  lemma {:induction false} NoSessionUntilOpen(states: seq<State>, es: seq<Event>, i: nat, m: nat)
    requires Run(states, es) && i < m < |states| && es[i].CallDisconnect?
    requires forall k :: i < k < m && es[k].SocketOpens? ==> states[k].v.socket != Some(es[k].id)
    ensures states[m].v.lastSuccessfulOpenSessionId == None
    decreases m
  {
    if m > i + 1 {
      NoSessionUntilOpen(states, es, i, m - 1);
    }
  }

  ghost predicate WaitsAfter(s: State, id: nat, previous: Option<string>)
  {
    && id in s.b.waiting && s.b.waiting[id].previousSession == previous
    && id in s.b.sockets && !s.b.sockets[id].state.Connecting?
  }

  lemma HandlerStepKeepsWait(s: State, e: Event, id: nat, previous: Option<string>)
    requires Enabled(s, e) && WaitsAfter(s, id, previous) && e != HandlerContinues(id)
    requires e.SocketOpens? || e.HandlerContinues? || e.ResumeAckArrives?
    ensures WaitsAfter(Next(s, e), id, previous)
  {
    match e {
      case SocketOpens(_, _) =>
      case HandlerContinues(_) =>
      case ResumeAckArrives(_, _) =>
    }
  }

  lemma StepKeepsWait(s: State, e: Event, id: nat, previous: Option<string>)
    requires Inv(s) && Enabled(s, e) && WaitsAfter(s, id, previous) && e != HandlerContinues(id)
    ensures WaitsAfter(Next(s, e), id, previous)
  {
    match e {
      case CallConnect(_, _, _) => ConnectingFrame(s, e);
      case ReconnectTimerFires(_, _, _) => ConnectingFrame(s, e);
      case SocketOpens(_, _) => HandlerStepKeepsWait(s, e, id, previous);
      case HandlerContinues(_) => HandlerStepKeepsWait(s, e, id, previous);
      case ResumeAckArrives(_, _) => HandlerStepKeepsWait(s, e, id, previous);
      case _ =>
    }
  }

  lemma {:induction false} WaitKeepsPrevious(
    states: seq<State>, es: seq<Event>, m: nat, n: nat, id: nat, previous: Option<string>)
    requires Run(states, es) && m <= n < |states| && WaitsAfter(states[m], id, previous)
    requires forall k :: m <= k < n ==> es[k] != HandlerContinues(id)
    ensures WaitsAfter(states[n], id, previous)
    decreases n - m
  {
    if m < n {
      RunsKeepInv(states, es, m);
      StepKeepsWait(states[m], es[m], id, previous);
      WaitKeepsPrevious(states, es, m + 1, n, id, previous);
    }
  }

  /** The first current socket to open after a disconnect asks for the baseline sync, if it is still
      current when its handler ends: the answer to its session_resume makes no difference. */
  lemma FirstOpenAlwaysSyncs(states: seq<State>, es: seq<Event>, i: nat, m: nat, n: nat)
    requires Run(states, es) && i < m < n < |es| && es[i].CallDisconnect?
    requires forall k :: i < k < m && es[k].SocketOpens? ==> states[k].v.socket != Some(es[k].id)
    requires es[m].SocketOpens? && states[m].v.socket == Some(es[m].id)
    requires es[n] == HandlerContinues(es[m].id) && states[n].v.socket == Some(es[m].id)
    requires forall k :: m < k < n ==> es[k] != HandlerContinues(es[m].id)
    ensures es[m].id in states[n + 1].b.synced
  {
    var id := es[m].id;
    NoSessionUntilOpen(states, es, i, m);
    RunsKeepInv(states, es, m);
    if id in states[m + 1].b.waiting {
      WaitKeepsPrevious(states, es, m + 1, n, id, None);
    } else {
      SyncedStays(states, es, m + 1, n, id);
      assert id in states[n].b.synced;
    }
  }

  /** Told from the events alone: the session of the last current socket that opened since the last disconnect. */
  function LastOpened(states: seq<State>, es: seq<Event>, n: nat): Option<string>
    requires n <= |es| && n < |states|
  {
    if n == 0 then None
    else
      match es[n - 1]
      case CallDisconnect => None
      case SocketOpens(id, _) =>
        if states[n - 1].v.socket == Some(id) && id in states[n - 1].b.sockets then states[n - 1].b.sockets[id].session
        else LastOpened(states, es, n - 1)
      case _ => LastOpened(states, es, n - 1)
  }

  lemma StepKeepsSession(s: State, e: Event)
    requires Enabled(s, e) && !e.CallDisconnect? && (e.SocketOpens? ==> s.v.socket != Some(e.id))
    ensures Next(s, e).v.lastSuccessfulOpenSessionId == s.v.lastSuccessfulOpenSessionId
  {
  }

  lemma {:induction false} SessionIsLastOpened(states: seq<State>, es: seq<Event>, n: nat)
    requires Run(states, es) && n < |states|
    ensures states[n].v.lastSuccessfulOpenSessionId == LastOpened(states, es, n)
  {
    if n > 0 {
      SessionIsLastOpened(states, es, n - 1);
      var s, e := states[n - 1], es[n - 1];
      if !e.CallDisconnect? && (e.SocketOpens? ==> s.v.socket != Some(e.id)) {
        StepKeepsSession(s, e);
      }
    }
  }

  /** A socket that asked for a sync has been opened, and its handler is not waiting. */
  ghost predicate SyncedOk(s: State)
  {
    forall id :: id in s.b.synced ==> id in s.b.sockets && !s.b.sockets[id].state.Connecting? && id !in s.b.waiting
  }

  lemma OpenKeepsSyncedOk(s: State, id: nat, sent: bool)
    requires Inv(s) && SyncedOk(s) && id in s.b.sockets && s.b.sockets[id].state.Connecting?
    ensures SyncedOk(Opened(s, id, sent))
  {
  }

  lemma HandlerStepKeepsSyncedOk(s: State, e: Event)
    requires Inv(s) && SyncedOk(s) && Enabled(s, e) && (e.SocketOpens? || e.HandlerContinues? || e.ResumeAckArrives?)
    ensures SyncedOk(Next(s, e))
  {
    match e {
      case SocketOpens(id, sent) => OpenKeepsSyncedOk(s, id, sent);
      case HandlerContinues(_) =>
      case ResumeAckArrives(_, _) =>
    }
  }

  lemma ConnectingStepKeepsSyncedOk(s: State, e: Event)
    requires WaitingOk(s) && SyncedOk(s) && Enabled(s, e) && (e.CallConnect? || e.ReconnectTimerFires?)
    ensures SyncedOk(Next(s, e))
  {
    ConnectingFrame(s, e);
  }

  lemma DisconnectKeepsSyncedOk(s: State)
    requires SyncedOk(s)
    ensures SyncedOk(Disconnect(s))
  {
    var s' := Disconnect(s);
    assert s'.b.synced == s.b.synced && s'.b.waiting.Keys == s.b.waiting.Keys;
  }

  lemma ClosingStepKeepsSyncedOk(s: State, e: Event)
    requires SyncedOk(s) && Enabled(s, e) && (e.SocketStartsClosing? || e.SocketCloses?)
    ensures SyncedOk(Next(s, e))
  {
    var s' := Next(s, e);
    assert s'.b.synced == s.b.synced && s'.b.waiting == s.b.waiting;
  }

  lemma StepKeepsSyncedOk(s: State, e: Event)
    requires Inv(s) && SyncedOk(s) && Enabled(s, e)
    ensures SyncedOk(Next(s, e))
  {
    match e {
      case CallConnect(_, _, _) => ConnectingStepKeepsSyncedOk(s, e);
      case ReconnectTimerFires(_, _, _) => ConnectingStepKeepsSyncedOk(s, e);
      case CallDisconnect => DisconnectKeepsSyncedOk(s);
      case SocketStartsClosing(_) => ClosingStepKeepsSyncedOk(s, e);
      case SocketCloses(_) => ClosingStepKeepsSyncedOk(s, e);
      case SocketOpens(_, _) => HandlerStepKeepsSyncedOk(s, e);
      case HandlerContinues(_) => HandlerStepKeepsSyncedOk(s, e);
      case ResumeAckArrives(_, _) => HandlerStepKeepsSyncedOk(s, e);
      case _ =>
    }
  }

  lemma {:induction false} RunsKeepSyncedOk(states: seq<State>, es: seq<Event>, n: nat)
    requires Run(states, es) && n < |states|
    ensures SyncedOk(states[n])
  {
    if n > 0 {
      RunsKeepSyncedOk(states, es, n - 1);
      RunsKeepInv(states, es, n - 1);
      StepKeepsSyncedOk(states[n - 1], es[n - 1]);
    }
  }

  /** A current socket that opens without a handoff asks for the baseline sync if and only if its
      session is not the one that was open before, and has the planner jobs fetched again if and only
      if there was another one. */
  lemma SyncsExactlyAtOpen(states: seq<State>, es: seq<Event>, m: nat)
    requires Run(states, es) && m < |es| && es[m].SocketOpens? && states[m].v.socket == Some(es[m].id)
    requires states[m].b.sockets[es[m].id].resumeFrom == None
    ensures var id, before, session := es[m].id, LastOpened(states, es, m), states[m].b.sockets[es[m].id].session;
      && (id in states[m + 1].b.synced <==> before == None || before != session)
      && (id in states[m + 1].b.refetched <==> before.Some? && before != session)
  {
    SessionIsLastOpened(states, es, m);
    RunsKeepSyncedOk(states, es, m);
    RunsKeepInv(states, es, m);
  }

  /** After a handoff was asked for, the same session is synced again if and only if the server did
      not answer in time that it may be skipped. */
  lemma SyncsExactlyAfterWait(states: seq<State>, es: seq<Event>, m: nat, n: nat)
    requires Run(states, es) && m < n < |es| && es[m].SocketOpens? && states[m].v.socket == Some(es[m].id)
    requires es[m].id in states[m + 1].b.waiting
    requires es[n] == HandlerContinues(es[m].id) && states[n].v.socket == Some(es[m].id)
    requires forall k :: m < k < n ==> es[k] != HandlerContinues(es[m].id)
    ensures es[m].id in states[n].b.waiting
    ensures var id, before, session := es[m].id, LastOpened(states, es, m), states[n].b.sockets[es[m].id].session;
      && (id in states[n + 1].b.synced <==>
            before == None || before != session || states[n].b.waiting[id].answer != Some(true))
      && (id in states[n + 1].b.refetched <==> before.Some? && before != session)
  {
    var id := es[m].id;
    SessionIsLastOpened(states, es, m);
    RunsKeepInv(states, es, m);
    WaitKeepsPrevious(states, es, m + 1, n, id, LastOpened(states, es, m));
    RunsKeepSyncedOk(states, es, n);
    RunsKeepInv(states, es, n);
  }

  // ----- Answers that do not arrive -----

  lemma ConnectingKeepsCurrent(s: State, e: Event, id: nat)
    requires Inv(s) && Enabled(s, e) && (e.CallConnect? || e.ReconnectTimerFires?)
    requires id in s.b.sockets && Next(s, e).v.socket == Some(id)
    ensures s.v.socket == Some(id) && Next(s, e).v.resumeBootstrap == s.v.resumeBootstrap
  {
  }

  /** A socket that is current was current at every step since it was made. */
  lemma CurrentWasCurrent(s: State, e: Event, id: nat)
    requires Inv(s) && Enabled(s, e) && id in s.b.sockets && Next(s, e).v.socket == Some(id)
    ensures s.v.socket == Some(id)
  {
    match e {
      case CallConnect(_, _, _) => ConnectingKeepsCurrent(s, e, id);
      case ReconnectTimerFires(_, _, _) => ConnectingKeepsCurrent(s, e, id);
      case SocketOpens(_, _) =>
      case SocketCloses(_) =>
      case HandlerContinues(_) =>
      case _ =>
    }
  }

  /** The socket `id` exists and has opened. */
  predicate HasOpened(s: State, id: nat)
  {
    id in s.b.sockets && !s.b.sockets[id].state.Connecting?
  }

  lemma HandlerKeepsOpened(s: State, e: Event, id: nat)
    requires Enabled(s, e) && (e.SocketOpens? || e.HandlerContinues? || e.ResumeAckArrives?)
    requires HasOpened(s, id)
    ensures HasOpened(Next(s, e), id) && (id in Next(s, e).b.waiting ==> id in s.b.waiting)
  {
    match e {
      case SocketOpens(_, _) =>
      case HandlerContinues(_) =>
      case ResumeAckArrives(_, _) =>
    }
  }

  lemma ClosingKeepsOpened(s: State, e: Event, id: nat)
    requires Enabled(s, e) && (e.CallDisconnect? || e.SocketStartsClosing? || e.SocketCloses?)
    requires HasOpened(s, id)
    ensures HasOpened(Next(s, e), id) && (id in Next(s, e).b.waiting ==> id in s.b.waiting)
  {
    match e {
      case CallDisconnect =>
      case SocketStartsClosing(_) =>
      case SocketCloses(_) =>
    }
  }

  lemma StepKeepsOpened(s: State, e: Event, id: nat)
    requires Inv(s) && Enabled(s, e) && HasOpened(s, id)
    ensures HasOpened(Next(s, e), id) && (id in Next(s, e).b.waiting ==> id in s.b.waiting)
  {
    match e {
      case CallConnect(_, _, _) => ConnectingFrame(s, e);
      case ReconnectTimerFires(_, _, _) => ConnectingFrame(s, e);
      case CallDisconnect => ClosingKeepsOpened(s, e, id);
      case SocketStartsClosing(_) => ClosingKeepsOpened(s, e, id);
      case SocketCloses(_) => ClosingKeepsOpened(s, e, id);
      case SocketOpens(_, _) => HandlerKeepsOpened(s, e, id);
      case HandlerContinues(_) => HandlerKeepsOpened(s, e, id);
      case ResumeAckArrives(_, _) => HandlerKeepsOpened(s, e, id);
      case _ =>
    }
  }

  lemma {:induction false} OpenedStays(states: seq<State>, es: seq<Event>, m: nat, n: nat, id: nat)
    requires Run(states, es) && m <= n < |states| && HasOpened(states[m], id)
    ensures HasOpened(states[n], id)
    decreases n - m
  {
    if m < n {
      RunsKeepInv(states, es, m);
      StepKeepsOpened(states[m], es[m], id);
      OpenedStays(states, es, m + 1, n, id);
    }
  }

  /** The open handler of the current socket waits with the given answer, and acknowledgements go to `to`. */
  ghost predicate Asked(s: State, id: nat, answer: Option<bool>, to: Option<nat>)
  {
    && s.v.socket == Some(id) && HasOpened(s, id) && id in s.b.waiting
    && s.b.waiting[id].answer == answer && s.v.resumeBootstrap == to
  }

  /** Where acknowledgements go after an event: a handler of another socket that goes on takes that away. */
  function Receiver(e: Event, id: nat, to: Option<nat>): Option<nat>
  {
    if e.HandlerContinues? && e.id != id then None else to
  }

  lemma AskedStep(s: State, e: Event, id: nat, answer: Option<bool>, to: Option<nat>)
    requires Inv(s) && Enabled(s, e) && Asked(s, id, answer, to)
    requires Next(s, e).v.socket == Some(id) && id in Next(s, e).b.waiting
    requires to.Some? ==> !(e.ResumeAckArrives? && e.id == id)
    ensures Asked(Next(s, e), id, answer, Receiver(e, id, to))
  {
    match e {
      case CallConnect(_, _, _) =>
        ConnectingKeepsCurrent(s, e, id);
        ConnectingFrame(s, e);
      case ReconnectTimerFires(_, _, _) =>
        ConnectingKeepsCurrent(s, e, id);
        ConnectingFrame(s, e);
      case SocketOpens(_, _) =>
      case SocketStartsClosing(_) =>
      case SocketCloses(_) =>
      case ResumeAckArrives(_, _) =>
      case HandlerContinues(_) =>
      case _ =>
    }
  }

  /** A handler of a socket other than `id` goes on at a step from `i` on, before `n`. */
  ghost predicate AnotherContinues(es: seq<Event>, i: nat, n: nat, id: nat)
    requires n <= |es|
  {
    exists j :: i <= j < n && es[j].HandlerContinues? && es[j].id != id
  }

  lemma {:induction false} CurrentAllAlong(states: seq<State>, es: seq<Event>, i: nat, n: nat, id: nat)
    requires Run(states, es) && i <= n < |states| && HasOpened(states[i], id)
    requires states[n].v.socket == Some(id) && id in states[n].b.waiting
    ensures states[i].v.socket == Some(id) && id in states[i].b.waiting
    decreases n - i
  {
    if i < n {
      RunsKeepInv(states, es, i);
      StepKeepsOpened(states[i], es[i], id);
      CurrentAllAlong(states, es, i + 1, n, id);
      CurrentWasCurrent(states[i], es[i], id);
    }
  }

  /** While no acknowledgement comes, the handler waits with the same answer, and is the one to be
      answered until another one goes on. */
  lemma {:induction false} AskedUntil(
    states: seq<State>, es: seq<Event>, i: nat, n: nat, id: nat, answer: Option<bool>, to: Option<nat>)
    requires Run(states, es) && i <= n < |states| && Asked(states[i], id, answer, to)
    requires states[n].v.socket == Some(id) && id in states[n].b.waiting
    requires to.Some? ==> forall j :: i <= j < n ==> !(es[j].ResumeAckArrives? && es[j].id == id)
    ensures Asked(states[n], id, answer, if AnotherContinues(es, i, n, id) then None else to)
    decreases n - i
  {
    if i < n {
      RunsKeepInv(states, es, i);
      StepKeepsOpened(states[i], es[i], id);
      CurrentAllAlong(states, es, i + 1, n, id);
      AskedStep(states[i], es[i], id, answer, to);
      AskedUntil(states, es, i + 1, n, id, answer, Receiver(es[i], id, to));
      AnotherFirst(es, i, n, id);
    }
  }

  lemma AnotherFirst(es: seq<Event>, i: nat, n: nat, id: nat)
    requires i < n <= |es|
    ensures AnotherContinues(es, i, n, id)
       <==> AnotherContinues(es, i + 1, n, id) || (es[i].HandlerContinues? && es[i].id != id)
  {
  }

  /** Over every run: the first acknowledgement for a current socket whose handler waits reaches that
      handler exactly when no handler of a replaced socket has gone on since the socket opened. */
  lemma AnswerArrivesExactly(states: seq<State>, es: seq<Event>, m: nat, k: nat)
    requires Run(states, es) && m < k < |es| && es[m].SocketOpens? && states[m].v.socket == Some(es[m].id)
    requires es[m].id in states[m + 1].b.waiting
    requires es[k].ResumeAckArrives? && es[k].id == es[m].id
    requires states[k].v.socket == Some(es[m].id) && es[m].id in states[k].b.waiting
    requires forall j :: m < j < k ==> !(es[j].ResumeAckArrives? && es[j].id == es[m].id)
    ensures es[m].id in states[k + 1].b.waiting
    ensures states[k + 1].b.waiting[es[m].id].answer == Some(es[k].skip) <==> !AnotherContinues(es, m + 1, k, es[m].id)
    ensures Asked(states[k + 1], es[m].id,
                  if AnotherContinues(es, m + 1, k, es[m].id) then None else Some(es[k].skip), None)
  {
    RunsKeepInv(states, es, m);
    AskedUntil(states, es, m + 1, k, es[m].id, None, Some(es[m].id));
  }

  /** So a reconnect of the same session that the server allows to skip the baseline sync asks for it
      nevertheless exactly when such a handler has gone on before the acknowledgement. */
  lemma SyncsDespiteAnswerExactly(states: seq<State>, es: seq<Event>, m: nat, k: nat, n: nat)
    requires Run(states, es) && m < k < n < |es| && es[m].SocketOpens? && states[m].v.socket == Some(es[m].id)
    requires es[m].id in states[m + 1].b.waiting
    requires es[k] == ResumeAckArrives(es[m].id, true)
    requires states[k].v.socket == Some(es[m].id) && es[m].id in states[k].b.waiting
    requires forall j :: m < j < k ==> !(es[j].ResumeAckArrives? && es[j].id == es[m].id)
    requires es[n] == HandlerContinues(es[m].id) && states[n].v.socket == Some(es[m].id)
    requires forall j :: m < j < n ==> es[j] != HandlerContinues(es[m].id)
    requires LastOpened(states, es, m).Some? && LastOpened(states, es, m) == states[n].b.sockets[es[m].id].session
    ensures es[m].id in states[n + 1].b.synced <==> AnotherContinues(es, m + 1, k, es[m].id)
  {
    AnswerArrivesExactly(states, es, m, k);
    SyncsExactlyAfterWait(states, es, m, n);
    AskedUntil(states, es, k + 1, n, es[m].id, states[k + 1].b.waiting[es[m].id].answer, None);
  }

  /** One more event at the end of a run. */
  lemma Extend(states: seq<State>, es: seq<Event>, e: Event) returns (states': seq<State>, es': seq<Event>)
    requires Run(states, es) && Enabled(states[|es|], e)
    ensures Run(states', es') && states' == states + [Next(states[|es|], e)] && es' == es + [e]
  {
    states', es' := states + [Next(states[|es|], e)], es + [e];
  }

  /** One socket is open for account A. */
  ghost predicate FirstOpen(s: State)
  {
    && s.v == Vars(Some(0), Some("A"), Some("A"), None, Some(1), false, 0, Some("s"), None, None)
    && s.b.sockets == map[0 := Socket("A", Some("s"), None, Open)] && s.b.timeouts == map[] && s.b.waiting == map[]
    && s.b.next == 2 && s.batch == LB.EMPTY && s.identity == CI.FRESH
  }

  /** It was disconnected, and its client id is stashed. */
  ghost predicate FirstStashed(s: State)
  {
    && s.v == Vars(None, None, None, None, None, true, 0, None, Some(Hint("A", "a")), None)
    && s.b.waiting == map[] && s.b.timeouts == map[] && s.b.next == 2 && s.b.sockets.Keys == {0}
    && s.identity == CI.FRESH
  }

  /** A socket that took up the hint waits for its acknowledgement, with its own id stashed, now for
      another account. */
  ghost predicate SecondWaits(s: State)
  {
    && s.v == Vars(Some(2), Some("A"), Some("A"), None, None, false, 0, Some("s"), Some(Hint("B", "b")), Some(2))
    && s.b.waiting == map[2 := Waiting(None, None)] && s.b.next == 3 && s.b.sockets.Keys == {0, 2}
    && s.b.sockets[2] == Socket("A", Some("s"), Some("a"), Open)
  }

  /** The other account was connected with no disconnect before it, and two handlers wait. */
  ghost predicate BothWait(s: State)
  {
    && s.v.socket == Some(3) && s.v.resumeBootstrap == Some(3)
    && s.b.waiting == map[2 := Waiting(None, None), 3 := Waiting(Some("s"), None)]
    && s.b.sockets.Keys == {0, 2, 3} && s.b.sockets[3] == Socket("B", Some("s"), Some("b"), Open)
  }

  lemma FirstRun()
    ensures exists states, es :: Run(states, es) && |es| == 2 && FirstOpen(states[2])
  {
    var states, es := [INITIAL], [];
    states, es := Extend(states, es, CallConnect("A", Some("s"), true));
    assert states[1].b.sockets == map[0 := Socket("A", Some("s"), None, Connecting)];
    states, es := Extend(states, es, SocketOpens(0, true));
  }

  lemma StashedRun()
    ensures exists states, es :: Run(states, es) && |es| == 5 && FirstStashed(states[5])
  {
    FirstRun();
    var states, es :| Run(states, es) && |es| == 2 && FirstOpen(states[2]);
    AnnouncedId("a");
    states, es := Extend(states, es, ConnectedArrives(0, "a"));
    states, es := Extend(states, es, CallStash(true, "A"));
    states, es := Extend(states, es, CallDisconnect);
  }

  lemma AnnouncedId(id: string)
    requires id == "a" || id == "b"
    ensures CI.IdOf(id) == Some(id)
  {
    TrimKept(id, IsJsSpace);
  }

  lemma WaitingRun()
    ensures exists states, es :: Run(states, es) && |es| == 9 && SecondWaits(states[9])
  {
    StashedRun();
    var states, es :| Run(states, es) && |es| == 5 && FirstStashed(states[5]);
    states, es := Extend(states, es, CallConnect("A", Some("s"), true));
    assert states[6].v.socket == Some(2) && states[6].b.sockets[2] == Socket("A", Some("s"), Some("a"), Connecting);
    states, es := Extend(states, es, SocketOpens(2, true));
    AnnouncedId("b");
    states, es := Extend(states, es, ConnectedArrives(2, "b"));
    states, es := Extend(states, es, CallStash(true, "B"));
  }

  /** The run ends with the open of the second socket that waits. */
  ghost predicate OpensThird(states: seq<State>, es: seq<Event>)
  {
    && |es| == 11 && |states| == 12 && es[10] == SocketOpens(3, true) && BothWait(states[11])
    && states[10].v.socket == Some(3) && states[10].v.lastSuccessfulOpenSessionId == Some("s")
  }

  lemma TwoWaitingRun()
    ensures exists states, es :: Run(states, es) && OpensThird(states, es)
  {
    WaitingRun();
    var states, es :| Run(states, es) && |es| == 9 && SecondWaits(states[9]);
    states, es := Extend(states, es, CallConnect("B", Some("s"), true));
    assert states[10].b.sockets[3] == Socket("B", Some("s"), Some("b"), Connecting);
    states, es := Extend(states, es, SocketOpens(3, true));
  }

  /** Then the handler of the replaced socket goes on, and the answer for the new one passes it by. */
  ghost predicate AnswerPassesBy(states: seq<State>, es: seq<Event>)
  {
    && |es| == 13 && |states| == 14
    && es[10] == SocketOpens(3, true) && es[11] == HandlerContinues(2) && es[12] == ResumeAckArrives(3, true)
    && states[10].v.socket == Some(3) && states[10].v.lastSuccessfulOpenSessionId == Some("s")
    && 3 in states[11].b.waiting && PassedBy(states[13])
  }

  /** The new handler waits with no answer and is not the one to be answered. */
  ghost predicate PassedBy(s: State)
  {
    Asked(s, 3, None, None) && s.b.sockets[3].session == Some("s")
  }

  lemma OldForgetsNew(s: State)
    requires BothWait(s)
    ensures Enabled(s, HandlerContinues(2)) && PassedBy(Next(s, HandlerContinues(2)))
  {
  }

  lemma AnswerIsIgnored(s: State)
    requires PassedBy(s)
    ensures PassedBy(Next(s, ResumeAckArrives(3, true)))
  {
  }

  lemma OldHandlerGoesOn()
    ensures exists states, es :: Run(states, es) && AnswerPassesBy(states, es)
  {
    TwoWaitingRun();
    var states, es :| Run(states, es) && OpensThird(states, es);
    OldForgetsNew(states[11]);
    states, es := Extend(states, es, HandlerContinues(2));
    AnswerIsIgnored(states[12]);
    states, es := Extend(states, es, ResumeAckArrives(3, true));
  }

  /** The socket 3 opens and waits in the session that was open before; the server allows it to skip
      the sync while it is current; its handler goes on, and it is synced. */
  ghost predicate SyncsDespiteAnswer(states: seq<State>, es: seq<Event>)
  {
    && |es| == 14 && |states| == 15
    && es[10] == SocketOpens(3, true) && es[11] == HandlerContinues(2)
    && es[12] == ResumeAckArrives(3, true) && es[13] == HandlerContinues(3)
    && states[10].v.socket == Some(3) && 3 in states[11].b.waiting && states[13].v.socket == Some(3)
    && 3 in states[13].b.sockets
    && states[10].v.lastSuccessfulOpenSessionId == states[13].b.sockets[3].session == Some("s")
    && 3 in states[14].b.synced
  }

  lemma UnansweredSyncs(s: State, id: nat)
    requires Enabled(s, HandlerContinues(id)) && Asked(s, id, None, None)
    ensures id in Next(s, HandlerContinues(id)).b.synced
  {
  }

  /** There is a run in which the old handler goes on before the acknowledgement of the new socket
      arrives, so that the session is synced although the server allows to skip it. */
  lemma AnswerCanBeMissed()
    ensures exists states, es :: Run(states, es) && SyncsDespiteAnswer(states, es)
  {
    OldHandlerGoesOn();
    var states, es :| Run(states, es) && AnswerPassesBy(states, es);
    UnansweredSyncs(states[13], 3);
    states, es := Extend(states, es, HandlerContinues(3));
  }

  /** Over every run a socket for which the planner jobs are fetched again also gets the baseline sync. */
  lemma RefetchComesWithSync(states: seq<State>, es: seq<Event>, n: nat)
    requires Run(states, es) && n < |states|
    ensures states[n].b.refetched <= states[n].b.synced
  {
    RunsKeepInv(states, es, n);
  }

  /** A stashed hint is used for one connection at most, only for the account it was made for, and is
      gone also when the constructor throws. */
  lemma HintIsUsedOnce(s: State, accountId: string, session: Option<string>, constructed: bool)
    requires Inv(s) && accountId != "" && !(IsOpen(s) && s.v.connectKey == Some(accountId))
    ensures var s' := Connect(s, accountId, session, constructed);
      && s'.v.resumeHint == None
      && (constructed ==>
            && s'.v.socket == Some(s.b.next) && s.b.next !in s.b.sockets && s.b.next in s'.b.sockets
            && forall id :: s'.b.sockets[s.b.next].resumeFrom == Some(id) <==>
                 id != "" && s.v.resumeHint == Some(Hint(accountId, id)))
      && (!constructed ==> s'.v.socket == None && s'.b.sockets.Keys == s.b.sockets.Keys)
  {
  }

  /** An attempt to connect consumes the hint; a socket that it makes gets the hint if it is for its account. */
  lemma AttemptTakesHint(s: State, e: Event)
    requires Inv(s) && Enabled(s, e) && Attempt(s, e).Some?
    ensures Next(s, e).v.resumeHint == None && s.b.next !in s.b.sockets && s.b.next < Next(s, e).b.next
    ensures Next(s, e).v.socket == if Constructs(e) then Some(s.b.next) else None
    ensures Constructs(e) ==>
      && s.b.next in Next(s, e).b.sockets
      && Next(s, e).b.sockets[s.b.next].resumeFrom == ResumeFrom(s.v.resumeHint, Attempt(s, e).value)
    ensures !Constructs(e) ==> Next(s, e).b.sockets.Keys == s.b.sockets.Keys
  {
  }

  /** Told from the events: the hint of the last stash that took effect, unless an attempt came after it. */
  function LastStash(states: seq<State>, es: seq<Event>, n: nat): Option<Hint>
    requires n <= |es| && n < |states|
  {
    if n == 0 then None
    else
      var s, e := states[n - 1], es[n - 1];
      if e.CallStash? && e.isLoggedIn && e.accountId != "" && s.identity.current.Some? then
        Some(Hint(e.accountId, s.identity.current.value))
      else if Attempt(s, e).Some? then None
      else LastStash(states, es, n - 1)
  }

  /** Over every run the hint is that of the last stash by a logged-in account with a live client id,
      and it is gone after the next attempt to connect. */
  lemma {:induction false} HintIsLastStash(states: seq<State>, es: seq<Event>, n: nat)
    requires Run(states, es) && n < |states|
    ensures states[n].v.resumeHint == LastStash(states, es, n)
  {
    if n > 0 {
      HintIsLastStash(states, es, n - 1);
      RunsKeepInv(states, es, n - 1);
      if Attempt(states[n - 1], es[n - 1]).Some? {
        AttemptTakesHint(states[n - 1], es[n - 1]);
      } else if !es[n - 1].CallStash? {
        NoAttemptKeepsHint(states[n - 1], es[n - 1]);
      }
    }
  }

  lemma HandlerKeepsHint(s: State, e: Event)
    requires Enabled(s, e) && (e.SocketOpens? || e.HandlerContinues? || e.ResumeAckArrives?)
    ensures Next(s, e).v.resumeHint == s.v.resumeHint && Next(s, e).b.sockets.Keys == s.b.sockets.Keys
  {
    match e {
      case SocketOpens(_, _) =>
      case HandlerContinues(_) =>
      case ResumeAckArrives(_, _) =>
    }
  }

  lemma NoAttemptKeepsHint(s: State, e: Event)
    requires Inv(s) && Enabled(s, e) && Attempt(s, e) == None && !e.CallStash?
    ensures Next(s, e).v.resumeHint == s.v.resumeHint && Next(s, e).b.sockets.Keys == s.b.sockets.Keys
  {
    match e {
      case ReconnectTimerFires(_, _, _) =>
      case SocketCloses(_) =>
      case SocketOpens(_, _) => HandlerKeepsHint(s, e);
      case HandlerContinues(_) => HandlerKeepsHint(s, e);
      case ResumeAckArrives(_, _) => HandlerKeepsHint(s, e);
      case _ =>
    }
  }

  lemma {:induction false} HintStaysGone(states: seq<State>, es: seq<Event>, i: nat, j: nat)
    requires Run(states, es) && i <= j < |states| && states[i].v.resumeHint == None
    requires forall k :: i <= k < j ==> !es[k].CallStash?
    ensures states[j].v.resumeHint == None
    decreases j - i
  {
    if i < j {
      RunsKeepInv(states, es, i);
      if Attempt(states[i], es[i]).Some? {
        AttemptTakesHint(states[i], es[i]);
      } else {
        NoAttemptKeepsHint(states[i], es[i]);
      }
      HintStaysGone(states, es, i + 1, j);
    }
  }

  /** Over every run: a hint that an attempt takes up goes to the next socket that is made, without
      another stash, exactly when the attempt itself makes it. When its constructor throws, the hint is lost. */
  lemma HintIsCarriedExactly(states: seq<State>, es: seq<Event>, i: nat, j: nat)
    requires Run(states, es) && i <= j < |es|
    requires Attempt(states[i], es[i]).Some?
    requires ResumeFrom(states[i].v.resumeHint, Attempt(states[i], es[i]).value).Some?
    requires Attempt(states[j], es[j]).Some? && Constructs(es[j])
    requires forall k :: i <= k < j ==> !(Attempt(states[k], es[k]).Some? && Constructs(es[k]))
    requires forall k :: i < k < j ==> !es[k].CallStash?
    ensures states[j].b.next in states[j + 1].b.sockets
    ensures var given := states[j + 1].b.sockets[states[j].b.next].resumeFrom;
      && (given == ResumeFrom(states[i].v.resumeHint, Attempt(states[i], es[i]).value) <==> Constructs(es[i]))
      && (given == None <==> !Constructs(es[i]))
  {
    RunsKeepInv(states, es, i);
    RunsKeepInv(states, es, j);
    AttemptTakesHint(states[i], es[i]);
    AttemptTakesHint(states[j], es[j]);
    if i < j {
      HintStaysGone(states, es, i + 1, j);
    }
  }

  // A socket that carries the hint need not come to use it.

  /** The client id of the session_resume that an event makes the module send, when it does. */
  function ResumeSent(s: State, e: Event): Option<string>
  {
    match e
    case SocketOpens(id, _) => if s.v.socket == Some(id) && id in s.b.sockets then s.b.sockets[id].resumeFrom else None
    case _ => None
  }

  /** The handler of a current socket that opens waits exactly when a session_resume was sent with success. */
  lemma WaitsExactlyWhenSent(s: State, e: Event)
    requires Inv(s) && Enabled(s, e) && e.SocketOpens? && s.v.socket == Some(e.id)
    ensures e.id in Next(s, e).b.waiting <==> ResumeSent(s, e).Some? && e.sent
  {
  }

  /** An event after which the socket `id` is not current: its close, a disconnect, or another attempt. */
  predicate Ends(s: State, e: Event, id: nat)
  {
    e == SocketCloses(id) || e.CallDisconnect? || Attempt(s, e).Some?
  }

  /** No socket is made, none gets or loses a hint, and none becomes current. */
  ghost predicate SameTakers(s: State, s': State)
  {
    && s'.b.sockets.Keys == s.b.sockets.Keys && s.b.next <= s'.b.next
    && (forall id :: id in s.b.sockets ==> s'.b.sockets[id].resumeFrom == s.b.sockets[id].resumeFrom)
    && (s'.v.socket == s.v.socket || s'.v.socket == None)
  }

  lemma HandlerKeepsTakers(s: State, e: Event)
    requires Enabled(s, e) && (e.SocketOpens? || e.HandlerContinues? || e.ResumeAckArrives?)
    ensures SameTakers(s, Next(s, e)) && Next(s, e).v.socket == s.v.socket
  {
    match e {
      case SocketOpens(_, _) =>
      case HandlerContinues(_) =>
      case ResumeAckArrives(_, _) =>
    }
  }

  lemma ClosingKeepsTakers(s: State, e: Event)
    requires Enabled(s, e) && (e.CallDisconnect? || e.SocketStartsClosing? || e.SocketCloses?)
    ensures SameTakers(s, Next(s, e))
    ensures Next(s, e).v.socket == s.v.socket <==> s.v.socket == None || !Ends(s, e, s.v.socket.value)
  {
    match e {
      case CallDisconnect =>
      case SocketStartsClosing(_) =>
      case SocketCloses(_) =>
    }
  }

  lemma NoAttemptKeepsTakers(s: State, e: Event)
    requires Inv(s) && Enabled(s, e) && Attempt(s, e) == None
    ensures SameTakers(s, Next(s, e))
    ensures Next(s, e).v.socket == s.v.socket <==> s.v.socket == None || !Ends(s, e, s.v.socket.value)
  {
    match e {
      case CallDisconnect => ClosingKeepsTakers(s, e);
      case SocketStartsClosing(_) => ClosingKeepsTakers(s, e);
      case SocketCloses(_) => ClosingKeepsTakers(s, e);
      case SocketOpens(_, _) => HandlerKeepsTakers(s, e);
      case HandlerContinues(_) => HandlerKeepsTakers(s, e);
      case ResumeAckArrives(_, _) => HandlerKeepsTakers(s, e);
      case _ =>
    }
  }

  /** A current socket stays current, with its hint, exactly until such an event. */
  lemma CurrentUntilEnd(s: State, e: Event, id: nat)
    requires Inv(s) && Enabled(s, e) && s.v.socket == Some(id)
    ensures Next(s, e).v.socket == Some(id) <==> !Ends(s, e, id)
    ensures !Ends(s, e, id) ==>
      id in Next(s, e).b.sockets && Next(s, e).b.sockets[id].resumeFrom == s.b.sockets[id].resumeFrom
  {
    if Attempt(s, e).Some? {
      AttemptTakesHint(s, e);
    } else {
      NoAttemptKeepsTakers(s, e);
    }
  }

  /** `Ends` at no step from `i` on, before `k`. */
  ghost predicate Unended(states: seq<State>, es: seq<Event>, i: nat, k: nat, id: nat)
    requires k <= |es| && k < |states|
  {
    forall j :: i <= j < k ==> !Ends(states[j], es[j], id)
  }

  lemma {:induction false} CurrentWhileUnended(states: seq<State>, es: seq<Event>, i: nat, k: nat, id: nat)
    requires Run(states, es) && i <= k < |states| && states[i].v.socket == Some(id) && id in states[i].b.sockets
    ensures states[k].v.socket == Some(id) <==> Unended(states, es, i, k, id)
    ensures Unended(states, es, i, k, id) ==>
      id in states[k].b.sockets && states[k].b.sockets[id].resumeFrom == states[i].b.sockets[id].resumeFrom
    decreases k - i
  {
    if i < k {
      RunsKeepInv(states, es, i);
      CurrentUntilEnd(states[i], es[i], id);
      if Ends(states[i], es[i], id) {
        NeverCurrentAgain(states, es, i, k, id);
      } else {
        CurrentWhileUnended(states, es, i + 1, k, id);
        assert Unended(states, es, i, k, id) <==> Unended(states, es, i + 1, k, id);
      }
    }
  }

  lemma StepKeepsNotCurrent(s: State, e: Event, id: nat)
    requires Inv(s) && Enabled(s, e) && s.v.socket != Some(id) && id < s.b.next
    ensures Next(s, e).v.socket != Some(id) && id < Next(s, e).b.next
  {
    if Attempt(s, e).Some? {
      AttemptTakesHint(s, e);
    } else {
      NoAttemptKeepsTakers(s, e);
    }
  }

  lemma {:induction false} NotCurrentStays(states: seq<State>, es: seq<Event>, i: nat, k: nat, id: nat)
    requires Run(states, es) && i <= k < |states| && states[i].v.socket != Some(id) && id < states[i].b.next
    ensures states[k].v.socket != Some(id)
    decreases k - i
  {
    if i < k {
      RunsKeepInv(states, es, i);
      StepKeepsNotCurrent(states[i], es[i], id);
      NotCurrentStays(states, es, i + 1, k, id);
    }
  }

  lemma NeverCurrentAgain(states: seq<State>, es: seq<Event>, i: nat, k: nat, id: nat)
    requires Run(states, es) && i < k < |states| && states[i].v.socket == Some(id) && Ends(states[i], es[i], id)
    ensures states[k].v.socket != Some(id)
  {
    RunsKeepInv(states, es, i);
    CurrentUntilEnd(states[i], es[i], id);
    if Attempt(states[i], es[i]).Some? {
      AttemptTakesHint(states[i], es[i]);
    } else {
      NoAttemptKeepsTakers(states[i], es[i]);
    }
    NotCurrentStays(states, es, i + 1, k, id);
  }

  /** No hint is left, and no current socket but `id` carries one. */
  ghost predicate Spent(s: State, id: nat)
  {
    && s.v.resumeHint == None && id < s.b.next
    && (s.v.socket.Some? && s.v.socket != Some(id) ==>
          s.v.socket.value in s.b.sockets && s.b.sockets[s.v.socket.value].resumeFrom == None)
  }

  lemma StepKeepsSpent(s: State, e: Event, id: nat)
    requires Inv(s) && Enabled(s, e) && Spent(s, id) && !e.CallStash?
    ensures Spent(Next(s, e), id)
  {
    if Attempt(s, e).Some? {
      AttemptTakesHint(s, e);
    } else {
      NoAttemptKeepsHint(s, e);
      NoAttemptKeepsTakers(s, e);
    }
  }

  lemma {:induction false} SpentStays(states: seq<State>, es: seq<Event>, i: nat, k: nat, id: nat)
    requires Run(states, es) && i <= k < |states| && Spent(states[i], id)
    requires forall j :: i <= j < k ==> !es[j].CallStash?
    ensures Spent(states[k], id)
    decreases k - i
  {
    if i < k {
      RunsKeepInv(states, es, i);
      StepKeepsSpent(states[i], es[i], id);
      SpentStays(states, es, i + 1, k, id);
    }
  }

  /** The attempt at `i` takes up the hint `from`, and nothing is stashed from then on, before `k`. */
  ghost predicate TakesUp(states: seq<State>, es: seq<Event>, i: nat, k: nat, from: string)
    requires i < |es| && i < |states| && k <= |es|
  {
    && Attempt(states[i], es[i]).Some?
    && ResumeFrom(states[i].v.resumeHint, Attempt(states[i], es[i]).value) == Some(from)
    && forall j :: i < j < k ==> !es[j].CallStash?
  }

  /** The socket that the attempt at `i` makes opens at `k`, before it is closed, disconnected or replaced. */
  ghost predicate OpensInTime(states: seq<State>, es: seq<Event>, i: nat, k: nat)
    requires i < k < |es| && |states| > |es|
  {
    && Constructs(es[i]) && es[k].SocketOpens? && es[k].id == states[i].b.next
    && Unended(states, es, i + 1, k, states[i].b.next)
  }

  /** What is sent at `k`, after the attempt at `i`. */
  lemma SentAt(states: seq<State>, es: seq<Event>, i: nat, k: nat, from: string)
    requires Run(states, es) && i < k < |es| && TakesUp(states, es, i, k, from)
    ensures ResumeSent(states[k], es[k]) == if OpensInTime(states, es, i, k) then Some(from) else None
  {
    var id := states[i].b.next;
    RunsKeepInv(states, es, i);
    RunsKeepInv(states, es, k);
    AttemptTakesHint(states[i], es[i]);
    SpentStays(states, es, i + 1, k, id);
    if Constructs(es[i]) {
      CurrentWhileUnended(states, es, i + 1, k, id);
    } else {
      NotCurrentStays(states, es, i + 1, k, id);
    }
  }

  /** Over every run: a hint that an attempt takes up is sent in a session_resume, before anything else
      is stashed, exactly when that attempt makes a socket and the first of its open, its close,
      a disconnect and another attempt is its open. Otherwise nothing is sent: the hint is lost. */
  lemma HintIsUsedExactly(states: seq<State>, es: seq<Event>, i: nat, n: nat, from: string)
    requires Run(states, es) && i < n <= |es| && TakesUp(states, es, i, n, from)
    ensures (exists k :: i < k < n && ResumeSent(states[k], es[k]) == Some(from))
       <==> exists k :: i < k < n && OpensInTime(states, es, i, k)
    ensures forall k :: i < k < n && ResumeSent(states[k], es[k]).Some? ==> ResumeSent(states[k], es[k]) == Some(from)
  {
    forall k | i < k < n
      ensures ResumeSent(states[k], es[k]) == if OpensInTime(states, es, i, k) then Some(from) else None
    {
      SentAt(states, es, i, k, from);
    }
  }

  /** The connection that takes up the hint is replaced before it opens; the next one opens without a hint. */
  ghost predicate LosesHint(states: seq<State>, es: seq<Event>)
  {
    && |es| == 8 && |states| == 9 && TakesUp(states, es, 5, 8, "a") && Constructs(es[5])
    && es[7] == SocketOpens(3, true) && states[7].v.socket == Some(3)
    && forall k :: 5 < k < 8 ==> ResumeSent(states[k], es[k]) == None
  }

  lemma HintCanBeLost()
    ensures exists states, es :: Run(states, es) && LosesHint(states, es)
  {
    StashedRun();
    var states, es :| Run(states, es) && |es| == 5 && FirstStashed(states[5]);
    states, es := Extend(states, es, CallConnect("A", Some("s"), true));
    states, es := Extend(states, es, CallConnect("A", Some("s"), true));
    states, es := Extend(states, es, SocketOpens(3, true));
    assert Attempt(states[6], es[6]) == Some("A");
    assert Ends(states[6], es[6], 2);
    forall k | 5 < k < 8
      ensures ResumeSent(states[k], es[k]) == None
    {
      SentAt(states, es, 5, k, "a");
    }
    assert LosesHint(states, es);
  }

  lemma StepKeepsSynced(s: State, e: Event)
    requires Inv(s) && Enabled(s, e)
    ensures s.b.synced <= Next(s, e).b.synced
  {
    match e {
      case CallConnect(_, _, _) => ConnectingFrame(s, e);
      case ReconnectTimerFires(_, _, _) => ConnectingFrame(s, e);
      case _ =>
    }
  }

  lemma {:induction false} SyncedStays(states: seq<State>, es: seq<Event>, m: nat, n: nat, id: nat)
    requires Run(states, es) && m <= n < |states|
    requires id in states[m].b.synced
    ensures id in states[n].b.synced
    decreases n - m
  {
    if m < n {
      RunsKeepInv(states, es, m);
      StepKeepsSynced(states[m], es[m]);
      SyncedStays(states, es, m + 1, n, id);
    }
  }

  // ----- Backoff -----

  /** The delay starts at the base and doubles with every attempt until it reaches the cap. */
  lemma DelayDoubles(attempt: nat)
    ensures Delay(0) == 750
    ensures Delay(attempt + 1) == if 2 * Delay(attempt) < 20_000 then 2 * Delay(attempt) else 20_000
  {
    assert Pow2(0) == 1;
    DelayBounds(attempt);
  }

  /** An event that arms a reconnect: a construction that fails, or a close of the current socket. */
  predicate Schedules(s: State, e: Event)
  {
    (Attempt(s, e).Some? && !Constructs(e)) || (e.SocketCloses? && s.v.socket == Some(e.id))
  }

  /** An event that starts the backoff again: a disconnect, or an open of the current socket. */
  predicate ResetsBackoff(s: State, e: Event)
  {
    e.CallDisconnect? || (e.SocketOpens? && s.v.socket == Some(e.id))
  }

  /** Told from the events: the reconnects scheduled since the last reset. */
  function Retries(states: seq<State>, es: seq<Event>, n: nat): nat
    requires n <= |es| && n < |states|
  {
    if n == 0 || ResetsBackoff(states[n - 1], es[n - 1]) then 0
    else Retries(states, es, n - 1) + if Schedules(states[n - 1], es[n - 1]) then 1 else 0
  }

  lemma ScheduledDelay(s: State)
    requires !s.v.manualClose && s.v.lastConnectParams.Some? && TimersOk(s)
    ensures var s' := ScheduleReconnect(s);
      && s'.v.reconnectAttempt == s.v.reconnectAttempt + 1
      && s'.b.timeouts == map[s.b.next := Delay(s.v.reconnectAttempt)]
  {
    ClearedTimers(s);
  }

  /** The armed timeout, if there is one, has the delay of the last attempt. */
  ghost predicate DelayOk(s: State)
  {
    forall t :: t in s.b.timeouts ==> s.v.reconnectAttempt > 0 && s.b.timeouts[t] == Delay(s.v.reconnectAttempt - 1)
  }

  lemma AttemptCounts(s: State, accountId: string, session: Option<string>, constructed: bool)
    requires TimersOk(s) && accountId != "" && !(IsOpen(s) && s.v.connectKey == Some(accountId))
    ensures var s' := Connect(s, accountId, session, constructed);
      && s'.v.reconnectAttempt == s.v.reconnectAttempt + (if constructed then 0 else 1)
      && DelayOk(s')
  {
    ClearedTimers(s);
    ScheduledDelay(Dropped(Prepared(s, accountId)));
  }

  lemma ConnectingCounts(s: State, e: Event)
    requires Inv(s) && DelayOk(s) && Enabled(s, e) && (e.CallConnect? || e.ReconnectTimerFires?)
    ensures Next(s, e).v.reconnectAttempt == s.v.reconnectAttempt + (if Schedules(s, e) then 1 else 0)
    ensures DelayOk(Next(s, e))
  {
    match e {
      case CallConnect(accountId, session, constructed) =>
        if Attempt(s, e).Some? {
          AttemptCounts(s, accountId, session, constructed);
        }
      case ReconnectTimerFires(timer, session, constructed) =>
        var r := TimerOff(s, timer);
        assert r.b.timeouts.Keys == {};
        assert TimersOk(r);
        AttemptCounts(r, s.v.lastConnectParams.value, session, constructed);
    }
  }

  lemma ClosingCounts(s: State, e: Event)
    requires Inv(s) && DelayOk(s) && Enabled(s, e) && e.SocketCloses?
    ensures Next(s, e).v.reconnectAttempt == s.v.reconnectAttempt + (if Schedules(s, e) then 1 else 0)
    ensures DelayOk(Next(s, e))
  {
    if s.v.socket == Some(e.id) {
      ClosedDownIsBlank(s, e.id);
      ScheduledDelay(ClosedDown(s, e.id));
    }
  }

  lemma StepCounts(s: State, e: Event)
    requires Inv(s) && DelayOk(s) && Enabled(s, e)
    ensures Next(s, e).v.reconnectAttempt
         == if ResetsBackoff(s, e) then 0 else s.v.reconnectAttempt + if Schedules(s, e) then 1 else 0
    ensures DelayOk(Next(s, e))
  {
    match e {
      case CallConnect(_, _, _) => ConnectingCounts(s, e);
      case ReconnectTimerFires(_, _, _) => ConnectingCounts(s, e);
      case SocketCloses(_) => ClosingCounts(s, e);
      case CallDisconnect => ClearedTimers(s);
      case SocketOpens(_, _) =>
      case HandlerContinues(_) =>
      case _ =>
    }
  }

  lemma {:induction false} RetriesAreCounted(states: seq<State>, es: seq<Event>, n: nat)
    requires Run(states, es) && n < |states|
    ensures states[n].v.reconnectAttempt == Retries(states, es, n) && DelayOk(states[n])
  {
    if n > 0 {
      RetriesAreCounted(states, es, n - 1);
      RunsKeepInv(states, es, n - 1);
      StepCounts(states[n - 1], es[n - 1]);
    }
  }

  /** Over every run an armed reconnect has the delay of its number since the last open or disconnect. */
  lemma BackoffOverRuns(states: seq<State>, es: seq<Event>, n: nat, timer: nat)
    requires Run(states, es) && n < |states| && timer in states[n].b.timeouts
    ensures Retries(states, es, n) > 0 && states[n].b.timeouts[timer] == Delay(Retries(states, es, n) - 1)
  {
    RetriesAreCounted(states, es, n);
  }

  /** Over every run an armed reconnect timer goes off before the server gives up the handoff. */
  lemma ReconnectBeforeHandoffExpires(states: seq<State>, es: seq<Event>, n: nat, timer: nat)
    requires Run(states, es) && n < |states| && timer in states[n].b.timeouts
    ensures BASE_MS <= states[n].b.timeouts[timer] < HANDOFF_MS
  {
    RunsKeepInv(states, es, n);
  }
}
