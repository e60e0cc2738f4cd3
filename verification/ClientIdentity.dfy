/** The client id of this tab across reconnects and reloads (frontend/src/Realtime/wsClientIdentity.js),
    and the change events by which document locks follow it. */
module ClientIdentity {
  import opened Seqs
  import opened Text
  import opened Unicode

  /** The detail of an `eip-ws-client-id-changed` event. */
  datatype Event = Changed(previous: Option<string>, next: Option<string>)

  /** The two module variables and the session storage entry. */
  datatype Identity = Identity(current: Option<string>, lastBefore: Option<string>, stored: Option<string>)

  const FRESH := Identity(None, None, None)

  datatype Op =
    | Assign(value: string)   // `""` also stands for a value that is not a string
    | SoftClear               // socket close, or replacement
    | HardClear               // logout
    | Reload                  // the page starts again; session storage stays

  function IdOf(value: string): Option<string>
  {
    var id := Trim(value, IsJsSpace);
    if id == "" then None else Some(id)
  }

  // ----- One operation -----

  /** The id that an event for the new id `id` names as the previous one. */
  function PairedWith(s: Identity, id: string): Option<string>
  {
    if s.current != None then s.current
    else if s.lastBefore != None && s.lastBefore != Some(id) then s.lastBefore
    else if s.stored != Some(id) then s.stored
    else None
  }

  function After(s: Identity, op: Op): Identity
  {
    match op
    case Assign(value) =>
      var id := IdOf(value);
      if id == s.current then s
      else
        var used := s.current == None && id != None && s.lastBefore != None && s.lastBefore != id;
        Identity(id, if used then None else s.lastBefore, id)
    case SoftClear => s.(current := None, lastBefore := if s.current == None then s.lastBefore else s.current)
    case HardClear => FRESH
    case Reload => Identity(None, None, s.stored)
  }

  function Emitted(s: Identity, op: Op): seq<Event>
  {
    match op
    case Assign(value) =>
      (match IdOf(value)
       case None => if s.current == None then [] else [Changed(s.current, None)]
       case Some(id) => if s.current == Some(id) then [] else [Changed(PairedWith(s, id), Some(id))])
    case SoftClear => if s.current == None then [] else [Changed(s.current, None)]
    case HardClear => if s.current == None then [] else [Changed(s.current, None)]
    case Reload => []
  }

  // ----- The module -----

  class ClientIdentityModule {
    var wsClientID: Option<string>
    var lastWsClientIDBeforeDisconnect: Option<string>
    var sessionStorage: Option<string>
    var events: seq<Event>  // all that was dispatched to the window

    constructor ()
      ensures View() == FRESH && events == []
    {
      wsClientID, lastWsClientIDBeforeDisconnect, sessionStorage, events := None, None, None, [];
    }

    function View(): Identity
      reads this
    {
      Identity(wsClientID, lastWsClientIDBeforeDisconnect, sessionStorage)
    }

    method DispatchClientIdChanged(previous: Option<string>, next: Option<string>)
      modifies this`events
      ensures events == old(events) + [Changed(previous, next)]
    {
      events := events + [Changed(previous, next)];
    }

    method SetRealtimeClientID(value: string)
      modifies this
      ensures View() == After(old(View()), Assign(value))
      ensures events == old(events) + Emitted(old(View()), Assign(value))
      ensures wsClientID == if Trim(value, IsJsSpace) == "" then None else Some(Trim(value, IsJsSpace))
      ensures sessionStorage == if wsClientID == old(wsClientID) then old(sessionStorage) else wsClientID
    {
      var next := Trim(value, IsJsSpace);
      var prev := wsClientID;
      var newID := if next == "" then None else Some(next);
      if prev == newID {
        return;
      }
      var pairPrev := prev;
      if prev == None && newID != None {
        if lastWsClientIDBeforeDisconnect != None && lastWsClientIDBeforeDisconnect != newID {
          pairPrev := lastWsClientIDBeforeDisconnect;
          lastWsClientIDBeforeDisconnect := None;
        } else {
          var stored := sessionStorage;
          if stored != None && stored != newID {
            pairPrev := stored;
          }
        }
      }
      wsClientID := newID;
      DispatchClientIdChanged(pairPrev, newID);
      if newID != None {
        sessionStorage := newID;
      } else {
        sessionStorage := None;
      }
    }

    method ClearRealtimeClientID()
      modifies this
      ensures View() == After(old(View()), SoftClear)
      ensures events == old(events) + Emitted(old(View()), SoftClear)
      ensures wsClientID == None && sessionStorage == old(sessionStorage)
      ensures old(wsClientID) != None ==> lastWsClientIDBeforeDisconnect == old(wsClientID)
      ensures old(wsClientID) == None ==> lastWsClientIDBeforeDisconnect == old(lastWsClientIDBeforeDisconnect)
    {
      var prev := wsClientID;
      wsClientID := None;
      if prev != None {
        lastWsClientIDBeforeDisconnect := prev;
        DispatchClientIdChanged(prev, None);
      }
    }

    method ClearRealtimeClientIdentityHard()
      modifies this
      ensures View() == After(old(View()), HardClear)
      ensures events == old(events) + Emitted(old(View()), HardClear)
      ensures wsClientID == None && lastWsClientIDBeforeDisconnect == None && sessionStorage == None
    {
      var prev := wsClientID;
      wsClientID := None;
      lastWsClientIDBeforeDisconnect := None;
      sessionStorage := None;
      if prev != None {
        DispatchClientIdChanged(prev, None);
      }
    }
  }

  // ----- Runs -----

  function RunFrom(s: Identity, ops: seq<Op>): Identity
    decreases |ops|
  {
    if ops == [] then s else RunFrom(After(s, ops[0]), ops[1..])
  }

  function EventsFrom(s: Identity, ops: seq<Op>): seq<Event>
    decreases |ops|
  {
    if ops == [] then [] else Emitted(s, ops[0]) + EventsFrom(After(s, ops[0]), ops[1..])
  }

  lemma {:induction false} RunAppend(s: Identity, a: seq<Op>, b: seq<Op>)
    ensures RunFrom(s, a + b) == RunFrom(RunFrom(s, a), b)
    decreases |a|
  {
    if a == [] {
      assert a + b == b;
    } else {
      assert (a + b)[1..] == a[1..] + b;
      RunAppend(After(s, a[0]), a[1..], b);
    }
  }

  /** Each change of the live id, and nothing else, is announced, with the id that is live from then on;
      when none is, with the one that was. */
  lemma ChangesAreAnnounced(s: Identity, op: Op)
    requires !op.Reload?
    ensures After(s, op).current == s.current ==> Emitted(s, op) == []
    ensures After(s, op).current != s.current ==>
      && |Emitted(s, op)| == 1 && Emitted(s, op)[0].next == After(s, op).current
      && (After(s, op).current == None ==> Emitted(s, op)[0].previous == s.current)
  {
  }

  /** Whoever listens from the start of a page knows the live id. */
  lemma {:induction false} LiveIsLastAnnounced(s: Identity, ops: seq<Op>)
    requires forall i :: 0 <= i < |ops| ==> !ops[i].Reload?
    ensures var es := EventsFrom(s, ops);
      RunFrom(s, ops).current == if es == [] then s.current else es[|es| - 1].next
    decreases |ops|
  {
    if ops != [] {
      ChangesAreAnnounced(s, ops[0]);
      LiveIsLastAnnounced(After(s, ops[0]), ops[1..]);
    }
  }

  function LiveAfter(before: Option<string>, op: Op): Option<string>
  {
    match op
    case Assign(value) => if IdOf(value) == None then before else IdOf(value)
    case HardClear => None
    case _ => before
  }

  /** The last live id since the last hard clear, told from the operations alone. */
  function LastLive(before: Option<string>, ops: seq<Op>): Option<string>
    decreases |ops|
  {
    if ops == [] then before else LastLive(LiveAfter(before, ops[0]), ops[1..])
  }

  ghost predicate NoEmptyAssignment(ops: seq<Op>)
  {
    forall i :: 0 <= i < |ops| && ops[i].Assign? ==> IdOf(ops[i].value) != None
  }

  ghost predicate NoHardClear(ops: seq<Op>)
  {
    forall i :: 0 <= i < |ops| ==> !ops[i].HardClear?
  }

  /** What the module still knows agrees with the last live id. */
  ghost predicate Faithful(s: Identity, live: Option<string>)
  {
    && s.stored == live
    && (s.current != None ==> s.current == live)
    && (s.current == None && s.lastBefore != None ==> s.lastBefore == live)
  }

  lemma {:induction false} RunsAreFaithful(s: Identity, live: Option<string>, ops: seq<Op>)
    requires Faithful(s, live) && NoEmptyAssignment(ops)
    ensures Faithful(RunFrom(s, ops), LastLive(live, ops))
    decreases |ops|
  {
    if ops != [] {
      RunsAreFaithful(After(s, ops[0]), LiveAfter(live, ops[0]), ops[1..]);
    }
  }

  /** Whatever happened before: an event for a new id names the last live id when that differs,
      and no id otherwise. */
  lemma NewIdNamesLastLive(ops: seq<Op>, value: string)
    requires NoEmptyAssignment(ops) && IdOf(value) != None
    ensures var live := LastLive(None, ops);
      var s := RunFrom(FRESH, ops);
      Emitted(s, Assign(value))
      == if s.current == IdOf(value) then []
         else [Changed(if live == IdOf(value) then None else live, IdOf(value))]
  {
    RunsAreFaithful(FRESH, None, ops);
  }

  // ----- Locks -----

  /** The owner that a lock has once the change event is carried over to it. */
  function Rebind(owner: string, e: Event): string
  {
    if e.previous == Some(owner) && e.next != None then e.next.value else owner
  }

  function RebindAll(owner: string, es: seq<Event>): string
    decreases |es|
  {
    if es == [] then owner else RebindAll(Rebind(owner, es[0]), es[1..])
  }

  lemma RebindOne(owner: string, e: Event)
    ensures RebindAll(owner, [e]) == Rebind(owner, e)
  {
    assert [e][1..] == [];
  }

  lemma {:induction false} RebindAppend(owner: string, a: seq<Event>, b: seq<Event>)
    ensures RebindAll(owner, a + b) == RebindAll(RebindAll(owner, a), b)
    decreases |a|
  {
    if a == [] {
      assert a + b == b;
    } else {
      assert (a + b)[1..] == a[1..] + b;
      RebindAppend(Rebind(owner, a[0]), a[1..], b);
    }
  }

  lemma {:induction false} OwnerFollowsFrom(s: Identity, owner: string, ops: seq<Op>)
    requires Faithful(s, Some(owner)) && NoEmptyAssignment(ops) && NoHardClear(ops)
    ensures LastLive(Some(owner), ops) == Some(RebindAll(owner, EventsFrom(s, ops)))
    decreases |ops|
  {
    if ops != [] {
      var es, s' := Emitted(s, ops[0]), After(s, ops[0]);
      var next := RebindAll(owner, es);
      if es != [] {
        assert es == [es[0]];
        RebindOne(owner, es[0]);
      }
      assert LiveAfter(Some(owner), ops[0]) == Some(next);
      OwnerFollowsFrom(s', next, ops[1..]);
      RebindAppend(owner, es, EventsFrom(s', ops[1..]));
    }
  }

  /** A lock taken while `owner` was the last live id belongs to the live client whenever there is
      one, through any number of drops, reconnects, replacements and reloads. */
  lemma LockFollowsClient(before: seq<Op>, owner: string, after: seq<Op>)
    requires NoEmptyAssignment(before) && LastLive(None, before) == Some(owner)
    requires NoEmptyAssignment(after) && NoHardClear(after)
    ensures var s := RunFrom(FRESH, before);
      var end := RunFrom(s, after);
      end.current != None ==> end.current == Some(RebindAll(owner, EventsFrom(s, after)))
  {
    var s := RunFrom(FRESH, before);
    RunsAreFaithful(FRESH, None, before);
    RunsAreFaithful(s, Some(owner), after);
    OwnerFollowsFrom(s, owner, after);
  }

  /** After a hard clear no event names an id from before it, unless that id was given again. */
  lemma {:induction false} HardClearForgets(s: Identity, id: string, ops: seq<Op>)
    requires s.current != Some(id) && s.lastBefore != Some(id) && s.stored != Some(id)
    requires forall i :: 0 <= i < |ops| && ops[i].Assign? ==> IdOf(ops[i].value) != Some(id)
    ensures forall e :: e in EventsFrom(s, ops) ==> e.previous != Some(id)
    decreases |ops|
  {
    if ops != [] {
      HardClearForgets(After(s, ops[0]), id, ops[1..]);
    }
  }

  lemma NoRebindAcrossLogout(before: seq<Op>, id: string, after: seq<Op>)
    requires forall i :: 0 <= i < |after| && after[i].Assign? ==> IdOf(after[i].value) != Some(id)
    ensures RebindAll(id, EventsFrom(After(RunFrom(FRESH, before), HardClear), after)) == id
  {
    var es := EventsFrom(FRESH, after);
    HardClearForgets(FRESH, id, after);
    NobodyRebinds(id, es);
  }

  lemma {:induction false} NobodyRebinds(owner: string, es: seq<Event>)
    requires forall e :: e in es ==> e.previous != Some(owner)
    ensures RebindAll(owner, es) == owner
  {
    if es != [] {
      assert es[0] in es && forall e :: e in es[1..] ==> e in es;
      NobodyRebinds(owner, es[1..]);
    }
  }

  // ----- Empty assignments -----

  ghost predicate Idle(ops: seq<Op>)
  {
    forall i :: 0 <= i < |ops| ==> ops[i].SoftClear? || ops[i].Reload?
  }

  ghost predicate HasReload(ops: seq<Op>)
  {
    exists i :: 0 <= i < |ops| && ops[i].Reload?
  }

  lemma {:induction false} IdleKeeps(s: Identity, ops: seq<Op>)
    requires s.current == None && s.stored == None && Idle(ops)
    ensures RunFrom(s, ops) == s.(lastBefore := if HasReload(ops) then None else s.lastBefore)
    decreases |ops|
  {
    if ops != [] {
      IdleKeeps(After(s, ops[0]), ops[1..]);
      if HasReload(ops) && !ops[0].Reload? {
        var i :| 0 <= i < |ops| && ops[i].Reload?;
        assert ops[1..][i - 1].Reload?;
      }
    }
  }

  /** The setter accepts an empty id, for which it also empties the storage. A live client that is
      assigned one, and then soft clears and reloads in any number, names its last live id for the next
      new one exactly when a soft clear of that same id is still remembered and no reload came in between. */
  lemma EmptyAssignmentLosesLive(ops: seq<Op>, empty: string, gap: seq<Op>, value: string)
    requires NoEmptyAssignment(ops) && IdOf(empty) == None && Idle(gap)
    requires RunFrom(FRESH, ops).current != None
    requires IdOf(value) != None && IdOf(value) != LastLive(None, ops)
    ensures var s := RunFrom(FRESH, ops);
      var cleared := RunFrom(After(s, Assign(empty)), gap);
      Emitted(cleared, Assign(value)) == [Changed(LastLive(None, ops), IdOf(value))]
      <==> s.lastBefore == s.current && !HasReload(gap)
  {
    RunsAreFaithful(FRESH, None, ops);
    IdleKeeps(After(RunFrom(FRESH, ops), Assign(empty)), gap);
  }

  lemma EmptyAssignmentExample()
    ensures var s := RunFrom(FRESH, [Assign("a"), Assign("")]);
      Emitted(s, Assign("b")) == [Changed(None, Some("b"))]
  {
    assert Trim("a", IsJsSpace) == "a" && Trim("b", IsJsSpace) == "b" && Trim("", IsJsSpace) == "";
    var ops := [Assign("a"), Assign("")];
    assert ops[1..] == [Assign("")];
    assert After(FRESH, ops[0]) == Identity(Some("a"), None, Some("a"));
    assert RunFrom(After(FRESH, ops[0]), ops[1..]) == FRESH;
  }
}
