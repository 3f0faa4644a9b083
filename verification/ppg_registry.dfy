/**
 * The registries of the push proxy gateway (gw/wap_push_ppg.c) and the
 * operations that change them in place.
 *
 * A session machine is an object: the gateway updates its session id,
 * address, capabilities and push list where it stands. `Ppg.machines` is
 * the ppg_machines list of session machines; a machine may occur in it more
 * than once, because both session_machine_create and store_push_data
 * append it. `Ppg.unitPushes` is ppg_unit_pushes and `Ppg.pushIdCounter`
 * the push id counter. The three outboxes record, in order, the events the
 * gateway hands to the OTA layer, to the application layer and to the push
 * initiator.
 */
module PpgRegistry {
  import opened Wrappers
  import opened Pap
  import opened HttpHeaders
  import opened PushTime
  import opened WapEvents
  import opened PpgPolicy
  import opened PpgContent
  import opened PpgMachines
  import opened PpgPipeline

  /** PPGSessionMachine. */
  class SessionMachine {
    var sessionId: int
    var addrTuple: Option<AddrTuple>
    var piClientAddress: string
    var assumedCaps: Option<Caps>
    var clientCaps: Option<Caps>
    var preferconfirmedValue: DeliveryMethod
    var pushes: seq<PushMachine>

    /**
     * session_machine_create, apart from the registration in ppg_machines
     * (Ppg.StoreSessionData makes it): the session id is 0 until WSP tells
     * the real one, the assumed capabilities are those the PI sent, and
     * the push list is empty.
     */
    constructor (tuple: Option<AddrTuple>, e: PushMessage)
      ensures sessionId == 0 && addrTuple == tuple && piClientAddress == e.addressValue
      ensures assumedCaps == e.piCapabilities && clientCaps.None?
      ensures preferconfirmedValue == Confirmed && pushes == []
    {
      sessionId := 0;
      addrTuple := tuple;
      piClientAddress := e.addressValue;
      assumedCaps := e.piCapabilities;
      clientCaps := None;
      preferconfirmedValue := Confirmed;
      pushes := [];
    }
  }

  /**
   * How handle_internal_event ends: the indication is handled, or the
   * handler dereferences a NULL session or push machine (no machine for the
   * session id, address or push id the indication names).
   */
  datatype Outcome = Handled | Crashed

  /** The session machine `sm` as a frame, none for NULL. */
  function Opt(sm: SessionMachine?): set<SessionMachine> {
    if sm == null then {} else {sm}
  }

  /** What the three session searches over ppg_machines compare. */
  datatype SessionKey =
    | PiClientAddress(addr: string)      // session_has_pi_client_address
    | RemoteAddress(addr: string)        // session_has_addr
    | SessionId(sid: int)                // session_has_sid

  predicate Matches(sm: SessionMachine, key: SessionKey)
    reads sm
  {
    match key
    case PiClientAddress(a) => sm.piClientAddress == a
    case RemoteAddress(a) => sm.addrTuple.Some? && sm.addrTuple.value.remoteAddress == a
    case SessionId(sid) => sm.sessionId == sid
  }

  /** list_search over ppg_machines: the index of the first match, |ms| when there is none. */
  function FirstMatch(ms: seq<SessionMachine>, key: SessionKey): (i: nat)
    reads ms
    ensures i <= |ms|
    ensures i < |ms| ==> Matches(ms[i], key)
    ensures forall j :: 0 <= j < i ==> !Matches(ms[j], key)
  {
    if ms == [] then 0
    else if Matches(ms[0], key) then 0
    else
      var i := FirstMatch(ms[1..], key);
      assert forall j :: 1 <= j < i + 1 ==> ms[j] == ms[1..][j - 1];
      i + 1
  }

  /** list_delete_equal on ppg_machines: every occurrence of `sm` goes. */
  function RemoveSession(ms: seq<SessionMachine>, sm: SessionMachine): (r: seq<SessionMachine>)
    ensures forall m :: m in r ==> m in ms && m != sm
    ensures forall m :: m in ms && m != sm ==> m in r
    ensures |r| <= |ms|
  {
    if ms == [] then []
    else (if ms[0] == sm then [] else [ms[0]]) + RemoveSession(ms[1..], sm)
  }

  /** Deleting a session distributes over concatenation. */
  lemma {:induction false} RemoveSessionAppend(a: seq<SessionMachine>, b: seq<SessionMachine>, sm: SessionMachine)
    ensures RemoveSession(a + b, sm) == RemoveSession(a, sm) + RemoveSession(b, sm)
  {
    if a == [] {
      assert a + b == b;
    } else {
      assert (a + b)[1..] == a[1..] + b;
      RemoveSessionAppend(a[1..], b, sm);
    }
  }

  /** Deleting an absent session changes nothing. */
  lemma {:induction false} RemoveSessionAbsent(ms: seq<SessionMachine>, sm: SessionMachine)
    requires sm !in ms
    ensures RemoveSession(ms, sm) == ms
  {
    if ms != [] {
      RemoveSessionAbsent(ms[1..], sm);
      assert [ms[0]] + ms[1..] == ms;
    }
  }

  /** Deleting a session after appending it is deleting it. */
  lemma RemoveSessionSnoc(ms: seq<SessionMachine>, sm: SessionMachine)
    ensures RemoveSession(ms + [sm], sm) == RemoveSession(ms, sm)
  {
    RemoveSessionAppend(ms, [sm], sm);
    assert RemoveSession([sm], sm) == [];
  }

  /** Deleting a session that was moved to the back is deleting it. */
  lemma RemoveSessionMoved(ms: seq<SessionMachine>, sm: SessionMachine)
    ensures RemoveSession(RemoveSession(ms, sm) + [sm], sm) == RemoveSession(ms, sm)
  {
    var r := RemoveSession(ms, sm);
    RemoveSessionSnoc(r, sm);
    RemoveSessionAbsent(r, sm);
  }

  /** Moving a session to the back of ppg_machines twice is moving it once. */
  lemma MoveSessionTwice(ms: seq<SessionMachine>, sm: SessionMachine)
    ensures RemoveSession(RemoveSession(ms, sm) + [sm], sm) + [sm] == RemoveSession(ms, sm) + [sm]
  {
    RemoveSessionMoved(ms, sm);
  }

  class Ppg {
    var machines: seq<SessionMachine>
    var unitPushes: seq<PushMachine>
    var pushIdCounter: nat
    var otaOut: seq<OtaRequest>
    var applOut: seq<ApplEvent>
    var piOut: seq<PushResponse>

    /**
     * The registry invariant: every push list, the unit-push list and the
     * list of each registered session, holds push ids the counter handed
     * out, none twice.
     */
    ghost predicate Valid()
      reads this, machines
    {
      PushesOk(unitPushes, pushIdCounter) &&
      forall m :: m in machines ==> PushesOk(m.pushes, pushIdCounter)
    }

    /**
     * Between events every registered push is pending. A push is marked
     * delivered, undeliverable, aborted or expired only just before it is
     * removed, so no push is ever seen to leave a final state.
     */
    ghost predicate PushesPending()
      reads this, machines
    {
      AllPending(unitPushes) && forall m :: m in machines ==> AllPending(m.pushes)
    }

    /** This registry as a frame when `b` holds, none otherwise. */
    function Self(b: bool): set<Ppg> {
      if b then {this} else {}
    }

    /** wap_push_ppg_init: empty registries, counter at 0. */
    constructor ()
      ensures Valid() && PushesPending()
      ensures machines == [] && unitPushes == [] && pushIdCounter == 0
      ensures otaOut == [] && applOut == [] && piOut == []
    {
      machines := [];
      unitPushes := [];
      pushIdCounter := 0;
      otaOut := [];
      applOut := [];
      piOut := [];
    }

    /** session_find_using_pi_client_address: the first session for a PI client address. */
    function SessionFindUsingPiClientAddress(addr: string): (r: SessionMachine?)
      reads this, machines
      ensures r != null ==> r in machines && r.piClientAddress == addr
      ensures r == null <==> forall i :: 0 <= i < |machines| ==> machines[i].piClientAddress != addr
    {
      var i := FirstMatch(machines, PiClientAddress(addr));
      if i < |machines| then machines[i] else null
    }

    /** wap_push_ppg_have_push_session_for: the first session with the client's remote address. */
    function HavePushSessionFor(tuple: AddrTuple): (r: SessionMachine?)
      reads this, machines
      ensures r != null ==> r in machines && r.addrTuple.Some? &&
                            r.addrTuple.value.remoteAddress == tuple.remoteAddress
      ensures r == null <==> forall i :: 0 <= i < |machines| ==>
                                     !(machines[i].addrTuple.Some? &&
                                       machines[i].addrTuple.value.remoteAddress == tuple.remoteAddress)
    {
      var i := FirstMatch(machines, RemoteAddress(tuple.remoteAddress));
      if i < |machines| then machines[i] else null
    }

    /** wap_push_ppg_have_push_session_for_sid: the first session with a WSP session id. */
    function HavePushSessionForSid(sid: int): (r: SessionMachine?)
      reads this, machines
      ensures r != null ==> r in machines && r.sessionId == sid
      ensures r == null <==> forall i :: 0 <= i < |machines| ==> machines[i].sessionId != sid
    {
      var i := FirstMatch(machines, SessionId(sid));
      if i < |machines| then machines[i] else null
    }

    /** The push list a push for session `sm` goes to: the unit-push list when there is no session. */
    function Scope(sm: SessionMachine?): seq<PushMachine>
      reads this, Opt(sm)
    {
      if sm == null then unitPushes else sm.pushes
    }

    /**
     * The push list a submission `e` goes to, as it stands before the
     * submission: the unit-push list for a connectionless push, the list of
     * the client's session otherwise (empty when the session is yet to be
     * made).
     */
    function ScopeOf(e: PushMessage): seq<PushMachine>
      reads this, machines
    {
      var f := SessionFindUsingPiClientAddress(e.addressValue);
      if ClessAccepted(e, f != null) then unitPushes else if f != null then f.pushes else []
    }

    /**
     * store_session_data for a client without a session machine:
     * session_machine_create makes one and appends it to ppg_machines.
     */
    method StoreSessionData(tuple: Option<AddrTuple>, e: PushMessage) returns (sm: SessionMachine)
      requires Valid()
      modifies this`machines
      ensures Valid() && fresh(sm)
      ensures old(PushesPending()) ==> PushesPending()
      ensures machines == old(machines) + [sm]
      ensures sm.sessionId == 0 && sm.addrTuple == tuple && sm.piClientAddress == e.addressValue
      ensures sm.assumedCaps == e.piCapabilities && sm.clientCaps.None? && sm.pushes == []
    {
      sm := new SessionMachine(tuple, e);
      machines := machines + [sm];
    }

    /**
     * update_session_data: record the WSP session id, the client's port and
     * the client's capabilities, and move the session to the back of
     * ppg_machines.
     */
    method UpdateSessionData(sm: SessionMachine, sid: int, port: int, caps: Caps)
      requires Valid() && sm in machines && sm.addrTuple.Some?
      modifies this`machines, sm`sessionId, sm`addrTuple, sm`clientCaps
      ensures Valid() && sm in machines
      ensures sm.sessionId == sid && sm.clientCaps == Some(caps)
      ensures sm.addrTuple == Some(old(sm.addrTuple.value).(remotePort := port))
      ensures machines == RemoveSession(old(machines), sm) + [sm]
    {
      sm.sessionId := sid;
      sm.addrTuple := Some(sm.addrTuple.value.(remotePort := port));
      sm.clientCaps := Some(caps);
      machines := RemoveSession(machines, sm) + [sm];
    }

    /**
     * update_session_data_with_headers: put a push, under its push id, at
     * the back of the session's list.
     */
    method UpdateSessionDataWithHeaders(sm: SessionMachine, pm: PushMachine)
      requires Valid() && sm in machines && pm.pushId < pushIdCounter
      modifies sm`pushes
      ensures Valid()
      ensures sm.pushes == Without(old(sm.pushes), pm.pushId) + [pm]
    {
      MoveToBack(sm.pushes, pm.pushId, pm, pushIdCounter);
      sm.pushes := Without(sm.pushes, pm.pushId) + [pm];
    }

    /**
     * response_push_connection: unless the PI assumed capabilities the
     * client lacks, confirm the connection to the application layer with the
     * capabilities the client asked for. `capable` stands for
     * check_capabilities.
     */
    method ResponsePushConnection(sid: int, requested: Caps, sm: SessionMachine, capable: (Caps, Caps) -> bool)
      returns (ok: bool)
      modifies this`applOut
      ensures ok <==> sm.assumedCaps.None? || capable(requested, sm.assumedCaps.value)
      ensures ok ==> applOut == old(applOut) + [PomConnectRes(requested, sid)]
      ensures !ok ==> applOut == old(applOut)
    {
      if sm.assumedCaps.Some? && !capable(requested, sm.assumedCaps.value) {
        return false;
      }
      applOut := applOut + [PomConnectRes(requested, sid)];
      ok := true;
    }

    /**
     * deliver_unit_push: a push request over an existing session, a unit
     * push request otherwise; then the push is marked delivered unconfirmed.
     */
    method DeliverUnitPush(sm: SessionMachine?, pm: PushMachine, sessionExists: bool, now: Tm)
      returns (r: PushMachine)
      requires Valid() && pm.pushId < pushIdCounter
      requires sm != null ==> sm in machines
      modifies this`otaOut, Self(sm == null)`unitPushes, Self(sm != null)`machines, Opt(sm)`pushes
      ensures Valid()
      ensures otaOut == old(otaOut) + [if sessionExists then PushReq(NOT_LAST, pm) else UnitPushReq(NOT_LAST, pm)]
      ensures r == ApplyStatus(pm, 0, Delivered1, now)
      ensures Scope(sm) == Without(old(Scope(sm)), pm.pushId) + [r]
      ensures sm != null ==> machines == RemoveSession(old(machines), sm) + [sm]
    {
      if !sessionExists {
        DispatchToOta(UnitPushReq(NOT_LAST, pm));
      } else {
        DispatchToOta(PushReq(NOT_LAST, pm));
      }
      r := UpdatePushDataWithAttribute(sm, pm, 0, Delivered1, now);
    }

    /** response_push_message: one push response to the initiator. */
    method ResponsePushMessage(pm: PushMachine, code: int, now: Tm)
      modifies this`piOut
      ensures piOut == old(piOut) + [Response(pm, code, now)]
    {
      piOut := piOut + [Response(pm, code, now)];
    }

    /** dispatch_to_ota: hand one request to the OTA layer. */
    method DispatchToOta(req: OtaRequest)
      modifies this`otaOut
      ensures otaOut == old(otaOut) + [req]
    {
      otaOut := otaOut + [req];
    }

    /**
     * store_push_data: create the push machine, report whether its PI push
     * id is already queued in the chosen scope (the unit-push list for a
     * connectionless push, the session's list otherwise) and append it
     * there either way. A session push also appends the session to
     * ppg_machines again.
     */
    method StorePushData(sm: SessionMachine?, e: PushMessage, tuple: Option<AddrTuple>, cless: bool)
      returns (ok: bool, pm: PushMachine)
      requires Valid()
      requires !cless ==> sm != null && sm in machines
      modifies this`pushIdCounter, Self(cless)`unitPushes, Self(!cless)`machines, Opt(if cless then null else sm)`pushes
      ensures Valid()
      ensures pm == NewPushMachine(e, tuple, old(pushIdCounter)) && pushIdCounter == old(pushIdCounter) + 1
      ensures ok <==> !HasPiPushId(if cless then old(unitPushes) else old(sm.pushes), e.piPushId)
      ensures cless ==> unitPushes == old(unitPushes) + [pm] && pm.pushId !in PushIds(old(unitPushes))
      ensures !cless ==> sm.pushes == old(sm.pushes) + [pm] && machines == old(machines) + [sm] &&
                         pm.pushId !in PushIds(old(sm.pushes))
    {
      var duplicate := if cless then HasPiPushId(unitPushes, e.piPushId) else HasPiPushId(sm.pushes, e.piPushId);
      pm := NewPushMachine(e, tuple, pushIdCounter);
      forall m | m in machines ensures PushesOk(m.pushes, pushIdCounter + 1) {
        PushesOkGrow(m.pushes, pushIdCounter, pushIdCounter + 1);
      }
      PushesOkGrow(unitPushes, pushIdCounter, pushIdCounter + 1);
      pushIdCounter := pushIdCounter + 1;
      if !cless {
        DistinctSnoc(sm.pushes, pm);
        sm.pushes := sm.pushes + [pm];
        machines := machines + [sm];
      } else {
        DistinctSnoc(unitPushes, pm);
        unitPushes := unitPushes + [pm];
      }
      ok := !duplicate;
    }

    /**
     * update_push_data_with_attribute: set the PAP attribute of a push,
     * then put it at the back of its list in place of any push with its id
     * (the session's list, or the unit-push list when there is no session)
     * and, for a session, move the session to the back of ppg_machines.
     */
    method UpdatePushDataWithAttribute(sm: SessionMachine?, qm: PushMachine, reason: int, status: Status, now: Tm)
      returns (r: PushMachine)
      requires Valid() && qm.pushId < pushIdCounter
      requires sm != null ==> sm in machines
      modifies Self(sm == null)`unitPushes, Self(sm != null)`machines, Opt(sm)`pushes
      ensures Valid()
      ensures r == ApplyStatus(qm, reason, status, now)
      ensures sm != null ==> sm.pushes == Without(old(sm.pushes), qm.pushId) + [r] &&
                             machines == RemoveSession(old(machines), sm) + [sm]
      ensures sm == null ==> unitPushes == Without(old(unitPushes), qm.pushId) + [r]
    {
      r := ApplyStatus(qm, reason, status, now);
      if sm != null {
        ReplaceInSession(sm, r);
      } else {
        ReplaceInUnitPushes(r);
      }
    }

    /** The session half of update_push_data_with_attribute. */
    method ReplaceInSession(sm: SessionMachine, r: PushMachine)
      requires Valid() && sm in machines && r.pushId < pushIdCounter
      modifies this`machines, sm`pushes
      ensures Valid()
      ensures sm.pushes == Without(old(sm.pushes), r.pushId) + [r]
      ensures machines == RemoveSession(old(machines), sm) + [sm]
    {
      MoveToBack(sm.pushes, r.pushId, r, pushIdCounter);
      sm.pushes := Without(sm.pushes, r.pushId) + [r];
      machines := RemoveSession(machines, sm) + [sm];
    }

    /** The unit-push half of update_push_data_with_attribute. */
    method ReplaceInUnitPushes(r: PushMachine)
      requires Valid() && r.pushId < pushIdCounter
      modifies this`unitPushes
      ensures Valid()
      ensures unitPushes == Without(old(unitPushes), r.pushId) + [r]
    {
      MoveToBack(unitPushes, r.pushId, r, pushIdCounter);
      unitPushes := Without(unitPushes, r.pushId) + [r];
    }

    /**
     * remove_push_data: drop a push from the unit-push list when `cless`,
     * otherwise from the push list of session `sm`.
     */
    method RemovePushData(sm: SessionMachine?, pm: PushMachine, cless: bool)
      requires Valid()
      requires !cless ==> sm != null
      modifies Self(cless)`unitPushes, Opt(if cless then null else sm)`pushes
      ensures Valid()
      ensures cless ==> unitPushes == Without(old(unitPushes), pm.pushId)
      ensures !cless ==> sm.pushes == Without(old(sm.pushes), pm.pushId)
    {
      if cless {
        WithoutKeepsOk(unitPushes, pm.pushId, pushIdCounter);
        unitPushes := Without(unitPushes, pm.pushId);
      } else {
        if sm in machines {
          WithoutKeepsOk(sm.pushes, pm.pushId, pushIdCounter);
        }
        sm.pushes := Without(sm.pushes, pm.pushId);
      }
    }

    /** remove_pushless_session: drop a session from ppg_machines only when its push list is empty. */
    method RemovePushlessSession(sm: SessionMachine)
      requires Valid()
      modifies this`machines
      ensures Valid()
      ensures machines == if sm.pushes == [] then RemoveSession(old(machines), sm) else old(machines)
    {
      if |sm.pushes| == 0 {
        machines := RemoveSession(machines, sm);
      }
    }

    /**
     * remove_session_data: answer every queued push with the user-pending
     * abort code, empty the list front to back and drop the session.
     */
    method RemoveSessionData(sm: SessionMachine, now: Tm)
      requires Valid() && sm in machines
      modifies this`piOut, this`machines, sm`pushes
      ensures Valid()
      ensures piOut == old(piOut) + Responses(old(sm.pushes), PAP_ABORT_USERPND, now)
      ensures sm.pushes == [] && machines == RemoveSession(old(machines), sm) && sm !in machines
    {
      ghost var ps := sm.pushes;
      ghost var k := 0;
      while |sm.pushes| > 0
        invariant Valid() && sm in machines && machines == old(machines)
        invariant 0 <= k <= |ps| && sm.pushes == ps[k..]
        invariant piOut == old(piOut) + Responses(ps[..k], PAP_ABORT_USERPND, now)
        decreases |sm.pushes|
      {
        DropFront(sm, now);
        ResponsesStep(old(piOut), ps, k, PAP_ABORT_USERPND, now);
        k := k + 1;
      }
      assert ps[..k] == ps;
      machines := RemoveSession(machines, sm);
    }

    /**
     * One round of the remove_session_data loop: the front push is answered
     * with the user-pending abort code and removed.
     */
    method DropFront(sm: SessionMachine, now: Tm)
      requires Valid() && sm in machines && sm.pushes != []
      modifies this`piOut, sm`pushes
      ensures Valid()
      ensures piOut == old(piOut) + [Response(old(sm.pushes[0]), PAP_ABORT_USERPND, now)]
      ensures sm.pushes == old(sm.pushes[1..])
    {
      var pm := sm.pushes[0];
      ResponsePushMessage(pm, PAP_ABORT_USERPND, now);
      WithoutHead(sm.pushes, pushIdCounter);
      RemovePushData(sm, pm, false);
    }

    /**
     * One round of the abort_delivery loop: the front push is marked
     * aborted (which moves it and the session to the back), answered with
     * a capabilities mismatch and removed. The aborted attribute is not
     * observable afterwards: the push machine is destroyed with it.
     */
    method AbortFront(sm: SessionMachine, now: Tm)
      requires Valid() && sm in machines && sm.pushes != []
      modifies this`piOut, this`machines, sm`pushes
      ensures Valid()
      ensures piOut == old(piOut) + [Response(old(sm.pushes[0]), PAP_CAPABILITIES_MISMATCH, now)]
      ensures sm.pushes == old(sm.pushes[1..])
      ensures machines == RemoveSession(old(machines), sm) + [sm]
    {
      var pm := sm.pushes[0];
      var qm := UpdatePushDataWithAttribute(sm, pm, PAP_ABORT_USERPND, AbortedStatus, now);
      RemoveFront(old(sm.pushes), qm);
      ResponsePushMessage(qm, PAP_CAPABILITIES_MISMATCH, now);
      RemovePushData(sm, qm, false);
    }

    /** AbortFront stated as one step of the abort_delivery loop invariant. */
    method AbortStep(sm: SessionMachine, now: Tm, ghost ps: seq<PushMachine>, ghost k: nat,
                     ghost p0: seq<PushResponse>, ghost m0: seq<SessionMachine>)
      requires Valid() && sm in machines
      requires k < |ps| && sm.pushes == ps[k..]
      requires piOut == p0 + Responses(ps[..k], PAP_CAPABILITIES_MISMATCH, now)
      requires machines == if k == 0 then m0 else RemoveSession(m0, sm) + [sm]
      modifies this`piOut, this`machines, sm`pushes
      ensures Valid() && sm in machines
      ensures sm.pushes == ps[k + 1..]
      ensures piOut == p0 + Responses(ps[..k + 1], PAP_CAPABILITIES_MISMATCH, now)
      ensures machines == RemoveSession(m0, sm) + [sm]
    {
      AbortFront(sm, now);
      ResponsesStep(p0, ps, k, PAP_CAPABILITIES_MISMATCH, now);
      MoveSessionTwice(m0, sm);
    }

    /**
     * abort_delivery: mark every queued push aborted (user pending), answer
     * each with a capabilities mismatch and empty the list; the session
     * itself stays, moved to the back of ppg_machines when it had pushes.
     */
    method AbortDelivery(sm: SessionMachine, now: Tm)
      requires Valid() && sm in machines
      modifies this`piOut, this`machines, sm`pushes
      ensures Valid()
      ensures piOut == old(piOut) + Responses(old(sm.pushes), PAP_CAPABILITIES_MISMATCH, now)
      ensures sm.pushes == []
      ensures machines == if old(sm.pushes) == [] then old(machines) else RemoveSession(old(machines), sm) + [sm]
    {
      ghost var ps := sm.pushes;
      ghost var k := 0;
      while |sm.pushes| > 0
        invariant Valid() && sm in machines
        invariant 0 <= k <= |ps| && sm.pushes == ps[k..]
        invariant piOut == old(piOut) + Responses(ps[..k], PAP_CAPABILITIES_MISMATCH, now)
        invariant machines == if k == 0 then old(machines) else RemoveSession(old(machines), sm) + [sm]
        decreases |sm.pushes|
      {
        AbortStep(sm, now, ps, k, old(piOut), old(machines));
        k := k + 1;
      }
      assert ps[..k] == ps;
    }

    /**
     * One unconfirmed push `x` of deliver_pending_pushes, with the pushes
     * `a` before it and `b` after it: a push request goes to OTA, the push
     * is marked delivered (which moves it and the session to the back) and
     * removed.
     */
    method DeliverUnconfirmed(sm: SessionMachine, i: nat, now: Tm,
                              ghost a: seq<PushMachine>, ghost x: PushMachine, ghost b: seq<PushMachine>)
      requires Valid() && sm in machines && sm.pushes == a + [x] + b && i == |a|
      requires x.deliveryMethod == Unconfirmed
      modifies this`otaOut, this`machines, sm`pushes
      ensures Valid()
      ensures otaOut == old(otaOut) + [PushReq(NOT_LAST, x)]
      ensures sm.pushes == a + b
      ensures machines == RemoveSession(old(machines), sm) + [sm]
    {
      var pm := sm.pushes[i];
      assert pm == x;
      DispatchToOta(PushReq(NOT_LAST, pm));
      var qm := UpdatePushDataWithAttribute(sm, pm, 0, Delivered1, now);
      RemoveMiddle(a, pm, b, qm);
      RemovePushData(sm, qm, false);
    }

    /**
     * One round of the deliver_pending_pushes loop, stated against the
     * session's push list `ps` as it was when the loop started: j pushes
     * of it have been handled, the unconfirmed ones among them are gone.
     */
    method DeliverStep(sm: SessionMachine, i: nat, now: Tm, ghost ps: seq<PushMachine>, ghost j: nat,
                       ghost o0: seq<OtaRequest>, ghost m0: seq<SessionMachine>)
      returns (i': nat)
      requires Valid() && sm in machines
      requires j < |ps| && sm.pushes == Kept(ps[..j]) + ps[j..] && i == |Kept(ps[..j])|
      requires otaOut == o0 + DeliveryRequests(ps[..j], sm.sessionId)
      requires machines == if AnyUnconfirmed(ps[..j]) then RemoveSession(m0, sm) + [sm] else m0
      modifies this`otaOut, this`machines, sm`pushes
      ensures Valid() && sm in machines
      ensures sm.pushes == Kept(ps[..j + 1]) + ps[j + 1..] && i' == |Kept(ps[..j + 1])|
      ensures otaOut == o0 + DeliveryRequests(ps[..j + 1], sm.sessionId)
      ensures machines == if AnyUnconfirmed(ps[..j + 1]) then RemoveSession(m0, sm) + [sm] else m0
    {
      SplitAt(Kept(ps[..j]), ps, j);
      if sm.pushes[i].deliveryMethod == Unconfirmed {
        DeliverUnconfirmedStep(sm, i, now, ps, j, o0, m0);
        i' := i;
      } else {
        DeliverConfirmedStep(sm, i, ps, j, o0);
        i' := i + 1;
      }
    }

    /** DeliverStep for an unconfirmed push: it leaves the list. */
    method DeliverUnconfirmedStep(sm: SessionMachine, i: nat, now: Tm, ghost ps: seq<PushMachine>, ghost j: nat,
                                  ghost o0: seq<OtaRequest>, ghost m0: seq<SessionMachine>)
      requires Valid() && sm in machines
      requires j < |ps| && sm.pushes == Kept(ps[..j]) + ps[j..] && i == |Kept(ps[..j])|
      requires ps[j].deliveryMethod == Unconfirmed
      requires otaOut == o0 + DeliveryRequests(ps[..j], sm.sessionId)
      requires machines == if AnyUnconfirmed(ps[..j]) then RemoveSession(m0, sm) + [sm] else m0
      modifies this`otaOut, this`machines, sm`pushes
      ensures Valid() && sm in machines
      ensures sm.pushes == Kept(ps[..j + 1]) + ps[j + 1..] && i == |Kept(ps[..j + 1])|
      ensures otaOut == o0 + DeliveryRequests(ps[..j + 1], sm.sessionId)
      ensures machines == RemoveSession(m0, sm) + [sm] && AnyUnconfirmed(ps[..j + 1])
    {
      KeptStep(o0, ps, j, sm.sessionId);
      DeliverUnconfirmed(sm, i, now, Kept(ps[..j]), ps[j], ps[j + 1..]);
      MoveSessionTwice(m0, sm);
    }

    /** DeliverStep for a confirmed push: it is sent and stays queued. */
    method DeliverConfirmedStep(sm: SessionMachine, i: nat, ghost ps: seq<PushMachine>, ghost j: nat,
                                ghost o0: seq<OtaRequest>)
      requires j < |ps| && sm.pushes == Kept(ps[..j]) + ps[j..] && i == |Kept(ps[..j])|
      requires ps[j].deliveryMethod != Unconfirmed
      requires otaOut == o0 + DeliveryRequests(ps[..j], sm.sessionId)
      modifies this`otaOut
      ensures sm.pushes == Kept(ps[..j + 1]) + ps[j + 1..] && i + 1 == |Kept(ps[..j + 1])|
      ensures otaOut == o0 + DeliveryRequests(ps[..j + 1], sm.sessionId)
      ensures AnyUnconfirmed(ps[..j + 1]) == AnyUnconfirmed(ps[..j])
    {
      KeptStep(o0, ps, j, sm.sessionId);
      DispatchToOta(ConfirmedPushReq(NOT_LAST, sm.pushes[i], sm.sessionId));
    }

    /**
     * deliver_pending_pushes: walk the session's push list once; each
     * unconfirmed push is sent with a push request, marked delivered and
     * dropped, each other push is sent with a confirmed push request and
     * stays queued until the client confirms it. The session moves to the
     * back of ppg_machines when an unconfirmed push was delivered.
     */
    method DeliverPendingPushes(sm: SessionMachine, now: Tm)
      requires Valid() && sm in machines
      modifies this`otaOut, this`machines, sm`pushes
      ensures Valid()
      ensures otaOut == old(otaOut) + DeliveryRequests(old(sm.pushes), sm.sessionId)
      ensures sm.pushes == Kept(old(sm.pushes))
      ensures machines == if AnyUnconfirmed(old(sm.pushes)) then RemoveSession(old(machines), sm) + [sm]
                          else old(machines)
    {
      ghost var ps := sm.pushes;
      ghost var j := 0;
      var i := 0;
      assert ps[..0] == [];
      while i < |sm.pushes|
        invariant Valid() && sm in machines
        invariant j <= |ps| && sm.pushes == Kept(ps[..j]) + ps[j..] && i == |Kept(ps[..j])|
        invariant otaOut == old(otaOut) + DeliveryRequests(ps[..j], sm.sessionId)
        invariant machines == if AnyUnconfirmed(ps[..j]) then RemoveSession(old(machines), sm) + [sm]
                              else old(machines)
        decreases |ps| - j
      {
        i := DeliverStep(sm, i, now, ps, j, old(otaOut), old(machines));
        j := j + 1;
      }
      assert ps[..j] == ps;
    }

    /**
     * The common tail of the rejections in handle_push_message: the push
     * leaves its list and a session left without pushes is dropped.
     */
    method DropPush(sm: SessionMachine?, pm: PushMachine)
      requires Valid() && (sm != null ==> sm in machines)
      modifies Self(sm == null)`unitPushes, Self(sm != null)`machines, Opt(sm)`pushes
      ensures Valid()
      ensures Scope(sm) == Without(old(Scope(sm)), pm.pushId)
      ensures sm != null ==> machines == if sm.pushes == [] then RemoveSession(old(machines), sm) else old(machines)
    {
      RemovePushData(sm, pm, sm == null);
      if sm != null {
        RemovePushlessSession(sm);
      }
    }

    /**
     * Answer the initiator about the push at the back of its list with
     * `code`, then drop it (the duplicate-push-id rejection, and the end of
     * every other one).
     */
    method RespondAndDrop(sm: SessionMachine?, pm: PushMachine, code: int, now: Tm, ghost w: seq<PushMachine>)
      requires Valid() && (sm != null ==> sm in machines)
      requires Scope(sm) == w + [pm] && pm.pushId !in PushIds(w)
      modifies this`piOut, Self(sm == null)`unitPushes, Self(sm != null)`machines, Opt(sm)`pushes
      ensures Valid()
      ensures piOut == old(piOut) + [Response(pm, code, now)]
      ensures Scope(sm) == w
      ensures sm != null ==> machines == if w == [] then RemoveSession(old(machines), sm) else old(machines)
    {
      ResponsePushMessage(pm, code, now);
      AppendedThenDeleted(w, pm, pm);
      DropPush(sm, pm);
    }

    /**
     * A rejection after the checks of handle_push_message: the push is
     * given its final attribute, the initiator is answered with `code`, and
     * the push is dropped.
     */
    method Reject(sm: SessionMachine?, pm: PushMachine, reason: int, status: Status, code: int, now: Tm)
      requires Valid() && pm.pushId < pushIdCounter && (sm != null ==> sm in machines)
      modifies this`piOut, Self(sm == null)`unitPushes, Self(sm != null)`machines, Opt(sm)`pushes
      ensures Valid()
      ensures piOut == old(piOut) + [Response(pm, code, now)]
      ensures Scope(sm) == Without(old(Scope(sm)), pm.pushId)
      ensures sm != null ==> machines == RemoveSession(old(machines), sm) + (if sm.pushes == [] then [] else [sm])
    {
      var qm := UpdatePushDataWithAttribute(sm, pm, reason, status, now);
      ghost var w := Without(old(Scope(sm)), pm.pushId);
      WithoutIds(old(Scope(sm)), pm.pushId);
      RespondAndDrop(sm, qm, code, now, w);
      if sm != null {
        RemoveSessionMoved(old(machines), sm);
      }
    }

    /**
     * The accepted end of handle_push_message: the initiator is told the
     * push is accepted; unless it is too early, the push is delivered.
     */
    method Accept(sm: SessionMachine?, pm: PushMachine, e: PushMessage, tc: TimeConstraint, now: Tm,
                  ghost s: seq<PushMachine>)
      requires Valid() && pm.pushId < pushIdCounter && (sm != null ==> sm in machines)
      requires Scope(sm) == s + [pm] && pm.pushId !in PushIds(s)
      modifies this`piOut, this`otaOut, Self(sm == null)`unitPushes, Self(sm != null)`machines, Opt(sm)`pushes
      ensures Valid()
      ensures piOut == old(piOut) + [Response(pm, PAP_ACCEPTED_FOR_PROCESSING, now)]
      ensures tc != NoConstraints ==>
                otaOut == old(otaOut) && Scope(sm) == s + [pm] && (sm != null ==> machines == old(machines))
      ensures tc == NoConstraints && !ConfirmationRequested(e) ==>
                otaOut == old(otaOut) + [UnitPushReq(NOT_LAST, pm)] && Scope(sm) == s &&
                (sm != null ==> machines == RemoveSession(old(machines), sm) + [sm])
      ensures tc == NoConstraints && ConfirmationRequested(e) ==>
                otaOut == old(otaOut) + [SessionRequestReq(SessionRequestEvent(e), pm)] &&
                Scope(sm) == s + [pm] && (sm != null ==> machines == old(machines))
    {
      ResponsePushMessage(pm, PAP_ACCEPTED_FOR_PROCESSING, now);
      if tc == NoConstraints {
        Deliver(sm, pm, e, now, s);
      }
    }

    /**
     * Delivery of an accepted push without time constraints: the push is
     * put at the back of the session's list again; without confirmation it
     * goes out as a unit push and is dropped, with confirmation a session
     * is requested from the client (handle_push_message never has a
     * session to use at this point).
     */
    method Deliver(sm: SessionMachine?, pm: PushMachine, e: PushMessage, now: Tm, ghost s: seq<PushMachine>)
      requires Valid() && pm.pushId < pushIdCounter && (sm != null ==> sm in machines)
      requires Scope(sm) == s + [pm] && pm.pushId !in PushIds(s)
      modifies this`otaOut, Self(sm == null)`unitPushes, Self(sm != null)`machines, Opt(sm)`pushes
      ensures Valid()
      ensures !ConfirmationRequested(e) ==>
                otaOut == old(otaOut) + [UnitPushReq(NOT_LAST, pm)] && Scope(sm) == s &&
                (sm != null ==> machines == RemoveSession(old(machines), sm) + [sm])
      ensures ConfirmationRequested(e) ==>
                otaOut == old(otaOut) + [SessionRequestReq(SessionRequestEvent(e), pm)] &&
                Scope(sm) == s + [pm] && (sm != null ==> machines == old(machines))
    {
      AppendedThenDeleted(s, pm, pm);
      if sm != null {
        UpdateSessionDataWithHeaders(sm, pm);
      }
      if !ConfirmationRequested(e) {
        DeliverNow(sm, pm, now, s);
      } else {
        DispatchToOta(SessionRequestReq(SessionRequestEvent(e), pm));
      }
    }

    /** An unconfirmed push delivered at once: deliver_unit_push, then the push is dropped. */
    method DeliverNow(sm: SessionMachine?, pm: PushMachine, now: Tm, ghost s: seq<PushMachine>)
      requires Valid() && pm.pushId < pushIdCounter && (sm != null ==> sm in machines)
      requires Scope(sm) == s + [pm] && pm.pushId !in PushIds(s)
      modifies this`otaOut, Self(sm == null)`unitPushes, Self(sm != null)`machines, Opt(sm)`pushes
      ensures Valid()
      ensures otaOut == old(otaOut) + [UnitPushReq(NOT_LAST, pm)] && Scope(sm) == s
      ensures sm != null ==> machines == RemoveSession(old(machines), sm) + [sm]
    {
      var qm := DeliverUnitPush(sm, pm, false, now);
      AppendedThenDeleted(s, pm, qm);
      RemovePushData(sm, qm, sm == null);
    }

    /**
     * The outboxes and the push list `s` (the list before the push was
     * stored) once plan `p` is carried out: one response with the verdict's
     * code, the plan's OTA request if any, and the push still queued
     * (pending) exactly when it waits or a session was requested.
     */
    ghost predicate Carried(p: Plan, sm: SessionMachine?, s: seq<PushMachine>, now: Tm,
                            o0: seq<OtaRequest>, r0: seq<PushResponse>)
      reads this, Opt(sm)
    {
      piOut == r0 + [Response(p.pm, p.verdict.code, now)] &&
      otaOut == o0 + (if p.request.Some? then [p.request.value] else []) &&
      Scope(sm) == if p.verdict.fate == Waiting || p.verdict.fate == SessionRequested then s + [p.pm] else s
    }

    /**
     * handle_push_message: a push submission from the push initiator. The
     * client's session is looked up by its PI address; a push that cannot go
     * connectionless gets a session machine made for it. The push is then
     * stored, checked and answered as Intake decides, and `sm` is the
     * session it was stored under (null for a connectionless push). The
     * handler's return value is `r`.
     */
    method HandlePushMessage(e: PushMessage, now: Tm, toAppId: string -> int,
                             contentType: Headers -> Option<(string, string)>, comp: Compilers)
      returns (r: int, ghost sm: SessionMachine?)
      requires Valid() && PushesPending()
      modifies this`machines, this`unitPushes, this`pushIdCounter, this`otaOut, this`piOut,
               Opt(SessionFindUsingPiClientAddress(e.addressValue))`pushes
      ensures Valid() && PushesPending() && pushIdCounter == old(pushIdCounter) + 1
      ensures var f := old(SessionFindUsingPiClientAddress(e.addressValue));
              var p := Intake(e, f != null, old(ScopeOf(e)), old(pushIdCounter), now, toAppId, contentType, comp);
              r == p.verdict.ret && (sm == null <==> p.cless) &&
              (f != null ==> sm == f) && (f == null && sm != null ==> fresh(sm)) &&
              Carried(p, sm, old(ScopeOf(e)), now, old(otaOut), old(piOut))
      ensures sm == null ==> machines == old(machines)
      ensures sm != null ==> unitPushes == old(unitPushes)
      ensures var f := old(SessionFindUsingPiClientAddress(e.addressValue));
              var p := Intake(e, f != null, old(ScopeOf(e)), old(pushIdCounter), now, toAppId, contentType, comp);
              sm != null ==>
                machines == if HasPiPushId(old(ScopeOf(e)), e.piPushId) then old(machines) + [sm]
                            else RemoveSession(old(machines), sm) +
                                 if p.verdict.fate == Dropped && sm.pushes == [] then [] else [sm]
    {
      var found := SessionFindUsingPiClientAddress(e.addressValue);
      var cless := ClessAccepted(e, found != null);
      var tr := TransformMessage(e, cless, toAppId, contentType, comp);
      var session := found;
      if found == null && !cless {
        session := StoreSessionData(tr.tuple, tr.e);
        RemoveSessionAbsent(old(machines), session);
      }
      r := Submit(session, tr, cless, now, Scope(session));
      if found == null && !cless {
        RemoveSessionSnoc(old(machines), session);
      }
      sm := session;
    }

    /**
     * handle_push_message once the session is settled: store the push,
     * answer a duplicate PI push id at once, and carry out the checks on any
     * other push. `s` is the push list the push goes to. A push left queued
     * is pending, so every registered push still is.
     */
    method Submit(sm: SessionMachine?, tr: Transformed, cless: bool, now: Tm, ghost s: seq<PushMachine>)
      returns (r: int)
      requires Valid() && PushesPending() && (cless <==> sm == null) && (sm != null ==> sm in machines) &&
               Scope(sm) == s
      modifies this`pushIdCounter, this`piOut, this`otaOut, Self(cless)`unitPushes, Self(!cless)`machines,
               Opt(sm)`pushes
      ensures Valid() && PushesPending() && pushIdCounter == old(pushIdCounter) + 1
      ensures var p := Assess(cless, tr, NewPushMachine(tr.e, tr.tuple, old(pushIdCounter)),
                              HasPiPushId(s, tr.e.piPushId), now);
              r == p.verdict.ret && Carried(p, sm, s, now, old(otaOut), old(piOut)) &&
              (sm != null ==> machines == if HasPiPushId(s, tr.e.piPushId) then old(machines) + [sm]
                                          else RemoveSession(old(machines), sm) +
                                               if p.verdict.fate == Dropped && sm.pushes == [] then [] else [sm])
    {
      r := StoreAndCheck(sm, tr, cless, now, s);
      AssessPending(cless, tr, NewPushMachine(tr.e, tr.tuple, old(pushIdCounter)), HasPiPushId(s, tr.e.piPushId), now);
      PendingAfter(sm);
    }

    /** The body of Submit: the push is stored, then answered as a duplicate or checked. */
    method StoreAndCheck(sm: SessionMachine?, tr: Transformed, cless: bool, now: Tm, ghost s: seq<PushMachine>)
      returns (r: int)
      requires Valid() && (cless <==> sm == null) && (sm != null ==> sm in machines) && Scope(sm) == s
      modifies this`pushIdCounter, this`piOut, this`otaOut, Self(cless)`unitPushes, Self(!cless)`machines,
               Opt(sm)`pushes
      ensures Valid() && pushIdCounter == old(pushIdCounter) + 1
      ensures var p := Assess(cless, tr, NewPushMachine(tr.e, tr.tuple, old(pushIdCounter)),
                              HasPiPushId(s, tr.e.piPushId), now);
              r == p.verdict.ret && Carried(p, sm, s, now, old(otaOut), old(piOut)) &&
              (sm != null ==> machines == if HasPiPushId(s, tr.e.piPushId) then old(machines) + [sm]
                                          else RemoveSession(old(machines), sm) +
                                               if p.verdict.fate == Dropped && sm.pushes == [] then [] else [sm])
    {
      var ok, pm := StorePushData(sm, tr.e, tr.tuple, cless);
      if !ok {
        RespondAndDrop(sm, pm, PAP_DUPLICATE_PUSH_ID, now, s);
        r := 1;
      } else {
        r := ProcessStored(sm, pm, tr, now, s);
        if sm != null {
          RemoveSessionSnoc(old(machines), sm);
        }
      }
    }

    /**
     * Every registered push is still pending when the only push list that
     * changed is that of `sm`, which may be new, and it holds pending
     * pushes only.
     */
    twostate lemma PendingAfter(sm: SessionMachine?)
      requires old(PushesPending())
      requires AllPending(Scope(sm)) && (sm != null ==> unitPushes == old(unitPushes))
      requires forall m :: m in machines ==> m in old(machines) || m == sm
      requires forall m :: m in old(machines) && m != sm ==> m.pushes == old(m.pushes)
      ensures PushesPending()
    {
    }

    /**
     * handle_push_message from the stored push `pm0` on: a failed
     * transformation is rejected, otherwise the push turns pending and the
     * remaining checks decide.
     */
    method ProcessStored(sm: SessionMachine?, pm0: PushMachine, tr: Transformed, now: Tm, ghost s: seq<PushMachine>)
      returns (r: int)
      requires Valid() && pm0.pushId < pushIdCounter && (sm != null ==> sm in machines)
      requires Scope(sm) == s + [pm0] && pm0.pushId !in PushIds(s)
      modifies this`piOut, this`otaOut, Self(sm == null)`unitPushes, Self(sm != null)`machines, Opt(sm)`pushes
      ensures Valid()
      ensures var p := Assess(sm == null, tr, pm0, false, now);
              r == p.verdict.ret && Carried(p, sm, s, now, old(otaOut), old(piOut)) &&
              (sm != null ==> machines == RemoveSession(old(machines), sm) +
                                          if p.verdict.fate == Dropped && sm.pushes == [] then [] else [sm])
    {
      if !tr.ok {
        r := RejectUntransformed(sm, pm0, tr, now, s);
      } else {
        r := ProcessTransformed(sm, pm0, tr, now, s);
      }
    }

    /** The transformation failed: the push is answered and dropped. */
    method RejectUntransformed(sm: SessionMachine?, pm0: PushMachine, tr: Transformed, now: Tm, ghost s: seq<PushMachine>)
      returns (r: int)
      requires Valid() && pm0.pushId < pushIdCounter && (sm != null ==> sm in machines)
      requires Scope(sm) == s + [pm0] && pm0.pushId !in PushIds(s)
      requires !tr.ok
      modifies this`piOut, this`otaOut, Self(sm == null)`unitPushes, Self(sm != null)`machines, Opt(sm)`pushes
      ensures Valid()
      ensures var p := Assess(sm == null, tr, pm0, false, now);
              r == p.verdict.ret && Carried(p, sm, s, now, old(otaOut), old(piOut)) &&
              (sm != null ==> machines == RemoveSession(old(machines), sm) +
                                          if p.verdict.fate == Dropped && sm.pushes == [] then [] else [sm])
    {
      var code := if tr.tuple.Some? then PAP_TRANSFORMATION_FAILURE else PAP_ADDRESS_ERROR;
      Reject(sm, pm0, PAP_TRANSFORMATION_FAILURE, Undeliverable1, code, now);
      AppendedThenDeleted(s, pm0, pm0);
      r := 0;
    }

    /** The transformation succeeded: the push becomes pending and is judged. */
    method ProcessTransformed(sm: SessionMachine?, pm0: PushMachine, tr: Transformed, now: Tm, ghost s: seq<PushMachine>)
      returns (r: int)
      requires Valid() && pm0.pushId < pushIdCounter && (sm != null ==> sm in machines)
      requires Scope(sm) == s + [pm0] && pm0.pushId !in PushIds(s)
      requires tr.ok
      modifies this`piOut, this`otaOut, Self(sm == null)`unitPushes, Self(sm != null)`machines, Opt(sm)`pushes
      ensures Valid()
      ensures var p := Assess(sm == null, tr, pm0, false, now);
              r == p.verdict.ret && Carried(p, sm, s, now, old(otaOut), old(piOut)) &&
              (sm != null ==> machines == RemoveSession(old(machines), sm) +
                                          if p.verdict.fate == Dropped && sm.pushes == [] then [] else [sm])
    {
      var pm := MarkPending(sm, pm0, now, s);
      var bc := SelectBearer(tr.e);
      var tc := DeliveryTimeConstraints(bc.e.deliverBefore, pm.deliverAfter, now);
      r := Conclude(sm, pm, tr, bc, tc, now, s, old(machines));
    }

    /** The stored push `pm0` turns pending, in place. */
    method MarkPending(sm: SessionMachine?, pm0: PushMachine, now: Tm, ghost s: seq<PushMachine>)
      returns (pm: PushMachine)
      requires Valid() && pm0.pushId < pushIdCounter && (sm != null ==> sm in machines)
      requires Scope(sm) == s + [pm0] && pm0.pushId !in PushIds(s)
      modifies Self(sm == null)`unitPushes, Self(sm != null)`machines, Opt(sm)`pushes
      ensures Valid() && pm.pushId < pushIdCounter && (sm != null ==> sm in machines)
      ensures pm == ApplyStatus(pm0, 0, PendingStatus, now)
      ensures Scope(sm) == s + [pm] && pm.pushId !in PushIds(s)
      ensures sm != null ==> machines == RemoveSession(old(machines), sm) + [sm]
    {
      pm := UpdatePushDataWithAttribute(sm, pm0, 0, PendingStatus, now);
      AppendedThenDeleted(s, pm0, pm);
    }

    /**
     * handle_push_message for a pending push, once the bearer decision `bc`
     * and the time constraint `tc` are known: reject, wait, or deliver, as
     * plan `p` says.
     */
    method Conclude(sm: SessionMachine?, pm: PushMachine, tr: Transformed, bc: BearerChoice, tc: TimeConstraint,
                    now: Tm, ghost s: seq<PushMachine>, ghost m1: seq<SessionMachine>)
      returns (r: int)
      requires Valid() && pm.pushId < pushIdCounter && (sm != null ==> sm in machines)
      requires Scope(sm) == s + [pm] && pm.pushId !in PushIds(s)
      requires sm != null ==> machines == RemoveSession(m1, sm) + [sm]
      requires tr.ok
      modifies this`piOut, this`otaOut, Self(sm == null)`unitPushes, Self(sm != null)`machines, Opt(sm)`pushes
      ensures Valid()
      ensures var p := Judge(sm == null, tr, bc, tc, pm, false);
              r == p.verdict.ret && Carried(p, sm, s, now, old(otaOut), old(piOut)) &&
              (sm != null ==> machines == RemoveSession(m1, sm) +
                                          if p.verdict.fate == Dropped && sm.pushes == [] then [] else [sm])
    {
      AppendedThenDeleted(s, pm, pm);
      if sm != null {
        RemoveSessionMoved(m1, sm);
        MoveSessionTwice(m1, sm);
      }
      if !bc.supported {
        Reject(sm, pm, 0, Undeliverable2, PAP_REQUIRED_BEARER_NOT_AVAILABLE, now);
        return 1;
      }
      if tc == TimeExpired {
        Reject(sm, pm, PAP_FORBIDDEN, ExpiredStatus, PAP_FORBIDDEN, now);
        return 1;
      }
      Accept(sm, pm, bc.e, tc, now, s);
      r := 1;
    }

    /** The session machine an indication from OTA is about, null for none. */
    function Target(ind: Indication): (r: SessionMachine?)
      reads this, machines
      ensures r != null ==> r in machines
    {
      match ind
      case PomConnectInd(_, tuple, _) => HavePushSessionFor(tuple)
      case PomDisconnectInd(h) => HavePushSessionForSid(h)
      case PoConfirmedPushCnf(h, _) => HavePushSessionForSid(h)
      case PoPushAbortInd(h, _, _) => HavePushSessionForSid(h)
      case OtherIndication => null
    }

    /**
     * Whether handle_internal_event dereferences NULL on `ind`: a connect,
     * disconnect, confirmation or abort for which no session machine is
     * found, and a confirmation or abort naming a push id the session does
     * not hold.
     */
    function Crashes(ind: Indication): bool
      reads this, machines
    {
      var sm := Target(ind);
      match ind
      case PoConfirmedPushCnf(_, pid) => sm == null || pid < 0 || FindByPid(sm.pushes, pid as nat).None?
      case PoPushAbortInd(_, pid, _) => sm == null || pid < 0 || FindByPid(sm.pushes, pid as nat).None?
      case OtherIndication => false
      case _ => sm == null
    }

    /** The fields of session machine `sm` other than its push list are as they were. */
    twostate predicate SessionKept(sm: SessionMachine)
      reads sm
    {
      sm.sessionId == old(sm.sessionId) && sm.addrTuple == old(sm.addrTuple) && sm.clientCaps == old(sm.clientCaps)
    }

    /**
     * The effect of a connect indication on its session `sm`: the session
     * gets the WSP session id, the client's port and capabilities and moves
     * to the back; unless the PI assumed capabilities the client lacks, the
     * connection is confirmed and the pending pushes are delivered, otherwise
     * every pending push is answered as a capabilities mismatch.
     */
    twostate predicate Connected(sm: SessionMachine, sid: int, tuple: AddrTuple, caps: Caps, now: Tm,
                                 capable: (Caps, Caps) -> bool)
      reads this, sm
    {
      old(sm.addrTuple).Some? &&
      sm.sessionId == sid && sm.clientCaps == Some(caps) &&
      sm.addrTuple == Some(old(sm.addrTuple).value.(remotePort := tuple.remotePort)) &&
      machines == RemoveSession(old(machines), sm) + [sm] &&
      if sm.assumedCaps.None? || capable(caps, sm.assumedCaps.value) then
        applOut == old(applOut) + [PomConnectRes(caps, sid)] && piOut == old(piOut) &&
        otaOut == old(otaOut) + DeliveryRequests(old(sm.pushes), sid) && sm.pushes == Kept(old(sm.pushes))
      else
        applOut == old(applOut) && otaOut == old(otaOut) &&
        piOut == old(piOut) + Responses(old(sm.pushes), PAP_CAPABILITIES_MISMATCH, now) && sm.pushes == []
    }

    /**
     * The effect of a disconnect indication on its session `sm`: every
     * queued push is answered with the user-pending abort code, in order,
     * and the session leaves the registry.
     */
    twostate predicate Disconnected(sm: SessionMachine, now: Tm)
      reads this, sm
    {
      piOut == old(piOut) + Responses(old(sm.pushes), PAP_ABORT_USERPND, now) &&
      otaOut == old(otaOut) && applOut == old(applOut) && SessionKept(sm) &&
      sm.pushes == [] && machines == RemoveSession(old(machines), sm) && sm !in machines
    }

    /**
     * The effect of a push confirmation on its session `sm`: the confirmed
     * push `pid`, which the session held, leaves its list, and the session
     * moves to the back; nothing is sent.
     */
    twostate predicate Confirmed(sm: SessionMachine, pid: int)
      reads this, sm
    {
      pid >= 0 && pid in PushIds(old(sm.pushes)) &&
      sm.pushes == Without(old(sm.pushes), pid) && machines == RemoveSession(old(machines), sm) + [sm] &&
      piOut == old(piOut) && otaOut == old(otaOut) && applOut == old(applOut) && SessionKept(sm)
    }

    /**
     * The effect of a push abort on its session `sm`: push `pid`, which the
     * session held, is marked aborted with the client's reason and moved to
     * the back of the list; then every push of the list is answered with the
     * user-pending abort code and the session leaves the registry.
     */
    twostate predicate AbortedPush(sm: SessionMachine, pid: int, reason: int, now: Tm)
      reads this, sm
    {
      pid >= 0 && pid in PushIds(old(sm.pushes)) &&
      piOut == old(piOut) +
               Responses(Without(old(sm.pushes), pid) +
                         [ApplyStatus(FindByPid(old(sm.pushes), pid).value, reason, AbortedStatus, now)],
                         PAP_ABORT_USERPND, now) &&
      otaOut == old(otaOut) && applOut == old(applOut) && SessionKept(sm) &&
      sm.pushes == [] && machines == RemoveSession(old(machines), sm) && sm !in machines
    }

    /**
     * handle_internal_event: dispatch an indication from the OTA layer.
     * Only the machine the indication names changes; an unhandled kind of
     * event, and an indication that would dereference NULL, change nothing.
     * A push still queued afterwards was queued before, so every registered
     * push stays pending.
     */
    method HandleInternalEvent(ind: Indication, now: Tm, capable: (Caps, Caps) -> bool) returns (o: Outcome)
      requires Valid() && PushesPending()
      modifies this`machines, this`piOut, this`otaOut, this`applOut,
               Opt(Target(ind))`pushes, Opt(Target(ind))`sessionId, Opt(Target(ind))`addrTuple,
               Opt(Target(ind))`clientCaps
      ensures Valid() && PushesPending()
      ensures o == Crashed <==> old(Crashes(ind))
      ensures o == Crashed || ind.OtherIndication? ==>
                machines == old(machines) && piOut == old(piOut) && otaOut == old(otaOut) && applOut == old(applOut)
      ensures var sm := old(Target(ind));
              o == Crashed && sm != null ==> sm.pushes == old(sm.pushes) && SessionKept(sm)
      ensures var sm := old(Target(ind));
              o == Handled && !ind.OtherIndication? ==>
                sm != null &&
                match ind
                case PomConnectInd(sid, tuple, caps) => Connected(sm, sid, tuple, caps, now, capable)
                case PomDisconnectInd(_) => Disconnected(sm, now)
                case PoConfirmedPushCnf(_, pid) => Confirmed(sm, pid)
                case PoPushAbortInd(_, pid, reason) => AbortedPush(sm, pid, reason, now)
                case OtherIndication => true
    {
      o := Dispatch(ind, now, capable);
      ghost var sm := old(Target(ind));
      if sm != null {
        KeptPending(old(sm.pushes));
      }
      PendingAfter(sm);
    }

    /** The body of HandleInternalEvent: each kind of indication goes to its handler. */
    method Dispatch(ind: Indication, now: Tm, capable: (Caps, Caps) -> bool) returns (o: Outcome)
      requires Valid()
      modifies this`machines, this`piOut, this`otaOut, this`applOut,
               Opt(Target(ind))`pushes, Opt(Target(ind))`sessionId, Opt(Target(ind))`addrTuple,
               Opt(Target(ind))`clientCaps
      ensures Valid()
      ensures o == Crashed <==> old(Crashes(ind))
      ensures o == Crashed || ind.OtherIndication? ==>
                machines == old(machines) && piOut == old(piOut) && otaOut == old(otaOut) && applOut == old(applOut)
      ensures var sm := old(Target(ind));
              o == Crashed && sm != null ==> sm.pushes == old(sm.pushes) && SessionKept(sm)
      ensures var sm := old(Target(ind));
              o == Handled && !ind.OtherIndication? ==>
                sm != null &&
                match ind
                case PomConnectInd(sid, tuple, caps) => Connected(sm, sid, tuple, caps, now, capable)
                case PomDisconnectInd(_) => Disconnected(sm, now)
                case PoConfirmedPushCnf(_, pid) => Confirmed(sm, pid)
                case PoPushAbortInd(_, pid, reason) => AbortedPush(sm, pid, reason, now)
                case OtherIndication => true
    {
      match ind {
        case PomConnectInd(sid, tuple, caps) => o := ConnectIndication(sid, tuple, caps, now, capable);
        case PomDisconnectInd(h) => o := DisconnectIndication(h, now);
        case PoConfirmedPushCnf(h, pid) => o := ConfirmedPushConfirmation(h, pid, now);
        case PoPushAbortInd(h, pid, reason) => o := PushAbortIndication(h, pid, reason, now);
        case OtherIndication => o := Handled;
      }
    }

    /**
     * Pom_Connect_Ind: the client opened the session the gateway asked for.
     * The session found by the client's remote address gets the WSP session
     * id, port and capabilities; unless the PI assumed capabilities the
     * client lacks, the connection is confirmed and the pending pushes are
     * delivered, otherwise every pending push is aborted.
     */
    method ConnectIndication(sid: int, tuple: AddrTuple, caps: Caps, now: Tm, capable: (Caps, Caps) -> bool)
      returns (o: Outcome)
      requires Valid()
      modifies this`machines, this`piOut, this`otaOut, this`applOut,
               Opt(HavePushSessionFor(tuple))`pushes, Opt(HavePushSessionFor(tuple))`sessionId,
               Opt(HavePushSessionFor(tuple))`addrTuple, Opt(HavePushSessionFor(tuple))`clientCaps
      ensures Valid()
      ensures o == Crashed <==> old(HavePushSessionFor(tuple)) == null
      ensures o == Crashed ==>
                machines == old(machines) && piOut == old(piOut) && otaOut == old(otaOut) && applOut == old(applOut)
      ensures var sm := old(HavePushSessionFor(tuple));
              sm != null ==> Connected(sm, sid, tuple, caps, now, capable)
    {
      var sm := HavePushSessionFor(tuple);
      if sm == null {
        return Crashed;
      }
      ConnectSession(sm, sid, tuple.remotePort, caps, now, capable);
      o := Handled;
    }

    /** The connect indication once its session machine `sm` is found. */
    method ConnectSession(sm: SessionMachine, sid: int, port: int, caps: Caps, now: Tm,
                          capable: (Caps, Caps) -> bool)
      requires Valid() && sm in machines && sm.addrTuple.Some?
      modifies this`machines, this`piOut, this`otaOut, this`applOut, sm`pushes, sm`sessionId, sm`addrTuple,
               sm`clientCaps
      ensures Valid()
      ensures sm.sessionId == sid && sm.clientCaps == Some(caps) &&
              sm.addrTuple == Some(old(sm.addrTuple.value).(remotePort := port)) &&
              machines == RemoveSession(old(machines), sm) + [sm]
      ensures sm.assumedCaps.None? || capable(caps, sm.assumedCaps.value) ==>
                applOut == old(applOut) + [PomConnectRes(caps, sid)] && piOut == old(piOut) &&
                otaOut == old(otaOut) + DeliveryRequests(old(sm.pushes), sid) && sm.pushes == Kept(old(sm.pushes))
      ensures !(sm.assumedCaps.None? || capable(caps, sm.assumedCaps.value)) ==>
                applOut == old(applOut) && otaOut == old(otaOut) &&
                piOut == old(piOut) + Responses(old(sm.pushes), PAP_CAPABILITIES_MISMATCH, now) && sm.pushes == []
    {
      UpdateSessionData(sm, sid, port, caps);
      var ok := ResponsePushConnection(sid, caps, sm, capable);
      SettlePushes(sm, ok, now, old(machines));
    }

    /**
     * The end of the connect indication: with a capable client the pending
     * pushes are delivered, otherwise they are all aborted.
     */
    method SettlePushes(sm: SessionMachine, ok: bool, now: Tm, ghost m0: seq<SessionMachine>)
      requires Valid() && sm in machines && machines == RemoveSession(m0, sm) + [sm]
      modifies this`machines, this`piOut, this`otaOut, sm`pushes
      ensures Valid() && machines == RemoveSession(m0, sm) + [sm]
      ensures ok ==>
                piOut == old(piOut) && otaOut == old(otaOut) + DeliveryRequests(old(sm.pushes), sm.sessionId) &&
                sm.pushes == Kept(old(sm.pushes))
      ensures !ok ==>
                otaOut == old(otaOut) && piOut == old(piOut) + Responses(old(sm.pushes), PAP_CAPABILITIES_MISMATCH, now) &&
                sm.pushes == []
    {
      if !ok {
        AbortDelivery(sm, now);
      } else {
        DeliverPendingPushes(sm, now);
      }
      MoveSessionTwice(m0, sm);
    }

    /**
     * Pom_Disconnect_Ind: the session with this WSP session id is closed;
     * its pending pushes are answered with the user-pending abort code and
     * the session is dropped.
     */
    method DisconnectIndication(handle: int, now: Tm) returns (o: Outcome)
      requires Valid()
      modifies this`machines, this`piOut, Opt(HavePushSessionForSid(handle))`pushes
      ensures Valid()
      ensures o == Crashed <==> old(HavePushSessionForSid(handle)) == null
      ensures o == Crashed ==> machines == old(machines) && piOut == old(piOut)
      ensures var sm := old(HavePushSessionForSid(handle));
              sm != null ==> Disconnected(sm, now)
    {
      var sm := HavePushSessionForSid(handle);
      if sm == null {
        return Crashed;
      }
      RemoveSessionData(sm, now);
      o := Handled;
    }

    /**
     * Po_ConfirmedPush_Cnf: the client confirmed a push. The push is marked
     * delivered with confirmation (which moves the session to the back of
     * ppg_machines) and removed; the session stays open.
     */
    method ConfirmedPushConfirmation(handle: int, pid: int, now: Tm) returns (o: Outcome)
      requires Valid()
      modifies this`machines, Opt(HavePushSessionForSid(handle))`pushes
      ensures Valid()
      ensures var sm := old(HavePushSessionForSid(handle));
              o == Crashed <==> sm == null || pid < 0 || pid !in PushIds(old(sm.pushes))
      ensures o == Crashed ==> machines == old(machines)
      ensures var sm := old(HavePushSessionForSid(handle));
              o == Crashed && sm != null ==> sm.pushes == old(sm.pushes)
      ensures var sm := old(HavePushSessionForSid(handle));
              o == Handled ==> Confirmed(sm, pid)
    {
      var sm := HavePushSessionForSid(handle);
      if sm == null || pid < 0 {
        return Crashed;
      }
      var found := FindByPid(sm.pushes, pid);
      if found.None? {
        return Crashed;
      }
      ConfirmPush(sm, pid, found.value, now);
      o := Handled;
    }

    /** The confirmation once the session `sm` and its push `pm` with id `pid` are found. */
    method ConfirmPush(sm: SessionMachine, pid: nat, pm: PushMachine, now: Tm)
      requires Valid() && sm in machines && FindByPid(sm.pushes, pid) == Some(pm)
      modifies this`machines, sm`pushes
      ensures Valid()
      ensures sm.pushes == Without(old(sm.pushes), pid) && machines == RemoveSession(old(machines), sm) + [sm]
    {
      var qm := UpdatePushDataWithAttribute(sm, pm, 0, Delivered2, now);
      RemovePushData(sm, qm, false);
      AppendedThenDeleted(Without(old(sm.pushes), pid), qm, qm);
      WithoutIds(old(sm.pushes), pid);
    }

    /**
     * Po_PushAbort_Ind: the client aborted a push. The push is marked
     * aborted with the client's reason (which moves it to the back of the
     * session's list), then the whole session is removed as on a
     * disconnect, every push answered with the user-pending abort code.
     */
    method PushAbortIndication(handle: int, pid: int, reason: int, now: Tm) returns (o: Outcome)
      requires Valid()
      modifies this`machines, this`piOut, Opt(HavePushSessionForSid(handle))`pushes
      ensures Valid()
      ensures var sm := old(HavePushSessionForSid(handle));
              o == Crashed <==> sm == null || pid < 0 || pid !in PushIds(old(sm.pushes))
      ensures o == Crashed ==> machines == old(machines) && piOut == old(piOut)
      ensures var sm := old(HavePushSessionForSid(handle));
              o == Crashed && sm != null ==> sm.pushes == old(sm.pushes)
      ensures var sm := old(HavePushSessionForSid(handle));
              o == Handled ==> AbortedPush(sm, pid, reason, now)
    {
      var sm := HavePushSessionForSid(handle);
      if sm == null || pid < 0 {
        return Crashed;
      }
      var found := FindByPid(sm.pushes, pid);
      if found.None? {
        return Crashed;
      }
      AbortPush(sm, pid, found.value, reason, now);
      o := Handled;
    }

    /** The abort once the session `sm` and its push `pm` with id `pid` are found. */
    method AbortPush(sm: SessionMachine, pid: nat, pm: PushMachine, reason: int, now: Tm)
      requires Valid() && sm in machines && FindByPid(sm.pushes, pid) == Some(pm)
      modifies this`machines, this`piOut, sm`pushes
      ensures Valid()
      ensures piOut == old(piOut) + Responses(Without(old(sm.pushes), pid) + [ApplyStatus(pm, reason, AbortedStatus, now)],
                                              PAP_ABORT_USERPND, now)
      ensures sm.pushes == [] && machines == RemoveSession(old(machines), sm) && sm !in machines
    {
      var qm := UpdatePushDataWithAttribute(sm, pm, reason, AbortedStatus, now);
      RemoveSessionData(sm, now);
      RemoveSessionMoved(old(machines), sm);
    }
  }
}
