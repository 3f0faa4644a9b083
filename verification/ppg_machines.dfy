/**
 * The two state machines of the push proxy gateway (gw/wap_push_ppg.c) as
 * values: a push machine per push submission and a session machine per
 * client, together with the list operations the registries are built from
 * (search by push id and by PI push id, delete by push id), the PAP push
 * attribute update and the OTA requests the gateway builds from a push
 * machine.
 *
 * In the C code push machines are heap objects shared between a list and
 * the caller; here a push machine is a value named by its push id, which
 * the counter makes unique, so deleting "this machine" and deleting "the
 * machine with this push id" coincide.
 */
module PpgMachines {
  import opened Wrappers
  import opened Pap
  import opened HttpHeaders
  import opened PushTime
  import opened WapEvents
  import opened PpgPolicy
  import opened PpgContent

  /** The `last` argument of the OTA requests: the gateway never closes a session itself. */
  const NOT_LAST: int := 0

  /**
   * PPGPushMachine. Integer fields start at 0 and pointers at NULL, so a new
   * machine has session id 0, is neither authenticated nor trusted, and
   * carries no PAP attribute yet.
   */
  datatype PushMachine = PushMachine(
    pushId: nat,
    piPushId: string,
    sessionId: int,
    addrTuple: Option<AddrTuple>,
    deliveryMethod: DeliveryMethod,
    deliverAfter: Option<string>,
    priority: int,
    pushHeaders: Option<Headers>,
    pushData: Option<string>,
    networkRequired: bool,
    network: Option<string>,
    bearerRequired: bool,
    bearer: Option<string>,
    progressNotesRequested: bool,
    ppgNotifyRequestedTo: Option<string>,
    username: Option<string>,
    password: Option<string>,
    authenticated: int,
    trusted: int,
    messageState: MessageState,
    code: int,
    descCode: Option<int>,              // the code whose describe_code text the machine carries
    eventTime: Option<Tm>)

  /** push_machine_create: a machine for push message `e` with push id `pid`. */
  function NewPushMachine(e: PushMessage, tuple: Option<AddrTuple>, pid: nat): PushMachine {
    PushMachine(
      pid, e.piPushId, 0, tuple, e.deliveryMethod, e.deliverAfter, e.priority,
      e.pushHeaders, e.pushData,
      e.networkRequired, if e.networkRequired then e.network else None,
      e.bearerRequired, if e.bearerRequired then e.bearer else None,
      e.progressNotesRequested, if e.progressNotesRequested then e.ppgNotifyRequestedTo else None,
      e.username, e.password, 0, 0, Unset, 0, None, None)
  }

  /** The push ids held by a push list. */
  function PushIds(ps: seq<PushMachine>): (r: set<nat>)
    ensures forall pid :: pid in r <==> exists i :: 0 <= i < |ps| && ps[i].pushId == pid
  {
    set i | 0 <= i < |ps| :: ps[i].pushId
  }

  /** No push id occurs twice in a push list. */
  predicate Distinct(ps: seq<PushMachine>) {
    ps == [] || (ps[0].pushId !in PushIds(ps[1..]) && Distinct(ps[1..]))
  }

  /**
   * The shape every push list keeps: push ids below the counter (they were
   * handed out by it) and no push id twice.
   */
  predicate PushesOk(ps: seq<PushMachine>, counter: nat) {
    (forall p :: p in ps ==> p.pushId < counter) && Distinct(ps)
  }

  /**
   * list_delete_matching with push_has_pid (and list_delete_equal on a push
   * machine): every push with push id `pid` is dropped, the rest keep their
   * order.
   */
  function Without(ps: seq<PushMachine>, pid: nat): (r: seq<PushMachine>)
    ensures forall p :: p in r <==> p in ps && p.pushId != pid
    ensures |r| <= |ps|
  {
    if ps == [] then []
    else (if ps[0].pushId == pid then [] else [ps[0]]) + Without(ps[1..], pid)
  }

  /** list_search with push_has_pid: the first push with push id `pid`. */
  function FindByPid(ps: seq<PushMachine>, pid: nat): (r: Option<PushMachine>)
    ensures r.Some? ==> r.value in ps && r.value.pushId == pid
    ensures r.None? <==> pid !in PushIds(ps)
  {
    if ps == [] then None
    else if ps[0].pushId == pid then Some(ps[0])
    else FindByPid(ps[1..], pid)
  }

  /** list_search with push_has_pi_push_id: is there a push with this PI push id? */
  function HasPiPushId(ps: seq<PushMachine>, piPushId: string): (r: bool)
    ensures r <==> exists i :: 0 <= i < |ps| && ps[i].piPushId == piPushId
  {
    if ps == [] then false
    else ps[0].piPushId == piPushId || HasPiPushId(ps[1..], piPushId)
  }

  /** Removing an absent push id changes nothing. */
  lemma {:induction false} WithoutAbsent(ps: seq<PushMachine>, pid: nat)
    requires pid !in PushIds(ps)
    ensures Without(ps, pid) == ps
  {
    if ps != [] {
      assert ps[0].pushId != pid;
      WithoutAbsent(ps[1..], pid);
      assert [ps[0]] + ps[1..] == ps;
    }
  }

  /** Deleting by push id distributes over concatenation. */
  lemma {:induction false} WithoutAppend(a: seq<PushMachine>, b: seq<PushMachine>, pid: nat)
    ensures Without(a + b, pid) == Without(a, pid) + Without(b, pid)
  {
    if a == [] {
      assert a + b == b;
    } else {
      assert (a + b)[1..] == a[1..] + b;
      WithoutAppend(a[1..], b, pid);
    }
  }

  /** In a list without repeated push ids, deleting the first push's id drops just that push. */
  lemma WithoutHead(ps: seq<PushMachine>, counter: nat)
    requires ps != [] && PushesOk(ps, counter)
    ensures Without(ps, ps[0].pushId) == ps[1..]
  {
    WithoutAbsent(ps[1..], ps[0].pushId);
  }

  /** Deleting by push id takes exactly that id out of the list. */
  lemma WithoutIds(ps: seq<PushMachine>, pid: nat)
    ensures PushIds(Without(ps, pid)) == PushIds(ps) - {pid}
  {
    var r := Without(ps, pid);
    forall x | x in PushIds(ps) - {pid} ensures x in PushIds(r) {
      var i :| 0 <= i < |ps| && ps[i].pushId == x;
      assert ps[i] in r;
      var j :| 0 <= j < |r| && r[j] == ps[i];
    }
    forall x | x in PushIds(r) ensures x in PushIds(ps) - {pid} {
      var j :| 0 <= j < |r| && r[j].pushId == x;
      assert r[j] in ps;
      var i :| 0 <= i < |ps| && ps[i] == r[j];
    }
  }

  /** Deleting by push id keeps a list well formed. */
  lemma {:induction false} WithoutKeepsOk(ps: seq<PushMachine>, pid: nat, counter: nat)
    requires PushesOk(ps, counter)
    ensures PushesOk(Without(ps, pid), counter)
  {
    if ps != [] {
      assert forall p :: p in ps[1..] ==> p in ps;
      WithoutKeepsOk(ps[1..], pid, counter);
      WithoutIds(ps[1..], pid);
      var rest := Without(ps[1..], pid);
      assert PushesOk(rest, counter);
      if ps[0].pushId != pid {
        var r := [ps[0]] + rest;
        assert Without(ps, pid) == r;
        assert r[0] == ps[0] && r[1..] == rest;
        assert ps[0].pushId !in PushIds(rest);
        assert Distinct(r);
      } else {
        assert Without(ps, pid) == rest;
      }
    }
  }

  /** Appending a push with a fresh push id keeps the push ids distinct. */
  lemma {:induction false} DistinctSnoc(ps: seq<PushMachine>, p: PushMachine)
    requires Distinct(ps) && p.pushId !in PushIds(ps)
    ensures Distinct(ps + [p])
    ensures PushIds(ps + [p]) == PushIds(ps) + {p.pushId}
  {
    if ps != [] {
      assert (ps + [p])[1..] == ps[1..] + [p];
      DistinctSnoc(ps[1..], p);
    }
  }

  /**
   * Replacing the push with id `pid` by an updated copy at the back keeps
   * the list well formed; the list then holds `pid` whether it held it
   * before or not.
   */
  lemma MoveToBack(ps: seq<PushMachine>, pid: nat, r: PushMachine, counter: nat)
    requires PushesOk(ps, counter) && r.pushId == pid && pid < counter
    ensures PushesOk(Without(ps, pid) + [r], counter)
    ensures PushIds(Without(ps, pid) + [r]) == PushIds(ps) + {pid}
  {
    var rest := Without(ps, pid);
    WithoutKeepsOk(ps, pid, counter);
    WithoutIds(ps, pid);
    DistinctSnoc(rest, r);
    assert PushIds(rest + [r]) == (PushIds(ps) - {pid}) + {pid};
  }

  /**
   * A push appended with a push id the list does not hold is taken out
   * again by deleting that id, and so is any updated copy of it that
   * replaced it at the back.
   */
  lemma AppendedThenDeleted(ps: seq<PushMachine>, p: PushMachine, r: PushMachine)
    requires p.pushId !in PushIds(ps) && r.pushId == p.pushId
    ensures Without(ps + [p], p.pushId) == ps
    ensures Without(ps + [p], p.pushId) + [r] == ps + [r]
    ensures Without(ps + [r], p.pushId) == ps
  {
    WithoutAbsent(ps, p.pushId);
    WithoutAppend(ps, [p], p.pushId);
    WithoutAppend(ps, [r], p.pushId);
  }

  /** A list whose push ids are below one bound is below any larger one. */
  lemma PushesOkGrow(ps: seq<PushMachine>, counter: nat, larger: nat)
    requires PushesOk(ps, counter) && counter <= larger
    ensures PushesOk(ps, larger)
  {
  }

  /** In a list without repeated push ids, a push's id occurs neither before nor after it. */
  lemma {:induction false} DistinctSplit(a: seq<PushMachine>, x: PushMachine, b: seq<PushMachine>)
    requires Distinct(a + [x] + b)
    ensures x.pushId !in PushIds(a) && x.pushId !in PushIds(b)
  {
    if a == [] {
      assert a + [x] + b == [x] + b;
      assert ([x] + b)[1..] == b;
    } else {
      assert (a + [x] + b)[1..] == a[1..] + [x] + b;
      DistinctSplit(a[1..], x, b);
      assert (a[1..] + [x] + b)[|a| - 1] == x;
      assert x.pushId in PushIds(a[1..] + [x] + b);
      assert PushIds(a) == {a[0].pushId} + PushIds(a[1..]);
    }
  }

  /**
   * Taking a push out of the middle of a well-formed list by its id leaves
   * the pushes around it; re-appending an updated copy and deleting that id
   * again leaves the same.
   */
  lemma RemoveMiddle(a: seq<PushMachine>, x: PushMachine, b: seq<PushMachine>, x': PushMachine)
    requires Distinct(a + [x] + b) && x'.pushId == x.pushId
    ensures Without(a + [x] + b, x.pushId) == a + b
    ensures Without(a + b + [x'], x.pushId) == a + b
  {
    DistinctSplit(a, x, b);
    WithoutAbsent(a, x.pushId);
    WithoutAbsent(b, x.pushId);
    WithoutAroundOne(a, x, b);
    WithoutAppend(a + b, [x'], x.pushId);
    WithoutAppend(a, b, x.pushId);
  }

  /** Deleting the id of one push distributes over the pushes around it. */
  lemma WithoutAroundOne(a: seq<PushMachine>, x: PushMachine, b: seq<PushMachine>)
    ensures Without(a + [x] + b, x.pushId) == Without(a, x.pushId) + Without(b, x.pushId)
  {
    WithoutAppend(a + [x], b, x.pushId);
    WithoutAppend(a, [x], x.pushId);
  }

  /**
   * The same for the front push: taking it out leaves the rest, and so does
   * re-appending an updated copy and taking that out again.
   */
  lemma RemoveFront(ps: seq<PushMachine>, x': PushMachine)
    requires ps != [] && Distinct(ps) && x'.pushId == ps[0].pushId
    ensures Without(ps, ps[0].pushId) == ps[1..]
    ensures Without(ps[1..] + [x'], ps[0].pushId) == ps[1..]
  {
    WithoutAbsent(ps[1..], ps[0].pushId);
    WithoutAppend(ps[1..], [x'], ps[0].pushId);
  }

  /**
   * update_push_data_with_attribute, the attribute part: the PAP push
   * attribute a status sets. `reason` is the code (or OTA abort reason)
   * the caller passes along; `now` stands for the event time set_time
   * takes from the clock.
   */
  function ApplyStatus(pm: PushMachine, reason: int, status: Status, now: Tm): (r: PushMachine)
    ensures r == pm.(messageState := r.messageState, code := r.code, descCode := r.descCode,
                     eventTime := r.eventTime, deliveryMethod := r.deliveryMethod)
    ensures status.Undeliverable1? ==> r.messageState == Undeliverable && r.code == PAP_BAD_REQUEST
    ensures status.Undeliverable2? ==> r.messageState == Undeliverable && r.code == reason &&
                                       r.descCode == Some(reason)
    ensures status.AbortedStatus? ==> r.messageState == Aborted && r.code == OtaAbortToPap(reason) &&
                                      r.eventTime == Some(now) && r.descCode == Some(reason)
    ensures status.Delivered1? ==> r.messageState == Delivered && r.deliveryMethod == Unconfirmed &&
                                   r.eventTime == Some(now)
    ensures status.Delivered2? ==> r.messageState == Delivered && r.deliveryMethod == Confirmed &&
                                   r.eventTime == Some(now)
    ensures status.ExpiredStatus? ==> r.messageState == Expired && r.eventTime == Some(now) &&
                                      r.descCode == Some(reason)
    ensures status.PendingStatus? ==> r == pm.(messageState := Pending)
    ensures status.OtherStatus? ==> r == pm
    // which statuses touch which field: every field a status does not set keeps its value
    ensures r.code != pm.code ==> status.Undeliverable1? || status.Undeliverable2? || status.AbortedStatus?
    ensures r.descCode != pm.descCode ==> status.Undeliverable2? || status.AbortedStatus? || status.ExpiredStatus?
    ensures r.eventTime != pm.eventTime ==>
              status.AbortedStatus? || status.Delivered1? || status.Delivered2? || status.ExpiredStatus?
    ensures r.deliveryMethod != pm.deliveryMethod ==> status.Delivered1? || status.Delivered2?
    ensures !status.OtherStatus? && !status.PendingStatus? ==> IsTerminal(r.messageState)
  {
    match status
    case Undeliverable1 => pm.(messageState := Undeliverable, code := PAP_BAD_REQUEST)
    case Undeliverable2 => pm.(code := reason, messageState := Undeliverable, descCode := Some(reason))
    case AbortedStatus =>
      pm.(messageState := Aborted, code := OtaAbortToPap(reason), eventTime := Some(now),
          descCode := Some(reason))
    case Delivered1 => pm.(messageState := Delivered, deliveryMethod := Unconfirmed, eventTime := Some(now))
    case Delivered2 => pm.(messageState := Delivered, deliveryMethod := Confirmed, eventTime := Some(now))
    case ExpiredStatus => pm.(messageState := Expired, eventTime := Some(now), descCode := Some(reason))
    case PendingStatus => pm.(messageState := Pending)
    case OtherStatus(_) => pm
  }

  /** request_push: a Po-Push.req for a push over an open session. */
  function PushReq(last: int, pm: PushMachine): (r: OtaRequest)
    ensures r.PoPushReq? && r.pushBody == pm.pushData && r.sessionHandle == pm.sessionId
  {
    PoPushReq(pm.pushHeaders.GetOr([]), pm.authenticated, pm.trusted, last, pm.pushData, pm.sessionId)
  }

  /** request_confirmed_push: a Po-ConfirmedPush.req naming the push by its push id. */
  function ConfirmedPushReq(last: int, pm: PushMachine, sessionId: int): (r: OtaRequest)
    ensures r.PoConfirmedPushReq? && r.serverPushId == pm.pushId && r.sessionHandle == sessionId
  {
    PoConfirmedPushReq(pm.pushId, pm.pushHeaders.GetOr([]), pm.authenticated, pm.trusted, last,
                       pm.pushData, sessionId)
  }

  /**
   * request_unit_push: a Po-Unit-Push.req. The user name and password are
   * passed only for a push over SMS that has both; the bearer and network
   * only when they are required.
   */
  function UnitPushReq(last: int, pm: PushMachine): (r: OtaRequest)
    ensures r.PoUnitPushReq? && r.pushId == pm.pushId && r.addrTuple == pm.addrTuple
    ensures r.username.Some? || r.password.Some? <==>
              SmsRequested(pm.networkRequired, pm.network, pm.bearerRequired, pm.bearer) &&
              pm.username.Some? && pm.password.Some?
    ensures r.username.Some? ==> r.username == pm.username && r.password == pm.password
    ensures r.bearer.Some? ==> pm.bearerRequired && r.bearer == pm.bearer
    ensures r.network.Some? ==> pm.networkRequired && r.network == pm.network
  {
    var sms := SmsRequested(pm.networkRequired, pm.network, pm.bearerRequired, pm.bearer) &&
               pm.password.Some? && pm.username.Some?;
    PoUnitPushReq(pm.addrTuple, pm.pushId, pm.pushHeaders.GetOr([]), pm.authenticated, pm.trusted, last,
                  if sms then pm.username else None, if sms then pm.password else None,
                  pm.bearerRequired, if pm.bearerRequired then pm.bearer else None,
                  pm.networkRequired, if pm.networkRequired then pm.network else None,
                  pm.pushData)
  }

  /**
   * create_session: a Pom-SessionRequest.req sent to the client's
   * connectionless push port, carrying the event's headers.
   */
  function SessionRequestReq(e: PushMessage, pm: PushMachine): (r: OtaRequest)
    ensures r.PomSessionRequestReq? && r.pushId == pm.pushId
    ensures r.addrTuple.Some? <==> pm.addrTuple.Some?
    ensures r.addrTuple.Some? ==> r.addrTuple.value.remotePort == CONNECTIONLESS_PUSH_CLIPORT &&
                                  r.addrTuple.value.remoteAddress == pm.addrTuple.value.remoteAddress
  {
    PomSessionRequestReq(AddrTupleChangeCliport(pm.addrTuple, CONNECTIONLESS_PUSH_CLIPORT),
                         e.pushHeaders.GetOr([]), pm.pushId)
  }

  /**
   * response_push_message: the push response for `pm`, answering its PI
   * push id with `code` (and so with the text of `code`, see
   * PushResponse.Description) at time `now`.
   */
  function Response(pm: PushMachine, code: int, now: Tm): (r: PushResponse)
    ensures r.piPushId == pm.piPushId && r.code == code && r.replyTime == now
  {
    PushResponse(pm.piPushId, now, code)
  }

  /** One response with `code` for each push of `ps`, in list order. */
  function Responses(ps: seq<PushMachine>, code: int, now: Tm): (r: seq<PushResponse>)
    ensures |r| == |ps|
    ensures forall i :: 0 <= i < |ps| ==> r[i] == Response(ps[i], code, now)
  {
    if ps == [] then [] else [Response(ps[0], code, now)] + Responses(ps[1..], code, now)
  }

  /** Responses for a list extended by one push are extended by one response. */
  lemma ResponsesSnoc(ps: seq<PushMachine>, p: PushMachine, code: int, now: Tm)
    ensures Responses(ps + [p], code, now) == Responses(ps, code, now) + [Response(p, code, now)]
  {
  }

  /** The pushes deliver_pending_pushes keeps queued: those not sent unconfirmed, in list order. */
  function Kept(ps: seq<PushMachine>): (r: seq<PushMachine>)
    ensures |r| <= |ps|
  {
    if ps == [] then []
    else (if ps[0].deliveryMethod != Unconfirmed then [ps[0]] else []) + Kept(ps[1..])
  }

  /** The kept pushes are exactly the pushes of the list not sent unconfirmed. */
  lemma {:induction false} KeptMembers(ps: seq<PushMachine>)
    ensures forall p :: p in Kept(ps) <==> p in ps && p.deliveryMethod != Unconfirmed
  {
    if ps != [] {
      KeptMembers(ps[1..]);
      assert ps == [ps[0]] + ps[1..];
    }
  }

  /** Every push of the list is pending: none has reached a final state. */
  predicate AllPending(ps: seq<PushMachine>) {
    forall p :: p in ps ==> p.messageState == Pending
  }

  /** The pushes deliver_pending_pushes keeps queued are still pending, as the whole list was. */
  lemma KeptPending(ps: seq<PushMachine>)
    requires AllPending(ps)
    ensures AllPending(Kept(ps))
  {
    KeptMembers(ps);
  }

  /** Some push of the list is to be sent unconfirmed. */
  predicate AnyUnconfirmed(ps: seq<PushMachine>) {
    exists i :: 0 <= i < |ps| && ps[i].deliveryMethod == Unconfirmed
  }

  /** The filter keeps a list whole exactly when no push in it is unconfirmed. */
  lemma {:induction false} KeptWhole(ps: seq<PushMachine>)
    ensures Kept(ps) == ps <==> !AnyUnconfirmed(ps)
  {
    if ps != [] {
      KeptWhole(ps[1..]);
      if ps[0].deliveryMethod == Unconfirmed {
        assert |Kept(ps)| < |ps|;
      } else {
        assert Kept(ps) == [ps[0]] + Kept(ps[1..]);
        assert ps == [ps[0]] + ps[1..];
        assert AnyUnconfirmed(ps[1..]) ==> AnyUnconfirmed(ps) by {
          if AnyUnconfirmed(ps[1..]) {
            var i :| 0 <= i < |ps[1..]| && ps[1..][i].deliveryMethod == Unconfirmed;
            assert ps[i + 1] == ps[1..][i];
          }
        }
        assert AnyUnconfirmed(ps) ==> AnyUnconfirmed(ps[1..]) by {
          if AnyUnconfirmed(ps) {
            var i :| 0 <= i < |ps| && ps[i].deliveryMethod == Unconfirmed;
            assert i > 0 && ps[1..][i - 1] == ps[i];
          }
        }
      }
    }
  }

  /** Filtering a list extended by one push. */
  lemma {:induction false} KeptSnoc(ps: seq<PushMachine>, p: PushMachine)
    ensures Kept(ps + [p]) == Kept(ps) + (if p.deliveryMethod != Unconfirmed then [p] else [])
  {
    if ps != [] {
      assert (ps + [p])[1..] == ps[1..] + [p];
      KeptSnoc(ps[1..], p);
    }
  }

  /** A list whose tail from j on follows a prefix k has push j right after k. */
  lemma SplitAt(k: seq<PushMachine>, ps: seq<PushMachine>, j: nat)
    requires j < |ps|
    ensures (k + ps[j..])[|k|] == ps[j]
    ensures k + ps[j..] == k + [ps[j]] + ps[j + 1..]
  {
    assert ps[j..] == [ps[j]] + ps[j + 1..];
  }

  /**
   * deliver_pending_pushes after one more push of `ps`, seen from the list
   * it started from: the filtered prefix grows by the push unless it is
   * unconfirmed, the next push sits right after the filtered prefix, and
   * one more request is sent.
   */
  lemma KeptStep(out: seq<OtaRequest>, ps: seq<PushMachine>, j: nat, sessionId: int)
    requires j < |ps|
    ensures (Kept(ps[..j]) + ps[j..])[|Kept(ps[..j])|] == ps[j]
    ensures Kept(ps[..j]) + ps[j..] == Kept(ps[..j]) + [ps[j]] + ps[j + 1..]
    ensures ps[j].deliveryMethod == Unconfirmed ==>
              Kept(ps[..j + 1]) == Kept(ps[..j]) && AnyUnconfirmed(ps[..j + 1])
    ensures ps[j].deliveryMethod != Unconfirmed ==>
              Kept(ps[..j + 1]) == Kept(ps[..j]) + [ps[j]] &&
              AnyUnconfirmed(ps[..j + 1]) == AnyUnconfirmed(ps[..j])
    ensures out + DeliveryRequests(ps[..j + 1], sessionId) ==
            out + DeliveryRequests(ps[..j], sessionId) + [DeliveryRequest(ps[j], sessionId)]
  {
    assert ps[..j + 1] == ps[..j] + [ps[j]];
    SplitAt(Kept(ps[..j]), ps, j);
    KeptSnoc(ps[..j], ps[j]);
    DeliveryRequestsSnoc(ps[..j], ps[j], sessionId);
    AnyUnconfirmedSnoc(ps[..j], ps[j]);
  }

  /** A list extended by one push has an unconfirmed push iff it had one or the new push is one. */
  lemma AnyUnconfirmedSnoc(ps: seq<PushMachine>, p: PushMachine)
    ensures AnyUnconfirmed(ps + [p]) <==> AnyUnconfirmed(ps) || p.deliveryMethod == Unconfirmed
  {
    var qs := ps + [p];
    if AnyUnconfirmed(qs) && p.deliveryMethod != Unconfirmed {
      var k :| 0 <= k < |qs| && qs[k].deliveryMethod == Unconfirmed;
      assert k < |ps| && ps[k] == qs[k];
    }
    if AnyUnconfirmed(ps) {
      var k :| 0 <= k < |ps| && ps[k].deliveryMethod == Unconfirmed;
      assert qs[k] == ps[k];
    }
    if p.deliveryMethod == Unconfirmed {
      assert qs[|ps|] == p;
    }
  }

  /**
   * One more push answered: the responses sent after `out` for the first
   * k + 1 pushes are those for the first k followed by the response for
   * push k.
   */
  lemma ResponsesStep(out: seq<PushResponse>, ps: seq<PushMachine>, k: nat, code: int, now: Tm)
    requires k < |ps|
    ensures out + Responses(ps[..k + 1], code, now) == out + Responses(ps[..k], code, now) + [Response(ps[k], code, now)]
  {
    assert ps[..k + 1] == ps[..k] + [ps[k]];
    ResponsesSnoc(ps[..k], ps[k], code, now);
  }

  /** The kept pushes form a well-formed list again. */
  lemma {:induction false} KeptKeepsOk(ps: seq<PushMachine>, counter: nat)
    requires PushesOk(ps, counter)
    ensures PushesOk(Kept(ps), counter)
  {
    if ps != [] {
      assert forall p :: p in ps[1..] ==> p in ps;
      KeptKeepsOk(ps[1..], counter);
      var k := Kept(ps[1..]);
      KeptMembers(ps[1..]);
      assert PushesOk(k, counter);
      if ps[0].deliveryMethod != Unconfirmed {
        forall x | x in PushIds(k) ensures x in PushIds(ps[1..]) {
          var j :| 0 <= j < |k| && k[j].pushId == x;
          assert k[j] in ps[1..];
          var i :| 0 <= i < |ps[1..]| && ps[1..][i] == k[j];
        }
        var r := [ps[0]] + k;
        assert Kept(ps) == r;
        assert r[0] == ps[0] && r[1..] == k;
        assert Distinct(r);
      } else {
        assert Kept(ps) == k;
      }
    }
  }

  /**
   * The OTA requests deliver_pending_pushes makes for the pushes of a
   * session, in list order: a push request for an unconfirmed push, a
   * confirmed push request for any other.
   */
  function DeliveryRequest(p: PushMachine, sessionId: int): (r: OtaRequest)
    ensures p.deliveryMethod == Unconfirmed ==> r.PoPushReq?
    ensures p.deliveryMethod != Unconfirmed ==> r.PoConfirmedPushReq? && r.serverPushId == p.pushId
  {
    if p.deliveryMethod == Unconfirmed then PushReq(NOT_LAST, p) else ConfirmedPushReq(NOT_LAST, p, sessionId)
  }

  /** The requests for a whole push list, one per push, in list order. */
  function DeliveryRequests(ps: seq<PushMachine>, sessionId: int): (r: seq<OtaRequest>)
    ensures |r| == |ps|
  {
    if ps == [] then [] else [DeliveryRequest(ps[0], sessionId)] + DeliveryRequests(ps[1..], sessionId)
  }

  /** Request i of the list is the request for push i. */
  lemma {:induction false} DeliveryRequestsAt(ps: seq<PushMachine>, sessionId: int)
    ensures forall i :: 0 <= i < |ps| ==> DeliveryRequests(ps, sessionId)[i] == DeliveryRequest(ps[i], sessionId)
  {
    if ps != [] {
      DeliveryRequestsAt(ps[1..], sessionId);
    }
  }

  /** The requests for a list extended by one push are extended by one request. */
  lemma {:induction false} DeliveryRequestsSnoc(ps: seq<PushMachine>, p: PushMachine, sessionId: int)
    ensures DeliveryRequests(ps + [p], sessionId) == DeliveryRequests(ps, sessionId) + [DeliveryRequest(p, sessionId)]
  {
    if ps != [] {
      assert (ps + [p])[1..] == ps[1..] + [p];
      DeliveryRequestsSnoc(ps[1..], p, sessionId);
    }
  }

  /**
   * What deliver_pending_pushes sends for each push: its headers and body,
   * as a Po-Push.req over the push's own session id when it is unconfirmed,
   * and otherwise as a Po-ConfirmedPush.req naming it by its push id over
   * the session.
   */
  lemma DeliveredCarry(ps: seq<PushMachine>, sessionId: int)
    ensures forall i :: 0 <= i < |ps| ==>
              var r := DeliveryRequests(ps, sessionId)[i];
              (r.PoPushReq? || r.PoConfirmedPushReq?) &&
              r.pushBody == ps[i].pushData && r.pushHeaders == ps[i].pushHeaders.GetOr([]) &&
              r.authenticated == ps[i].authenticated && r.trusted == ps[i].trusted && r.last == NOT_LAST &&
              (r.PoPushReq? <==> ps[i].deliveryMethod == Unconfirmed) &&
              (r.PoPushReq? ==> r.sessionHandle == ps[i].sessionId) &&
              (r.PoConfirmedPushReq? ==> r.sessionHandle == sessionId && r.serverPushId == ps[i].pushId)
  {
    DeliveryRequestsAt(ps, sessionId);
  }

  /** The push ids the confirmed push requests of `rs` name, in order. */
  function ConfirmedIds(rs: seq<OtaRequest>): seq<int> {
    if rs == [] then []
    else (if rs[0].PoConfirmedPushReq? then [rs[0].serverPushId] else []) + ConfirmedIds(rs[1..])
  }

  /** The push ids of a push list, in order. */
  function IdList(ps: seq<PushMachine>): seq<int> {
    if ps == [] then [] else [ps[0].pushId as int] + IdList(ps[1..])
  }

  /**
   * The pushes deliver_pending_pushes leaves queued are exactly those it
   * asked the client to confirm, in the same order: a push stays in the
   * session until its confirmation (or an abort) arrives.
   */
  lemma {:induction false} KeptAwaitConfirmation(ps: seq<PushMachine>, sessionId: int)
    ensures ConfirmedIds(DeliveryRequests(ps, sessionId)) == IdList(Kept(ps))
  {
    if ps != [] {
      KeptAwaitConfirmation(ps[1..], sessionId);
      var rs := DeliveryRequests(ps, sessionId);
      assert rs[0] == DeliveryRequest(ps[0], sessionId) && rs[1..] == DeliveryRequests(ps[1..], sessionId);
      if ps[0].deliveryMethod != Unconfirmed {
        var k := Kept(ps);
        assert k == [ps[0]] + Kept(ps[1..]);
        assert k[0] == ps[0] && k[1..] == Kept(ps[1..]);
        assert IdList(k) == [ps[0].pushId as int] + IdList(Kept(ps[1..]));
      } else {
        assert Kept(ps) == Kept(ps[1..]);
      }
    }
  }
}
