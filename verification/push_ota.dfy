/**
 * The push side of the OTA layer (gw/wap_push_ota.c): the requests the push
 * proxy gateway sends down are turned into requests for the connected
 * (dispatch_to_wsp) or connectionless (dispatch_to_wsp_unit) session
 * service, after the push flag is added to the headers and, for a session
 * request, the service indication (SIA) is assembled.
 *
 * A failed gw_assert panics the gateway: here it is the outcome Panic, and
 * no request leaves. wsp_pdu_pack and http_type_accepted are library code
 * that is not part of this model: the SIA is kept as its two packed parts,
 * and whether a header list accepts a type is a parameter.
 */
module PushOta {
  import opened Wrappers
  import opened Octstr
  import opened HttpHeaders
  import opened Pap
  import opened WapEvents
  import opened PpgContent

  const PUSH_FLAG_HEADER: string := "Push-Flag"
  const CONTENT_TYPE_HEADER: string := "Content-Type"
  /** The content type check_session_request_headers adds. */
  const SIA_TYPE: string := "application/vnd.wap.sia"
  /** The content type check_session_request_headers looks for ("wnd", as the code spells it). */
  const SIA_TYPE_CHECKED: string := "application/wnd.wap.sia"

  /**
   * Bearer type GSM CSD with IPv4 addressing and the port of connection
   * oriented WSP, the assigned numbers of WDP (WAP-259) appendices A and B;
   * the header defining them is not part of this model.
   */
  const GSM_CSD_IPV4: int := 0x0A
  const CONNECTED_PORT: nat := 9201

  /**
   * The push flag of Push OTA (WAP-189) section 8.2.2: bit 0 authenticated,
   * bit 1 trusted, bit 2 last, combined with OR and shifts as add_push_flag
   * does.
   */
  function PushFlag(authenticated: int, trusted: int, last: int): (r: nat)
    requires 0 <= authenticated <= 1 && 0 <= trusted <= 1 && 0 <= last <= 1
    ensures r == authenticated + 2 * trusted + 4 * last && r < 8
  {
    var a := authenticated as bv8;
    var t := trusted as bv8;
    var l := last as bv8;
    PushFlagBits(a, t, l);
    (a | (t << 1) | (l << 2)) as int
  }

  /** OR of the three shifted one-bit flags is their weighted sum. */
  lemma PushFlagBits(a: bv8, t: bv8, l: bv8)
    requires a <= 1 && t <= 1 && l <= 1
    ensures (a | (t << 1) | (l << 2)) as int == a as int + 2 * t as int + 4 * l as int
  {
  }

  /** The three flags can be read back from the push flag: the packing loses nothing. */
  lemma PushFlagDecodes(authenticated: int, trusted: int, last: int)
    requires 0 <= authenticated <= 1 && 0 <= trusted <= 1 && 0 <= last <= 1
    ensures var f := PushFlag(authenticated, trusted, last);
            f % 2 == authenticated && (f / 2) % 2 == trusted && f / 4 == last
  {
  }

  /** flags_assert: each flag of the three push request kinds is 0 or 1. */
  predicate FlagsValid(req: OtaRequest) {
    match req
    case PoUnitPushReq(_, _, _, a, t, l, _, _, _, _, _, _, _) => 0 <= a <= 1 && 0 <= t <= 1 && 0 <= l <= 1
    case PoPushReq(_, a, t, l, _, _) => 0 <= a <= 1 && 0 <= t <= 1 && 0 <= l <= 1
    case PoConfirmedPushReq(_, _, a, t, l, _, _) => 0 <= a <= 1 && 0 <= t <= 1 && 0 <= l <= 1
    case _ => true
  }

  /** reason_assert: an abort request carries one of the five client abort reasons of WSP table 35. */
  predicate ReasonValid(reason: int) {
    reason == WSP_ABORT_USERREQ || reason == WSP_ABORT_USERRFS || reason == WSP_ABORT_USERPND ||
    reason == WSP_ABORT_USERDCR || reason == WSP_ABORT_USERDCU
  }

  /**
   * add_push_flag: a copy of the request's headers with one Push-Flag header
   * appended, whose decimal value is the push flag; no headers (NULL) for
   * any other kind of request.
   */
  function AddPushFlag(req: OtaRequest): (r: Option<Headers>)
    requires FlagsValid(req)
    ensures r.Some? <==> req.PoUnitPushReq? || req.PoPushReq? || req.PoConfirmedPushReq?
    ensures r.Some? ==>
              |r.value| == |req.pushHeaders| + 1 && r.value[..|req.pushHeaders|] == req.pushHeaders &&
              r.value[|req.pushHeaders|].name == PUSH_FLAG_HEADER &&
              AllDigits(r.value[|req.pushHeaders|].value) &&
              DigitsValue(r.value[|req.pushHeaders|].value) ==
                req.authenticated + 2 * req.trusted + 4 * req.last
  {
    if req.PoUnitPushReq? || req.PoPushReq? || req.PoConfirmedPushReq? then
      var flag := PushFlag(req.authenticated, req.trusted, req.last);
      DecimalRoundTrip(flag);
      Some(Add(req.pushHeaders, PUSH_FLAG_HEADER, NatToDecimal(flag)))
    else None
  }

  /**
   * check_session_request_headers: unless the headers accept the SIA type
   * (as spelled in the code), a Content-Type header for it is added at the
   * end. `accepted` stands for http_type_accepted.
   */
  function CheckSessionRequestHeaders(hs: Headers, accepted: (Headers, string) -> bool): (r: Headers)
    ensures |hs| <= |r| <= |hs| + 1 && r[..|hs|] == hs
    ensures |r| == |hs| + 1 <==> !accepted(hs, SIA_TYPE_CHECKED)
    ensures |r| == |hs| + 1 ==> r[|hs|] == Header(CONTENT_TYPE_HEADER, SIA_TYPE)
  {
    if !accepted(hs, SIA_TYPE_CHECKED) then Add(hs, CONTENT_TYPE_HEADER, SIA_TYPE) else hs
  }

  /** The string pieces of `ss` one after the other. */
  function Concat(ss: seq<string>): (r: string)
    ensures |ss| == 1 ==> r == ss[0]
  {
    if ss == [] then [] else Concat(ss[..|ss| - 1]) + ss[|ss| - 1]
  }

  /** Concatenation distributes over joining lists of pieces. */
  lemma {:induction false} ConcatAppend(a: seq<string>, b: seq<string>)
    ensures Concat(a + b) == Concat(a) + Concat(b)
    decreases |b|
  {
    if b == [] {
      assert a + b == a;
    } else {
      var b' := b[..|b| - 1];
      assert (a + b)[..|a + b| - 1] == a + b';
      ConcatAppend(a, b');
    }
  }

  /** What pack_appid_list demands: at least one header, every one named X-WAP-Application-Id exactly. */
  predicate AppidListPackable(hs: Headers) {
    |hs| > 0 && forall i :: 0 <= i < |hs| ==> hs[i].name == APPID_HEADER
  }

  /**
   * The contact point pack_server_address writes for the bearerbox address
   * `addr`: one byte with the bearer-included and port-included bits (the
   * two high bits) over the address length truncated to a byte, the bearer
   * type byte, the decimal text of the connected port, and the address.
   */
  function ContactPoint(addr: string): (r: string)
    ensures |r| == 2 + |NatToDecimal(CONNECTED_PORT)| + |addr| && r[|r| - |addr|..] == addr
  {
    [(0xC0 + |addr| % 64) as char, GSM_CSD_IPV4 as char] + NatToDecimal(CONNECTED_PORT) + addr
  }

  /** The value of each bit of a byte, bits counted from the most significant one. */
  const BIT_WEIGHTS: seq<nat> := [128, 64, 32, 16, 8, 4, 2, 1]

  /**
   * octstr_set_bits(s, k, 1, 1) on a byte: bit `k` is set, counted from the
   * most significant bit; the other bits stay as they are.
   */
  function SetBit(v: nat, k: nat): nat
    requires k < 8
  {
    var w := BIT_WEIGHTS[k];
    if (v / w) % 2 == 1 then v else v + w
  }

  /**
   * Truncating a length to a byte and setting its two high bits leaves
   * 0xC0 plus the length modulo 64.
   */
  lemma HighBitsSet(n: nat)
    ensures SetBit(SetBit(n % 256, 0), 1) == 0xC0 + n % 64
  {
    var v := n % 256;
    FirstBitSet(v);
    SecondBitSet(128 + v % 128);
    ModuloNarrows(n);
  }

  /** Setting the most significant bit of a byte. */
  lemma FirstBitSet(v: nat)
    requires v < 256
    ensures SetBit(v, 0) == 128 + v % 128
  {
    assert BIT_WEIGHTS[0] == 128;
  }

  /** Setting the second bit of a byte whose first bit is set. */
  lemma SecondBitSet(u: nat)
    requires 128 <= u < 256
    ensures SetBit(u, 1) == 192 + u % 64
  {
    assert BIT_WEIGHTS[1] == 64;
  }

  /** The low six bits survive truncation to a byte and to seven bits. */
  lemma ModuloNarrows(n: nat)
    ensures 128 + n % 256 % 128 == 128 + n % 128
    ensures (128 + n % 128) % 64 == n % 64
  {
    var a, b := n / 256, n % 256;
    var c, d := b / 128, b % 128;
    var e, f := d / 64, d % 64;
    RemainderOf(n, 128, 2 * a + c, d);
    RemainderOf(128 + d, 64, 2 + e, f);
    RemainderOf(n, 64, 4 * a + 2 * c + e, f);
  }

  /** The remainder is determined by any division with a remainder in range. */
  lemma RemainderOf(n: nat, m: nat, q: nat, r: nat)
    requires m == 64 || m == 128
    requires n == m * q + r && r < m
    ensures n % m == r
  {
    if m == 64 {
      assert n == 64 * q + r;
    } else {
      assert n == 128 * q + r;
    }
  }

  /** The fields of a contact point laid out as ContactPoint lays it out. */
  datatype ContactFields = ContactFields(bearerIncluded: bool, portIncluded: bool, addressLength: nat,
                                         bearerType: int, port: string, address: string)

  /**
   * Reading a contact point back: the flag bits and the address length from
   * the first byte, the bearer type from the second, the address as the
   * last `addressLength` bytes and the port text in between.
   */
  function ContactPointFields(cp: string): (r: Option<ContactFields>)
    ensures r.Some? ==> |r.value.address| == r.value.addressLength < 64
  {
    if |cp| < 2 || cp[0] as int >= 256 then None
    else
      var b := cp[0] as int;
      var len := b % 64;
      if |cp| < 2 + len then None
      else Some(ContactFields(b >= 128, (b / 64) % 2 == 1, len, cp[1] as int, cp[2..|cp| - len], cp[|cp| - len..]))
  }

  /** An address shorter than 64 bytes is read back intact, with both flags, the bearer type and the port. */
  lemma ContactPointRoundTrip(addr: string)
    requires |addr| < 64
    ensures var r := ContactPointFields(ContactPoint(addr));
            r.Some? && r.value.bearerIncluded && r.value.portIncluded && r.value.bearerType == GSM_CSD_IPV4 &&
            r.value.address == addr && DigitsValue(r.value.port) == CONNECTED_PORT
  {
    var cp := ContactPoint(addr);
    DecimalRoundTrip(CONNECTED_PORT);
    assert cp[2..|cp| - |addr|] == NatToDecimal(CONNECTED_PORT);
  }

  /**
   * The length field has six bits: for an address of 64 bytes or more only
   * a proper suffix of it is read back.
   */
  lemma ContactPointLongAddressCut(addr: string)
    requires |addr| >= 64
    ensures var r := ContactPointFields(ContactPoint(addr));
            r.Some? && r.value.address != addr && r.value.addressLength == |addr| % 64
  {
  }

  /**
   * name: the official IP address stands in for "localhost"; any other
   * address is kept. So the bearerbox address is never "localhost" unless
   * the official IP is.
   */
  function Name(addr: string, officialIp: string): (r: string)
    ensures r != addr ==> addr == "localhost" && r == officialIp
    ensures r == "localhost" ==> officialIp == "localhost"
  {
    if addr != "localhost" then addr else officialIp
  }

  /** Where handle_ota_event sends a request. */
  datatype Forwarding =
    | ToWsp(request: WspRequest)        // dispatch_to_wsp
    | ToWspUnit(request: WspRequest)    // dispatch_to_wsp_unit
    | NoRequest                         // an event it does not handle
    | Panic                             // a gw_assert fails

  function BodyOf(b: Option<string>): Option<Body> {
    if b.Some? then Some(Bytes(b.value)) else None
  }

  /**
   * handle_ota_event for request `req` with bearerbox address `address`: the
   * one WSP request each known kind is turned into, and where it goes.
   */
  function Forward(req: OtaRequest, address: string, accepted: (Headers, string) -> bool): (f: Forwarding)
    ensures f.Panic? <==>
              !FlagsValid(req) || (req.PoPushAbortReq? && !ReasonValid(req.reason)) ||
              (req.PomSessionRequestReq? &&
               !AppidListPackable(FindAll(CheckSessionRequestHeaders(req.pushHeaders, accepted), APPID_HEADER)))
    ensures f.NoRequest? <==> req.OtherRequest?
    ensures f.ToWspUnit? <==> !f.Panic? && (req.PomSessionRequestReq? || req.PoUnitPushReq?)
    ensures f.ToWsp? <==> !f.Panic? && (req.PoPushReq? || req.PoConfirmedPushReq? || req.PoPushAbortReq?)
    ensures f.ToWsp? || f.ToWspUnit? ==>
              (req.PomSessionRequestReq? || req.PoUnitPushReq? ==>
                 f.request.SUnitPushReq? && f.request.pushId == req.pushId && f.request.addrTuple == req.addrTuple) &&
              (req.PoPushReq? ==> f.request.SPushReq? && f.request.sessionId == req.sessionHandle) &&
              (req.PoConfirmedPushReq? ==>
                 f.request.SConfirmedPushReq? && f.request.sessionId == req.sessionHandle &&
                 f.request.serverPushId == req.serverPushId) &&
              (req.PoPushAbortReq? ==>
                 f.request == SPushAbortReq(req.pushId, req.reason, req.sessionId))
    ensures (f.ToWsp? || f.ToWspUnit?) && (req.PoUnitPushReq? || req.PoPushReq? || req.PoConfirmedPushReq?) ==>
              f.request.pushHeaders == AddPushFlag(req) && f.request.pushBody == BodyOf(req.pushBody)
    ensures f.ToWspUnit? && req.PomSessionRequestReq? ==>
              var hs := CheckSessionRequestHeaders(req.pushHeaders, accepted);
              f.request.pushHeaders == Some(hs) &&
              f.request.pushBody == Some(Sia(Concat(Values(FindAll(hs, APPID_HEADER))), ContactPoint(address)))
  {
    if !FlagsValid(req) then Panic
    else
      match req
      case PomSessionRequestReq(tuple, hs0, pid) =>
        var hs := CheckSessionRequestHeaders(hs0, accepted);
        var appids := FindAll(hs, APPID_HEADER);
        if !AppidListPackable(appids) then Panic
        else ToWspUnit(SUnitPushReq(tuple, pid, Some(hs),
                                    Some(Sia(Concat(Values(appids)), ContactPoint(address))),
                                    None, None, false, None, false, None))
      case PoPushReq(_, _, _, _, body, sid) =>
        ToWsp(SPushReq(AddPushFlag(req), BodyOf(body), sid))
      case PoConfirmedPushReq(spid, _, _, _, _, body, sid) =>
        ToWsp(SConfirmedPushReq(spid, AddPushFlag(req), BodyOf(body), sid))
      case PoUnitPushReq(tuple, pid, _, _, _, _, username, password, bearerRequired, bearer,
                         networkRequired, network, body) =>
        ToWspUnit(SUnitPushReq(tuple, pid, AddPushFlag(req), BodyOf(body), username, password,
                               networkRequired, if networkRequired then network else None,
                               bearerRequired, if bearerRequired then bearer else None))
      case PoPushAbortReq(pid, reason, sid) =>
        if !ReasonValid(reason) then Panic else ToWsp(SPushAbortReq(pid, reason, sid))
      case OtherRequest => NoRequest
  }

  /** The application ids of a session request: those of its headers once completed. */
  lemma SessionRequestAppids(hs: Headers, accepted: (Headers, string) -> bool)
    ensures FindAll(CheckSessionRequestHeaders(hs, accepted), APPID_HEADER) == FindAll(hs, APPID_HEADER)
  {
    if !accepted(hs, SIA_TYPE_CHECKED) {
      var added := Header(CONTENT_TYPE_HEADER, SIA_TYPE);
      FindAllAppend(hs, [added], APPID_HEADER);
      assert !NameIs(added, APPID_HEADER);
      assert FindAll([added], APPID_HEADER) == [] + FindAll([], APPID_HEADER);
    }
  }

  /**
   * A session request with no X-WAP-Application-Id header, which is what the
   * push proxy gateway sends when the application id is the WML user
   * agent's default, fails pack_appid_list's assertion.
   */
  lemma SessionRequestWithoutAppidPanics(req: OtaRequest, address: string, accepted: (Headers, string) -> bool)
    requires req.PomSessionRequestReq? && FindAll(req.pushHeaders, APPID_HEADER) == []
    ensures Forward(req, address, accepted).Panic?
  {
    SessionRequestAppids(req.pushHeaders, accepted);
  }

  /**
   * A session request whose one application id header is spelled as the
   * push proxy gateway writes it carries that id as the SIA's application
   * id list.
   */
  lemma SessionRequestWithAppidPacks(req: OtaRequest, address: string, accepted: (Headers, string) -> bool,
                                     id: string)
    requires req.PomSessionRequestReq? && FindAll(req.pushHeaders, APPID_HEADER) == [Header(APPID_HEADER, id)]
    ensures var f := Forward(req, address, accepted);
            f.ToWspUnit? && f.request.pushBody == Some(Sia(id, ContactPoint(address)))
  {
    SessionRequestAppids(req.pushHeaders, accepted);
    assert Values([Header(APPID_HEADER, id)]) == [id];
  }

  /**
   * The OTA module: the bearerbox address used for contact points, and the
   * requests handed to the connected and to the connectionless session
   * service, in order.
   */
  class Ota {
    var bearerboxAddress: string
    var wspOut: seq<WspRequest>
    var wspUnitOut: seq<WspRequest>

    /** wap_push_ota_init: nothing dispatched yet, no address set (empty). */
    constructor ()
      ensures bearerboxAddress == [] && wspOut == [] && wspUnitOut == []
    {
      bearerboxAddress := [];
      wspOut := [];
      wspUnitOut := [];
    }

    /** wap_push_ota_bb_address_set: store the resolved address. */
    method SetBearerboxAddress(addr: string, officialIp: string)
      modifies this`bearerboxAddress
      ensures bearerboxAddress == Name(addr, officialIp)
    {
      bearerboxAddress := Name(addr, officialIp);
    }

    /**
     * handle_ota_event: forward one request from the gateway, as Forward
     * says, to exactly one of the two session services, or to none.
     */
    method HandleOtaEvent(req: OtaRequest, accepted: (Headers, string) -> bool) returns (f: Forwarding)
      modifies this`wspOut, this`wspUnitOut
      ensures f == Forward(req, bearerboxAddress, accepted)
      ensures wspOut == old(wspOut) + (if f.ToWsp? then [f.request] else [])
      ensures wspUnitOut == old(wspUnitOut) + (if f.ToWspUnit? then [f.request] else [])
    {
      f := Forward(req, bearerboxAddress, accepted);
      match req
      case PomSessionRequestReq(_, _, _) =>
        f := MakeSessionRequest(req, accepted);
      case PoPushReq(_, _, _, _, _, _) =>
        if FlagsValid(req) {
          MakePushRequest(req);
        }
      case PoConfirmedPushReq(_, _, _, _, _, _, _) =>
        if FlagsValid(req) {
          MakeConfirmedPushRequest(req);
        }
      case PoUnitPushReq(_, _, _, _, _, _, _, _, _, _, _, _, _) =>
        if FlagsValid(req) {
          MakeUnitPushRequest(req);
        }
      case PoPushAbortReq(_, reason, _) =>
        if ReasonValid(reason) {
          AbortPush(req);
        }
      case OtherRequest =>
    }

    /**
     * make_session_request: complete the headers, pack the SIA from the
     * application ids and the contact point, and send a connectionless
     * request for a session.
     */
    method MakeSessionRequest(req: OtaRequest, accepted: (Headers, string) -> bool) returns (f: Forwarding)
      requires req.PomSessionRequestReq?
      modifies this`wspUnitOut
      ensures f == Forward(req, bearerboxAddress, accepted)
      ensures wspUnitOut == old(wspUnitOut) + (if f.ToWspUnit? then [f.request] else [])
    {
      var hs := CheckSessionRequestHeaders(req.pushHeaders, accepted);
      var appids := FindAll(hs, APPID_HEADER);
      if !AppidListPackable(appids) {
        return Panic;
      }
      var appidList := PackAppidList(appids);
      var contact := PackServerAddress();
      var w := SUnitPushReq(req.addrTuple, req.pushId, Some(hs), Some(Sia(appidList, contact)),
                            None, None, false, None, false, None);
      wspUnitOut := wspUnitOut + [w];
      f := ToWspUnit(w);
    }

    /** make_push_request: a push over the session, with the push flag added. */
    method MakePushRequest(req: OtaRequest)
      requires req.PoPushReq? && FlagsValid(req)
      modifies this`wspOut
      ensures wspOut == old(wspOut) + [SPushReq(AddPushFlag(req), BodyOf(req.pushBody), req.sessionHandle)]
    {
      var hs := AddPushFlag(req);
      wspOut := wspOut + [SPushReq(hs, BodyOf(req.pushBody), req.sessionHandle)];
    }

    /** make_confirmed_push_request: a confirmed push over the session, with the push flag added. */
    method MakeConfirmedPushRequest(req: OtaRequest)
      requires req.PoConfirmedPushReq? && FlagsValid(req)
      modifies this`wspOut
      ensures wspOut == old(wspOut) +
                        [SConfirmedPushReq(req.serverPushId, AddPushFlag(req), BodyOf(req.pushBody), req.sessionHandle)]
    {
      var hs := AddPushFlag(req);
      wspOut := wspOut + [SConfirmedPushReq(req.serverPushId, hs, BodyOf(req.pushBody), req.sessionHandle)];
    }

    /**
     * make_unit_push_request: a connectionless push with the push flag
     * added; the bearer and network travel only when they are required.
     */
    method MakeUnitPushRequest(req: OtaRequest)
      requires req.PoUnitPushReq? && FlagsValid(req)
      modifies this`wspUnitOut
      ensures wspUnitOut == old(wspUnitOut) + [Forward(req, bearerboxAddress, (_, _) => true).request]
    {
      var hs := AddPushFlag(req);
      var network := if req.networkRequired then req.network else None;
      var bearer := if req.bearerRequired then req.bearer else None;
      wspUnitOut := wspUnitOut + [SUnitPushReq(req.addrTuple, req.pushId, hs, BodyOf(req.pushBody),
                                               req.username, req.password, req.networkRequired, network,
                                               req.bearerRequired, bearer)];
    }

    /** abort_push: pass the abort on to the session service. */
    method AbortPush(req: OtaRequest)
      requires req.PoPushAbortReq? && ReasonValid(req.reason)
      modifies this`wspOut
      ensures wspOut == old(wspOut) + [SPushAbortReq(req.pushId, req.reason, req.sessionId)]
    {
      wspOut := wspOut + [SPushAbortReq(req.pushId, req.reason, req.sessionId)];
    }

    /**
     * pack_appid_list: the values of the X-WAP-Application-Id headers, one
     * after the other, in list order.
     */
    method PackAppidList(hs: Headers) returns (r: string)
      requires AppidListPackable(hs)
      ensures r == Concat(Values(hs))
    {
      r := [];
      var i := 0;
      while i < |hs|
        invariant 0 <= i <= |hs|
        invariant r == Concat(Values(hs[..i]))
      {
        assert Values(hs[..i + 1]) == Values(hs[..i]) + [hs[i].value] by {
          ValuesSnoc(hs[..i], hs[i]);
          assert hs[..i + 1] == hs[..i] + [hs[i]];
        }
        ConcatAppend(Values(hs[..i]), [hs[i].value]);
        r := r + hs[i].value;
        i := i + 1;
      }
      assert hs[..i] == hs;
    }

    /**
     * pack_server_address: the contact point for the current bearerbox
     * address, built byte by byte with the two flag bits set in place.
     */
    method PackServerAddress() returns (r: string)
      ensures r == ContactPoint(bearerboxAddress)
    {
      var first := |bearerboxAddress| % 256;
      first := SetBit(first, 0);
      first := SetBit(first, 1);
      HighBitsSet(|bearerboxAddress|);
      r := [first as char];
      r := r + [GSM_CSD_IPV4 as char];
      r := r + NatToDecimal(CONNECTED_PORT);
      r := r + bearerboxAddress;
    }
  }

  /** The values of a list extended by one header are extended by its value. */
  lemma ValuesSnoc(hs: Headers, h: Header)
    ensures Values(hs + [h]) == Values(hs) + [h.value]
  {
  }
}
