/**
 * The WAP events exchanged by the push proxy gateway: the push message the
 * PI interface delivers, the indications the OTA layer sends up, the
 * requests the gateway sends down to OTA, the requests OTA sends on to WSP,
 * the connect response for the application layer and the push response for
 * the push initiator. Only the fields the core reads or writes are kept.
 *
 * A C pointer that may be NULL is an Option. Flag fields the OTA layer
 * checks for 0 or 1 (trusted, authenticated, last) stay integers so that the
 * check means something.
 */
module WapEvents {
  import opened Wrappers
  import opened Pap
  import opened HttpHeaders
  import opened PushTime

  /**
   * A WAP address quadruplet. As in the WDP layer written for pull, the
   * "remote" end is the client (phone) and the "local" end the gateway.
   */
  datatype AddrTuple = AddrTuple(remoteAddress: string, remotePort: int, localAddress: string, localPort: int)

  /** A WSP capability list, kept as an uninterpreted sequence. */
  type Caps = seq<string>

  /** Push_Message: a push submission as the PAP parser hands it over. */
  datatype PushMessage = PushMessage(
    piPushId: string,
    addressValue: string,               // the client address (PI client specifier)
    deliveryMethod: DeliveryMethod,
    deliverBefore: Option<string>,      // PAP timestamps
    deliverAfter: Option<string>,
    priority: int,
    pushHeaders: Option<Headers>,
    pushData: Option<string>,
    networkRequired: bool,
    network: Option<string>,
    bearerRequired: bool,
    bearer: Option<string>,
    progressNotesRequested: bool,
    ppgNotifyRequestedTo: Option<string>,
    piCapabilities: Option<Caps>,
    username: Option<string>,
    password: Option<string>)

  /** Indications from the OTA layer (handled by handle_internal_event). */
  datatype Indication =
    | PomConnectInd(sessionId: int, addrTuple: AddrTuple, requestedCaps: Caps)
    | PomDisconnectInd(sessionHandle: int)
    | PoConfirmedPushCnf(sessionHandle: int, serverPushId: int)
    | PoPushAbortInd(sessionHandle: int, pushId: int, reason: int)
    | OtherIndication

  /** Requests from the gateway to the OTA layer (handled by handle_ota_event). */
  datatype OtaRequest =
    | PomSessionRequestReq(addrTuple: Option<AddrTuple>, pushHeaders: Headers, pushId: int)
    | PoPushReq(pushHeaders: Headers, authenticated: int, trusted: int, last: int,
                pushBody: Option<string>, sessionHandle: int)
    | PoConfirmedPushReq(serverPushId: int, pushHeaders: Headers, authenticated: int, trusted: int,
                         last: int, pushBody: Option<string>, sessionHandle: int)
    | PoUnitPushReq(addrTuple: Option<AddrTuple>, pushId: int, pushHeaders: Headers,
                    authenticated: int, trusted: int, last: int,
                    username: Option<string>, password: Option<string>,
                    bearerRequired: bool, bearer: Option<string>,
                    networkRequired: bool, network: Option<string>,
                    pushBody: Option<string>)
    | PoPushAbortReq(pushId: int, reason: int, sessionId: int)
    | OtherRequest

  /**
   * The body of a WSP request: either the push content, or the service
   * indication (SIA) of a session request, kept as its two packed parts.
   */
  datatype Body = Bytes(bytes: string) | Sia(appidList: string, contactPoints: string)

  /** Requests from the OTA layer to WSP. */
  datatype WspRequest =
    | SUnitPushReq(addrTuple: Option<AddrTuple>, pushId: int, pushHeaders: Option<Headers>,
                   pushBody: Option<Body>, username: Option<string>, password: Option<string>,
                   networkRequired: bool, network: Option<string>,
                   bearerRequired: bool, bearer: Option<string>)
    | SPushReq(pushHeaders: Option<Headers>, pushBody: Option<Body>, sessionId: int)
    | SConfirmedPushReq(serverPushId: int, pushHeaders: Option<Headers>, pushBody: Option<Body>, sessionId: int)
    | SPushAbortReq(pushId: int, reason: int, sessionHandle: int)

  /** Pom_Connect_Res, for the application layer. */
  datatype ApplEvent = PomConnectRes(negotiatedCaps: Caps, sessionId: int)

  /**
   * Push_Response, for the push initiator. The sender name and the reply
   * time are formatted from the configuration and the clock; the model keeps
   * the broken-down time instead of its text. The description the response
   * carries is always describe_code of its code, so it is derived from the
   * code (Description) rather than stored.
   */
  datatype PushResponse = PushResponse(piPushId: string, replyTime: Tm, code: int)
  {
    function Description(): string {
      DescribeCode(code)
    }
  }
}
