/**
 * The decisions of handle_push_message (gw/wap_push_ppg.c), as values: which
 * response code a push submission gets, what the handler returns, and what
 * becomes of the push. Ppg.HandlePushMessage is proved to act as Intake says.
 */
module PpgPipeline {
  import opened Wrappers
  import opened Pap
  import opened HttpHeaders
  import opened PushTime
  import opened WapEvents
  import opened PpgPolicy
  import opened PpgContent
  import opened PpgMachines

  /** What becomes of a submitted push. */
  datatype Fate =
    | Dropped            // rejected, the push machine is removed again
    | Waiting            // too early to deliver: stays queued
    | UnitDelivered      // sent at once as an unconfirmed push and removed
    | SessionRequested   // queued, and a session is requested from the client

  /** The response code, the handler's return value and the fate of the push. */
  datatype Verdict = Verdict(code: int, ret: int, fate: Fate)

  /**
   * The branch handle_push_message takes, from the outcomes of its checks in
   * the order it makes them: duplicate push id, transformation (with the
   * address tuple known or not), bearer, delivery time, confirmation.
   */
  function Decide(duplicate: bool, transformable: bool, tupleKnown: bool, bearerOk: bool,
                  tc: TimeConstraint, confirmation: bool): (v: Verdict)
    ensures v.fate != Dropped <==> !duplicate && transformable && bearerOk && tc != TimeExpired
    ensures v.code == PAP_ACCEPTED_FOR_PROCESSING <==> v.fate != Dropped
    ensures v.ret == 0 <==> !duplicate && !transformable
    ensures v.ret == 0 || v.ret == 1
    ensures v.fate == Waiting <==> v.fate != Dropped && tc == TimeTooEarly
    ensures v.fate == SessionRequested <==> v.fate != Dropped && tc == NoConstraints && confirmation
    ensures v.fate == UnitDelivered <==> v.fate != Dropped && tc == NoConstraints && !confirmation
  {
    if duplicate then Verdict(PAP_DUPLICATE_PUSH_ID, 1, Dropped)
    else if !transformable then
      Verdict(if tupleKnown then PAP_TRANSFORMATION_FAILURE else PAP_ADDRESS_ERROR, 0, Dropped)
    else if !bearerOk then Verdict(PAP_REQUIRED_BEARER_NOT_AVAILABLE, 1, Dropped)
    else
      match tc
      case TimeExpired => Verdict(PAP_FORBIDDEN, 1, Dropped)
      case TimeTooEarly => Verdict(PAP_ACCEPTED_FOR_PROCESSING, 1, Waiting)
      case NoConstraints =>
        if !confirmation then Verdict(PAP_ACCEPTED_FOR_PROCESSING, 1, UnitDelivered)
        else Verdict(PAP_ACCEPTED_FOR_PROCESSING, 1, SessionRequested)
  }

  /** The codes a push submission can be answered with. */
  const SUBMISSION_CODES: set<int> := {
    PAP_ACCEPTED_FOR_PROCESSING, PAP_DUPLICATE_PUSH_ID, PAP_TRANSFORMATION_FAILURE,
    PAP_ADDRESS_ERROR, PAP_REQUIRED_BEARER_NOT_AVAILABLE, PAP_FORBIDDEN }

  /**
   * Every answer to a submission is one of the codes describe_code knows, so
   * the initiator never reads "unknown PAP code".
   */
  lemma DecideDescribed(duplicate: bool, transformable: bool, tupleKnown: bool, bearerOk: bool,
                        tc: TimeConstraint, confirmation: bool)
    ensures Decide(duplicate, transformable, tupleKnown, bearerOk, tc, confirmation).code in SUBMISSION_CODES
    ensures DescribeCode(Decide(duplicate, transformable, tupleKnown, bearerOk, tc, confirmation).code) != UNKNOWN_CODE
  {
    var code := Decide(duplicate, transformable, tupleKnown, bearerOk, tc, confirmation).code;
    DescribeCodeSpec(code);
    var k := if code == PAP_ACCEPTED_FOR_PROCESSING then 1
             else if code == PAP_FORBIDDEN then 3
             else if code == PAP_ADDRESS_ERROR then 4
             else if code == PAP_DUPLICATE_PUSH_ID then 6
             else if code == PAP_TRANSFORMATION_FAILURE then 8
             else 9;
    assert DescriptionTable[k].0 == code;
  }

  /**
   * The event create_session sends: the submission with its Content-Type
   * headers removed (the session request carries no content).
   */
  function SessionRequestEvent(e: PushMessage): (r: PushMessage)
    ensures r == e.(pushHeaders := r.pushHeaders)
    ensures r.pushHeaders.Some? && FindFirst(r.pushHeaders.value, "Content-Type").None?
  {
    RemovedNotFound(e.pushHeaders.GetOr([]), "Content-Type");
    e.(pushHeaders := Some(RemoveAll(e.pushHeaders.GetOr([]), "Content-Type")))
  }

  /**
   * Everything handle_push_message decides about a submission: whether it
   * goes connectionless, the transformed event, the bearer decision, the
   * time constraint, the push machine as it stands once pending, the
   * verdict, and the one OTA request it leads to, if any.
   */
  datatype Plan = Plan(cless: bool, tr: Transformed, bc: BearerChoice, tc: TimeConstraint,
                       pm: PushMachine, verdict: Verdict, request: Option<OtaRequest>)

  /**
   * The verdict and the request for a push that is pending as `pm`, once the
   * bearer decision `bc` and the time constraint `tc` are known.
   */
  function Judge(cless: bool, tr: Transformed, bc: BearerChoice, tc: TimeConstraint, pm: PushMachine,
                 duplicate: bool): Plan {
    var v := Decide(duplicate, tr.ok, tr.tuple.Some?, bc.supported, tc, ConfirmationRequested(bc.e));
    var request :=
      match v.fate
      case UnitDelivered => Some(UnitPushReq(NOT_LAST, pm))
      case SessionRequested => Some(SessionRequestReq(SessionRequestEvent(bc.e), pm))
      case _ => None;
    Plan(cless, tr, bc, tc, pm, v, request)
  }

  /**
   * The checks after the push machine `pm0` is stored: bearer, delivery
   * time and confirmation, and the request a delivered push makes.
   */
  function Assess(cless: bool, tr: Transformed, pm0: PushMachine, duplicate: bool, now: Tm): Plan {
    var bc := SelectBearer(tr.e);
    var pm := ApplyStatus(pm0, 0, PendingStatus, now);
    Judge(cless, tr, bc, DeliveryTimeConstraints(bc.e.deliverBefore, pm.deliverAfter, now), pm, duplicate)
  }

  /** A push the checks leave queued is pending. */
  lemma AssessPending(cless: bool, tr: Transformed, pm0: PushMachine, duplicate: bool, now: Tm)
    ensures Assess(cless, tr, pm0, duplicate, now).pm.messageState == Pending
  {
  }

  /**
   * handle_push_message's decisions for submission `e`, given whether the
   * client has a session, the push list the push goes to before it is
   * stored, the push id it gets, the clock, and the external helpers of
   * transform_message.
   */
  function Intake(e: PushMessage, sessionFound: bool, scope: seq<PushMachine>, pid: nat, now: Tm,
                  toAppId: string -> int, contentType: Headers -> Option<(string, string)>,
                  comp: Compilers): Plan
  {
    var cless := ClessAccepted(e, sessionFound);
    var tr := TransformMessage(e, cless, toAppId, contentType, comp);
    Assess(cless, tr, NewPushMachine(tr.e, tr.tuple, pid), HasPiPushId(scope, e.piPushId), now)
  }
}
