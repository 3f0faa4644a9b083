/**
 * The PAP (WAP-164) vocabulary the gateway uses: result codes, delivery
 * methods, message states and the status values fed to the push-attribute
 * update, the WSP abort reasons of WAP-203 table 35, and the two translation
 * tables between them (describe_code and ota_abort_to_pap in
 * gw/wap_push_ppg.c).
 *
 * The numeric values come from headers that are not part of this model; they
 * are those of PAP section 9.13 (result codes) and WSP table 35 (abort
 * reasons). The properties proved below rely on them being pairwise distinct
 * and on the abort reasons being 0xEA..0xEE, which the offset in
 * ota_abort_to_pap presupposes.
 */
module Pap {

  // PAP result codes
  const PAP_OK: int := 1000
  const PAP_ACCEPTED_FOR_PROCESSING: int := 1001
  const PAP_BAD_REQUEST: int := 2000
  const PAP_FORBIDDEN: int := 2001
  const PAP_ADDRESS_ERROR: int := 2002
  const PAP_CAPABILITIES_MISMATCH: int := 2005
  const PAP_DUPLICATE_PUSH_ID: int := 2007
  const PAP_INTERNAL_SERVER_ERROR: int := 3000
  const PAP_TRANSFORMATION_FAILURE: int := 3006
  const PAP_REQUIRED_BEARER_NOT_AVAILABLE: int := 3010
  const PAP_SERVICE_FAILURE: int := 4000
  const PAP_CLIENT_ABORTED: int := 5000
  /** The PAP client-abort code for "user pending" (5026 + 2). */
  const PAP_ABORT_USERPND: int := 5028

  // WSP abort reasons that a client may give for a push (OTA section 6.3.3)
  const WSP_ABORT_USERREQ: int := 0xEA
  const WSP_ABORT_USERRFS: int := 0xEB
  const WSP_ABORT_USERPND: int := 0xEC
  const WSP_ABORT_USERDCR: int := 0xED
  const WSP_ABORT_USERDCU: int := 0xEE

  /** The quality of service a push initiator asks for. */
  datatype DeliveryMethod = NotSpecified | Confirmed | PreferConfirmed | Unconfirmed

  /**
   * The message-state part of the PAP push attribute. `Unset` is the zero a
   * freshly created push machine holds before its first update.
   */
  datatype MessageState = Unset | Pending | Delivered | Undeliverable | Aborted | Expired

  predicate IsTerminal(m: MessageState) {
    m == Delivered || m == Undeliverable || m == Aborted || m == Expired
  }

  /** The status argument of update_push_data_with_attribute. */
  datatype Status =
    | Undeliverable1 | Undeliverable2 | AbortedStatus | Delivered1 | Delivered2
    | ExpiredStatus | PendingStatus
    | OtherStatus(n: int)  // anything else: reported as an error, nothing set

  /** The description table of describe_code, in table order. */
  const DescriptionTable: seq<(int, string)> := [
    (PAP_OK, "The request succeeded"),
    (PAP_ACCEPTED_FOR_PROCESSING, "The request has been accepted for processing"),
    (PAP_BAD_REQUEST, "Not understood due to malformed syntax"),
    (PAP_FORBIDDEN, "Request was refused"),
    (PAP_ADDRESS_ERROR, "The client specified not recognised"),
    (PAP_CAPABILITIES_MISMATCH, "Capabilities assumed by PI were not  acceptable for the client specified"),
    (PAP_DUPLICATE_PUSH_ID, "Push id supplied was not unique"),
    (PAP_INTERNAL_SERVER_ERROR, "Server could not fulfill the request due to an internal error"),
    (PAP_TRANSFORMATION_FAILURE, "PPG was unable to perform a transformation of the message"),
    (PAP_REQUIRED_BEARER_NOT_AVAILABLE, "Required bearer not available"),
    (PAP_SERVICE_FAILURE, "The service failed. The client may re-attempt the operation"),
    (PAP_CLIENT_ABORTED, "The client aborted the operation. No reason given"),
    (WSP_ABORT_USERREQ, "Wsp requested abort"),
    (WSP_ABORT_USERRFS, "Wsp refused push message. Do not try again"),
    (WSP_ABORT_USERPND, "Push message cannot be delivered to intended destination by the wsp"),
    (WSP_ABORT_USERDCR, "Push message discarded due to resource shortage in wsp"),
    (WSP_ABORT_USERDCU, "Content type of the push message cannot be processed by the wsp")
  ]

  const UNKNOWN_CODE: string := "unknown PAP code"

  /** The linear scan of describe_code, from table index `i` on. */
  function DescribeFrom(code: int, i: nat): string
    requires i <= |DescriptionTable|
    decreases |DescriptionTable| - i
  {
    if i == |DescriptionTable| then UNKNOWN_CODE
    else if DescriptionTable[i].0 == code then DescriptionTable[i].1
    else DescribeFrom(code, i + 1)
  }

  /** describe_code: the human-readable text of a result code. */
  function DescribeCode(code: int): string {
    DescribeFrom(code, 0)
  }

  /** The codes of the table are pairwise distinct, so a lookup is never ambiguous. */
  lemma TableCodesDistinct()
    ensures forall i, j :: 0 <= i < j < |DescriptionTable| ==> DescriptionTable[i].0 != DescriptionTable[j].0
  {
  }

  /** The scan from index i finds the entry of `code` at or after i, or reports it unknown. */
  lemma {:induction false} DescribeFromSpec(code: int, i: nat)
    requires i <= |DescriptionTable|
    ensures forall k :: i <= k < |DescriptionTable| && DescriptionTable[k].0 == code ==>
              DescribeFrom(code, i) == DescriptionTable[k].1
    ensures (forall k :: i <= k < |DescriptionTable| ==> DescriptionTable[k].0 != code) ==>
              DescribeFrom(code, i) == UNKNOWN_CODE
    decreases |DescriptionTable| - i
  {
    if i < |DescriptionTable| && DescriptionTable[i].0 != code {
      DescribeFromSpec(code, i + 1);
    } else if i < |DescriptionTable| {
      TableCodesDistinct();
    }
  }

  /**
   * Every code of the table is described by its own entry; every other code
   * by "unknown PAP code".
   */
  lemma DescribeCodeSpec(code: int)
    ensures forall k :: 0 <= k < |DescriptionTable| && DescriptionTable[k].0 == code ==>
              DescribeCode(code) == DescriptionTable[k].1
    ensures (forall k :: 0 <= k < |DescriptionTable| ==> DescriptionTable[k].0 != code) ==>
              DescribeCode(code) == UNKNOWN_CODE
  {
    DescribeFromSpec(code, 0);
  }

  /** ota_abort_to_pap: translate an OTA abort reason by offset into the PAP abort range. */
  function OtaAbortToPap(reason: int): (code: int) {
    5026 + (reason - 0xEA)
  }

  /** The five client abort reasons land on the PAP client-abort codes 5026..5030, in order. */
  lemma UserAbortsTranslate()
    ensures OtaAbortToPap(WSP_ABORT_USERREQ) == 5026
    ensures OtaAbortToPap(WSP_ABORT_USERRFS) == 5027
    ensures OtaAbortToPap(WSP_ABORT_USERPND) == PAP_ABORT_USERPND
    ensures OtaAbortToPap(WSP_ABORT_USERDCR) == 5029
    ensures OtaAbortToPap(WSP_ABORT_USERDCU) == 5030
  {
  }

  /**
   * An aborted push is given the code ota_abort_to_pap makes of the client's
   * reason but the description of the reason itself: for each of the five
   * client reasons the translated code lies in 5026..5030, outside the
   * description table, while the reason has its own entry there.
   */
  lemma UserAbortsDescribed(reason: int)
    requires WSP_ABORT_USERREQ <= reason <= WSP_ABORT_USERDCU
    ensures 5026 <= OtaAbortToPap(reason) <= 5030
    ensures DescribeCode(OtaAbortToPap(reason)) == UNKNOWN_CODE
    ensures DescribeCode(reason) == DescriptionTable[reason - WSP_ABORT_USERREQ + 12].1
    ensures DescribeCode(reason) != UNKNOWN_CODE
  {
    ClientAbortCodesUnknown(OtaAbortToPap(reason));
    DescribeCodeSpec(reason);
    assert DescriptionTable[reason - WSP_ABORT_USERREQ + 12].0 == reason;
  }

  /** The PAP client-abort codes 5026..5030 have no entry in the description table. */
  lemma ClientAbortCodesUnknown(code: int)
    requires 5026 <= code <= 5030
    ensures DescribeCode(code) == UNKNOWN_CODE
  {
    assert forall k :: 0 <= k < |DescriptionTable| ==> DescriptionTable[k].0 < 5026 || DescriptionTable[k].0 > 5030;
    DescribeCodeSpec(code);
  }
}
