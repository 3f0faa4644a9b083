/**
 * The delivery-policy decisions of the push proxy gateway: connectionless or
 * session push (cless_accepted, confirmation_requested), SMS delivery
 * (sms_requested) and the bearer/network check (select_bearer_network),
 * from gw/wap_push_ppg.c.
 */
module PpgPolicy {
  import opened Wrappers
  import opened Pap
  import opened WapEvents

  /**
   * cless_accepted: a connectionless push is made when the PI asked for an
   * unconfirmed (or unspecified) delivery and no session with the client is
   * known.
   */
  predicate ClessAccepted(e: PushMessage, sessionFound: bool) {
    (e.deliveryMethod == Unconfirmed || e.deliveryMethod == NotSpecified) && !sessionFound
  }

  /** confirmation_requested: confirmed and prefer-confirmed pushes go over a session. */
  predicate ConfirmationRequested(e: PushMessage) {
    e.deliveryMethod == Confirmed || e.deliveryMethod == PreferConfirmed
  }

  /**
   * sms_requested on the bearer fields of a push machine: the outer test of
   * the source (neither field required gives 0) is subsumed by the inner
   * conjunction.
   */
  function SmsRequested(networkRequired: bool, network: Option<string>,
                        bearerRequired: bool, bearer: Option<string>): (r: bool)
    ensures r <==> networkRequired && network == Some("GSM") && bearerRequired && bearer == Some("SMS")
  {
    if !networkRequired && !bearerRequired then false
    else networkRequired && network == Some("GSM") && bearerRequired && bearer == Some("SMS")
  }

  /** The bearer types of WDP appendix C the gateway knows. */
  const BEARERS: seq<string> := ["Any", "SMS", "CSD", "GPRS", "Packet Data", "CDPD"]

  /** The network types of WDP appendix C the gateway knows. */
  const NETWORKS: seq<string> := ["Any", "GSM", "IS-95 CDMA", "ANSI-136", "AMPS", "PDC", "IDEN", "PHS", "TETRA"]

  /**
   * The table scan of select_bearer_network: the first index below `bound`
   * whose entry equals `x`, or `bound` when there is none. None stands for a
   * read of an entry past the end of `table` (which happens when `bound`
   * exceeds the table length and `x` is not in the table).
   */
  function Probe(table: seq<string>, x: Option<string>, i: nat, bound: nat): (r: Option<nat>)
    requires i <= bound
    ensures r.Some? ==> i <= r.value <= bound
    ensures r.Some? && r.value < bound ==> r.value < |table| && Some(table[r.value]) == x
    ensures bound <= |table| ==> r.Some?
    ensures r.Some? ==> forall k :: i <= k < r.value ==> k < |table| && Some(table[k]) != x
    ensures i <= |table| < bound && (forall k :: i <= k < |table| ==> Some(table[k]) != x) ==> r.None?
    ensures r.None? ==> forall k :: i <= k < |table| ==> Some(table[k]) != x
    decreases bound - i
  {
    if i == bound then Some(bound)
    else if i >= |table| then None
    else if Some(table[i]) == x then Some(i)
    else
      var r := Probe(table, x, i + 1, bound);
      assert r.Some? ==> forall k :: i + 1 <= k < r.value ==> k < |table| && Some(table[k]) != x;
      r
  }

  /** The decision of select_bearer_network and the event as it leaves it. */
  datatype BearerChoice = BearerChoice(supported: bool, e: PushMessage)

  /**
   * The rule the comment of select_bearer_network states and its networks[]
   * table suggests: both tables scanned within their bounds and the network
   * checked against NETWORKS. The code does not check the network (see the
   * as-written member and SelectBearer below); this is the reference it is
   * compared with. Without both a required bearer and a required network
   * nothing is checked. When the bearer is not SMS the requirement is
   * dropped from the event: only WAP over SMS needs it afterwards.
   */
  function SelectBearerNetwork(e: PushMessage): (r: BearerChoice)
    ensures r.supported <==> !e.bearerRequired || !e.networkRequired ||
                             ((exists i :: 0 <= i < |BEARERS| && e.bearer == Some(BEARERS[i])) &&
                              (exists j :: 0 <= j < |NETWORKS| && e.network == Some(NETWORKS[j])))
    ensures r.e.deliveryMethod == e.deliveryMethod && r.e.pushHeaders == e.pushHeaders &&
            r.e.deliverBefore == e.deliverBefore && r.e.pushData == e.pushData
    ensures r.supported && e.bearerRequired && e.networkRequired && e.bearer != Some("SMS") ==>
              !r.e.bearerRequired && !r.e.networkRequired && r.e.bearer.None? && r.e.network.None?
    ensures !(r.supported && e.bearerRequired && e.networkRequired && e.bearer != Some("SMS")) ==> r.e == e
  {
    if !e.bearerRequired || !e.networkRequired then BearerChoice(true, e)
    else
      var j := Probe(BEARERS, e.bearer, 0, |BEARERS|).value;
      var n := Probe(NETWORKS, e.network, 0, |NETWORKS|).value;
      if j == |BEARERS| || n == |NETWORKS| then BearerChoice(false, e)
      else if e.bearer != Some("SMS") then
        BearerChoice(true, e.(bearerRequired := false, bearer := None, networkRequired := false, network := None))
      else BearerChoice(true, e)
  }

  /**
   * select_bearer_network as written: the first loop runs over the number of
   * networks but compares the bearer against bearers[i], the second loop
   * compares the bearer again, and the network is never looked at. None
   * stands for the read past the six-entry bearer table.
   */
  function SelectBearerNetworkAsWritten(e: PushMessage): (r: Option<BearerChoice>)
    ensures r.None? <==> e.bearerRequired && e.networkRequired &&
                         forall i :: 0 <= i < |BEARERS| ==> e.bearer != Some(BEARERS[i])
  {
    if !e.bearerRequired || !e.networkRequired then Some(BearerChoice(true, e))
    else
      match Probe(BEARERS, e.bearer, 0, |NETWORKS|)
      case None => None
      case Some(i) =>
        var j := Probe(BEARERS, e.bearer, 0, |BEARERS|).value;
        if i == |NETWORKS| || j == |BEARERS| then Some(BearerChoice(false, e))
        else if e.bearer != Some("SMS") then
          Some(BearerChoice(true, e.(bearerRequired := false, bearer := None, networkRequired := false, network := None)))
        else Some(BearerChoice(true, e))
  }

  /**
   * The bearer decision the gateway acts on. It is select_bearer_network as
   * written, with the first scan kept inside the bearer table: the bearer is
   * checked, the network is never looked at, and an unknown bearer is
   * refused (as the second scan alone refuses it) where the code as written
   * reads past the table.
   */
  function SelectBearer(e: PushMessage): (r: BearerChoice)
    ensures r.supported <==> !e.bearerRequired || !e.networkRequired ||
                             exists i :: 0 <= i < |BEARERS| && e.bearer == Some(BEARERS[i])
    ensures r.e.deliveryMethod == e.deliveryMethod && r.e.pushHeaders == e.pushHeaders &&
            r.e.deliverBefore == e.deliverBefore && r.e.pushData == e.pushData
    ensures r.supported && e.bearerRequired && e.networkRequired && e.bearer != Some("SMS") ==>
              !r.e.bearerRequired && !r.e.networkRequired && r.e.bearer.None? && r.e.network.None?
    ensures !(r.supported && e.bearerRequired && e.networkRequired && e.bearer != Some("SMS")) ==> r.e == e
  {
    if !e.bearerRequired || !e.networkRequired then BearerChoice(true, e)
    else if Probe(BEARERS, e.bearer, 0, |BEARERS|).value == |BEARERS| then BearerChoice(false, e)
    else if e.bearer != Some("SMS") then
      BearerChoice(true, e.(bearerRequired := false, bearer := None, networkRequired := false, network := None))
    else BearerChoice(true, e)
  }

  /**
   * SelectBearer is the code as written wherever that stays inside its
   * tables, and refuses exactly the pushes for which it would not.
   */
  lemma {:induction false} SelectBearerFollowsCode(e: PushMessage)
    ensures SelectBearerNetworkAsWritten(e).Some? ==> SelectBearerNetworkAsWritten(e).value == SelectBearer(e)
    ensures SelectBearerNetworkAsWritten(e).None? ==> !SelectBearer(e).supported
  {
    if e.bearerRequired && e.networkRequired && SelectBearerNetworkAsWritten(e).Some? {
      var i := Probe(BEARERS, e.bearer, 0, |NETWORKS|).value;
      var j := Probe(BEARERS, e.bearer, 0, |BEARERS|).value;
      assert i < |BEARERS| && j < |BEARERS|;
    }
  }

  /**
   * The network of a push never changes whether its bearer is accepted, and
   * it agrees with the documented rule (bearer and network both known)
   * exactly for the networks of the table.
   */
  lemma NetworkIgnored(e: PushMessage, n: Option<string>)
    ensures SelectBearer(e.(network := n)).supported == SelectBearer(e).supported
    ensures (e.networkRequired ==> exists j :: 0 <= j < |NETWORKS| && e.network == Some(NETWORKS[j])) ==>
              SelectBearer(e) == SelectBearerNetwork(e)
  {
    if e.bearerRequired && e.networkRequired {
      var k := Probe(NETWORKS, e.network, 0, |NETWORKS|).value;
      if exists j :: 0 <= j < |NETWORKS| && e.network == Some(NETWORKS[j]) {
        assert k < |NETWORKS|;
      }
    }
  }

  /**
   * Where the code as written stays inside its table and the network is a
   * known one, it decides as the corrected function does.
   */
  lemma BearerAsWrittenAgrees(e: PushMessage)
    requires e.networkRequired ==> exists j :: 0 <= j < |NETWORKS| && e.network == Some(NETWORKS[j])
    ensures SelectBearerNetworkAsWritten(e).Some? ==> SelectBearerNetworkAsWritten(e).value == SelectBearerNetwork(e)
  {
    if e.bearerRequired && e.networkRequired && SelectBearerNetworkAsWritten(e).Some? {
      var i := Probe(BEARERS, e.bearer, 0, |NETWORKS|).value;
      var j := Probe(BEARERS, e.bearer, 0, |BEARERS|).value;
      assert i < |BEARERS|;
      assert j < |BEARERS|;
    }
  }

  /** An unknown network is let through, as written and by SelectBearer, when the bearer is known. */
  lemma UnknownNetworkAccepted(e: PushMessage)
    requires e.bearerRequired && e.networkRequired
    requires e.bearer == Some("SMS") && e.network == Some("X.25")
    ensures SelectBearerNetworkAsWritten(e) == Some(BearerChoice(true, e))
    ensures SelectBearer(e) == BearerChoice(true, e)
    ensures !SelectBearerNetwork(e).supported
  {
    assert Probe(BEARERS, e.bearer, 0, |NETWORKS|) == Some(1);
    assert Probe(BEARERS, e.bearer, 0, |BEARERS|) == Some(1);
  }

  /** An unknown bearer drives the first loop past the end of the bearer table; SelectBearer refuses it. */
  lemma UnknownBearerReadsPastTable(e: PushMessage)
    requires e.bearerRequired && e.networkRequired
    requires e.bearer == Some("X.25")
    ensures SelectBearerNetworkAsWritten(e).None?
    ensures !SelectBearer(e).supported
  {
  }
}
