/**
 * The message transformation of the push proxy gateway (WAP-151 PPG Service
 * section 6.1.2.1), from gw/wap_push_ppg.c: the X-WAP-Application-Id
 * rewrite, the no-transform cache directive, the compilation of WML and SI
 * content, and the address quadruplets the pushes are sent with.
 *
 * The WML and SI compilers, wsp_string_to_application_id and
 * http_header_get_content_type are not part of this model; they enter as
 * function parameters.
 */
module PpgContent {
  import opened Wrappers
  import opened Octstr
  import opened HttpHeaders
  import opened WapEvents

  // Ports of WAP-259 WDP appendix B
  const CONNECTIONLESS_PUSH_CLIPORT: int := 2948
  const CONNECTED_CLIPORT: int := 2949
  const CONNECTIONLESS_SERVPORT: int := 9200
  const CONNECTED_SERVPORT: int := 9201

  const APPID_HEADER: string := "X-WAP-Application-Id"
  const APP_ENCODING: string := ";app-encoding="

  /** The application ids registered with WINA that the gateway recognises. */
  const WINA_URIS: seq<string> := ["*", "push.sia", "wml.ua", "push.mms"]

  /** The assigned code of the WML user agent, the default application. */
  const WML_UA_CODE: string := "2"

  /**
   * set_addr_tuple: the tuple a push is sent with; the gateway's own
   * address is INADDR_ANY.
   */
  function SetAddrTuple(address: string, cliport: int, servport: int): (t: AddrTuple)
    ensures t.remoteAddress == address && t.localAddress == "0.0.0.0"
    ensures t.remotePort == cliport && t.localPort == servport
  {
    AddrTuple(address, cliport, "0.0.0.0", servport)
  }

  /** addr_tuple_change_cliport: the same tuple with another client port. */
  function AddrTupleChangeCliport(t: Option<AddrTuple>, port: int): (r: Option<AddrTuple>)
    ensures r.None? <==> t.None?
    ensures r.Some? ==> r.value.remotePort == port && r.value.(remotePort := t.value.remotePort) == t.value
  {
    match t
    case None => None
    case Some(a) => Some(AddrTuple(a.remoteAddress, port, a.localAddress, a.localPort))
  }

  /** The first WINA id (in table order) occurring anywhere in `s`, with its position. */
  function FindWina(s: string, i: nat): (r: Option<(nat, nat)>)
    requires i <= |WINA_URIS|
    ensures r.Some? ==> i <= r.value.0 < |WINA_URIS| && r.value.1 == Search(s, WINA_URIS[r.value.0], 0, true) >= 0
    ensures r.Some? ==> forall k :: i <= k < r.value.0 ==> Search(s, WINA_URIS[k], 0, true) < 0
    ensures r.None? <==> forall k :: i <= k < |WINA_URIS| ==> Search(s, WINA_URIS[k], 0, true) < 0
    decreases |WINA_URIS| - i
  {
    if i == |WINA_URIS| then None
    else
      var pos := Search(s, WINA_URIS[i], 0, true);
      if pos >= 0 then Some((i, pos as nat)) else FindWina(s, i + 1)
  }

  /**
   * parse_appid_header: with an ";app-encoding=" parameter the coded value
   * after it is kept; otherwise the URI from the first recognised WINA id on
   * is turned into its code by `toAppId` (kept as text when it has none),
   * and a value with no WINA id at all becomes "2" (the WML user agent).
   */
  function ParseAppidHeader(content: string, toAppId: string -> int): (r: string)
  {
    var semi := Search(content, ";", 0, false);
    if semi >= 0 then
      Delete(Delete(content, semi, |APP_ENCODING|), 0, semi)
    else
      match FindWina(content, 0)
      case None => WML_UA_CODE
      case Some((_, pos)) =>
        var uri := Delete(content, 0, pos);
        var coded := toAppId(uri);
        if coded >= 0 then NatToDecimal(coded) else uri
  }

  /** An app-encoded header value yields exactly its coded value. */
  lemma AppEncodingRoundTrip(uri: string, code: string, toAppId: string -> int)
    requires forall k :: 0 <= k < |uri| ==> uri[k] != ';'
    ensures ParseAppidHeader(uri + APP_ENCODING + code, toAppId) == code
  {
    var s := uri + APP_ENCODING + code;
    assert MatchesAt(s, ";", |uri|, false);
    assert forall p :: 0 <= p < |uri| ==> !MatchesAt(s, ";", p, false) by {
      forall p | 0 <= p < |uri| ensures !MatchesAt(s, ";", p, false) {
        assert s[p] == uri[p] && ";"[0] == ';';
        assert !CharEq(s[p + 0], ";"[0], false);
      }
    }
    var d := Delete(s, |uri|, |APP_ENCODING|);
    assert d == uri + code;
    assert Delete(d, 0, |uri|) == code;
  }

  /** A value naming no recognised application stands for the WML user agent. */
  lemma UnknownAppIsWmlUa(content: string, toAppId: string -> int)
    requires Search(content, ";", 0, false) < 0
    requires forall k :: 0 <= k < |WINA_URIS| ==> Search(content, WINA_URIS[k], 0, true) < 0
    ensures ParseAppidHeader(content, toAppId) == WML_UA_CODE
  {
  }

  /** A recognised id with an assigned code is replaced by the code's decimal text. */
  lemma WinaIdCoded(content: string, toAppId: string -> int)
    requires Search(content, ";", 0, false) < 0
    requires FindWina(content, 0).Some?
    requires toAppId(Delete(content, 0, FindWina(content, 0).value.1)) >= 0
    ensures ParseAppidHeader(content, toAppId) == NatToDecimal(toAppId(Delete(content, 0, FindWina(content, 0).value.1)))
    ensures AllDigits(ParseAppidHeader(content, toAppId))
  {
  }

  /**
   * check_x_wap_application_id_header: every X-WAP-Application-Id header is
   * replaced by one carrying the parsed value of the first, or by none when
   * that value is the WML user agent's (the default).
   */
  function CheckXWapApplicationIdHeader(hs: Headers, toAppId: string -> int): (r: Headers)
    ensures FindFirst(hs, APPID_HEADER).None? ==> r == hs
    ensures FindFirst(hs, APPID_HEADER).Some? ==>
              var v := ParseAppidHeader(FindFirst(hs, APPID_HEADER).value, toAppId);
              r == RemoveAll(hs, APPID_HEADER) + (if v != WML_UA_CODE then [Header(APPID_HEADER, v)] else [])
  {
    match FindFirst(hs, APPID_HEADER)
    case None => hs
    case Some(content) =>
      var v := ParseAppidHeader(content, toAppId);
      var rest := RemoveAll(hs, APPID_HEADER);
      if v != WML_UA_CODE then Add(rest, APPID_HEADER, v) else rest
  }

  /**
   * After the rewrite at most one X-WAP-Application-Id header remains, at the
   * end of the list, and no other header has been touched.
   */
  lemma AppidHeaderAtMostOnce(hs: Headers, toAppId: string -> int)
    ensures var r := CheckXWapApplicationIdHeader(hs, toAppId);
            |FindAll(r, APPID_HEADER)| <= 1 &&
            forall h :: !NameIs(h, APPID_HEADER) ==> (h in r <==> h in hs)
  {
    var r := CheckXWapApplicationIdHeader(hs, toAppId);
    match FindFirst(hs, APPID_HEADER)
    case None =>
      assert FindAll(r, APPID_HEADER) == [];
    case Some(content) =>
      var rest := RemoveAll(hs, APPID_HEADER);
      RemovedNotFound(hs, APPID_HEADER);
      FindAllAppend(rest, [Header(APPID_HEADER, ParseAppidHeader(content, toAppId))], APPID_HEADER);
  }

  lemma {:induction false} FindAllAppend(a: Headers, b: Headers, name: string)
    ensures FindAll(a + b, name) == FindAll(a, name) + FindAll(b, name)
  {
    if a != [] {
      assert (a + b)[1..] == a[1..] + b;
      FindAllAppend(a[1..], b, name);
    } else {
      assert a + b == b;
    }
  }

  /** The header value that forbids transformation. */
  const NO_TRANSFORM: string := "no-transform"

  /** Some Cache-Control value among `cds` is exactly "no-transform". */
  function AnyNoTransform(cds: Headers): (r: bool)
    ensures r <==> exists i :: 0 <= i < |cds| && cds[i].value == NO_TRANSFORM
  {
    if cds == [] then false
    else if cds[0].value == NO_TRANSFORM then true
    else
      var r := AnyNoTransform(cds[1..]);
      assert r ==> exists i :: 1 <= i < |cds| && cds[i].value == NO_TRANSFORM by {
        if r {
          var i :| 0 <= i < |cds[1..]| && cds[1..][i].value == NO_TRANSFORM;
          assert cds[i + 1].value == NO_TRANSFORM;
        }
      }
      r
  }

  /**
   * content_transformable: the content may be transformed unless some
   * Cache-Control header has the value "no-transform".
   */
  function ContentTransformable(hs: Headers): (r: bool)
    ensures !r <==> exists h :: h in hs && NameIs(h, "Cache-Control") && h.value == NO_TRANSFORM
  {
    var cds := FindAll(hs, "Cache-Control");
    var found := AnyNoTransform(cds);
    assert found ==> exists h :: h in hs && NameIs(h, "Cache-Control") && h.value == NO_TRANSFORM by {
      if found {
        var i :| 0 <= i < |cds| && cds[i].value == NO_TRANSFORM;
        assert cds[i] in cds;
      }
    }
    assert (exists h :: h in hs && NameIs(h, "Cache-Control") && h.value == NO_TRANSFORM) ==> found by {
      if h :| h in hs && NameIs(h, "Cache-Control") && h.value == NO_TRANSFORM {
        var i :| 0 <= i < |cds| && cds[i] == h;
      }
    }
    !found
  }

  /** A content to be delivered: its type, character set and body. */
  datatype Content = Content(ctype: string, charset: string, body: string)

  /** The two compilers of the dispatch table: body and charset to compiled body, or None. */
  datatype Compilers = Compilers(wml: (string, string) -> Option<string>, si: (string, string) -> Option<string>)

  const WML_TYPE: string := "text/vnd.wap.wml"
  const WMLC_TYPE: string := "application/vnd.wap.wmlc"
  const SI_TYPE: string := "text/vnd.wap.si"
  const SIC_TYPE: string := "application/vnd.wap.sic"

  /**
   * pap_convert_content: WML and SI sources are compiled to their binary
   * types; a failed compilation rejects the content; any other type passes
   * unchanged.
   */
  function PapConvertContent(c: Content, comp: Compilers): (r: (bool, Content))
    ensures c.ctype != WML_TYPE && c.ctype != SI_TYPE ==> r == (true, c)
    ensures !r.0 ==> r.1 == c && (c.ctype == WML_TYPE || c.ctype == SI_TYPE)
    ensures r.0 && c.ctype == WML_TYPE ==> comp.wml(c.body, c.charset).Some? && r.1 == Content(WMLC_TYPE, c.charset, comp.wml(c.body, c.charset).value)
    ensures r.0 && c.ctype == SI_TYPE ==> comp.si(c.body, c.charset).Some? && r.1 == Content(SIC_TYPE, c.charset, comp.si(c.body, c.charset).value)
    ensures r.0 <==> (c.ctype == WML_TYPE ==> comp.wml(c.body, c.charset).Some?) &&
                     (c.ctype == SI_TYPE ==> comp.si(c.body, c.charset).Some?)
  {
    if c.ctype == WML_TYPE then
      match comp.wml(c.body, c.charset)
      case None => (false, c)
      case Some(b) => (true, Content(WMLC_TYPE, c.charset, b))
    else if c.ctype == SI_TYPE then
      match comp.si(c.body, c.charset)
      case None => (false, c)
      case Some(b) => (true, Content(SIC_TYPE, c.charset, b))
    else (true, c)
  }

  /**
   * The outcome of transform_message: whether the push may go on, the tuple
   * it is sent with (none when there were no headers), and the event's
   * headers and body as the transformation leaves them.
   */
  datatype Transformed = Transformed(ok: bool, tuple: Option<AddrTuple>, e: PushMessage)

  /**
   * transform_message. `contentType` stands for http_header_get_content_type
   * (type and charset of the headers, None when it yields no type).
   */
  function TransformMessage(e: PushMessage, cless: bool, toAppId: string -> int,
                            contentType: Headers -> Option<(string, string)>, comp: Compilers): (r: Transformed)
    ensures e.pushHeaders.None? <==> r.tuple.None?
    ensures e.pushHeaders.None? ==> !r.ok && r.e == e
    ensures r.tuple.Some? ==> r.tuple.value == SetAddrTuple(e.addressValue,
              if cless then CONNECTIONLESS_PUSH_CLIPORT else CONNECTED_CLIPORT,
              if cless then CONNECTIONLESS_SERVPORT else CONNECTED_SERVPORT)
    ensures e.pushHeaders.Some? ==> r.e.pushHeaders == Some(CheckXWapApplicationIdHeader(e.pushHeaders.value, toAppId))
    ensures r.e == e.(pushHeaders := r.e.pushHeaders, pushData := r.e.pushData)
    ensures e.pushHeaders.Some? && (!ContentTransformable(r.e.pushHeaders.value) || e.pushData.None?) ==>
              r.ok && r.e.pushData == e.pushData
    ensures r.ok && e.pushHeaders.Some? && e.pushData.Some? && ContentTransformable(r.e.pushHeaders.value) ==>
              var ct := contentType(r.e.pushHeaders.value);
              ct.Some? && PapConvertContent(Content(ct.value.0, ct.value.1, e.pushData.value), comp).0 &&
              r.e.pushData == Some(PapConvertContent(Content(ct.value.0, ct.value.1, e.pushData.value), comp).1.body)
  {
    match e.pushHeaders
    case None => Transformed(false, None, e)
    case Some(hs0) =>
      var hs := CheckXWapApplicationIdHeader(hs0, toAppId);
      var cliport := if cless then CONNECTIONLESS_PUSH_CLIPORT else CONNECTED_CLIPORT;
      var servport := if cless then CONNECTIONLESS_SERVPORT else CONNECTED_SERVPORT;
      var tuple := SetAddrTuple(e.addressValue, cliport, servport);
      var e1 := e.(pushHeaders := Some(hs));
      if !ContentTransformable(hs) || e.pushData.None? then Transformed(true, Some(tuple), e1)
      else
        match contentType(hs)
        case None => Transformed(false, Some(tuple), e1)
        case Some((ctype, charset)) =>
          var conv := PapConvertContent(Content(ctype, charset, e.pushData.value), comp);
          if conv.0 then Transformed(true, Some(tuple), e1.(pushData := Some(conv.1.body)))
          else Transformed(false, Some(tuple), e1)
  }

  /** A transformation fails only for missing headers, a missing type or a failed compilation. */
  lemma TransformFailure(e: PushMessage, cless: bool, toAppId: string -> int,
                         contentType: Headers -> Option<(string, string)>, comp: Compilers)
    ensures var r := TransformMessage(e, cless, toAppId, contentType, comp);
            !r.ok <==> e.pushHeaders.None? ||
                       (ContentTransformable(r.e.pushHeaders.value) && e.pushData.Some? &&
                        (contentType(r.e.pushHeaders.value).None? ||
                         !PapConvertContent(Content(contentType(r.e.pushHeaders.value).value.0,
                                                    contentType(r.e.pushHeaders.value).value.1,
                                                    e.pushData.value), comp).0))
  {
  }
}
