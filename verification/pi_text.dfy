/**
 * Text helpers the push proxy gateway applies to what the push initiator
 * sends and to what it sends back (gw/wap_push_ppg.c): the Content-Type
 * checks of PAP section 8 (type_is, headers_acceptable), the MIME boundary
 * parameter of RFC 2046 section 5.1.1 (get_mime_boundary) and the removal
 * of characters that may not appear in an XML attribute value
 * (escape_fragment).
 */
module PiText {
  import opened Wrappers
  import opened Octstr
  import opened HttpHeaders

  /** `name` occurs in `s`, ignoring ASCII case. */
  predicate Contains(s: string, name: string) {
    exists p :: 0 <= p <= |s| && MatchesAt(s, name, p, true)
  }

  function Quoted(name: string): string {
    "\"" + name + "\""
  }

  /**
   * type_is: the header mentions `name`, bare or between double quotes. The
   * quoted search can only succeed where the bare one already has, so the
   * result is plain containment.
   */
  function TypeIs(contentHeader: string, name: string): (r: bool)
    ensures r <==> Contains(contentHeader, name)
  {
    var bare := Search(contentHeader, name, 0, true);
    var quoted := Search(contentHeader, Quoted(name), 0, true);
    assert quoted >= 0 ==> MatchesAt(contentHeader, name, quoted + 1, true) by {
      if quoted >= 0 {
        var q := Quoted(name);
        forall k | 0 <= k < |name| ensures CharEq(contentHeader[quoted + 1 + k], name[k], true) {
          assert q[k + 1] == name[k];
          assert CharEq(contentHeader[quoted + (k + 1)], q[k + 1], true);
        }
      }
    }
    bare >= 0 || quoted >= 0
  }

  const CONTENT_TYPE: string := "Content-Type"
  const NO_CONTENT_TYPE: string := "no content type header found"

  /**
   * headers_acceptable: the first Content-Type header must name both
   * multipart/related and application/xml. The second component is the
   * header value, or the error text when there is no such header.
   */
  function HeadersAcceptable(hs: Headers): (r: (bool, string))
    ensures FindFirst(hs, CONTENT_TYPE).None? ==> r == (false, NO_CONTENT_TYPE)
    ensures FindFirst(hs, CONTENT_TYPE).Some? ==>
              r.1 == FindFirst(hs, CONTENT_TYPE).value &&
              (r.0 <==> Contains(r.1, "multipart/related") && Contains(r.1, "application/xml"))
  {
    match FindFirst(hs, CONTENT_TYPE)
    case None => (false, NO_CONTENT_TYPE)
    case Some(v) => (TypeIs(v, "multipart/related") && TypeIs(v, "application/xml"), v)
  }

  const BOUNDARY: string := "boundary="

  /** The characters the boundary loop keeps. */
  predicate KeptInBoundary(c: char) { c != ' ' && c != '"' }

  /** `s` without spaces and double quotes. */
  function StripBoundary(s: string): (r: string)
    ensures forall k :: 0 <= k < |r| ==> KeptInBoundary(r[k])
    ensures |r| <= |s|
  {
    if s == [] then []
    else StripBoundary(s[..|s| - 1]) + (if KeptInBoundary(s[|s| - 1]) then [s[|s| - 1]] else [])
  }

  /** Where the boundary value starts: after "boundary=" and an opening quote, if any. */
  function BoundaryStart(h: string): (r: Option<nat>)
    ensures r.Some? ==> r.value <= |h|
    ensures r.None? <==> Search(h, BOUNDARY, 0, true) < 0
  {
    var found := Search(h, BOUNDARY, 0, true);
    if found < 0 then None
    else
      var pos := found + |BOUNDARY|;
      Some(if pos < |h| && h[pos] == '"' then pos + 1 else pos)
  }

  /** The first ';' at or after `from`, or |h| when there is none. */
  function ParamEnd(h: string, from: nat): (r: nat)
    requires from <= |h|
    ensures from <= r <= |h| && (r < |h| ==> h[r] == ';')
    ensures forall k :: from <= k < r ==> h[k] != ';'
    decreases |h| - from
  {
    if from == |h| || h[from] == ';' then from else ParamEnd(h, from + 1)
  }

  /**
   * get_mime_boundary with its loop bounded by the end of the header: the
   * value after "boundary=", up to the next ';' or the end, without spaces
   * and quotes. None when the header has no boundary parameter.
   */
  method GetMimeBoundary(contentHeader: string) returns (boundary: Option<string>)
    ensures BoundaryStart(contentHeader).None? ==> boundary.None?
    ensures BoundaryStart(contentHeader).Some? ==>
              var start := BoundaryStart(contentHeader).value;
              boundary == Some(StripBoundary(contentHeader[start..ParamEnd(contentHeader, start)]))
  {
    var start := BoundaryStart(contentHeader);
    if start.None? {
      return None;
    }
    var pos := start.value;
    var b := "";
    while pos < |contentHeader| && contentHeader[pos] != ';'
      invariant start.value <= pos <= |contentHeader|
      invariant forall k :: start.value <= k < pos ==> contentHeader[k] != ';'
      invariant b == StripBoundary(contentHeader[start.value..pos])
      decreases |contentHeader| - pos
    {
      var c := contentHeader[pos];
      if KeptInBoundary(c) {
        b := b + [c];
      }
      assert contentHeader[start.value..pos + 1][..pos - start.value] == contentHeader[start.value..pos];
      pos := pos + 1;
    }
    assert pos == ParamEnd(contentHeader, start.value) by {
      ParamEndAt(contentHeader, start.value, pos);
    }
    return Some(b);
  }

  lemma {:induction false} ParamEndAt(h: string, from: nat, p: nat)
    requires from <= p <= |h|
    requires forall k :: from <= k < p ==> h[k] != ';'
    requires p == |h| || h[p] == ';'
    ensures ParamEnd(h, from) == p
    decreases p - from
  {
    if from < p {
      ParamEndAt(h, from + 1, p);
    }
  }

  /** A boundary never contains the separator, spaces or quotes. */
  lemma BoundaryClean(h: string, start: nat)
    requires start <= |h|
    ensures forall k :: 0 <= k < |StripBoundary(h[start..ParamEnd(h, start)])| ==>
              var c := StripBoundary(h[start..ParamEnd(h, start)])[k]; c != ';' && c != ' ' && c != '"'
  {
    var s := h[start..ParamEnd(h, start)];
    assert forall c :: c in s ==> c != ';';
    StripKeepsOnly(s);
    var r := StripBoundary(s);
    assert forall k :: 0 <= k < |r| ==> r[k] in r;
  }

  lemma {:induction false} StripKeepsOnly(s: string)
    ensures forall c :: c in StripBoundary(s) ==> c in s
  {
    if s != [] {
      StripKeepsOnly(s[..|s| - 1]);
      assert forall c :: c in s[..|s| - 1] ==> c in s;
    }
  }

  /** The outcome of get_mime_boundary as written. */
  datatype BoundaryOutcome = NoBoundary | Boundary(value: string) | Diverges

  /**
   * get_mime_boundary as written: the loop stops only at a ';', because
   * reading past the end yields -1, never ';'. Without a ';' after the value
   * it does not terminate.
   */
  function GetMimeBoundaryAsWritten(contentHeader: string): (r: BoundaryOutcome)
    ensures r == Diverges <==> (BoundaryStart(contentHeader).Some? &&
                               ParamEnd(contentHeader, BoundaryStart(contentHeader).value) == |contentHeader|)
  {
    match BoundaryStart(contentHeader)
    case None => NoBoundary
    case Some(start) =>
      var e := ParamEnd(contentHeader, start);
      if e == |contentHeader| then Diverges
      else Boundary(StripBoundary(contentHeader[start..e]))
  }

  /**
   * A header whose boundary parameter comes last (no ';' after its value)
   * sends the loop as written past the end: "multipart/related; boundary=abc"
   * is one.
   */
  lemma BoundaryLastDiverges(pre: string, v: string)
    requires forall k :: 0 <= k < |pre| ==> pre[k] != '='
    requires forall k :: 0 <= k < |v| ==> v[k] != ';'
    requires v == [] || v[0] != '"'
    ensures GetMimeBoundaryAsWritten(pre + BOUNDARY + v) == Diverges
  {
    var h := pre + BOUNDARY + v;
    assert forall k :: 0 <= k < |BOUNDARY| ==> h[|pre| + k] == BOUNDARY[k];
    assert MatchesAt(h, BOUNDARY, |pre|, true);
    forall q | 0 <= q < |pre| ensures !MatchesAt(h, BOUNDARY, q, true) {
      if q + |BOUNDARY| <= |h| {
        assert h[q + 8] != '=' by {
          if q + 8 < |pre| {
            assert h[q + 8] == pre[q + 8];
          } else {
            assert h[q + 8] == BOUNDARY[q + 8 - |pre|];
          }
        }
        assert !CharEq(h[q + 8], BOUNDARY[8], true);
      }
    }
    SearchFindsFirst(h, BOUNDARY, 0, |pre|, true);
    var start := |pre| + |BOUNDARY|;
    assert start < |h| ==> h[start] == v[0];
    assert BoundaryStart(h) == Some(start);
    forall k | start <= k < |h| ensures h[k] != ';' {
      assert h[k] == v[k - start];
    }
    ParamEndAt(h, start, |h|);
  }

  /** The concrete instance of the header above. */
  lemma SampleBoundaryDiverges()
    ensures GetMimeBoundaryAsWritten("multipart/related; boundary=abc") == Diverges
  {
    assert "multipart/related; boundary=abc" == "multipart/related; " + BOUNDARY + "abc";
    BoundaryLastDiverges("multipart/related; ", "abc");
  }

  /** Where the loop as written terminates, it yields what the bounded method yields. */
  lemma BoundaryAsWrittenAgrees(h: string)
    requires GetMimeBoundaryAsWritten(h) != Diverges
    ensures GetMimeBoundaryAsWritten(h).NoBoundary? <==> BoundaryStart(h).None?
    ensures GetMimeBoundaryAsWritten(h).Boundary? ==>
              GetMimeBoundaryAsWritten(h).value == StripBoundary(h[BoundaryStart(h).value..ParamEnd(h, BoundaryStart(h).value)])
  {
  }

  /** The characters escape_fragment removes. */
  predicate Dangerous(c: char) { c == '"' || c == '<' || c == '>' || c == '&' }

  /** `s` without dangerous characters, the others kept in order. */
  function Escaped(s: string): (r: string)
    ensures forall k :: 0 <= k < |r| ==> !Dangerous(r[k])
    ensures |r| <= |s|
  {
    if s == [] then [] else (if Dangerous(s[0]) then [] else [s[0]]) + Escaped(s[1..])
  }

  /**
   * escape_fragment: delete the dangerous characters in place, stepping the
   * index back after each deletion so that the next character is not
   * skipped.
   */
  method EscapeFragment(fragment: string) returns (r: string)
    ensures r == Escaped(fragment)
  {
    r := fragment;
    var i: int := 0;
    while i < |r|
      invariant 0 <= i <= |r|
      invariant Escaped(fragment) == r[..i] + Escaped(r[i..])
      decreases |r| - i
    {
      var c := r[i];
      if Dangerous(c) {
        var r0 := r;
        assert r0[i..][1..] == r0[i + 1..];
        r := Delete(r, i, 1);
        assert r[..i] == r0[..i] && r[i..] == r0[i + 1..];
        i := i - 1;
      } else {
        assert r[i..][1..] == r[i + 1..];
        assert r[..i + 1] == r[..i] + [c];
      }
      i := i + 1;
    }
  }

  /** Escaping a fragment that has nothing dangerous leaves it as it is. */
  lemma {:induction false} EscapedClean(s: string)
    requires forall k :: 0 <= k < |s| ==> !Dangerous(s[k])
    ensures Escaped(s) == s
  {
    if s != [] {
      EscapedClean(s[1..]);
      assert [s[0]] + s[1..] == s;
    }
  }

  /** Escaping twice is escaping once. */
  lemma EscapeIdempotent(s: string)
    ensures Escaped(Escaped(s)) == Escaped(s)
  {
    EscapedClean(Escaped(s));
  }

  /** Escaping keeps every safe character: it removes exactly the dangerous ones. */
  lemma {:induction false} EscapedKeepsSafe(s: string)
    ensures forall c :: c in Escaped(s) <==> c in s && !Dangerous(c)
  {
    if s != [] {
      EscapedKeepsSafe(s[1..]);
      assert forall c :: c in s <==> c == s[0] || c in s[1..];
    }
  }
}
