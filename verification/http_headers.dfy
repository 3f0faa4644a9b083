/**
 * The header-list operations of the HTTP library that the gateway calls
 * (http_header_find_first, http_header_find_all, http_header_remove_all,
 * http_header_add). A header list is an ordered sequence of name/value pairs;
 * names are matched without regard to ASCII case, values exactly.
 */
module HttpHeaders {
  import opened Wrappers
  import opened Octstr

  datatype Header = Header(name: string, value: string)

  type Headers = seq<Header>

  /** Header names compare case-insensitively. */
  predicate NameIs(h: Header, name: string) {
    |h.name| == |name| && MatchesAt(h.name, name, 0, true)
  }

  /** http_header_find_first: the value of the first header called `name`. */
  function FindFirst(hs: Headers, name: string): (r: Option<string>)
    ensures r.None? <==> forall i :: 0 <= i < |hs| ==> !NameIs(hs[i], name)
    ensures r.Some? ==> exists i :: 0 <= i < |hs| && NameIs(hs[i], name) && hs[i].value == r.value
  {
    if hs == [] then None
    else if NameIs(hs[0], name) then Some(hs[0].value)
    else FindFirst(hs[1..], name)
  }

  /** http_header_find_all: the headers called `name`, in list order. */
  function FindAll(hs: Headers, name: string): (r: Headers)
    ensures forall h :: h in r <==> h in hs && NameIs(h, name)
    ensures |r| <= |hs|
    ensures (forall i :: 0 <= i < |hs| ==> !NameIs(hs[i], name)) ==> r == []
  {
    if hs == [] then []
    else (if NameIs(hs[0], name) then [hs[0]] else []) + FindAll(hs[1..], name)
  }

  /** http_header_remove_all: drop every header called `name`, keep the rest in order. */
  function RemoveAll(hs: Headers, name: string): (r: Headers)
    ensures forall h :: h in r <==> h in hs && !NameIs(h, name)
    ensures |r| <= |hs|
  {
    if hs == [] then []
    else (if NameIs(hs[0], name) then [] else [hs[0]]) + RemoveAll(hs[1..], name)
  }

  /** http_header_add: append one header at the end. */
  function Add(hs: Headers, name: string, value: string): (r: Headers)
    ensures |r| == |hs| + 1 && r[..|hs|] == hs && r[|hs|] == Header(name, value)
  {
    hs + [Header(name, value)]
  }

  /** The values of a header list, in order. */
  function Values(hs: Headers): (r: seq<string>)
    ensures |r| == |hs| && forall i :: 0 <= i < |hs| ==> r[i] == hs[i].value
  {
    if hs == [] then [] else [hs[0].value] + Values(hs[1..])
  }

  /** After removing every header called `name`, none is found. */
  lemma RemovedNotFound(hs: Headers, name: string)
    ensures FindFirst(RemoveAll(hs, name), name).None?
    ensures FindAll(RemoveAll(hs, name), name) == []
  {
    var r := RemoveAll(hs, name);
    forall i | 0 <= i < |r| ensures !NameIs(r[i], name) {
      assert r[i] in r;
    }
  }
}
