/** The response translator: the upstream status and body pass through, every
    upstream header except `connection`, `access-control-allow-origin` and
    `content-length` is copied in order, and a wildcard
    `access-control-allow-origin` header is appended last. */
module Translator {
  import opened HttpTypes

  const Connection: string := "connection"
  const AccessControlAllowOrigin: string := "access-control-allow-origin"
  const ContentLength: string := "content-length"

  /** The header the proxy always adds. */
  const Cors: Header := Header(AccessControlAllowOrigin, "*")

  /** ASCII lower-casing of one character; other characters are unchanged. */
  function LowerAscii(c: char): char {
    if 'A' <= c <= 'Z' then (c as int + 32) as char else c
  }

  /** Header-name comparison against a string: equal up to ASCII case. */
  predicate NameIs(name: string, literal: string) {
    |name| == |literal| &&
    forall i :: 0 <= i < |name| ==> LowerAscii(name[i]) == LowerAscii(literal[i])
  }

  /** The filter of the rewrite: the header is none of the three blocked names. */
  predicate Forwarded(h: Header) {
    !NameIs(h.name, Connection) &&
    !NameIs(h.name, AccessControlAllowOrigin) &&
    !NameIs(h.name, ContentLength)
  }

  /** The upstream headers that survive the filter, in upstream order. */
  function Filtered(hs: seq<Header>): (r: seq<Header>)
    ensures |r| <= |hs|
    ensures forall h :: h in r ==> h in hs && Forwarded(h)
  {
    if hs == [] then []
    else (if Forwarded(hs[0]) then [hs[0]] else []) + Filtered(hs[1..])
  }

  /** The response the proxy sends back for an upstream response. */
  function Translated(upstream: Response): Response {
    Response(upstream.status, Filtered(upstream.headers) + [Cors], upstream.body)
  }

  /** The rewrite loop: start a response with the upstream status, append each
      header that passes the filter, then append the CORS header, and hand the
      upstream body on. */
  method Translate(upstream: Response) returns (r: Response)
    ensures r == Translated(upstream)
  {
    var headers: seq<Header> := [];
    for i := 0 to |upstream.headers|
      invariant headers == Filtered(upstream.headers[..i])
    {
      var h := upstream.headers[i];
      assert upstream.headers[..i + 1] == upstream.headers[..i] + [h];
      FilteredAppend(upstream.headers[..i], [h]);
      if Forwarded(h) {
        headers := headers + [h];
      }
    }
    assert upstream.headers[..|upstream.headers|] == upstream.headers;
    headers := headers + [Cors];
    r := Response(upstream.status, headers, upstream.body);
  }

  /** Greedy subsequence test, an independent statement of "same order". */
  predicate IsSubsequence(a: seq<Header>, b: seq<Header>)
    decreases |b|
  {
    if a == [] then true
    else if b == [] then false
    else if a[0] == b[0] then IsSubsequence(a[1..], b[1..])
    else IsSubsequence(a, b[1..])
  }

  /** Filtering distributes over concatenation: the relative order of the
      surviving headers is the upstream order. */
  lemma {:induction false} FilteredAppend(a: seq<Header>, b: seq<Header>)
    ensures Filtered(a + b) == Filtered(a) + Filtered(b)
  {
    if a == [] {
      assert a + b == b;
    } else {
      assert (a + b)[1..] == a[1..] + b;
      FilteredAppend(a[1..], b);
    }
  }

  /** Every forwarded header keeps all its occurrences and a blocked header
      keeps none: the filter drops nothing else and duplicates nothing. */
  lemma {:induction false} FilteredCount(hs: seq<Header>, h: Header)
    ensures multiset(Filtered(hs))[h] == if Forwarded(h) then multiset(hs)[h] else 0
  {
    if hs != [] {
      FilteredCount(hs[1..], h);
      assert hs == [hs[0]] + hs[1..];
    }
  }

  /** The surviving headers form a subsequence of the upstream headers. */
  lemma {:induction false} FilteredIsSubsequence(hs: seq<Header>)
    ensures IsSubsequence(Filtered(hs), hs)
  {
    if hs != [] {
      FilteredIsSubsequence(hs[1..]);
      if Forwarded(hs[0]) {
        assert Filtered(hs)[1..] == Filtered(hs[1..]);
      } else if Filtered(hs) != [] {
        assert Filtered(hs) == Filtered(hs[1..]);
        assert Forwarded(Filtered(hs)[0]);
      }
    }
  }

  /** Filtering twice is filtering once. */
  lemma {:induction false} FilteredIdempotent(hs: seq<Header>)
    ensures Filtered(Filtered(hs)) == Filtered(hs)
  {
    if hs != [] {
      FilteredIdempotent(hs[1..]);
      if Forwarded(hs[0]) {
        var f := Filtered(hs);
        assert f[0] == hs[0] && f[1..] == Filtered(hs[1..]);
      } else {
        assert Filtered(hs) == Filtered(hs[1..]);
      }
    }
  }

  /** What the caller receives: the upstream status and body; no
      `connection` or `content-length` header in any case spelling; exactly one
      `access-control-allow-origin` header, the last one, with value `*`; and
      before it, precisely the forwarded upstream headers. */
  lemma TranslatedHeaders(upstream: Response)
    ensures Translated(upstream).status == upstream.status
    ensures Translated(upstream).body == upstream.body
    ensures forall h :: h in Translated(upstream).headers ==>
      !NameIs(h.name, Connection) && !NameIs(h.name, ContentLength)
    ensures var out := Translated(upstream).headers;
      |out| > 0 && out[|out| - 1] == Cors &&
      forall i :: 0 <= i < |out| - 1 ==> !NameIs(out[i].name, AccessControlAllowOrigin)
    ensures Translated(upstream).headers[..|Translated(upstream).headers| - 1] == Filtered(upstream.headers)
  {
  }

  /** A response that has already been through the proxy comes back unchanged
      from a second pass: the CORS header is dropped and re-added in place. */
  lemma TranslatedIdempotent(upstream: Response)
    ensures Translated(Translated(upstream)) == Translated(upstream)
  {
    var f := Filtered(upstream.headers);
    FilteredAppend(f, [Cors]);
    FilteredIdempotent(upstream.headers);
    assert NameIs(Cors.name, AccessControlAllowOrigin);
    assert Filtered([Cors]) == [];
  }
}
