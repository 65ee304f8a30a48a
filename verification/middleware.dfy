/**
 * internal/middleware: the request logger's choice of client IP and the header
 * map it logs.
 *
 * A request's header is a map from canonical header names to their values, as
 * Go's HTTP server builds it. The header lookups the middleware makes go through
 * `Header.Get`, which canonicalises the name first.
 */
module Middleware {

  import opened Strings

  type Header = map<string, seq<string>>

  const ForwardedFor: string := "X-Forwarded-For"
  /** The middleware asks for "X-Real-IPKey"; canonicalisation turns that name into
      this one before the lookup. */
  const RealIP: string := "X-Real-Ipkey"
  const Cookie: string := "Cookie"

  /** Header.Get: the first value stored under the key, or "" when there is none. */
  function GetHeader(h: Header, key: string): string {
    if key in h && |h[key]| > 0 then h[key][0] else ""
  }

  /** `f` is the text of `s` before its first comma (all of `s` when there is none). */
  predicate FirstField(s: string, f: string) {
    HasPrefix(s, f) && ',' !in f && (|f| == |s| || s[|f|] == ',')
  }

  /** A string has only one first field. */
  lemma FirstFieldUnique(s: string, f: string, g: string)
    requires FirstField(s, f) && FirstField(s, g)
    ensures f == g
  {
  }

  /**
   * getRealIP: the first comma-separated field of X-Forwarded-For with white space
   * trimmed, when that header is non-empty (the field itself may be empty); else
   * X-Real-IPKey verbatim when non-empty; else the connection's remote address.
   */
  function GetRealIP(h: Header, remoteAddr: string): (ip: string)
    ensures GetHeader(h, ForwardedFor) != "" ==>
              exists f :: FirstField(GetHeader(h, ForwardedFor), f) && ip == TrimSpace(f)
    ensures GetHeader(h, ForwardedFor) != "" ==>
              ',' !in ip && (ip == [] || (!IsSpace(ip[0]) && !IsSpace(ip[|ip| - 1])))
    ensures GetHeader(h, ForwardedFor) == "" && GetHeader(h, RealIP) != "" ==>
              ip == GetHeader(h, RealIP)
    ensures GetHeader(h, ForwardedFor) == "" && GetHeader(h, RealIP) == "" ==>
              ip == remoteAddr
  {
    var xff := GetHeader(h, ForwardedFor);
    if xff != "" then
      var first := Split(xff, ',')[0];
      SplitFirst(xff, ',');
      assert FirstField(xff, first);
      var r := TrimSpace(first);
      assert ',' !in r by {
        TrimSpaceIsInfix(first);
      }
      r
    else if GetHeader(h, RealIP) != "" then GetHeader(h, RealIP)
    else remoteAddr
  }

  /** Trimming only removes characters, so it adds none. */
  lemma TrimSpaceIsInfix(s: string)
    ensures forall c :: c in TrimSpace(s) ==> c in s
  {
    var l := TrimLeftSpace(s);
    var r := TrimRightSpace(l);
    assert r == l[..|r|];
    assert l == s[|s| - |l|..];
  }

  /**
   * The header map the middleware logs: every header except "Cookie" that has
   * at least one value, mapped to its first value. Go ranges over the map in an
   * unspecified order, so each step picks any header not yet visited.
   */
  method LoggedHeaders(h: Header) returns (out: map<string, string>)
    ensures out.Keys == set k | k in h && k != Cookie && |h[k]| > 0
    ensures forall k :: k in out ==> out[k] == h[k][0]
  {
    out := map[];
    var todo := h.Keys;
    while todo != {}
      invariant todo <= h.Keys
      invariant out.Keys == set k | k in h && k !in todo && k != Cookie && |h[k]| > 0
      invariant forall k :: k in out ==> k in h && |h[k]| > 0 && out[k] == h[k][0]
      decreases todo
    {
      var k :| k in todo;
      todo := todo - {k};
      if k == Cookie {
        continue;
      }
      if |h[k]| > 0 {
        out := out[k := h[k][0]];
      }
    }
  }

  /** The logged map never holds the cookie header. */
  lemma CookieNeverLogged(h: Header, out: map<string, string>)
    requires out.Keys == set k | k in h && k != Cookie && |h[k]| > 0
    ensures Cookie !in out
  {
  }
}
