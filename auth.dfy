/** Bearer-token checking in front of every incident handler
    (`verify_token`, server.py:41-48). The signature check and claim decoding
    of the JWT library are an opaque `decode` function supplied by the caller;
    what is modelled is the header parsing around it. */
module Auth {
  import opened Values

  /** The characters Python's `str.strip()` removes (those for which
      `str.isspace()` holds). */
  predicate IsSpace(c: char)
  {
    c == ' ' || '\t' <= c <= '\r' || '\U{1C}' <= c <= '\U{1F}'
    || c == '\U{85}' || c == '\U{A0}' || c == '\U{1680}'
    || '\U{2000}' <= c <= '\U{200A}' || c == '\U{2028}' || c == '\U{2029}'
    || c == '\U{202F}' || c == '\U{205F}' || c == '\U{3000}'
  }

  predicate AllSpace(s: string)
  {
    forall k :: 0 <= k < |s| ==> IsSpace(s[k])
  }

  /** No whitespace at either end: what `strip()` leaves behind. */
  predicate Trimmed(s: string)
  {
    s == [] || (!IsSpace(s[0]) && !IsSpace(s[|s| - 1]))
  }

  /** `s.lstrip()`: a suffix of `s` that starts with no whitespace, and all
      that was dropped is whitespace. */
  function StripStart(s: string): (r: string)
    ensures |r| <= |s| && r == s[|s| - |r|..]
    ensures r != [] ==> !IsSpace(r[0])
    ensures AllSpace(s[..|s| - |r|])
  {
    if s != [] && IsSpace(s[0]) then StripStart(s[1..]) else s
  }

  /** `s.rstrip()`: a prefix of `s` that ends with no whitespace, and all
      that was dropped is whitespace. */
  function StripEnd(s: string): (r: string)
    ensures |r| <= |s| && r == s[..|r|]
    ensures r != [] ==> !IsSpace(r[|r| - 1])
    ensures AllSpace(s[|r|..])
  {
    if s != [] && IsSpace(s[|s| - 1]) then
      var r := StripEnd(s[..|s| - 1]);
      assert s[|r|..] == s[..|s| - 1][|r|..] + [s[|s| - 1]];
      r
    else s
  }

  /** `s.strip()`. */
  function Strip(s: string): string
  {
    StripEnd(StripStart(s))
  }

  /** `s.startswith(p)`. */
  predicate StartsWith(s: string, p: string)
  {
    |p| <= |s| && s[..|p|] == p
  }

  /** `s.find(c)` as an option: the first position holding `c`. */
  function IndexOf(s: string, c: char): (r: Option<nat>)
    ensures r.Some? ==> r.value < |s| && s[r.value] == c
    ensures r.Some? ==> forall k :: 0 <= k < r.value ==> s[k] != c
    ensures r.None? ==> forall k :: 0 <= k < |s| ==> s[k] != c
  {
    if s == [] then None
    else if s[0] == c then Some(0)
    else match IndexOf(s[1..], c)
      case None => None
      case Some(i) => Some(i + 1)
  }

  /** The header test and split of `verify_token` (server.py:42-43): no token
      unless the header is non-empty and starts with "Bearer "; otherwise the
      text after the first space (`split(' ', 1)[1]`), stripped. */
  function BearerToken(header: string): Option<string>
  {
    if header == [] || !StartsWith(header, "Bearer ") then None
    else
      assert header[6] == ' ';
      match IndexOf(header, ' ')
      case Some(i) => Some(Strip(header[i + 1..]))
      case None => assert false; None
  }

  /** `verify_token` (server.py:41-48): the `sub` claim of a token that
      `decode` accepts, or nothing. `decode` stands for `jwt.decode` with the
      server's secret, `None` for any exception it raises. */
  function VerifyToken(header: string, decode: string -> Option<map<string, Json>>): Option<Json>
  {
    match BearerToken(header)
    case None => None
    case Some(token) =>
      match decode(token)
      case None => None
      case Some(claims) => if "sub" in claims then Some(claims["sub"]) else None
  }

  /** The handlers' `if not user: return unauthorized`. */
  predicate Authorized(subject: Option<Json>)
  {
    subject.Some? && Truthy(subject.value)
  }

  /** `strip()` drops exactly the surrounding whitespace: the input is
      leading whitespace, the result, and trailing whitespace, and the result
      has no whitespace at either end. */
  lemma {:induction false} StripSplits(s: string)
    ensures Trimmed(Strip(s))
    ensures exists i, j :: 0 <= i <= j <= |s| && Strip(s) == s[i..j]
                           && AllSpace(s[..i]) && AllSpace(s[j..])
  {
    var t := StripStart(s);
    var r := StripEnd(t);
    var i := |s| - |t|;
    var j := i + |r|;
    assert t == s[i..];
    assert r == s[i..j];
    assert s[j..] == t[|r|..];
    assert AllSpace(s[..i]) && AllSpace(s[j..]);
    if r != [] {
      assert r[0] == t[0];
    }
    assert Strip(s) == s[i..j];
  }

  /** Stripping twice is stripping once. */
  lemma {:induction false} StripIdempotent(s: string)
    ensures Strip(Strip(s)) == Strip(s)
  {
    StripSplits(s);
    TrimmedIsFixed(Strip(s));
  }

  /** A string with no surrounding whitespace is left alone by `strip()`. */
  lemma TrimmedIsFixed(t: string)
    requires Trimmed(t)
    ensures Strip(t) == t
  {
  }

  /** What `BearerToken` accepts and what it yields: a header is accepted
      exactly when it starts with "Bearer ", and the token is then the rest of
      the header after those seven characters, stripped. */
  lemma {:induction false} BearerTokenSpec(header: string)
    ensures BearerToken(header).Some? <==> StartsWith(header, "Bearer ")
    ensures BearerToken(header).Some? ==> BearerToken(header).value == Strip(header[7..])
  {
    if StartsWith(header, "Bearer ") {
      assert header[..7] == "Bearer ";
      assert forall k :: 0 <= k < 6 ==> header[k] == "Bearer "[k];
      assert header[6] == ' ';
      var i := IndexOf(header, ' ');
      assert i.Some? && i.value <= 6;
      assert i.value == 6;
    }
  }

  /** Round trip with the client, which sends `'Bearer ' + authToken`
      (renderer.js:58): a token without surrounding whitespace comes back
      unchanged. */
  lemma {:induction false} BearerRoundTrip(token: string)
    requires Trimmed(token)
    ensures BearerToken("Bearer " + token) == Some(token)
  {
    var header := "Bearer " + token;
    assert header[..7] == "Bearer ";
    BearerTokenSpec(header);
    assert header[7..] == token;
    TrimmedIsFixed(token);
  }

  /** A header that `BearerToken` rejects, or whose token `decode` rejects or
      carries no truthy `sub` claim, is unauthorized; a truthy `sub` from an
      accepted token is authorized. */
  lemma {:induction false} AuthorizedSpec(header: string, decode: string -> Option<map<string, Json>>)
    ensures Authorized(VerifyToken(header, decode)) <==>
      StartsWith(header, "Bearer ")
      && var claims := decode(Strip(header[7..]));
      claims.Some? && "sub" in claims.value && Truthy(claims.value["sub"])
  {
    BearerTokenSpec(header);
  }
}
