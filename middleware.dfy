/** The authentication middleware: reads `Authorization: Bearer <token>`, has the
    token verified, and takes the `userId` claim. Token verification (signature,
    signing method, expiry) is the parameter `verify`. */
module Auth {
  import opened Wrappers
  import opened Http

  // ---------------------------------------------------------------------------
  // strings.Split on one separator character

  /** Go's `strings.Split(s, [sep])`: the pieces between separators, so one more
      piece than there are separators, and `[""]` for the empty string. */
  function Split(s: string, sep: char): (parts: seq<string>)
    ensures |parts| >= 1
    ensures forall p :: p in parts ==> sep !in p
  {
    if s == [] then [""]
    else
      var rest := Split(s[1..], sep);
      if s[0] == sep then [""] + rest
      else [[s[0]] + rest[0]] + rest[1..]
  }

  /** `strings.Join`, the inverse of `Split`. */
  function Join(parts: seq<string>, sep: char): string
    requires |parts| >= 1
  {
    if |parts| == 1 then parts[0] else parts[0] + [sep] + Join(parts[1..], sep)
  }

  lemma {:induction false} JoinSplit(s: string, sep: char)
    ensures Join(Split(s, sep), sep) == s
  {
    if s != [] {
      JoinSplit(s[1..], sep);
      var rest := Split(s[1..], sep);
      if s[0] == sep {
        assert ([""] + rest)[1..] == rest;
      } else {
        var parts := [[s[0]] + rest[0]] + rest[1..];
        assert parts[1..] == rest[1..];
        if |rest| > 1 {
          assert Join(rest, sep) == rest[0] + [sep] + Join(rest[1..], sep);
        }
      }
    }
  }

  lemma {:induction false} SplitWithoutSeparator(s: string, sep: char)
    requires sep !in s
    ensures Split(s, sep) == [s]
  {
    if s != [] {
      SplitWithoutSeparator(s[1..], sep);
      assert [s[0]] + s[1..] == s;
    }
  }

  lemma {:induction false} SplitAtFirstSeparator(x: string, y: string, sep: char)
    requires sep !in x
    ensures Split(x + [sep] + y, sep) == [x] + Split(y, sep)
  {
    var s := x + [sep] + y;
    if x == [] {
      assert s[1..] == y;
    } else {
      assert s[1..] == x[1..] + [sep] + y;
      SplitAtFirstSeparator(x[1..], y, sep);
      assert [x[0]] + x[1..] == x;
    }
  }

  // ---------------------------------------------------------------------------
  // The header rule

  const BearerPrefix: string := "Bearer "

  /** The header consists of exactly the two pieces `Bearer` and `token` exactly
      when it is `Bearer `, then a token with no space in it. */
  lemma BearerShape(header: string)
    ensures var parts := Split(header, ' ');
      (|parts| == 2 && parts[0] == "Bearer") <==>
      (|header| >= |BearerPrefix| && header[..|BearerPrefix|] == BearerPrefix && ' ' !in header[|BearerPrefix|..])
    ensures var parts := Split(header, ' ');
      |parts| == 2 && parts[0] == "Bearer" ==> parts[1] == header[|BearerPrefix|..]
  {
    var parts := Split(header, ' ');
    var n := |BearerPrefix|;
    JoinSplit(header, ' ');
    if |header| >= n && header[..n] == BearerPrefix && ' ' !in header[n..] {
      assert header == "Bearer" + [' '] + header[n..];
      SplitAtFirstSeparator("Bearer", header[n..], ' ');
      SplitWithoutSeparator(header[n..], ' ');
    }
    if |parts| == 2 {
      assert parts[1..] == [parts[1]];
      assert Join(parts, ' ') == parts[0] + [' '] + parts[1];
    }
  }

  /** The token of a `Bearer <token>` header: split on single spaces, exactly two
      pieces, the first exactly `Bearer`. */
  function BearerToken(header: string): (r: Option<string>)
    ensures r.Some? <==> |header| >= |BearerPrefix| && header[..|BearerPrefix|] == BearerPrefix
                         && ' ' !in header[|BearerPrefix|..]
    ensures r.Some? ==> r.value == header[|BearerPrefix|..]
  {
    var parts := Split(header, ' ');
    BearerShape(header);
    if |parts| != 2 || parts[0] != "Bearer" then None else Some(parts[1])
  }

  // ---------------------------------------------------------------------------
  // Claims

  /** A claim value as decoded from the token: a JSON string or anything else. */
  datatype ClaimValue = StringClaim(s: string) | OtherClaim

  type Claims = map<string, ClaimValue>

  /** `ExtractUserID` (internal/auth/jwt.go): the `userId` claim when it is a string. */
  function ExtractUserId(claims: Claims): (r: Result<string, string>)
    ensures r.Success? <==> "userId" in claims && claims["userId"].StringClaim?
    ensures r.Success? ==> r.value == claims["userId"].s
  {
    if "userId" in claims && claims["userId"].StringClaim? then Success(claims["userId"].s)
    else Failure("userId claim not found")
  }

  /** What the middleware does with a request: pass it on with the user id
      stored, or answer it. */
  datatype AuthResult = Authorized(userId: string) | Rejected(status: int, message: string)

  /** `AuthMiddleware`. Every rejection is a 401, with one message per failing step. */
  function Authenticate(header: string, verify: string -> Option<Claims>): (r: AuthResult)
    ensures r.Rejected? ==> r.status == StatusUnauthorized
    ensures header == "" ==> r == Rejected(StatusUnauthorized, "missing authorization header")
    ensures header != "" && BearerToken(header).None? ==>
      r == Rejected(StatusUnauthorized, "invalid authorization header format")
    ensures BearerToken(header).Some? && verify(BearerToken(header).value).None? ==>
      r == Rejected(StatusUnauthorized, "invalid token")
    ensures BearerToken(header).Some? && verify(BearerToken(header).value).Some?
            && ExtractUserId(verify(BearerToken(header).value).value).Failure? ==>
      r == Rejected(StatusUnauthorized, "invalid token claims")
    ensures r.Authorized? <==>
      && BearerToken(header).Some?
      && verify(BearerToken(header).value).Some?
      && ExtractUserId(verify(BearerToken(header).value).value).Success?
    ensures r.Authorized? ==>
      && header == BearerPrefix + BearerToken(header).value
      && r.userId == ExtractUserId(verify(BearerToken(header).value).value).value
  {
    if header == "" then Rejected(StatusUnauthorized, "missing authorization header")
    else match BearerToken(header)
      case None => Rejected(StatusUnauthorized, "invalid authorization header format")
      case Some(token) =>
        match verify(token)
        case None => Rejected(StatusUnauthorized, "invalid token")
        case Some(claims) =>
          match ExtractUserId(claims)
          case Failure(_) => Rejected(StatusUnauthorized, "invalid token claims")
          case Success(userId) =>
            assert header == header[..|BearerPrefix|] + header[|BearerPrefix|..];
            Authorized(userId)
  }
}
