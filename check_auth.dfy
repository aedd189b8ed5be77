/** The authentication middleware: OPTIONS requests pass untouched; every other request must
    carry a token as the second space-separated word of its Authorization header, and the
    token must verify. Any failure is the same 403. */
module CheckAuth {
  import opened HttpErrors
  import opened Models

  /** The payload a token is signed over. */
  datatype Claims = Claims(userId: UserId, email: string)

  /** What the middleware attaches to the request on success. */
  datatype UserData = UserData(userId: UserId)

  datatype AuthResult = Pass(userData: Option<UserData>) | Reject(error: HttpError)

  const AuthFailed := Coded("Authentication failed", 403)

  /** JavaScript's `s.split(sep)` with a one-character separator: every occurrence splits,
      so adjacent separators give empty words and the result is never empty. */
  function Split(s: string, sep: char): (words: seq<string>)
    ensures |words| >= 1
    ensures forall i :: 0 <= i < |words| ==> sep !in words[i]
  {
    if s == [] then [""]
    else
      var rest := Split(s[1..], sep);
      if s[0] == sep then [""] + rest
      else [[s[0]] + rest[0]] + rest[1..]
  }

  /** `words.join(sep)`, the inverse of Split. */
  function Join(words: seq<string>, sep: char): (s: string)
    requires |words| >= 1
  {
    if |words| == 1 then words[0] else words[0] + [sep] + Join(words[1..], sep)
  }

  lemma {:induction false} JoinSplit(s: string, sep: char)
    ensures Join(Split(s, sep), sep) == s
  {
    if s != [] {
      var rest := Split(s[1..], sep);
      JoinSplit(s[1..], sep);
      if s[0] == sep {
        assert Split(s, sep)[1..] == rest;
      } else {
        var words := Split(s, sep);
        assert words[1..] == rest[1..];
        if |rest| == 1 {
          assert Join(words, sep) == [s[0]] + rest[0];
        } else {
          assert Join(words, sep) == [s[0]] + rest[0] + [sep] + Join(rest[1..], sep);
          assert Join(rest, sep) == rest[0] + [sep] + Join(rest[1..], sep);
        }
        assert s == [s[0]] + s[1..];
      }
    }
  }

  lemma {:induction false} SplitJoin(words: seq<string>, sep: char)
    requires |words| >= 1
    requires forall i :: 0 <= i < |words| ==> sep !in words[i]
    ensures Split(Join(words, sep), sep) == words
  {
    if |words| == 1 {
      SplitWord(words[0], sep, []);
      assert words[0] + [] == words[0];
    } else {
      var tail := Join(words[1..], sep);
      SplitJoin(words[1..], sep);
      SplitWord(words[0], sep, [sep] + tail);
      assert Join(words, sep) == words[0] + ([sep] + tail);
      assert Split([sep] + tail, sep) == [""] + words[1..] by {
        assert ([sep] + tail)[1..] == tail;
      }
      assert words == [words[0]] + words[1..];
    }
  }

  /** Splitting a separator-free word followed by the rest glues the word onto the rest's first
      word (the rest being empty or starting with the separator). */
  lemma {:induction false} SplitWord(w: string, sep: char, rest: string)
    requires sep !in w
    requires rest == [] || rest[0] == sep
    ensures Split(w + rest, sep) == (if rest == [] then [w] else [w] + Split(rest[1..], sep))
  {
    if w == [] {
      assert w + rest == rest;
      if rest != [] {
        assert Split(rest, sep) == [""] + Split(rest[1..], sep);
      }
    } else {
      SplitWord(w[1..], sep, rest);
      assert (w + rest)[1..] == w[1..] + rest;
      assert [w[0]] + w[1..] == w;
    }
  }

  /** `req.headers.authorization.split(" ")[1]`, where a missing header, a missing second word
      and an empty second word all count as no token. The first word is not inspected. */
  function TokenOf(authorization: Option<string>): (token: Option<string>)
    ensures token.Some? ==> authorization.Some? && token.value != "" && ' ' !in token.value
    ensures token.Some? ==> |Split(authorization.value, ' ')| >= 2 && Split(authorization.value, ' ')[1] == token.value
    ensures authorization.Some? && |Split(authorization.value, ' ')| >= 2 && Split(authorization.value, ' ')[1] != "" ==> token.Some?
  {
    match authorization
    case None => None
    case Some(header) =>
      var words := Split(header, ' ');
      if |words| < 2 || words[1] == "" then None else Some(words[1])
  }

  /** Any scheme word followed by one space and a token yields that token: the scheme need not
      be "Bearer". */
  lemma TokenAfterAnyScheme(scheme: string, token: string)
    requires ' ' !in scheme && ' ' !in token && token != ""
    ensures TokenOf(Some(scheme + " " + token)) == Some(token)
  {
    SplitJoin([scheme, token], ' ');
    assert Join([scheme, token], ' ') == scheme + " " + token by {
      assert Join([scheme, token][1..], ' ') == token;
    }
  }

  /** A header that is one word (no space at all) carries no token. */
  lemma {:induction false} OneWordHeaderHasNoToken(header: string)
    requires ' ' !in header
    ensures TokenOf(Some(header)) == None
  {
    SplitWord(header, ' ', []);
    assert header + [] == header;
  }

  /** Two spaces after the scheme word leave an empty second word, which counts as no token
      even when a token follows. */
  lemma {:induction false} DoubleSpaceHasNoToken(scheme: string, rest: string)
    requires ' ' !in scheme
    ensures TokenOf(Some(scheme + "  " + rest)) == None
  {
    SplitWord(scheme, ' ', "  " + rest);
    assert scheme + "  " + rest == scheme + ("  " + rest);
    assert ("  " + rest)[1..] == " " + rest;
    assert Split(" " + rest, ' ') == [""] + Split(rest, ' ') by {
      assert (" " + rest)[1..] == rest;
    }
  }

  /** The middleware's decision. `verify` is `jwt.verify` with the server key: the payload, or
      None when the token is malformed, badly signed or expired. */
  function Authenticate(verb: string, authorization: Option<string>, verify: string -> Option<Claims>): (r: AuthResult)
    ensures verb == "OPTIONS" ==> r == Pass(None)
    ensures r.Reject? ==> r.error == AuthFailed
    ensures verb != "OPTIONS" ==>
      (r.Pass? <==> TokenOf(authorization).Some? && verify(TokenOf(authorization).value).Some?)
    ensures verb != "OPTIONS" && r.Pass? ==>
      r.userData == Some(UserData(verify(TokenOf(authorization).value).value.userId))
  {
    if verb == "OPTIONS" then Pass(None)
    else match TokenOf(authorization)
      case None => Reject(AuthFailed)
      case Some(token) =>
        match verify(token)
        case None => Reject(AuthFailed)
        case Some(claims) => Pass(Some(UserData(claims.userId)))
  }

  /** The request as the middleware sees it; `userData` is the field it writes. */
  class Request {
    const verb: string
    const authorization: Option<string>
    var userData: Option<UserData>

    constructor (verb: string, authorization: Option<string>)
      ensures this.verb == verb && this.authorization == authorization && userData == None
    {
      this.verb := verb;
      this.authorization := authorization;
      userData := None;
    }
  }

  /** Runs the middleware on `req`: attaches the decoded user id and lets the request proceed
      (None), or returns the error handed to `next`. */
  method Run(req: Request, verify: string -> Option<Claims>) returns (err: Option<HttpError>)
    modifies req
    ensures err == (if Authenticate(req.verb, req.authorization, verify).Reject? then Some(AuthFailed) else None)
    ensures Authenticate(req.verb, req.authorization, verify) == Pass(None) ==> req.userData == old(req.userData)
    ensures err.Some? ==> req.userData == old(req.userData)
    ensures Authenticate(req.verb, req.authorization, verify).Pass? && req.verb != "OPTIONS" ==>
      req.userData == Authenticate(req.verb, req.authorization, verify).userData
  {
    if req.verb == "OPTIONS" {
      return None;
    }
    var token := TokenOf(req.authorization);
    if token.None? {
      return Some(AuthFailed);
    }
    var claims := verify(token.value);
    if claims.None? {
      return Some(AuthFailed);
    }
    req.userData := Some(UserData(claims.value.userId));
    err := None;
  }
}
