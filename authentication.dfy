/**
 * The request-authentication dependencies of
 * app/api/dependencies/authentication.py: the `Authorization` header is
 * split on single spaces into a prefix and a token, the token is decoded to
 * a user id, and the user is looked up. Every rejection is an HTTP 401 with
 * a fixed detail. The token decoder and the user repository are parameters.
 */
module Authentication {
  import opened Wrappers

  /** `HTTPException(status_code, detail)`. */
  datatype HttpException = HttpException(statusCode: int, detail: string)

  /** `status.HTTP_401_UNAUTHORIZED`. */
  const Unauthorized: int := 401
  /** `WRONG_TOKEN_PREFIX`. */
  const WrongTokenPrefix := "Unsupported authorization type"
  /** `MALFORMED_PAYLOAD`. */
  const MalformedPayload := "Could not validate credentials"
  /** `USER_DOES_NOT_EXIST_ERROR`. */
  const UserDoesNotExist := "user does not exist"

  /** The number of space characters in `s`. */
  function CountSpaces(s: string): nat {
    if s == [] then 0 else (if s[0] == ' ' then 1 else 0) + CountSpaces(s[1..])
  }

  /**
   * Python's `s.split(" ")`: the pieces between single spaces, empty pieces
   * included; the empty string gives one empty piece.
   */
  function Split(s: string): (parts: seq<string>)
    ensures |parts| >= 1
  {
    if s == [] then [""]
    else
      var rest := Split(s[1..]);
      if s[0] == ' ' then [""] + rest else [[s[0]] + rest[0]] + rest[1..]
  }

  /** `" ".join(parts)`. */
  function JoinSpace(parts: seq<string>): string
    requires |parts| >= 1
    decreases |parts|
  {
    if |parts| == 1 then parts[0] else parts[0] + " " + JoinSpace(parts[1..])
  }

  /** Splitting loses nothing: joining the pieces with spaces gives the string back. */
  lemma {:induction false} SplitJoin(s: string)
    ensures JoinSpace(Split(s)) == s
  {
    if s != [] {
      var rest := Split(s[1..]);
      SplitJoin(s[1..]);
      if s[0] == ' ' {
        assert ([""] + rest)[1..] == rest;
        assert s == [s[0]] + s[1..];
      } else {
        var parts := [[s[0]] + rest[0]] + rest[1..];
        assert parts[1..] == rest[1..];
        if |rest| == 1 {
          assert s == [s[0]] + s[1..];
        } else {
          assert JoinSpace(rest) == rest[0] + " " + JoinSpace(rest[1..]);
          assert s == [s[0]] + s[1..];
        }
      }
    }
  }

  /** No piece contains a space, and there is one piece more than there are spaces. */
  lemma {:induction false} SplitPieces(s: string)
    ensures |Split(s)| == CountSpaces(s) + 1
    ensures forall k, j :: 0 <= k < |Split(s)| && 0 <= j < |Split(s)[k]| ==> Split(s)[k][j] != ' '
  {
    if s != [] {
      SplitPieces(s[1..]);
      var rest := Split(s[1..]);
      if s[0] != ' ' {
        var first := [s[0]] + rest[0];
        forall j | 0 <= j < |first| ensures first[j] != ' ' {
          if j > 0 {
            assert first[j] == rest[0][j - 1];
          }
        }
      }
    }
  }

  /** A string without spaces is a single piece. */
  lemma {:induction false} SplitNoSpace(s: string)
    requires forall j :: 0 <= j < |s| ==> s[j] != ' '
    ensures Split(s) == [s]
  {
    if s != [] {
      SplitNoSpace(s[1..]);
      assert [s[0]] + s[1..] == s;
    }
  }

  /** Splitting `a + " " + b`, where `a` holds no space, gives `a` followed by the pieces of `b`. */
  lemma {:induction false} SplitAfterSpace(a: string, b: string)
    requires forall j :: 0 <= j < |a| ==> a[j] != ' '
    ensures Split(a + " " + b) == [a] + Split(b)
    decreases |a|
  {
    if a == [] {
      assert a + " " + b == [' '] + b;
      assert (a + " " + b)[1..] == b;
    } else {
      SplitAfterSpace(a[1..], b);
      assert (a + " " + b)[1..] == a[1..] + " " + b;
      assert [a[0]] + a[1..] == a;
    }
  }

  /**
   * `_get_authorization_header`: the header must split into exactly two
   * pieces and the first must be the configured prefix; the token is the
   * second piece. Every rejection is 401 "Unsupported authorization type".
   */
  function GetAuthorizationHeader(apiKey: string, tokenPrefix: string): (r: Result<string, HttpException>)
    ensures r.Ok? ==> apiKey == tokenPrefix + " " + r.value
    ensures r.Ok? ==> forall j :: 0 <= j < |r.value| ==> r.value[j] != ' '
    ensures r.Ok? ==> CountSpaces(apiKey) == 1
    ensures r.Err? ==> r.error == HttpException(Unauthorized, WrongTokenPrefix)
  {
    var parts := Split(apiKey);
    SplitJoin(apiKey);
    SplitPieces(apiKey);
    if |parts| != 2 then Err(HttpException(Unauthorized, WrongTokenPrefix))
    else if parts[0] != tokenPrefix then Err(HttpException(Unauthorized, WrongTokenPrefix))
    else
      assert JoinSpace(parts[1..]) == parts[1];
      Ok(parts[1])
  }

  /** A header made of the configured prefix, one space and a token without spaces yields that token. */
  lemma WellFormedHeaderAccepted(tokenPrefix: string, token: string)
    requires forall j :: 0 <= j < |tokenPrefix| ==> tokenPrefix[j] != ' '
    requires forall j :: 0 <= j < |token| ==> token[j] != ' '
    ensures GetAuthorizationHeader(tokenPrefix + " " + token, tokenPrefix) == Ok(token)
  {
    SplitAfterSpace(tokenPrefix, token);
    SplitNoSpace(token);
  }

  /** A header with no space, or with more than one, is rejected whatever the prefix. */
  lemma WrongSpaceCountRejected(apiKey: string, tokenPrefix: string)
    requires CountSpaces(apiKey) != 1
    ensures GetAuthorizationHeader(apiKey, tokenPrefix) == Err(HttpException(Unauthorized, WrongTokenPrefix))
  {
  }

  /** A header whose first piece is not the configured prefix is rejected. */
  lemma WrongPrefixRejected(prefix: string, token: string, tokenPrefix: string)
    requires forall j :: 0 <= j < |prefix| ==> prefix[j] != ' '
    requires prefix != tokenPrefix
    ensures GetAuthorizationHeader(prefix + " " + token, tokenPrefix).Err?
  {
    SplitAfterSpace(prefix, token);
  }

  /**
   * `_get_user_id_from_token`: the decoder's result (`None` when the token
   * does not decode) must be truthy; `None` and 0 are rejected with 401
   * "Could not validate credentials".
   */
  function GetUserIdFromToken(token: string, secretKey: string, decode: (string, string) -> Option<int>): (r: Result<int, HttpException>)
    ensures r.Ok? <==> decode(token, secretKey).Some? && decode(token, secretKey).value != 0
    ensures r.Ok? ==> r.value == decode(token, secretKey).value
    ensures r.Err? ==> r.error == HttpException(Unauthorized, MalformedPayload)
  {
    match decode(token, secretKey)
    case None => Err(HttpException(Unauthorized, MalformedPayload))
    case Some(userId) =>
      if userId == 0 then Err(HttpException(Unauthorized, MalformedPayload)) else Ok(userId)
  }

  /**
   * `_get_current_user`: the repository's user with that id, or 401
   * "user does not exist" when there is none.
   */
  function GetCurrentUser<User>(userId: int, findUser: int -> Option<User>): (r: Result<User, HttpException>)
    ensures r.Ok? <==> findUser(userId).Some?
    ensures r.Ok? ==> r.value == findUser(userId).value
    ensures r.Err? ==> r.error == HttpException(Unauthorized, UserDoesNotExist)
  {
    match findUser(userId)
    case None => Err(HttpException(Unauthorized, UserDoesNotExist))
    case Some(user) => Ok(user)
  }

  /** The dependency chain FastAPI resolves for `get_current_user_authorizer()`: header, then id, then user. */
  function Authorize<User>(apiKey: string, tokenPrefix: string, secretKey: string,
                           decode: (string, string) -> Option<int>, findUser: int -> Option<User>): Result<User, HttpException>
  {
    match GetAuthorizationHeader(apiKey, tokenPrefix)
    case Err(e) => Err(e)
    case Ok(token) =>
      match GetUserIdFromToken(token, secretKey, decode)
      case Err(e) => Err(e)
      case Ok(userId) => GetCurrentUser(userId, findUser)
  }

  /**
   * A request is authorized exactly when its header is the prefix, a space
   * and a token, the token decodes to a non-zero id, and that id names a
   * user; the user returned is that one. Each failure is a 401 whose detail
   * names the first step that failed.
   */
  lemma AuthorizeCharacterized<User>(prefix: string, token: string, secretKey: string,
                                     decode: (string, string) -> Option<int>, findUser: int -> Option<User>)
    requires forall j :: 0 <= j < |prefix| ==> prefix[j] != ' '
    requires forall j :: 0 <= j < |token| ==> token[j] != ' '
    ensures var r := Authorize(prefix + " " + token, prefix, secretKey, decode, findUser);
      var id := decode(token, secretKey);
      && (r.Ok? <==> id.Some? && id.value != 0 && findUser(id.value).Some?)
      && (r.Ok? ==> r.value == findUser(id.value).value)
      && ((id.None? || id.value == 0) ==> r == Err(HttpException(Unauthorized, MalformedPayload)))
      && (id.Some? && id.value != 0 && findUser(id.value).None? ==> r == Err(HttpException(Unauthorized, UserDoesNotExist)))
  {
    WellFormedHeaderAccepted(prefix, token);
  }

  /** A header the prefix check rejects never reaches the decoder or the repository. */
  lemma RejectedHeaderStopsChain<User>(apiKey: string, tokenPrefix: string, secretKey: string,
                                       decode: (string, string) -> Option<int>, findUser: int -> Option<User>)
    requires GetAuthorizationHeader(apiKey, tokenPrefix).Err?
    ensures Authorize(apiKey, tokenPrefix, secretKey, decode, findUser) == Err(HttpException(Unauthorized, WrongTokenPrefix))
  {
  }
}
