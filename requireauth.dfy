/**
 * The server's `require_auth` decorator: the bearer token taken from the
 * `Authorization` header, and the outcome of checking it. Token verification
 * (`verify_token`, a JWT check) is a parameter.
 */
module RequireAuth {
  import opened Wrappers
  import opened PyStrings
  import opened Monitoring
  import SyncClient

  /** A header of this form passes the first test of `require_auth`. */
  predicate IsBearer(header: Option<string>) {
    Truthy(header) && StartsWith(header.value, "Bearer ")
  }

  /** The first space of a `Bearer ` header is the one after `Bearer`. */
  lemma BearerFind(h: string)
    requires StartsWith(h, "Bearer ")
    ensures Find(h, " ") == Some(6)
  {
    assert h[6..7] == h[..7][6..7] == " ";
    assert OccursAt(h, " ", 6);
    forall j | 0 <= j < 6 ensures !OccursAt(h, " ", j) {
      assert h[j] == "Bearer "[j];
    }
  }

  /** So the second piece of the split is what follows `Bearer `, up to the next space. */
  lemma BearerSplit(h: string)
    requires StartsWith(h, "Bearer ")
    ensures |Split(h, " ")| >= 2 && Split(h, " ")[1] == TakeUntil(h[7..], ' ')
  {
    BearerFind(h);
    SplitHead(h, " ");
    SplitCharHead(h[7..], ' ');
  }

  /** `auth_header.split(' ')[1]` once the header passed, and `None` for the first 401. */
  function BearerToken(header: Option<string>): (token: Option<string>)
    ensures token.None? <==> !IsBearer(header)
    ensures token.Some? ==> token.value == TakeUntil(header.value[7..], ' ') && ' ' !in token.value
  {
    if !IsBearer(header) then None
    else
      BearerSplit(header.value);
      Some(Split(header.value, " ")[1])
  }

  /** The three ways a request through `require_auth` ends. */
  datatype Outcome =
    | AuthenticationRequired   // 401, no usable header
    | InvalidToken             // 401, the token did not verify
    | Authorized(user: string) // the wrapped handler runs as `user`

  /** `require_auth`, with `verify` standing for `verify_token`. */
  function Authorize(header: Option<string>, verify: string -> Option<string>): (o: Outcome)
    ensures o == AuthenticationRequired <==> !IsBearer(header)
    ensures o.Authorized? ==> o.user != "" && verify(BearerToken(header).value) == Some(o.user)
  {
    match BearerToken(header)
    case None => AuthenticationRequired
    case Some(token) =>
      var user := verify(token);
      if Truthy(user) then Authorized(user.value) else InvalidToken
  }

  /** The token is rejected exactly when the header is missing, empty or not a `Bearer ` header; otherwise it has no space. */
  lemma BearerTokenCases(header: Option<string>)
    ensures BearerToken(header).None? <==> !IsBearer(header)
    ensures BearerToken(header).Some? ==>
      BearerToken(header).value == TakeUntil(header.value[7..], ' ')
      && ' ' !in BearerToken(header).value
  {
    if IsBearer(header) {
      BearerSplit(header.value);
    }
  }

  /** The header `Bearer <t>` yields `t` up to its first space. */
  lemma BearerOf(t: string)
    ensures BearerToken(Some("Bearer " + t)) == Some(TakeUntil(t, ' '))
  {
    var h := "Bearer " + t;
    assert h[..7] == "Bearer ";
    assert h[7..] == t;
    BearerSplit(h);
  }

  /** A token written as `Bearer <t>` reads back up to its first space, so exactly when it has none. */
  lemma BearerRoundTrip(t: string)
    ensures BearerToken(Some("Bearer " + t)) == Some(TakeUntil(t, ' '))
    ensures BearerToken(Some("Bearer " + t)) == Some(t) <==> ' ' !in t
  {
    BearerOf(t);
    TakeUntilWhole(t, ' ');
  }

  /** The header the monitoring agent sends is accepted, and its token reaches `verify_token` unchanged when it has no space. */
  lemma AgentHeaderAccepted(s: SyncClient.Session)
    requires SyncClient.AuthorizationHeader(s).Some?
    ensures BearerToken(SyncClient.AuthorizationHeader(s)).Some?
    ensures ' ' !in s.token.value ==> BearerToken(SyncClient.AuthorizationHeader(s)) == s.token
  {
    BearerRoundTrip(s.token.value);
  }

  /** The handler runs iff the header carries a token that verifies to a non-empty user name, and it runs as that user. */
  lemma AuthorizeIff(header: Option<string>, verify: string -> Option<string>, user: string)
    ensures Authorize(header, verify) == Authorized(user) <==>
      BearerToken(header).Some? && verify(BearerToken(header).value) == Some(user) && user != ""
    ensures Authorize(header, verify) == AuthenticationRequired <==> !IsBearer(header)
  {
    BearerTokenCases(header);
  }
}
