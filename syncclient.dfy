/**
 * `APIClient`: the agent's session with the monitoring API — logging in,
 * keeping the token fresh, and the retry loops of `create_device` and
 * `update_device`. The API server is a scripted object that answers each
 * request with the next reply of its script; the wall clock is an argument.
 */
module SyncClient {
  import opened Wrappers
  import opened Monitoring

  /**
   * What `await response.json()` makes of a reply body: it raises
   * (`NoJson`), or it decodes to a dict (`JsonObject`), or to another JSON
   * value such as a list, a string, a number or `null` (`JsonOther`), on
   * which `.get(...)` raises.
   */
  datatype Body = NoJson | JsonOther | JsonObject

  /** The reply to a device request: a status and its body; or an exception. */
  datatype Reply = Answered(status: int, body: Body) | Raised

  /**
   * The reply to a login: a token with its `expires_in` (seconds, if given)
   * read at clock time `clock`; a refusal; or an exception.
   */
  datatype LoginReply = Granted(token: string, expiresIn: Option<int>, clock: int) | Denied | LoginRaised

  /** The `n`-th entry of a script; past its end every request raises. */
  function NextReply(script: seq<Reply>, n: nat): Reply {
    if n < |script| then script[n] else Raised
  }

  function NextLogin(script: seq<LoginReply>, n: nat): LoginReply {
    if n < |script| then script[n] else LoginRaised
  }

  /** The API server as the client sees it: replies handed out in order. */
  class Server {
    const replies: seq<Reply>
    const logins: seq<LoginReply>
    var served: nat
    var loginsServed: nat

    constructor (replies: seq<Reply>, logins: seq<LoginReply>)
      ensures this.replies == replies && this.logins == logins
      ensures served == 0 && loginsServed == 0
    {
      this.replies := replies;
      this.logins := logins;
      served := 0;
      loginsServed := 0;
    }

    /** One device request (`session.post` / `session.put`). */
    method Request() returns (r: Reply)
      modifies this`served
      ensures r == NextReply(replies, old(served)) && served == old(served) + 1
    {
      r := NextReply(replies, served);
      served := served + 1;
    }

    /** One `POST /login`. */
    method Login() returns (r: LoginReply)
      modifies this`loginsServed
      ensures r == NextLogin(logins, old(loginsServed)) && loginsServed == old(loginsServed) + 1
    {
      r := NextLogin(logins, loginsServed);
      loginsServed := loginsServed + 1;
    }
  }

  /** `self.token` and `self.token_expires` (seconds on the wall clock). */
  datatype Session = Session(token: Option<string>, expires: Option<int>)

  /** Seconds assumed when the login reply has no `expires_in` (24 hours). */
  const DefaultExpiresIn: int := 24 * 3600
  /** The safety margin taken off the token lifetime (5 minutes). */
  const ExpiryMargin: int := 300

  /** `authenticate()`: the new session and the result. Only a granted login changes the session. */
  function AfterLogin(s: Session, r: LoginReply): (after: (Session, bool))
    ensures after.1 <==> r.Granted?
    ensures !after.1 ==> after.0 == s
    ensures r.Granted? ==> after.0.token == Some(r.token) && after.0.expires.Some?
  {
    match r
    case Granted(t, e, clock) => (Session(Some(t), Some(clock + e.GetOr(DefaultExpiresIn) - ExpiryMargin)), true)
    case _ => (s, false)
  }

  /** The condition of `_ensure_authenticated` at time `now`. */
  predicate NeedsLogin(s: Session, now: int)
    ensures s.token.None? ==> NeedsLogin(s, now)
    ensures Truthy(s.token) && s.expires.None? ==> !NeedsLogin(s, now)
  {
    !Truthy(s.token) || (s.expires.Some? && now >= s.expires.value)
  }

  /** `_get_headers()['Authorization']`, if set. */
  function AuthorizationHeader(s: Session): Option<string> {
    if Truthy(s.token) then Some("Bearer " + s.token.value) else None
  }

  /** The outcome of a request loop: the result, the session, and how many requests and logins it made. */
  datatype Run = Run(ok: bool, session: Session, requests: nat, logins: nat)

  /**
   * The `update_device` loop from attempt `k` on: 200 succeeds; 401 logs in
   * again and tries the next attempt; another status whose body decodes to a
   * dict fails; any other body (one `json()` or `.get` raises on), or an
   * exception, tries the next attempt.
   */
  function UpdateLoop(s: Session, k: nat, attempts: int, replies: seq<Reply>, logins: seq<LoginReply>, p: nat, l: nat): (run: Run)
    ensures p <= run.requests && l <= run.logins
    decreases attempts - k
  {
    if k >= attempts then Run(false, s, p, l)
    else
      match NextReply(replies, p)
      case Answered(status, json) =>
        if status == 200 then Run(true, s, p + 1, l)
        else if status == 401 then
          UpdateLoop(AfterLogin(s, NextLogin(logins, l)).0, k + 1, attempts, replies, logins, p + 1, l + 1)
        else if json == JsonObject then Run(false, s, p + 1, l)
        else UpdateLoop(s, k + 1, attempts, replies, logins, p + 1, l)
      case Raised => UpdateLoop(s, k + 1, attempts, replies, logins, p + 1, l)
  }

  /**
   * The `create_device` loop from attempt `k` on: a 200 whose body decodes
   * (to any JSON value) succeeds; another status whose body decodes to a
   * dict fails; otherwise `json()` or `.get` raises, as does a failed
   * request, and the next attempt is tried.
   */
  function CreateLoop(k: nat, attempts: int, replies: seq<Reply>, p: nat): (run: (bool, nat))
    ensures p <= run.1
    decreases attempts - k
  {
    if k >= attempts then (false, p)
    else
      match NextReply(replies, p)
      case Answered(status, body) =>
        if status == 200 && body != NoJson then (true, p + 1)
        else if status != 200 && body == JsonObject then (false, p + 1)
        else CreateLoop(k + 1, attempts, replies, p + 1)
      case Raised => CreateLoop(k + 1, attempts, replies, p + 1)
  }

  /** `_ensure_authenticated()` at time `now`: the session and how many logins it made. */
  function Ensure(s: Session, now: int, logins: seq<LoginReply>, l: nat): (r: (Session, nat))
    ensures r.1 == l || r.1 == l + 1
    ensures r.1 == l ==> r.0 == s
    ensures r.1 == l + 1 <==> NeedsLogin(s, now)
  {
    if NeedsLogin(s, now) then (AfterLogin(s, NextLogin(logins, l)).0, l + 1) else (s, l)
  }

  /** `update_device(device_id, data)` at time `now`. */
  function UpdateRun(s: Session, now: int, attempts: int, replies: seq<Reply>, logins: seq<LoginReply>, p: nat, l: nat): Run {
    var (s1, l1) := Ensure(s, now, logins, l);
    UpdateLoop(s1, 0, attempts, replies, logins, p, l1)
  }

  class APIClient {
    /** `config.retry_attempts` */
    const retryAttempts: int
    const server: Server
    var token: Option<string>
    var tokenExpires: Option<int>

    constructor (retryAttempts: int, server: Server)
      ensures this.retryAttempts == retryAttempts && this.server == server
      ensures token == None && tokenExpires == None
    {
      this.retryAttempts := retryAttempts;
      this.server := server;
      token := None;
      tokenExpires := None;
    }

    function CurrentSession(): Session
      reads this
    {
      Session(token, tokenExpires)
    }

    /** `authenticate()` */
    method Authenticate() returns (ok: bool)
      modifies this, server`loginsServed
      ensures (CurrentSession(), ok) == AfterLogin(old(CurrentSession()), NextLogin(server.logins, old(server.loginsServed)))
      ensures server.loginsServed == old(server.loginsServed) + 1
    {
      var r := server.Login();
      match r
      case Granted(t, e, clock) =>
        token := Some(t);
        tokenExpires := Some(clock + e.GetOr(DefaultExpiresIn) - ExpiryMargin);
        return true;
      case Denied =>
        return false;
      case LoginRaised =>
        return false;
    }

    /** `_ensure_authenticated()` at time `now`. */
    method EnsureAuthenticated(now: int)
      modifies this, server`loginsServed
      ensures (CurrentSession(), server.loginsServed)
           == Ensure(old(CurrentSession()), now, server.logins, old(server.loginsServed))
    {
      if token.None? || token.value == "" || (tokenExpires.Some? && now >= tokenExpires.value) {
        var _ := Authenticate();
      }
    }

    /** `update_device(device_id, update_data)` at time `now`. */
    method UpdateDevice(now: int) returns (ok: bool)
      modifies this, server
      ensures var run := UpdateRun(old(CurrentSession()), now, retryAttempts, server.replies, server.logins,
                                old(server.served), old(server.loginsServed));
        ok == run.ok && CurrentSession() == run.session
        && server.served == run.requests && server.loginsServed == run.logins
    {
      EnsureAuthenticated(now);
      var attempt := 0;
      while attempt < retryAttempts
        invariant 0 <= attempt
        invariant UpdateLoop(CurrentSession(), attempt, retryAttempts, server.replies, server.logins, server.served, server.loginsServed)
               == UpdateRun(old(CurrentSession()), now, retryAttempts, server.replies, server.logins,
                         old(server.served), old(server.loginsServed))
        decreases retryAttempts - attempt
      {
        var r := server.Request();
        if r.Answered? {
          if r.status == 200 {
            return true;
          } else if r.status == 401 {
            var _ := Authenticate();
            attempt := attempt + 1;
            continue;
          } else if r.body == JsonObject {
            return false;
          }
        }
        attempt := attempt + 1;
      }
      return false;
    }

    /** `create_device(device_data)` at time `now`. */
    method CreateDevice(now: int) returns (ok: bool)
      modifies this, server
      ensures var (s1, l1) := Ensure(old(CurrentSession()), now, server.logins, old(server.loginsServed));
        CurrentSession() == s1 && server.loginsServed == l1
        && (ok, server.served) == CreateLoop(0, retryAttempts, server.replies, old(server.served))
    {
      EnsureAuthenticated(now);
      var attempt := 0;
      while attempt < retryAttempts
        invariant 0 <= attempt
        invariant CreateLoop(attempt, retryAttempts, server.replies, server.served)
               == CreateLoop(0, retryAttempts, server.replies, old(server.served))
        invariant (CurrentSession(), server.loginsServed)
               == Ensure(old(CurrentSession()), now, server.logins, old(server.loginsServed))
        decreases retryAttempts - attempt
      {
        var r := server.Request();
        if r.Answered? {
          if r.status == 200 && r.body != NoJson {
            return true;
          } else if r.status != 200 && r.body == JsonObject {
            return false;
          }
        }
        attempt := attempt + 1;
      }
      return false;
    }
  }

  // ---------------------------------------------------------------------
  // Properties of the request loops

  /** The update loop makes at most one request per remaining attempt, and one login per 401. */
  lemma {:induction false} UpdateLoopBounded(s: Session, k: nat, attempts: int, replies: seq<Reply>, logins: seq<LoginReply>, p: nat, l: nat)
    ensures var run := UpdateLoop(s, k, attempts, replies, logins, p, l);
      run.requests - p <= (if attempts > k then attempts - k else 0)
      && run.logins - l <= run.requests - p
      && (run.ok ==> run.requests > p && NextReply(replies, run.requests - 1).Answered?
                     && NextReply(replies, run.requests - 1).status == 200)
    decreases attempts - k
  {
    if k < attempts {
      var r := NextReply(replies, p);
      if r.Answered? && r.status == 401 {
        UpdateLoopBounded(AfterLogin(s, NextLogin(logins, l)).0, k + 1, attempts, replies, logins, p + 1, l + 1);
      } else if !r.Answered? || (r.status != 200 && r.body != JsonObject) {
        UpdateLoopBounded(s, k + 1, attempts, replies, logins, p + 1, l);
      }
    }
  }

  /**
   * The create loop sends at most one request per attempt left, and succeeds
   * only on a 200 with a decodable body as the last request made.
   */
  lemma {:induction false} CreateLoopBounded(k: nat, attempts: int, replies: seq<Reply>, p: nat)
    ensures var run := CreateLoop(k, attempts, replies, p);
      run.1 - p <= (if attempts > k then attempts - k else 0)
      && (run.0 ==> run.1 > p && NextReply(replies, run.1 - 1).Answered?
                    && NextReply(replies, run.1 - 1).status == 200
                    && NextReply(replies, run.1 - 1).body != NoJson)
    decreases attempts - k
  {
    if k < attempts {
      var r := NextReply(replies, p);
      if !r.Answered? || !CreateEnds(r) {
        CreateLoopBounded(k + 1, attempts, replies, p + 1);
      }
    }
  }

  /** A 200 on the first request succeeds at once, with the session unchanged. */
  lemma UpdateFirstOk(s: Session, attempts: int, replies: seq<Reply>, logins: seq<LoginReply>, p: nat, l: nat)
    requires attempts >= 1 && NextReply(replies, p).Answered? && NextReply(replies, p).status == 200
    ensures UpdateLoop(s, 0, attempts, replies, logins, p, l) == Run(true, s, p + 1, l)
  {
  }

  /** No attempts (`retry_attempts <= 0`): nothing is sent and the update fails. */
  lemma UpdateNoAttempts(s: Session, attempts: int, replies: seq<Reply>, logins: seq<LoginReply>, p: nat, l: nat)
    requires attempts <= 0
    ensures UpdateLoop(s, 0, attempts, replies, logins, p, l) == Run(false, s, p, l)
  {
  }

  /**
   * A server that answers 401 every time: each attempt logs in again, and
   * after `attempts` of them the update fails.
   */
  lemma {:induction false} UpdateAll401(s: Session, k: nat, attempts: int, replies: seq<Reply>, logins: seq<LoginReply>, p: nat, l: nat)
    requires k <= attempts
    requires forall i :: p <= i < p + (attempts - k) ==> NextReply(replies, i).Answered? && NextReply(replies, i).status == 401
    ensures var run := UpdateLoop(s, k, attempts, replies, logins, p, l);
      !run.ok && run.requests == p + (attempts - k) && run.logins == l + (attempts - k)
    decreases attempts - k
  {
    if k < attempts {
      assert NextReply(replies, p).Answered? && NextReply(replies, p).status == 401;
      UpdateAll401(AfterLogin(s, NextLogin(logins, l)).0, k + 1, attempts, replies, logins, p + 1, l + 1);
    }
  }

  /** A refusal other than 401 whose body decodes to a dict ends the update at once. */
  lemma UpdateRefused(s: Session, attempts: int, replies: seq<Reply>, logins: seq<LoginReply>, p: nat, l: nat, status: int)
    requires attempts >= 1 && status != 200 && status != 401
    requires NextReply(replies, p) == Answered(status, JsonObject)
    ensures UpdateLoop(s, 0, attempts, replies, logins, p, l) == Run(false, s, p + 1, l)
  {
  }

  /**
   * A refusal other than 401 whose body is not a dict (or not JSON at all)
   * raises inside the `try`, so the update tries again; a following 200
   * succeeds.
   */
  lemma UpdateRetriesOtherBody(s: Session, attempts: int, replies: seq<Reply>, logins: seq<LoginReply>, p: nat, l: nat,
                               status: int, body: Body)
    requires attempts >= 2 && status != 200 && status != 401 && body != JsonObject
    requires NextReply(replies, p) == Answered(status, body)
    requires NextReply(replies, p + 1).Answered? && NextReply(replies, p + 1).status == 200
    ensures UpdateLoop(s, 0, attempts, replies, logins, p, l) == Run(true, s, p + 2, l)
  {
  }

  /** A create reply that ends the loop: a 200 whose body decodes, or another status whose body is a dict. */
  predicate CreateEnds(r: Reply) {
    match r
    case Answered(status, body) => if status == 200 then body != NoJson else body == JsonObject
    case Raised => false
  }

  /** Request `j` got a reply that ends the create loop. */
  predicate EndsAt(replies: seq<Reply>, j: nat) {
    CreateEnds(NextReply(replies, j))
  }

  /** Counting from request `p`, request `p + n` is the first that ends the loop, and it is a 200. */
  predicate CreatedAt(replies: seq<Reply>, p: nat, n: nat) {
    EndsAt(replies, p + n) && NextReply(replies, p + n).status == 200
    && forall j :: p <= j < p + n ==> !EndsAt(replies, j)
  }

  lemma CreatedAtShift(replies: seq<Reply>, p: nat, n: nat)
    requires !EndsAt(replies, p)
    ensures CreatedAt(replies, p, n + 1) <==> CreatedAt(replies, p + 1, n)
    ensures !CreatedAt(replies, p, 0)
  {
  }

  /**
   * Creating succeeds iff, within the attempts, the first reply that ends
   * the loop is a 200; the replies before it were exceptions, bodies that do
   * not decode, or refusals whose body is not a dict.
   */
  lemma {:induction false} CreateSucceedsIff(k: nat, attempts: int, replies: seq<Reply>, p: nat)
    ensures CreateLoop(k, attempts, replies, p).0 <==>
      exists n: nat :: k + n < attempts && CreatedAt(replies, p, n)
    decreases attempts - k
  {
    if k < attempts {
      if EndsAt(replies, p) {
        if NextReply(replies, p).status == 200 {
          assert k + 0 < attempts && CreatedAt(replies, p, 0);
        } else {
          forall n: nat | k + n < attempts ensures !CreatedAt(replies, p, n) {
            if n > 0 {
              assert p <= p < p + n && EndsAt(replies, p);
            }
          }
        }
      } else {
        CreateSucceedsIff(k + 1, attempts, replies, p + 1);
        if CreateLoop(k, attempts, replies, p).0 {
          var n: nat :| k + 1 + n < attempts && CreatedAt(replies, p + 1, n);
          CreatedAtShift(replies, p, n);
          assert k + (n + 1) < attempts && CreatedAt(replies, p, n + 1);
        }
        forall n: nat | k + n < attempts && CreatedAt(replies, p, n)
          ensures CreateLoop(k, attempts, replies, p).0
        {
          CreatedAtShift(replies, p, 0);
          var m: nat := n - 1;
          CreatedAtShift(replies, p, m);
          assert k + 1 + m < attempts && CreatedAt(replies, p + 1, m);
        }
      }
    }
  }

  /** A 200 whose body does not decode does not count as created: create retries. */
  lemma CreateRetries200WithoutJson(attempts: int, replies: seq<Reply>, p: nat, body: Body)
    requires attempts >= 2 && body != NoJson
    requires NextReply(replies, p) == Answered(200, NoJson) && NextReply(replies, p + 1) == Answered(200, body)
    ensures CreateLoop(0, attempts, replies, p) == (true, p + 2)
  {
  }

  /** A refusal whose body is not a dict raises at `.get`, so create retries rather than failing. */
  lemma CreateRetriesOtherBody(attempts: int, replies: seq<Reply>, p: nat, status: int, body: Body)
    requires attempts >= 2 && status != 200 && body != JsonObject
    requires NextReply(replies, p) == Answered(status, body)
    requires NextReply(replies, p + 1) == Answered(200, JsonObject)
    ensures CreateLoop(0, attempts, replies, p) == (true, p + 2)
  {
  }

  /** A fresh, valid token needs no login; one past its expiry, or none, does. */
  lemma EnsureLogsInOnlyWhenNeeded(s: Session, now: int, logins: seq<LoginReply>, l: nat)
    ensures !NeedsLogin(s, now) ==> Ensure(s, now, logins, l) == (s, l)
    ensures NeedsLogin(s, now) ==> Ensure(s, now, logins, l).1 == l + 1
    ensures s.token.None? ==> NeedsLogin(s, now)
  {
  }

  /**
   * A granted login yields a token valid until five minutes before its
   * stated lifetime (24 hours when none is stated) runs out, and sets the
   * `Authorization` header.
   */
  lemma GrantedLoginValidity(s: Session, t: string, e: Option<int>, clock: int, now: int)
    requires t != ""
    ensures var s1 := AfterLogin(s, Granted(t, e, clock)).0;
      (NeedsLogin(s1, now) <==> now >= clock + e.GetOr(DefaultExpiresIn) - 300)
      && AuthorizationHeader(s1) == Some("Bearer " + t)
    ensures e.None? ==> (NeedsLogin(AfterLogin(s, Granted(t, e, clock)).0, now) <==> now >= clock + 86100)
  {
  }

  /** A refused or failed login leaves the session as it was. */
  lemma FailedLoginKeepsSession(s: Session, r: LoginReply)
    requires !r.Granted?
    ensures AfterLogin(s, r) == (s, false)
  {
  }
}
