/**
 * The OAuth token lifecycle of the Twitch client: loading and persisting the
 * token file, acquiring a token with an authorization code, refreshing it,
 * and the authenticated API call that retries once per 401.
 *
 * The module-level functions describe each operation on values (the
 * in-memory token and the token file); the class `Client` performs the same
 * operations step by step on its two fields and is proved to agree with them.
 * The network and the user are inputs: every reply the token endpoint or the
 * API gives, and every code the user pastes, is scripted per pass of the
 * retry loop; the clock is an integer.
 */
module TwitchClient {
  import opened Wrappers
  import opened Json

  const API_ENDPOINT := "https://api.twitch.tv"

  /** An HTTP response: status code and decoded JSON body. */
  datatype Reply = Reply(status: int, body: Dict)

  /** What the outside world supplies during one pass of the retry loop in `call`. */
  datatype Round = Round(
    code: string,      // what the user pastes when asked for an authorization code
    exchange: Reply,   // the token endpoint's answer to the code exchange
    api: Reply,        // the API's answer to the request
    refresh: Reply)    // the token endpoint's answer to the refresh

  datatype Verb = Get | Post

  /** The arguments of `call`: endpoint path, query parameters and method. */
  datatype ApiCall = ApiCall(endpoint: string, params: map<string, string>, verb: Verb)

  /** The exceptions the client lets escape. */
  datatype Failure =
    | FileNotFound                          // the token file does not exist
    | KeyMissing(key: string)               // KeyError on a token lookup
    | NotANumber(key: string)               // TypeError adding a non-number to the clock
    | AuthRejected(status: int, body: Dict) // the token endpoint answered other than 200
    | ApiRejected(status: int, body: Dict)  // the API answered other than 200 or 401

  /** A value, or the exception raised instead of returning it. */
  datatype Effect<T> = Done(value: T) | Raised(error: Failure)

  /** Normal completion of an operation that returns nothing, or its exception. */
  datatype Status = Completed | Failed(error: Failure)

  /** A POST to the token endpoint, with the grant it carried and the status it got. */
  datatype AuthPost =
    | CodeGrant(code: string, status: int)
    | RefreshGrant(refreshToken: Value, status: int)

  /** A request to the API, with what was sent and the status it got. */
  datatype Request = Request(
    verb: Verb, url: string, params: map<string, string>,
    headers: map<string, string>, status: int)

  /** What one pass of the retry loop sent, in order: code exchange, API request, refresh. */
  datatype Attempt = Attempt(exchange: Option<AuthPost>, request: Option<Request>, refresh: Option<AuthPost>)

  /** The client's state: the in-memory token (`self.token`) and the token file. */
  datatype State = State(token: Dict, store: Doc)

  datatype Written = Written(store: Doc, result: Effect<Dict>)
  datatype Handled = Handled(state: State, exchange: Option<AuthPost>, status: Status)
  datatype Refreshed = Refreshed(store: Doc, post: Option<AuthPost>, status: Status)
  /** One pass of the retry loop; `exit` is None when the loop goes round again. */
  datatype Pass = Pass(state: State, attempt: Attempt, exit: Option<Effect<Option<Dict>>>)
  /** A whole call: final state, the passes made, and what `call` returned or raised. */
  datatype Run = Run(state: State, attempts: seq<Attempt>, result: Effect<Option<Dict>>)

  /** `load_token`: the decoded value when it is an object, None when it is not or does not parse. */
  function Load(d: Doc): (r: Effect<Option<Dict>>)
    ensures r.Raised? <==> d.Missing?
    ensures r.Raised? ==> r.error == FileNotFound
    ensures r.Done? ==> (r.value.Some? <==> d.Object?)
    ensures r.Done? && r.value.Some? ==> r.value.value == d.fields
  {
    match d
    case Missing => Raised(FileNotFound)
    case Object(fields) => Done(Some(fields))
    case NonObject => Done(None)
    case Unparsable => Done(None)
  }

  /** The token endpoint's record can be stamped: it has a numeric `expires_in`. */
  predicate Stampable(t: Dict)
  {
    "expires_in" in t && t["expires_in"].Num?
  }

  /** The record stamped with `expires_at = now + expires_in`, other keys unchanged. */
  function Stamped(t: Dict, now: int): Dict
    requires Stampable(t)
  {
    t["expires_at" := Num(now + t["expires_in"].n)]
  }

  /**
   * `update_token`: the file is opened for writing, and so emptied, before
   * `expires_in` is read; a record without a numeric `expires_in` leaves an
   * empty file behind.
   */
  function Persist(t: Dict, now: int): Written
  {
    if Stampable(t) then
      Written(Object(Stamped(t, now)), Done(Stamped(t, now)))
    else if "expires_in" in t then
      Written(Unparsable, Raised(NotANumber("expires_in")))
    else
      Written(Unparsable, Raised(KeyMissing("expires_in")))
  }

  /** `get_access_token`: a non-200 answer raises and writes nothing; a 200 is persisted. */
  function Exchange(store: Doc, reply: Reply, now: int): Written
  {
    if reply.status != 200 then Written(store, Raised(AuthRejected(reply.status, reply.body)))
    else Persist(reply.body, now)
  }

  /** The stored token is usable when the load yields a non-empty object. */
  predicate Usable(loaded: Option<Dict>)
  {
    loaded.Some? && |loaded.value| != 0
  }

  /**
   * `handle_token`: reload the file; adopt a usable stored token, otherwise
   * exchange the user's code for a new one and adopt that.
   */
  function Handle(st: State, code: string, reply: Reply, now: int): Handled
  {
    match Load(st.store)
    case Raised(e) => Handled(st, None, Failed(e))
    case Done(loaded) =>
      if Usable(loaded) then
        Handled(State(loaded.value, st.store), None, Completed)
      else
        var w := Exchange(st.store, reply, now);
        var post := Some(CodeGrant(code, reply.status));
        match w.result
        case Done(t) => Handled(State(t, w.store), post, Completed)
        case Raised(e) => Handled(State(st.token, w.store), post, Failed(e))
  }

  /** `http_get_headers`: the bearer and client-id headers for the current token. */
  function Headers(token: Dict, clientId: string): (r: Effect<map<string, string>>)
    ensures r.Raised? <==> "access_token" !in token
    ensures r.Raised? ==> r.error == KeyMissing("access_token")
    ensures r.Done? ==>
      && r.value.Keys == {"Authorization", "Client-Id"}
      && "Bearer " <= r.value["Authorization"]
      && r.value["Authorization"][|"Bearer "|..] == Show(token["access_token"])
      && r.value["Client-Id"] == clientId
  {
    if "access_token" !in token then Raised(KeyMissing("access_token"))
    else Done(map["Authorization" := "Bearer " + Show(token["access_token"]), "Client-Id" := clientId])
  }

  /**
   * `refresh_token`: post the in-memory token's refresh token; a 200 answer
   * is persisted. The in-memory token is not part of the result: it is left
   * as it was.
   */
  function Refresh(token: Dict, store: Doc, reply: Reply, now: int): Refreshed
  {
    if "refresh_token" !in token then
      Refreshed(store, None, Failed(KeyMissing("refresh_token")))
    else
      var post := Some(RefreshGrant(token["refresh_token"], reply.status));
      if reply.status != 200 then
        Refreshed(store, post, Failed(AuthRejected(reply.status, reply.body)))
      else
        var w := Persist(reply.body, now);
        Refreshed(w.store, post, if w.result.Done? then Completed else Failed(w.result.error))
  }

  /** The API request `call` sends with the given headers. */
  function RequestOf(call: ApiCall, headers: map<string, string>, status: int): Request
  {
    Request(call.verb, API_ENDPOINT + "/" + call.endpoint, call.params, headers, status)
  }

  /** One pass of the body of the retry loop in `call`. */
  function Iterate(st: State, clientId: string, call: ApiCall, rd: Round, now: int): Pass
  {
    var h := Handle(st, rd.code, rd.exchange, now);
    if h.status.Failed? then
      Pass(h.state, Attempt(h.exchange, None, None), Some(Raised(h.status.error)))
    else
      match Headers(h.state.token, clientId)
      case Raised(e) => Pass(h.state, Attempt(h.exchange, None, None), Some(Raised(e)))
      case Done(headers) =>
        var request := Some(RequestOf(call, headers, rd.api.status));
        if rd.api.status == 200 then
          Pass(h.state, Attempt(h.exchange, request, None), Some(Done(Some(rd.api.body))))
        else if rd.api.status == 401 then
          var f := Refresh(h.state.token, h.state.store, rd.refresh, now);
          Pass(State(h.state.token, f.store), Attempt(h.exchange, request, f.post),
               if f.status.Failed? then Some(Raised(f.status.error)) else None)
        else
          Pass(h.state, Attempt(h.exchange, request, None),
               Some(Raised(ApiRejected(rd.api.status, rd.api.body))))
  }

  /** The retry loop of `call` from the pass numbered `retries` on; pass i uses `env(i)`. */
  function Loop(st: State, clientId: string, call: ApiCall, env: nat -> Round, now: int, retries: nat): Run
    decreases 2 - retries
  {
    if retries < 2 then
      var p := Iterate(st, clientId, call, env(retries), now);
      if p.exit.Some? then
        Run(p.state, [p.attempt], p.exit.value)
      else
        var rest := Loop(p.state, clientId, call, env, now, retries + 1);
        Run(rest.state, [p.attempt] + rest.attempts, rest.result)
    else
      Run(st, [], Done(None))
  }

  /** The client object: its credentials and its two pieces of mutable state. */
  class Client {
    const clientId: string
    const clientSecret: string
    const redirectUri: string
    var token: Dict
    /** The token file, `.twitch_token.json`. */
    var store: Doc

    /** A new client starts with an empty in-memory token; the file is whatever is on disk. */
    constructor (clientId: string, clientSecret: string, redirectUri: string, onDisk: Doc)
      ensures this.clientId == clientId && this.clientSecret == clientSecret
      ensures this.redirectUri == redirectUri
      ensures token == map[] && store == onDisk
    {
      this.clientId := clientId;
      this.clientSecret := clientSecret;
      this.redirectUri := redirectUri;
      token := map[];
      store := onDisk;
    }

    method UpdateToken(t: Dict, now: int) returns (r: Effect<Dict>)
      modifies this`store
      ensures Written(store, r) == Persist(t, now)
    {
      store := Unparsable;  // opening for writing empties the file
      if "expires_in" !in t {
        return Raised(KeyMissing("expires_in"));
      }
      if !t["expires_in"].Num? {
        return Raised(NotANumber("expires_in"));
      }
      var stamped := t["expires_at" := Num(now + t["expires_in"].n)];
      store := Object(stamped);
      r := Done(stamped);
    }

    method GetAccessToken(reply: Reply, now: int) returns (r: Effect<Dict>)
      modifies this`store
      ensures Written(store, r) == Exchange(old(store), reply, now)
    {
      if reply.status != 200 {
        return Raised(AuthRejected(reply.status, reply.body));
      }
      r := UpdateToken(reply.body, now);
    }

    method HandleToken(code: string, reply: Reply, now: int) returns (exchange: Option<AuthPost>, status: Status)
      modifies this
      ensures Handled(State(token, store), exchange, status) == Handle(State(old(token), old(store)), code, reply, now)
    {
      var loaded := Load(store);
      if loaded.Raised? {
        return None, Failed(loaded.error);
      }
      if loaded.value.None? || |loaded.value.value| == 0 {
        exchange := Some(CodeGrant(code, reply.status));
        var r := GetAccessToken(reply, now);
        if r.Raised? {
          return exchange, Failed(r.error);
        }
        token := r.value;
        status := Completed;
      } else {
        token := loaded.value.value;
        exchange, status := None, Completed;
      }
    }

    method RefreshToken(reply: Reply, now: int) returns (post: Option<AuthPost>, status: Status)
      modifies this`store
      ensures Refreshed(store, post, status) == Refresh(token, old(store), reply, now)
    {
      if "refresh_token" !in token {
        return None, Failed(KeyMissing("refresh_token"));
      }
      post := Some(RefreshGrant(token["refresh_token"], reply.status));
      if reply.status != 200 {
        return post, Failed(AuthRejected(reply.status, reply.body));
      }
      var r := UpdateToken(reply.body, now);
      status := if r.Done? then Completed else Failed(r.error);
    }

    /**
     * `call`: at most two passes; each reloads the token, sends the request,
     * returns the body on 200, refreshes and goes round again on 401, and
     * raises on anything else. After two 401s the loop ends and None is returned.
     */
    method Call(call: ApiCall, env: nat -> Round, now: int) returns (result: Effect<Option<Dict>>, attempts: seq<Attempt>)
      modifies this
      ensures Run(State(token, store), attempts, result) == Loop(State(old(token), old(store)), clientId, call, env, now, 0)
    {
      var retries: nat := 0;
      attempts := [];
      while retries < 2
        invariant retries <= 2
        invariant var rest := Loop(State(token, store), clientId, call, env, now, retries);
          Run(rest.state, attempts + rest.attempts, rest.result) == Loop(State(old(token), old(store)), clientId, call, env, now, 0)
        decreases 2 - retries
      {
        ghost var before := State(token, store);
        ghost var rest := Loop(before, clientId, call, env, now, retries);
        ghost var pass := Iterate(before, clientId, call, env(retries), now);
        var round := env(retries);
        var exchange, handled := HandleToken(round.code, round.exchange, now);
        if handled.Failed? {
          attempts := attempts + [Attempt(exchange, None, None)];
          return Raised(handled.error), attempts;
        }
        var headers := Headers(token, clientId);
        if headers.Raised? {
          attempts := attempts + [Attempt(exchange, None, None)];
          return Raised(headers.error), attempts;
        }
        var request := RequestOf(call, headers.value, round.api.status);
        if round.api.status == 200 {
          attempts := attempts + [Attempt(exchange, Some(request), None)];
          return Done(Some(round.api.body)), attempts;
        }
        if round.api.status == 401 {
          var post, refreshed := RefreshToken(round.refresh, now);
          attempts := attempts + [Attempt(exchange, Some(request), post)];
          if refreshed.Failed? {
            return Raised(refreshed.error), attempts;
          }
          assert pass.exit.None? && pass.state == State(token, store);
          assert rest.attempts == [pass.attempt] + Loop(pass.state, clientId, call, env, now, retries + 1).attempts;
          retries := retries + 1;
          continue;
        }
        attempts := attempts + [Attempt(exchange, Some(request), None)];
        return Raised(ApiRejected(round.api.status, round.api.body)), attempts;
      }
      result := Done(None);
    }
  }
}
