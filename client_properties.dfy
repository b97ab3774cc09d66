/**
 * What the token lifecycle promises: the token file round trip, when a new
 * token is acquired, what a refresh writes and what it leaves alone, and the
 * shape of every run of `call`'s retry loop.
 */
module ClientProperties {
  import opened Wrappers
  import opened Json
  import opened TwitchClient

  /** The pass's API request was sent and answered 401. */
  predicate Unauthorized(a: Attempt)
  {
    a.request.Some? && a.request.value.status == 401
  }

  /** The pass's API request was sent and answered `status`. */
  predicate Answered(a: Attempt, status: int)
  {
    a.request.Some? && a.request.value.status == status
  }

  /**
   * Reading back what `update_token` wrote gives the record stamped with
   * `expires_at = now + expires_in`, every other key unchanged; a record it
   * cannot stamp leaves a file that reads back as no token at all.
   */
  lemma PersistRoundTrip(t: Dict, now: int)
    ensures var w := Persist(t, now);
      && (Stampable(t) ==>
            && w.result.Done?
            && Load(w.store) == Done(Some(w.result.value))
            && w.result.value.Keys == t.Keys + {"expires_at"}
            && w.result.value["expires_at"] == Num(now + t["expires_in"].n)
            && (forall k :: k in t && k != "expires_at" ==> w.result.value[k] == t[k]))
      && (!Stampable(t) ==> w.result.Raised? && Load(w.store) == Done(None))
  {
  }

  /**
   * `get_access_token`: a non-200 answer raises with the answer and leaves the
   * file as it was; a 200 answer is what the next load yields, stamped.
   */
  lemma ExchangeOutcome(store: Doc, reply: Reply, now: int)
    ensures var w := Exchange(store, reply, now);
      && (reply.status != 200 ==> w.store == store && w.result == Raised(AuthRejected(reply.status, reply.body)))
      && (reply.status == 200 && Stampable(reply.body) ==>
            w.result == Done(Stamped(reply.body, now)) && Load(w.store) == Done(Some(w.result.value)))
  {
  }

  /**
   * `handle_token` acquires a new token exactly when the load yields None or
   * an empty object; otherwise it adopts the stored object. A token it
   * acquires is adopted and stored alike.
   */
  lemma HandleAcquiresOnlyWhenUnusable(st: State, code: string, reply: Reply, now: int)
    ensures var h := Handle(st, code, reply, now);
      && (st.store.Missing? ==> h == Handled(st, None, Failed(FileNotFound)))
      && (!st.store.Missing? ==>
            (h.exchange.Some? <==> Load(st.store) == Done(None) || Load(st.store) == Done(Some(map[]))))
      && (h.exchange.Some? ==> h.exchange.value == CodeGrant(code, reply.status))
      && (st.store.Object? && |st.store.fields| != 0 ==>
            h == Handled(State(st.store.fields, st.store), None, Completed))
      && (h.exchange.Some? && h.status.Completed? ==>
            Load(h.state.store) == Done(Some(h.state.token)))
      && (h.status.Failed? ==> h.state.token == st.token)
  {
    if st.store.Object? && |st.store.fields| == 0 {
      assert st.store.fields == map[];
    }
  }

  /**
   * `refresh_token` posts the in-memory token's refresh token; a non-200
   * answer raises and writes nothing, a 200 answer is written stamped. It has
   * no in-memory token to return: `self.token` is left as it was.
   */
  lemma RefreshOutcome(token: Dict, store: Doc, reply: Reply, now: int)
    ensures var f := Refresh(token, store, reply, now);
      && ("refresh_token" !in token ==> f == Refreshed(store, None, Failed(KeyMissing("refresh_token"))))
      && ("refresh_token" in token ==> f.post == Some(RefreshGrant(token["refresh_token"], reply.status)))
      && ("refresh_token" in token && reply.status != 200 ==>
            f.store == store && f.status == Failed(AuthRejected(reply.status, reply.body)))
      && ("refresh_token" in token && reply.status == 200 ==>
            (f.status.Completed? <==> Stampable(reply.body)))
      && ("refresh_token" in token && reply.status == 200 && Stampable(reply.body) ==>
            Load(f.store) == Done(Some(Stamped(reply.body, now))))
  {
  }

  /** The next `handle_token` after a successful refresh adopts the refreshed token. */
  lemma ReloadAdoptsRefreshed(token: Dict, store: Doc, reply: Reply, now: int, code: string, exchange: Reply, later: int)
    requires "refresh_token" in token && reply.status == 200 && Stampable(reply.body)
    ensures var f := Refresh(token, store, reply, now);
      Handle(State(token, f.store), code, exchange, later)
        == Handled(State(Stamped(reply.body, now), f.store), None, Completed)
  {
    assert "expires_at" in Stamped(reply.body, now);
  }

  /** What one pass of the retry loop does, read off its answers. */
  lemma PassFacts(st: State, clientId: string, call: ApiCall, rd: Round, now: int)
    ensures var p := Iterate(st, clientId, call, rd, now);
      var adopted := Handle(st, rd.code, rd.exchange, now).state.token;
      && (p.attempt.request.Some? ==> p.attempt.request.value.status == rd.api.status)
      && (Answered(p.attempt, 200) ==> p.exit == Some(Done(Some(rd.api.body))) && p.attempt.refresh.None?)
      && (p.attempt.request.Some? && !Answered(p.attempt, 200) && !Unauthorized(p.attempt) ==>
            p.exit == Some(Raised(ApiRejected(rd.api.status, rd.api.body))) && p.attempt.refresh.None?)
      && (p.attempt.refresh.Some? <==>
            Unauthorized(p.attempt) && p.exit != Some(Raised(KeyMissing("refresh_token"))))
      && (p.exit.Some? && p.exit.value.Done? ==>
            p.exit.value.value == Some(rd.api.body) && Answered(p.attempt, 200))
      && (p.exit.Some? && p.exit.value.Raised? && p.exit.value.error.ApiRejected? ==>
            Answered(p.attempt, p.exit.value.error.status)
            && p.exit.value.error.status != 200 && p.exit.value.error.status != 401)
      && (p.exit.None? ==>
            && Unauthorized(p.attempt)
            && "refresh_token" in adopted
            && p.attempt.refresh == Some(RefreshGrant(adopted["refresh_token"], 200))
            && Stampable(rd.refresh.body)
            && p.state == State(adopted, Object(Stamped(rd.refresh.body, now))))
  {
  }

  /** Proof helper: the retry loop of `call` unrolled into its (at most two) passes. */
  lemma LoopUnrolled(st: State, clientId: string, call: ApiCall, env: nat -> Round, now: int)
    ensures var r := Loop(st, clientId, call, env, now, 0);
      var p0 := Iterate(st, clientId, call, env(0), now);
      var p1 := Iterate(p0.state, clientId, call, env(1), now);
      && (p0.exit.Some? ==> r == Run(p0.state, [p0.attempt], p0.exit.value))
      && (p0.exit.None? && p1.exit.Some? ==> r == Run(p1.state, [p0.attempt, p1.attempt], p1.exit.value))
      && (p0.exit.None? && p1.exit.None? ==> r == Run(p1.state, [p0.attempt, p1.attempt], Done(None)))
  {
  }

  /**
   * `call` consults the outside world for two passes at most: two scripts
   * that agree on their first two rounds give the same final state, the same
   * requests and the same result, whatever they would say afterwards.
   */
  lemma CallReadsTwoRounds(st: State, clientId: string, call: ApiCall, env: nat -> Round, env': nat -> Round, now: int)
    requires env(0) == env'(0) && env(1) == env'(1)
    ensures Loop(st, clientId, call, env, now, 0) == Loop(st, clientId, call, env', now, 0)
  {
    LoopUnrolled(st, clientId, call, env, now);
    LoopUnrolled(st, clientId, call, env', now);
  }

  /**
   * `call` makes one or two passes and so sends at most two API requests;
   * pass i's request gets round i's answer; a second pass happens only after
   * a 401 whose refresh was answered 200 and written.
   */
  lemma CallBounded(st: State, clientId: string, call: ApiCall, env: nat -> Round, now: int)
    ensures var r := Loop(st, clientId, call, env, now, 0);
      && 1 <= |r.attempts| <= 2
      && (forall i :: 0 <= i < |r.attempts| && r.attempts[i].request.Some? ==>
            r.attempts[i].request.value.status == env(i).api.status)
      && (|r.attempts| == 2 ==>
            && Unauthorized(r.attempts[0])
            && r.attempts[0].refresh.Some? && r.attempts[0].refresh.value.status == 200
            && Stampable(env(0).refresh.body))
  {
    var p0 := Iterate(st, clientId, call, env(0), now);
    LoopUnrolled(st, clientId, call, env, now);
    PassFacts(st, clientId, call, env(0), now);
    PassFacts(p0.state, clientId, call, env(1), now);
  }

  /**
   * A pass refreshes exactly when its request was answered 401, except when
   * the token holds no refresh token, in which case the call raises KeyError
   * there.
   */
  lemma RefreshFollowsEachUnauthorized(st: State, clientId: string, call: ApiCall, env: nat -> Round, now: int)
    ensures var r := Loop(st, clientId, call, env, now, 0);
      forall i :: 0 <= i < |r.attempts| ==>
        (r.attempts[i].refresh.Some? <==>
           Unauthorized(r.attempts[i])
           && !(i == |r.attempts| - 1 && r.result == Raised(KeyMissing("refresh_token"))))
  {
    var p0 := Iterate(st, clientId, call, env(0), now);
    LoopUnrolled(st, clientId, call, env, now);
    PassFacts(st, clientId, call, env(0), now);
    PassFacts(p0.state, clientId, call, env(1), now);
  }

  /** A 200 ends the call with that answer's body, without a refresh in that pass, and only a 200 does. */
  lemma OkReturnsBody(st: State, clientId: string, call: ApiCall, env: nat -> Round, now: int)
    ensures var r := Loop(st, clientId, call, env, now, 0);
      && (forall i :: 0 <= i < |r.attempts| && Answered(r.attempts[i], 200) ==>
            && i == |r.attempts| - 1
            && r.attempts[i].refresh.None?
            && r.result == Done(Some(env(i).api.body)))
      && (r.result.Done? && r.result.value.Some? ==> Answered(r.attempts[|r.attempts| - 1], 200))
  {
    var p0 := Iterate(st, clientId, call, env(0), now);
    LoopUnrolled(st, clientId, call, env, now);
    PassFacts(st, clientId, call, env(0), now);
    PassFacts(p0.state, clientId, call, env(1), now);
  }

  /** Any status other than 200 or 401 raises at once, with no refresh and no further pass. */
  lemma OtherStatusRaises(st: State, clientId: string, call: ApiCall, env: nat -> Round, now: int)
    ensures var r := Loop(st, clientId, call, env, now, 0);
      && (forall i ::
            (0 <= i < |r.attempts| && r.attempts[i].request.Some?
             && !Answered(r.attempts[i], 200) && !Unauthorized(r.attempts[i])) ==>
              && i == |r.attempts| - 1
              && r.attempts[i].refresh.None?
              && r.result == Raised(ApiRejected(env(i).api.status, env(i).api.body)))
      && (r.result.Raised? && r.result.error.ApiRejected? ==>
            var last := r.attempts[|r.attempts| - 1];
            last.request.Some? && last.request.value.status == r.result.error.status
            && r.result.error.status != 200 && r.result.error.status != 401)
  {
    var p0 := Iterate(st, clientId, call, env(0), now);
    LoopUnrolled(st, clientId, call, env, now);
    PassFacts(st, clientId, call, env(0), now);
    PassFacts(p0.state, clientId, call, env(1), now);
  }

  /**
   * After two 401s, each followed by a successful refresh, the loop simply
   * ends and `call` returns None instead of raising; that is the only way it
   * returns None. A second 401 whose refresh is refused still raises.
   */
  lemma TwoUnauthorizedReturnNone(st: State, clientId: string, call: ApiCall, env: nat -> Round, now: int)
    ensures var r := Loop(st, clientId, call, env, now, 0);
      && (r.result == Done(None) ==>
            && |r.attempts| == 2
            && (forall i :: 0 <= i < 2 ==>
                  Unauthorized(r.attempts[i])
                  && r.attempts[i].refresh.Some? && r.attempts[i].refresh.value.status == 200))
      && (|r.attempts| == 2 && Unauthorized(r.attempts[1])
          && "refresh_token" in env(0).refresh.body
          && env(1).refresh.status == 200 && Stampable(env(1).refresh.body) ==>
            r.result == Done(None))
      && (|r.attempts| == 2 && Unauthorized(r.attempts[1])
          && "refresh_token" in env(0).refresh.body && env(1).refresh.status != 200 ==>
            r.result == Raised(AuthRejected(env(1).refresh.status, env(1).refresh.body)))
  {
    var p0 := Iterate(st, clientId, call, env(0), now);
    LoopUnrolled(st, clientId, call, env, now);
    PassFacts(st, clientId, call, env(0), now);
    PassFacts(p0.state, clientId, call, env(1), now);
  }

  /**
   * The refresh does not touch `self.token`: the first pass refreshes with
   * the refresh token it adopted, and the retry sends the refreshed access
   * token only because the second pass reloads the file, which it finds
   * usable, so it does not ask for a new code.
   */
  lemma RetryUsesRefreshedToken(st: State, clientId: string, call: ApiCall, env: nat -> Round, now: int)
    ensures var r := Loop(st, clientId, call, env, now, 0);
      var first := Handle(st, env(0).code, env(0).exchange, now).state.token;
      var refreshed := env(0).refresh.body;
      |r.attempts| == 2 ==>
        && "refresh_token" in first
        && r.attempts[0].refresh == Some(RefreshGrant(first["refresh_token"], 200))
        && r.attempts[1].exchange.None?
        && ("access_token" in refreshed ==>
              && r.attempts[1].request.Some?
              && r.attempts[1].request.value.headers["Authorization"] == "Bearer " + Show(refreshed["access_token"]))
        && ("access_token" !in refreshed ==> r.result == Raised(KeyMissing("access_token")))
  {
    var p0 := Iterate(st, clientId, call, env(0), now);
    LoopUnrolled(st, clientId, call, env, now);
    PassFacts(st, clientId, call, env(0), now);
    PassFacts(p0.state, clientId, call, env(1), now);
  }
}
