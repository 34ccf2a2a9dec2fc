/** Properties of the page script and the service worker taken together. */
module Flow {
  import opened Wrappers
  import opened Json
  import opened Messages
  import opened Harvester
  import opened Background

  /**
   * A credential the page posts is what the worker's next token lookup
   * returns, unless the expiry that came with it has passed.
   */
  lemma PostedTokenIsUsed(tokenData: Option<TokenData>, store: Store, clock: Clock, now: int)
    requires Dispatch(tokenData) != []
    ensures var data := tokenData.value;
            BearerToken(ApplyTokenUpdate(store, Dispatch(tokenData)[0], clock), now) ==
              if Truthy(data.expiry) && ExpiryPassed(now, data.expiry) then None else Some(data.token)
  {
    TokenUpdateRoundTrip(store, tokenData.value, clock, now);
  }

  /** A plain value under `token`, the first of the token keys, is what the storage probe returns. */
  lemma RawTokenIsFound(local: WebStorage, parse: Parser)
    requires HasValue(local, "token") && parse(local["token"]).None?
    ensures ProbeStorage(local, parse) == Some(TokenData(JStr(local["token"]), JNull, None))
  {
    FirstTokenKeyWins(local, parse);
  }

  /**
   * A plain (non-JSON) value under the `token` key carries no expiry: once
   * posted and stored, the worker accepts it at any time.
   */
  lemma RawStoredTokenNeverExpires(local: WebStorage, session: WebStorage, initialState: Option<Json>,
                                   nuxt: Option<Json>, parse: Parser, store: Store, clock: Clock, now: int)
    requires HasValue(local, "token") && parse(local["token"]).None?
    ensures var found := Discover(local, session, initialState, nuxt, parse);
            Dispatch(found) == [found.value] &&
            BearerToken(ApplyTokenUpdate(store, found.value, clock), now) == Some(JStr(local["token"]))
  {
    RawTokenDiscovered(local, session, initialState, nuxt, parse);
    PlainTokenIsUsed(Discover(local, session, initialState, nuxt, parse), local["token"], store, clock, now);
  }

  /** A discovery of a non-empty string token without expiry is posted and then always accepted. */
  lemma PlainTokenIsUsed(found: Option<TokenData>, raw: string, store: Store, clock: Clock, now: int)
    requires found.Some? && found.value.token == JStr(raw) && raw != "" && found.value.expiry == JNull
    ensures Dispatch(found) == [found.value]
    ensures BearerToken(ApplyTokenUpdate(store, found.value, clock), now) == Some(JStr(raw))
  {
    TokenUpdateRoundTrip(store, found.value, clock, now);
  }

  /** A plain value under `token` is what the whole discovery returns, with no expiry. */
  lemma RawTokenDiscovered(local: WebStorage, session: WebStorage, initialState: Option<Json>,
                           nuxt: Option<Json>, parse: Parser)
    requires HasValue(local, "token") && parse(local["token"]).None?
    ensures var found := Discover(local, session, initialState, nuxt, parse);
            found.Some? && found.value.token == JStr(local["token"]) && found.value.expiry == JNull
  {
    RawTokenIsFound(local, parse);
    DiscoveryOrder(local, session, initialState, nuxt, parse);
    var found := Discover(local, session, initialState, nuxt, parse);
    assert found.value.(userInfo := None) == TokenData(JStr(local["token"]), JNull, None);
  }

  /**
   * When the page opened by the refresh posts a credential that has not
   * expired, the retried call sends the attendance request with it.
   */
  lemma RefreshWithPageRetries(page: Option<TokenData>, s: Snapshot, a: Attempt, clock: Clock, retry: Attempt)
    requires BearerToken(s.store, a.clock.millis).None?
    requires Dispatch(page) != []
    requires !(Truthy(page.value.expiry) && ExpiryPassed(clock.millis, page.value.expiry))
    requires !(Truthy(page.value.expiry) && ExpiryPassed(retry.clock.millis, page.value.expiry))
    ensures var r := Refresh(Some(Dispatch(page)[0]), clock);
            var s' := Attend(s, true, a, r, retry).0;
            |s'.events| > |s.events| + 2 &&
            s'.events[|s.events| + 2] == Request(page.value.token, retry)
  {
    var r := Refresh(Some(Dispatch(page)[0]), clock);
    AttendRetriesWithHarvestedToken(s, a, r, retry);
    var s' := Attend(s, true, a, r, retry).0;
    assert s'.events[|s.events| + 2] == s'.events[|s.events|..|s.events| + 3][2];
  }
}
