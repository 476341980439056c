/** The OAuth 2.0 authorization code grant with HubSpot (section 4.1 of
    RFC 6749), with the `state` check against cross-site request forgery
    of section 10.12 of RFC 6749. Three request handlers share a key-value
    store: `authorize_hubspot` saves a state record, `oauth2callback_hubspot`
    checks it, spends it and saves the credentials, and
    `get_hubspot_credentials` hands them out once. The store holds decoded
    JSON objects; the token endpoint is replaced by its reply. */
module HubSpotOAuth {
  import opened Json

  /** The three settings read from the environment; an unset one is `None`. */
  datatype Config = Config(clientId: Value, clientSecret: Value, redirectUri: Value)

  /** The key-value store, each value a decoded JSON object. */
  type Store = map<string, Object>

  const Scopes: string := "oauth%20crm.schemas.contacts.read%20crm.objects.contacts.read"

  /** The HubSpot consent page the user is sent to. */
  function AuthorizationUrl(config: Config): string {
    "https://app.hubspot.com/oauth/authorize?client_id=" + Render(config.clientId)
      + "&scope=" + Scopes + "&redirect_uri=" + Render(config.redirectUri)
  }

  const StatePrefix: string := "hubspot_state:"
  const CredentialsPrefix: string := "hubspot_credentials:"

  /** `f'hubspot_state:{org_id}:{user_id}'`. */
  function StateKey(orgId: string, userId: string): string {
    StatePrefix + orgId + ":" + userId
  }

  /** `f'hubspot_credentials:{org_id}:{user_id}'`. */
  function CredentialsKey(orgId: string, userId: string): string {
    CredentialsPrefix + orgId + ":" + userId
  }

  /** The state record saved by `authorize_hubspot` and carried in the
      redirect. */
  function StateRecord(token: string, userId: string, orgId: string): Object {
    map["state" := Str(token), "user_id" := Str(userId), "org_id" := Str(orgId)]
  }

  /** The answer of `authorize_hubspot`: the consent page address followed by
      `&state=` and the state record, JSON-encoded. */
  datatype Redirect = Redirect(url: string, state: Object)

  /** The `state` query parameter of the callback: absent or empty, not a
      JSON object, or a decoded object. */
  datatype StateParam = Missing | Malformed | Decoded(fields: Object)

  /** The query parameters the callback reads. */
  datatype CallbackQuery = CallbackQuery(error: Option<string>, code: Option<string>, state: StateParam)

  /** The form posted to the token endpoint. */
  datatype TokenRequest = TokenRequest(
    grantType: string, clientId: Value, clientSecret: Value, redirectUri: Value, code: Option<string>)

  /** The token endpoint's reply: its status code and its JSON body. */
  datatype TokenReply = TokenReply(status: int, body: Object)

  /** The outcome of a handler together with the store it leaves. */
  datatype Step<+T> = Step(outcome: Outcome<T>, store: Store)

  /** The callback carries a truthy `error` parameter. */
  predicate ErrorGiven(query: CallbackQuery) {
    query.error.Some? && query.error.value != ""
  }

  /** The state key named by a decoded state record, built from its
      `org_id` and `user_id` as an f-string prints them. */
  function StateKeyOf(fields: Object): string {
    StateKey(Render(Get(fields, "org_id")), Render(Get(fields, "user_id")))
  }

  function CredentialsKeyOf(fields: Object): string {
    CredentialsKey(Render(Get(fields, "org_id")), Render(Get(fields, "user_id")))
  }

  /** The checks the callback makes before it exchanges the code: a truthy
      `error` parameter, a missing `state`, a `state` that does not decode,
      then a saved state that is absent or whose token differs. On success,
      the decoded state record. */
  function StateCheck(store: Store, query: CallbackQuery): (r: Outcome<Object>)
    ensures r.Ok? <==>
      && !ErrorGiven(query) && query.state.Decoded?
      && StateKeyOf(query.state.fields) in store
      && Get(query.state.fields, "state") == Get(store[StateKeyOf(query.state.fields)], "state")
    ensures r.Ok? ==> r.value == query.state.fields
  {
    if ErrorGiven(query) then HttpError(400, query.error.value)
    else if query.state.Missing? then HttpError(400, "Missing state parameter")
    else if query.state.Malformed? then Crash
    else
      var fields := query.state.fields;
      var key := StateKeyOf(fields);
      if key !in store || Get(fields, "state") != Get(store[key], "state") then HttpError(400, "State does not match.")
      else Ok(fields)
  }

  /** `oauth2callback_hubspot` on the store: once the state is accepted, its
      key is deleted whatever the token endpoint answers, and a 200 reply's
      body is saved as the credentials. */
  function CallbackStep(store: Store, query: CallbackQuery, reply: TokenReply): Step<()> {
    match StateCheck(store, query)
    case Ok(fields) =>
      var spent := store - {StateKeyOf(fields)};
      if reply.status != 200 then Step(HttpError(400, "Failed to exchange code for token"), spent)
      else Step(Ok(()), spent[CredentialsKeyOf(fields) := reply.body])
    case HttpError(status, detail) => Step(HttpError(status, detail), store)
    case Crash => Step(Crash, store)
  }

  /** The token request the callback sends, when it sends one. */
  function TokenRequestFor(config: Config, query: CallbackQuery): TokenRequest {
    TokenRequest("authorization_code", config.clientId, config.clientSecret, config.redirectUri, query.code)
  }

  /** `get_hubspot_credentials` on the store: absent or empty credentials are
      refused and left in place; otherwise they are handed out and deleted. */
  function TakeCredentials(store: Store, userId: string, orgId: string): Step<Object> {
    var key := CredentialsKey(orgId, userId);
    if key !in store || store[key] == map[] then Step(HttpError(400, "No credentials found."), store)
    else Step(Ok(store[key]), store - {key})
  }

  /** The three handlers over one store. */
  class OAuthFlow {
    const config: Config
    var store: Store

    constructor (config: Config)
      ensures this.config == config && store == map[]
    {
      this.config := config;
      store := map[];
    }

    /** `authorize_hubspot`; `token` stands for `secrets.token_urlsafe(32)`. */
    method Authorize(userId: string, orgId: string, token: string) returns (redirect: Redirect)
      modifies this
      ensures store == old(store)[StateKey(orgId, userId) := StateRecord(token, userId, orgId)]
      ensures redirect == Redirect(AuthorizationUrl(config) + "&state=", StateRecord(token, userId, orgId))
    {
      var stateData := StateRecord(token, userId, orgId);
      store := store[StateKey(orgId, userId) := stateData];
      redirect := Redirect(AuthorizationUrl(config) + "&state=", stateData);
    }

    /** `oauth2callback_hubspot`; `reply` is what the token endpoint answers
      to `sent`. */
    method Callback(query: CallbackQuery, reply: TokenReply) returns (r: Outcome<()>, sent: Option<TokenRequest>)
      modifies this
      ensures Step(r, store) == CallbackStep(old(store), query, reply)
      ensures sent == if StateCheck(old(store), query).Ok? then Some(TokenRequestFor(config, query)) else None
    {
      sent := None;
      if ErrorGiven(query) {
        return HttpError(400, query.error.value), None;
      }
      if query.state.Missing? {
        return HttpError(400, "Missing state parameter"), None;
      }
      if query.state.Malformed? {
        return Crash, None;
      }
      var fields := query.state.fields;
      var originalState := Get(fields, "state");
      var userId := Get(fields, "user_id");
      var orgId := Get(fields, "org_id");
      var stateKey := StateKey(Render(orgId), Render(userId));
      if stateKey !in store || originalState != Get(store[stateKey], "state") {
        return HttpError(400, "State does not match."), None;
      }
      sent := Some(TokenRequest("authorization_code", config.clientId, config.clientSecret, config.redirectUri, query.code));
      store := store - {stateKey};
      if reply.status != 200 {
        r := HttpError(400, "Failed to exchange code for token");
        return;
      }
      store := store[CredentialsKey(Render(orgId), Render(userId)) := reply.body];
      r := Ok(());
    }

    /** `get_hubspot_credentials`. */
    method GetCredentials(userId: string, orgId: string) returns (r: Outcome<Object>)
      modifies this
      ensures Step(r, store) == TakeCredentials(old(store), userId, orgId)
    {
      var key := CredentialsKey(orgId, userId);
      if key !in store {
        return HttpError(400, "No credentials found.");
      }
      var credentials := store[key];
      if credentials == map[] {
        return HttpError(400, "No credentials found.");
      }
      store := store - {key};
      r := Ok(credentials);
    }
  }

  /** A state key never names credentials: the prefixes differ in their
      ninth character. */
  lemma StateAndCredentialKeysDiffer(o1: string, u1: string, o2: string, u2: string)
    ensures StateKey(o1, u1) != CredentialsKey(o2, u2)
  {
    assert StateKey(o1, u1)[8] == 's' && CredentialsKey(o2, u2)[8] == 'c';
  }

  /** The callback either refuses before the exchange and leaves the store as
      it was, or spends the state key; it succeeds exactly when the state
      matches and the token endpoint answers 200, and only then are
      credentials saved, under the key of the same organisation and user. */
  lemma CallbackOutcomes(store: Store, query: CallbackQuery, reply: TokenReply)
    ensures var s := CallbackStep(store, query, reply);
      && (!StateCheck(store, query).Ok? ==> s.store == store && !s.outcome.Ok?)
      && (StateCheck(store, query).Ok? ==>
            StateKeyOf(query.state.fields) in store && StateKeyOf(query.state.fields) !in s.store)
      && (s.outcome.Ok? <==> StateCheck(store, query).Ok? && reply.status == 200)
      && (s.outcome.Ok? ==> s.store[CredentialsKeyOf(query.state.fields)] == reply.body)
      && (StateCheck(store, query).Ok? && reply.status != 200 ==>
            s.outcome == HttpError(400, "Failed to exchange code for token")
            && s.store == store - {StateKeyOf(query.state.fields)})
  {
    if StateCheck(store, query).Ok? {
      var fields := query.state.fields;
      StateAndCredentialKeysDiffer(Render(Get(fields, "org_id")), Render(Get(fields, "user_id")),
                                   Render(Get(fields, "org_id")), Render(Get(fields, "user_id")));
    }
  }

  /** The callback changes no key other than the state key it spends and
      the credentials key of the same organisation and user. */
  lemma CallbackIsLocal(store: Store, query: CallbackQuery, reply: TokenReply, key: string)
    requires query.state.Decoded?
    requires key != StateKeyOf(query.state.fields) && key != CredentialsKeyOf(query.state.fields)
    ensures var after := CallbackStep(store, query, reply).store;
      (key in after <==> key in store) && (key in store ==> after[key] == store[key])
  {
  }

  /** The callback refuses in a fixed order: the `error` parameter first,
      then a missing `state`, then one that does not decode, then one that
      does not match the saved state (no state saved for its organisation
      and user, or a different token). */
  lemma CallbackRefusals(store: Store, query: CallbackQuery, reply: TokenReply)
    ensures var r := CallbackStep(store, query, reply).outcome;
      && (ErrorGiven(query) ==> r == HttpError(400, query.error.value))
      && (!ErrorGiven(query) && query.state.Missing? ==> r == HttpError(400, "Missing state parameter"))
      && (!ErrorGiven(query) && query.state.Malformed? ==> r == Crash)
      && (!ErrorGiven(query) && query.state.Decoded? && !StateCheck(store, query).Ok? ==>
            r == HttpError(400, "State does not match."))
      && (!ErrorGiven(query) && query.state.Decoded? && StateKeyOf(query.state.fields) !in store ==>
            r == HttpError(400, "State does not match."))
  {
  }

  /** Right after `authorize_hubspot` for an organisation and a user, a
      callback naming them is accepted exactly when it carries the token that
      was saved. */
  lemma AuthorizeThenCallback(store: Store, userId: string, orgId: string, token: string, query: CallbackQuery)
    requires !ErrorGiven(query) && query.state.Decoded?
    requires Get(query.state.fields, "org_id") == Str(orgId) && Get(query.state.fields, "user_id") == Str(userId)
    ensures var saved := store[StateKey(orgId, userId) := StateRecord(token, userId, orgId)];
      StateCheck(saved, query).Ok? <==> Get(query.state.fields, "state") == Str(token)
  {
    assert StateKeyOf(query.state.fields) == StateKey(orgId, userId);
  }

  /** A state is spent by the first callback that passes the check, even
      when the exchange fails: the same callback again is refused. */
  lemma {:induction false} CallbackIsOneShot(store: Store, query: CallbackQuery, reply: TokenReply, replay: TokenReply)
    requires StateCheck(store, query).Ok?
    ensures var after := CallbackStep(store, query, reply).store;
      CallbackStep(after, query, replay) == Step(HttpError(400, "State does not match."), after)
  {
    CallbackOutcomes(store, query, reply);
  }

  /** A second `authorize_hubspot` for the same organisation and user
      replaces the saved state, so a callback carrying the first token is
      refused. */
  lemma ReauthorizeInvalidatesOldState(store: Store, userId: string, orgId: string, first: string, second: string,
                                       reply: TokenReply)
    requires first != second
    ensures var saved := store[StateKey(orgId, userId) := StateRecord(first, userId, orgId)]
                               [StateKey(orgId, userId) := StateRecord(second, userId, orgId)];
      var query := CallbackQuery(None, None, Decoded(StateRecord(first, userId, orgId)));
      CallbackStep(saved, query, reply).outcome == HttpError(400, "State does not match.")
  {
    AuthorizeThenCallback(store[StateKey(orgId, userId) := StateRecord(first, userId, orgId)],
      userId, orgId, second, CallbackQuery(None, None, Decoded(StateRecord(first, userId, orgId))));
  }

  /** Credentials are handed out once: after a successful take, the next one
      is refused. */
  lemma TakeCredentialsOneShot(store: Store, userId: string, orgId: string)
    requires TakeCredentials(store, userId, orgId).outcome.Ok?
    ensures var after := TakeCredentials(store, userId, orgId).store;
      && CredentialsKey(orgId, userId) in store
      && CredentialsKey(orgId, userId) !in after
      && TakeCredentials(after, userId, orgId) == Step(HttpError(400, "No credentials found."), after)
  {
  }

  /** The whole handshake: authorize, come back with the state from the
      redirect and a 200 token reply with a non-empty body, and the body is
      handed out once, after which nothing of the handshake remains for this
      organisation and user. */
  lemma {:induction false} CredentialsRoundTrip(store: Store, userId: string, orgId: string, token: string,
                                                code: Option<string>, body: Object)
    requires body != map[]
    ensures var s1 := store[StateKey(orgId, userId) := StateRecord(token, userId, orgId)];
      var query := CallbackQuery(None, code, Decoded(StateRecord(token, userId, orgId)));
      var s2 := CallbackStep(s1, query, TokenReply(200, body));
      var s3 := TakeCredentials(s2.store, userId, orgId);
      && s2.outcome == Ok(())
      && s3.outcome == Ok(body)
      && StateKey(orgId, userId) !in s3.store && CredentialsKey(orgId, userId) !in s3.store
      && TakeCredentials(s3.store, userId, orgId).outcome == HttpError(400, "No credentials found.")
  {
    var s1 := store[StateKey(orgId, userId) := StateRecord(token, userId, orgId)];
    var query := CallbackQuery(None, code, Decoded(StateRecord(token, userId, orgId)));
    AuthorizeThenCallback(store, userId, orgId, token, query);
    assert StateKeyOf(query.state.fields) == StateKey(orgId, userId);
    assert CredentialsKeyOf(query.state.fields) == CredentialsKey(orgId, userId);
    CallbackOutcomes(s1, query, TokenReply(200, body));
    StateAndCredentialKeysDiffer(orgId, userId, orgId, userId);
  }

  /** The position of the first colon of `s`, or `|s|` when it has none. */
  function FirstColon(s: string): (n: nat)
    ensures n <= |s|
  {
    if s == [] || s[0] == ':' then 0 else 1 + FirstColon(s[1..])
  }

  lemma {:induction false} FirstColonAfter(orgId: string, userId: string)
    requires ':' !in orgId
    ensures FirstColon(orgId + ":" + userId) == |orgId|
    decreases |orgId|
  {
    var s := orgId + ":" + userId;
    if orgId == [] {
      assert s[0] == ':';
    } else {
      assert s[0] == orgId[0] && orgId[0] in orgId;
      assert s[1..] == orgId[1..] + ":" + userId;
      assert forall c :: c in orgId[1..] ==> c in orgId;
      FirstColonAfter(orgId[1..], userId);
    }
  }

  /** When the organisation id holds no colon, the state key determines the
      organisation and the user. */
  lemma StateKeyInjective(o1: string, u1: string, o2: string, u2: string)
    requires ':' !in o1 && ':' !in o2
    requires StateKey(o1, u1) == StateKey(o2, u2)
    ensures o1 == o2 && u1 == u2
  {
    var n := |StatePrefix|;
    var rest1, rest2 := o1 + ":" + u1, o2 + ":" + u2;
    assert StateKey(o1, u1)[n..] == rest1 && StateKey(o2, u2)[n..] == rest2;
    FirstColonAfter(o1, u1);
    FirstColonAfter(o2, u2);
    assert rest1[..|o1|] == o1 && rest2[..|o2|] == o2;
    assert rest1[|o1| + 1..] == u1 && rest2[|o2| + 1..] == u2;
  }

  /** With a colon in the organisation id, two different organisation and
      user pairs share one state key, and so one saved state. */
  lemma StateKeyCollision()
    ensures StateKey("a:b", "c") == StateKey("a", "b:c")
  {
  }
}
