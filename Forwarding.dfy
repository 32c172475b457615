/** The request `makeRequest` issues once a survey is known: its guards and
    the one-field form body with the bearer-token header. */
module Forwarding {
  import opened Php
  import opened Settings
  import opened SessionCache

  /** A POST as handed to the transport: URL, header lines and form fields. */
  datatype Request = Request(url: string, headers: seq<string>, body: map<string, string>)

  const AuthorizationPrefix: string := "Authorization: Bearer "

  /** The header line and the one-field body of `makeRequest`. */
  function BuildRequest(paramName: string, value: string, url: Value, bearer: Value): Request
  {
    Request(StrVal(url), [AuthorizationPrefix + StrVal(bearer)], map[paramName := value])
  }

  /** The survey settings `makeRequest` reads: the trimmed parameter name,
      the URL and the bearer token. */
  datatype Config = Config(paramName: string, url: Value, bearer: Value)

  function SurveyConfig(store: Store, sid: string): Config
  {
    Config(ConfiguredParamName(store, sid), StoreGet(store, "requestUrl", sid), StoreGet(store, "authenticationBearer", sid))
  }

  /** `makeRequest` after the survey check and the settings load: the request
      it issues, if any, and the session it leaves. */
  function Forward(config: Config, sid: string, query: Query, session: Session): (Option<Request>, Session)
  {
    var (value, session') := ResolveParamValue(config.paramName, sid, query, session);
    if value.None? || Empty(Str(value.value)) then (None, session')
    else (Some(BuildRequest(config.paramName, value.value, config.url, config.bearer)), session')
  }

  /** No request is issued exactly when the parameter name is unset, or the
      value that would be sent is missing or PHP-empty: a usable query value
      that trims to "" or "0", or (without one) a reset, no cached entry or a
      cached "" or "0". */
  lemma ForwardSkips(config: Config, sid: string, query: Query, session: Session)
    ensures var paramName := config.paramName;
      var key := ParamValueKey(sid);
      Forward(config, sid, query, session).0.None? <==>
        || Empty(Str(paramName))
        || (Usable(query, paramName) && Empty(Str(Trim(query[paramName]))))
        || (!Usable(query, paramName) && ("newtest" in query || key !in session || Empty(Str(session[key]))))
  {
    var paramName := config.paramName;
    if !Empty(Str(paramName)) {
      if Usable(query, paramName) {
        QueryValueWins(paramName, sid, query, session);
      } else if "newtest" in query {
        ResetDropsCache(paramName, sid, query, session);
      } else {
        CacheFallback(paramName, sid, query, session);
      }
    }
  }

  /** An issued request posts exactly one field, the trimmed parameter name
      to a non-empty value, to the survey's URL, with the single header
      "Authorization: Bearer " followed by the survey's token. */
  lemma ForwardedRequestShape(config: Config, sid: string, query: Query, session: Session)
    ensures var request := Forward(config, sid, query, session).0;
      var paramName := config.paramName;
      var token := StrVal(config.bearer);
      request.Some? ==>
        && request.value.url == StrVal(config.url)
        && !Empty(Str(paramName))
        && request.value.body.Keys == {paramName} && |request.value.body| == 1
        && !Empty(Str(request.value.body[paramName]))
        && |request.value.headers| == 1
        && request.value.headers[0][..|AuthorizationPrefix|] == AuthorizationPrefix
        && request.value.headers[0][|AuthorizationPrefix|..] == token
  {
    var request := Forward(config, sid, query, session).0;
    if request.Some? {
      var paramName := config.paramName;
      assert request.value.body == map[paramName := request.value.body[paramName]];
      assert |request.value.body.Keys| == 1;
    }
  }

  /** The value sent is the trimmed query value when the query carries a
      usable one, otherwise the cached one; the session is the one
      `paramValue` leaves. */
  lemma ForwardedValue(config: Config, sid: string, query: Query, session: Session)
    ensures var paramName := config.paramName;
      var (request, session') := Forward(config, sid, query, session);
      && session' == ResolveParamValue(paramName, sid, query, session).1
      && (request.Some? && Usable(query, paramName) ==>
            request.value.body[paramName] == Trim(query[paramName]))
      && (request.Some? && !Usable(query, paramName) ==>
            "newtest" !in query && request.value.body[paramName] == session[ParamValueKey(sid)] && session' == session)
  {
    var paramName := config.paramName;
    if !Empty(Str(paramName)) {
      if Usable(query, paramName) {
        QueryValueWins(paramName, sid, query, session);
      } else if "newtest" in query {
        ResetDropsCache(paramName, sid, query, session);
      } else {
        CacheFallback(paramName, sid, query, session);
      }
    }
  }

  /** The `enabled` setting is never consulted: storing any value for it
      changes none of the settings the request is built from. */
  lemma EnabledNeverConsulted(store: Store, sid: string, enabled: Value)
    ensures SurveyConfig(store[("enabled", sid) := enabled], sid) == SurveyConfig(store, sid)
  {
    var store' := store[("enabled", sid) := enabled];
    assert StoreGet(store', "paramName", sid) == StoreGet(store, "paramName", sid);
  }

  /** A query `p=alice` with `paramName` "p", a URL and the token "tok" posts
      `p=alice` to that URL with the header "Authorization: Bearer tok" and
      caches "alice". */
  lemma AliceScenario(sid: string, session: Session)
    ensures var config := Config("p", Str("https://api.example.com/get"), Str("tok"));
      Forward(config, sid, map["p" := "alice"], session) ==
        (Some(Request("https://api.example.com/get", ["Authorization: Bearer tok"], map["p" := "alice"])),
         session[ParamValueKey(sid) := "alice"])
  {
    var query := map["p" := "alice"];
    assert Usable(query, "p");
    TrimUntouched("alice");
    QueryValueWins("p", sid, query, session);
    assert !Empty(Str("alice"));
    assert AuthorizationPrefix + StrVal(Str("tok")) == "Authorization: Bearer tok";
  }
}
