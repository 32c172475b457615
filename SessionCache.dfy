/** The session cache of the forwarded URL parameter (`paramValue`): an
    optional reset, an overwrite with the trimmed query value, then a
    fallback to the cached value, otherwise nothing. */
module SessionCache {
  import opened Php

  type Session = map<string, string>
  /** The request's query string (`$_GET`). */
  type Query = map<string, string>

  /** `sessionKey()`: the plugin's session namespace for one survey. */
  function SessionKey(sid: string): string
  {
    "ExternalApiRequest" + "::" + sid
  }

  /** The session entry that caches the parameter value of survey `sid`. */
  function ParamValueKey(sid: string): string
  {
    SessionKey(sid) + "::paramValue"
  }

  /** Distinct surveys cache their values under distinct session keys. */
  lemma ParamValueKeyInjective(a: string, b: string)
    requires ParamValueKey(a) == ParamValueKey(b)
    ensures a == b
  {
    var prefix := "ExternalApiRequest::";
    assert ParamValueKey(a) == prefix + a + "::paramValue";
    assert ParamValueKey(b) == prefix + b + "::paramValue";
    assert |a| == |b|;
    assert a == ParamValueKey(a)[|prefix|..|prefix| + |a|];
    assert b == ParamValueKey(b)[|prefix|..|prefix| + |b|];
  }

  /** A query value that `paramValue` takes: present and not PHP-empty. */
  predicate Usable(query: Query, paramName: string)
  {
    paramName in query && !Empty(Str(query[paramName]))
  }

  /** `paramValue` for survey `sid` whose configured name trims to
      `paramName`: the value it returns and the session it leaves. */
  function ResolveParamValue(paramName: string, sid: string, query: Query, session: Session): (Option<string>, Session)
  {
    if Empty(Str(paramName)) then (None, session)
    else
      var key := ParamValueKey(sid);
      var reset := if "newtest" in query then session - {key} else session;
      var cached := if Usable(query, paramName) then reset[key := Trim(query[paramName])] else reset;
      (if key in cached then Some(cached[key]) else None, cached)
  }

  /** An unset (or "0") parameter name yields nothing and leaves the session alone. */
  lemma NoParamName(paramName: string, sid: string, query: Query, session: Session)
    requires Empty(Str(paramName))
    ensures ResolveParamValue(paramName, sid, query, session) == (None, session)
  {
  }

  /** A usable query value is trimmed, cached and returned; of the whole
      session only the survey's cache entry changes. */
  lemma QueryValueWins(paramName: string, sid: string, query: Query, session: Session)
    requires !Empty(Str(paramName)) && Usable(query, paramName)
    ensures var (value, session') := ResolveParamValue(paramName, sid, query, session);
      && value == Some(Trim(query[paramName]))
      && session' == session[ParamValueKey(sid) := Trim(query[paramName])]
      && forall k :: k != ParamValueKey(sid) ==> (k in session' <==> k in session) && (k in session ==> session'[k] == session[k])
  {
    var key := ParamValueKey(sid);
    var reset := if "newtest" in query then session - {key} else session;
    assert reset[key := Trim(query[paramName])] == session[key := Trim(query[paramName])];
  }

  /** Without a usable query value and without a reset, the cached value is
      returned if there is one, and the session is unchanged. */
  lemma CacheFallback(paramName: string, sid: string, query: Query, session: Session)
    requires !Empty(Str(paramName)) && !Usable(query, paramName) && "newtest" !in query
    ensures var key := ParamValueKey(sid);
      ResolveParamValue(paramName, sid, query, session) ==
        (if key in session then Some(session[key]) else None, session)
  {
  }

  /** A `newtest` parameter drops the cached entry before the query is
      considered: the old cached value is never returned. */
  lemma ResetDropsCache(paramName: string, sid: string, query: Query, session: Session)
    requires !Empty(Str(paramName)) && "newtest" in query
    ensures var key := ParamValueKey(sid);
      ResolveParamValue(paramName, sid, query, session) ==
        if Usable(query, paramName) then (Some(Trim(query[paramName])), session[key := Trim(query[paramName])])
        else (None, session - {key})
  {
    var key := ParamValueKey(sid);
    if Usable(query, paramName) {
      var t := Trim(query[paramName]);
      assert (session - {key})[key := t] == session[key := t];
    }
  }

  /** Only the presence of `newtest` matters, not its value: "N" resets as "Y" does. */
  lemma ResetFlagValueIgnored(paramName: string, sid: string, query: Query, session: Session, flag: string)
    requires "newtest" in query && paramName != "newtest"
    ensures ResolveParamValue(paramName, sid, query["newtest" := flag], session)
         == ResolveParamValue(paramName, sid, query, session)
  {
    var q2 := query["newtest" := flag];
    assert "newtest" in q2;
    assert paramName in q2 <==> paramName in query;
    assert paramName in query ==> q2[paramName] == query[paramName];
  }

  /** A value given once stays available on later requests of the same
      session that do not carry it, until a request carries `newtest`. */
  lemma PersistsUntilReset(paramName: string, sid: string, first: Query, later: Query, session: Session)
    requires !Empty(Str(paramName)) && Usable(first, paramName) && !Usable(later, paramName)
    ensures var (_, s1) := ResolveParamValue(paramName, sid, first, session);
      ResolveParamValue(paramName, sid, later, s1).0 ==
        if "newtest" in later then None else Some(Trim(first[paramName]))
  {
    QueryValueWins(paramName, sid, first, session);
  }

  /** A whitespace-only query value is not empty to PHP, so it replaces the
      cached value by "" (the emptiness check precedes the trim). */
  lemma BlankValueCachedEmpty(paramName: string, sid: string, query: Query, session: Session)
    requires !Empty(Str(paramName)) && paramName in query && query[paramName] != []
    requires forall i :: 0 <= i < |query[paramName]| ==> IsTrimChar(query[paramName][i])
    ensures ResolveParamValue(paramName, sid, query, session) == (Some(""), session[ParamValueKey(sid) := ""])
  {
    var v := query[paramName];
    assert IsTrimChar(v[0]);
    assert v[0] != '0';
    TrimEmptyIff(v);
    QueryValueWins(paramName, sid, query, session);
  }

  /** Resolving the value of one survey never touches another survey's cache entry. */
  lemma OtherSurveysUntouched(paramName: string, sid: string, other: string, query: Query, session: Session)
    requires other != sid
    ensures var session' := ResolveParamValue(paramName, sid, query, session).1;
      var key := ParamValueKey(other);
      (key in session' <==> key in session) && (key in session ==> session'[key] == session[key])
  {
    if ParamValueKey(other) == ParamValueKey(sid) {
      ParamValueKeyInjective(other, sid);
    }
  }
}
