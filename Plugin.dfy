/** The plugin object and its event handlers. The object keeps the survey it
    resolved in its `survey` field; the host state its handlers read and
    write (the HTTP session, the settings store and the current event's
    payload) is held beside it, and the request query string, the survey
    table and the global settings view are fixed for one request. */
module Plugin {
  import opened Php
  import opened Settings
  import opened HostEvent
  import opened SurveyLookup
  import opened SessionCache
  import opened Forwarding

  /** `get_class($this)`, the name the survey settings are published under. */
  const ClassName: string := "ExternalApiRequest"

  /** The event parameter the merged settings of survey `sid` are published under. */
  function SurveySettingsKey(sid: string): string
  {
    "surveysettings." + sid
  }

  /** The event after `loadDefaultSettings` has staged the defaults for `sid`. */
  function DefaultsEvent(event: Event, global: Schema, sid: string): Event
  {
    event["settings" := Pairs(Defaults(global))]["survey" := Scalar(Str(sid))]
  }

  /** The event after `loadSurveySettings` of survey `sid` over the store `store`. */
  function SettingsEvent(event: Event, global: Schema, store: Store, sid: string): Event
  {
    var published := event[SurveySettingsKey(sid) := Published(ClassName, MergeSettings(global, store, sid))];
    if NeedsDefaults(store, sid) then DefaultsEvent(published, global, sid) else published
  }

  class ExternalApiRequest {
    /** The survey the current event is about, once resolved. */
    var survey: Option<SurveyRow>
    var session: Session
    var store: Store
    var event: Event
    const query: Query
    const table: SurveyTable
    /** What `getPluginSettings(true)` yields: the schema with global `current` values. */
    const globalSettings: Schema

    constructor (query: Query, table: SurveyTable, globalSettings: Schema, session: Session, store: Store, event: Event)
      ensures this.query == query && this.table == table && this.globalSettings == globalSettings
      ensures this.session == session && this.store == store && this.event == event
      ensures survey == None
    {
      this.query := query;
      this.table := table;
      this.globalSettings := globalSettings;
      this.session := session;
      this.store := store;
      this.event := event;
      survey := None;
    }

    /** `loadSurvey`: the survey is set only when an id is found and the table
        has its row; otherwise the field keeps its value. */
    method LoadSurvey()
      modifies this`survey
      ensures var found := ResolveSurvey(event, table);
        survey == if found.Some? then found else old(survey)
    {
      var surveyId := FindSurveyId(event);
      if Empty(surveyId) {
        return;
      }
      var id := StrVal(surveyId);
      if id !in table {
        return;
      }
      survey := Some(table[id]);
    }

    /** `paramValue`: updates only the session, as `ResolveParamValue` says. */
    method ParamValue() returns (value: Option<string>)
      requires survey.Some?
      modifies this`session
      ensures var sid := survey.value.sid;
        (value, session) == ResolveParamValue(ConfiguredParamName(store, sid), sid, query, old(session))
    {
      var sid := survey.value.sid;
      var paramName := TrimValue(StoreGet(store, "paramName", sid));
      if Empty(Str(paramName)) {
        return None;
      }
      var key := SessionKey(sid) + "::paramValue";
      if "newtest" in query {
        session := session - {key};
      }
      if paramName in query && !Empty(Str(query[paramName])) {
        session := session[key := Trim(query[paramName])];
      }
      if key !in session {
        return None;
      }
      return Some(session[key]);
    }

    /** `newSurveySettings`: each submitted pair is written for the event's survey, in order. */
    method NewSurveySettings()
      modifies this`store
      ensures store == ApplyWrites(old(store), StrVal(ScalarGet(event, "survey")), PairsGet(event, "settings"))
    {
      var pairs := PairsGet(event, "settings");
      var sid := StrVal(ScalarGet(event, "survey"));
      var i := 0;
      while i < |pairs|
        invariant 0 <= i <= |pairs|
        invariant store == ApplyWrites(old(store), sid, pairs[..i])
      {
        var (name, value) := pairs[i];
        store := store[(name, sid) := value];
        assert pairs[..i + 1][..i] == pairs[..i];
        i := i + 1;
      }
      assert pairs[..|pairs|] == pairs;
    }

    /** `loadDefaultSettings`: stages every global `current` value on the
        event and submits them for the survey. */
    method LoadDefaultSettings()
      requires survey.Some?
      modifies this`store, this`event
      ensures event == DefaultsEvent(old(event), globalSettings, survey.value.sid)
      ensures store == ApplyWrites(old(store), survey.value.sid, Defaults(globalSettings))
    {
      var sid := survey.value.sid;
      var settings := DefaultValues(globalSettings);
      event := event["settings" := Pairs(settings)];
      event := event["survey" := Scalar(Str(sid))];
      NewSurveySettings();
    }

    /** `loadSurveySettings`: nothing without a survey; otherwise publishes
        the merged settings and runs the defaults bootstrap when the stored
        `paramName` trims to empty. */
    method LoadSurveySettings()
      modifies this`store, this`event
      ensures survey.None? ==> store == old(store) && event == old(event)
      ensures survey.Some? ==>
        && event == SettingsEvent(old(event), globalSettings, old(store), survey.value.sid)
        && store == Bootstrap(globalSettings, old(store), survey.value.sid)
    {
      if survey.None? {
        return;
      }
      var sid := survey.value.sid;
      var merged := SurveySettings(globalSettings, store, sid);
      event := event[SurveySettingsKey(sid) := Published(ClassName, merged)];
      var paramName := TrimValue(StoreGet(store, "paramName", sid));
      if Empty(Str(paramName)) {
        LoadDefaultSettings();
      }
    }

    /** `makeRequest`: no request without a survey; otherwise the settings are
        loaded first and the request is the one `Forward` describes. */
    method MakeRequest() returns (request: Option<Request>)
      modifies this`store, this`event, this`session
      ensures survey.None? ==>
        request.None? && store == old(store) && event == old(event) && session == old(session)
      ensures survey.Some? ==>
        var sid := survey.value.sid;
        && store == Bootstrap(globalSettings, old(store), sid)
        && event == SettingsEvent(old(event), globalSettings, old(store), sid)
        && (request, session) == Forward(SurveyConfig(store, sid), sid, query, old(session))
    {
      if survey.None? {
        return None;
      }
      LoadSurveySettings();
      var paramValue := ParamValue();
      if paramValue.None? || Empty(Str(paramValue.value)) {
        return None;
      }
      var sid := survey.value.sid;
      var paramName := TrimValue(StoreGet(store, "paramName", sid));
      var requestUrl := StoreGet(store, "requestUrl", sid);
      var authenticationBearer := StoreGet(store, "authenticationBearer", sid);
      var authorization := "Authorization: Bearer " + StrVal(authenticationBearer);
      var postRequest := map[paramName := paramValue.value];
      return Some(Request(StrVal(requestUrl), [authorization], postRequest));
    }

    /** `beforeSurveyPage`: resolves the survey, makes the request and returns
        what is handed to the page as `ExternalApiPluginData`; `exchange`
        stands for the POST and the decoding of its response (None for null). */
    method BeforeSurveyPage<J>(exchange: Request -> Option<J>) returns (data: Option<J>)
      modifies this`survey, this`store, this`event, this`session
      ensures var found := ResolveSurvey(old(event), table);
        survey == if found.Some? then found else old(survey)
      ensures survey.None? ==>
        data.None? && store == old(store) && event == old(event) && session == old(session)
      ensures survey.Some? ==>
        var sid := survey.value.sid;
        var (request, session') := Forward(SurveyConfig(store, sid), sid, query, old(session));
        && store == Bootstrap(globalSettings, old(store), sid)
        && event == SettingsEvent(old(event), globalSettings, old(store), sid)
        && session == session'
        && data == if request.Some? then exchange(request.value) else None
    {
      LoadSurvey();
      var request := MakeRequest();
      data := if request.Some? then exchange(request.value) else None;
    }

    /** `beforeSurveySettings`: resolves the survey and loads its settings. */
    method BeforeSurveySettings()
      modifies this`survey, this`store, this`event
      ensures var found := ResolveSurvey(old(event), table);
        survey == if found.Some? then found else old(survey)
      ensures survey.None? ==> store == old(store) && event == old(event)
      ensures survey.Some? ==>
        && event == SettingsEvent(old(event), globalSettings, old(store), survey.value.sid)
        && store == Bootstrap(globalSettings, old(store), survey.value.sid)
    {
      LoadSurvey();
      LoadSurveySettings();
    }
  }
}
