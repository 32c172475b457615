/** Which survey an event is about: the id is taken from the first non-empty
    of a fixed list of event parameters, and the survey row is looked up
    by that id directly in the survey table. */
module SurveyLookup {
  import opened Php
  import opened HostEvent

  /** The event parameters that may carry the survey id, in priority order. */
  const SurveyIdParamNames: seq<string> := ["surveyId", "survey", "surveyid"]

  /** A survey row: its primary key and the rest of its columns. */
  datatype SurveyRow = SurveyRow(sid: string, attributes: map<string, string>)

  /** The survey table as the query `sid = :sid` sees it: the bound id string
      to the row it finds; an id with no row is absent. */
  type SurveyTable = map<string, SurveyRow>

  /** The position of the first parameter among `names` whose value is not
      empty, or |names| when every one is empty. */
  function FirstNonEmptyIndex(event: Event, names: seq<string>): (k: nat)
    ensures k <= |names|
    ensures forall j :: 0 <= j < k ==> Empty(ScalarGet(event, names[j]))
    ensures k < |names| ==> !Empty(ScalarGet(event, names[k]))
  {
    if names == [] then 0
    else if !Empty(ScalarGet(event, names[0])) then 0
    else 1 + FirstNonEmptyIndex(event, names[1..])
  }

  /** The `foreach ... break` of `loadSurvey`: the id it ends with is empty
      exactly when every candidate parameter is, and otherwise it is the value
      of the first non-empty one. */
  method FindSurveyId(event: Event) returns (surveyId: Value)
    ensures Empty(surveyId) <==> forall j :: 0 <= j < |SurveyIdParamNames| ==> Empty(ScalarGet(event, SurveyIdParamNames[j]))
    ensures !Empty(surveyId) ==>
      surveyId == ScalarGet(event, SurveyIdParamNames[FirstNonEmptyIndex(event, SurveyIdParamNames)])
  {
    var names := SurveyIdParamNames;
    surveyId := Null;
    var i := 0;
    while i < |names|
      invariant 0 <= i <= |names|
      invariant forall j :: 0 <= j < i ==> Empty(ScalarGet(event, names[j]))
      invariant Empty(surveyId)
    {
      surveyId := ScalarGet(event, names[i]);
      if !Empty(surveyId) {
        assert FirstNonEmptyIndex(event, names) == i by {
          FirstNonEmptyIndexIs(event, names, i);
        }
        return;
      }
      i := i + 1;
    }
  }

  /** The first non-empty position is determined by the emptiness of the
      parameters before it and its own. */
  lemma {:induction false} FirstNonEmptyIndexIs(event: Event, names: seq<string>, i: nat)
    requires i < |names| && !Empty(ScalarGet(event, names[i]))
    requires forall j :: 0 <= j < i ==> Empty(ScalarGet(event, names[j]))
    ensures FirstNonEmptyIndex(event, names) == i
  {
    if i > 0 {
      assert Empty(ScalarGet(event, names[0]));
      assert names[1..][i - 1] == names[i];
      FirstNonEmptyIndexIs(event, names[1..], i - 1);
    }
  }

  /** The survey `loadSurvey` settles on: none when every id parameter is
      empty or the table has no row for the chosen id, otherwise that row. */
  function ResolveSurvey(event: Event, table: SurveyTable): Option<SurveyRow>
  {
    var k := FirstNonEmptyIndex(event, SurveyIdParamNames);
    if k == |SurveyIdParamNames| then None
    else
      var id := StrVal(ScalarGet(event, SurveyIdParamNames[k]));
      if id in table then Some(table[id]) else None
  }

  /** The id parameters are consulted in the order surveyId, survey, surveyid:
      a later one is used only when all earlier ones are empty, and a survey
      is found only when some id is non-empty and the table has its row. */
  lemma ResolveSurveyPriority(event: Event, table: SurveyTable)
    ensures var surveyId := ScalarGet(event, "surveyId");
      var survey := ScalarGet(event, "survey");
      var surveyid := ScalarGet(event, "surveyid");
      ResolveSurvey(event, table) ==
        if !Empty(surveyId) then (if StrVal(surveyId) in table then Some(table[StrVal(surveyId)]) else None)
        else if !Empty(survey) then (if StrVal(survey) in table then Some(table[StrVal(survey)]) else None)
        else if !Empty(surveyid) then (if StrVal(surveyid) in table then Some(table[StrVal(surveyid)]) else None)
        else None
  {
    var names := SurveyIdParamNames;
    assert names[0] == "surveyId" && names[1] == "survey" && names[2] == "surveyid";
    var k := FirstNonEmptyIndex(event, names);
    if k == 0 {
      assert !Empty(ScalarGet(event, "surveyId"));
    } else if k == 1 {
      assert Empty(ScalarGet(event, "surveyId")) && !Empty(ScalarGet(event, "survey"));
    } else if k == 2 {
      assert Empty(ScalarGet(event, "surveyId")) && Empty(ScalarGet(event, "survey"));
    } else {
      assert Empty(ScalarGet(event, names[0])) && Empty(ScalarGet(event, names[1])) && Empty(ScalarGet(event, names[2]));
    }
  }
}
