/** The plugin's settings: the schema it declares, the host's per-survey
    settings store, the merge shown on the survey settings page, the writes
    of a settings submission and the defaults bootstrap. */
module Settings {
  import opened Php

  datatype SettingType = Boolean | Text

  /** One schema entry (`caption` is the schema's `label`); `current` is the
      value the administration page shows. */
  datatype Setting = Setting(kind: SettingType, caption: string, default: Value, current: Option<Value>)

  /** An ordered settings schema, key to entry, as a PHP array keeps it. */
  type Schema = seq<(string, Setting)>

  /** The schema the plugin declares. */
  const PluginSettings: Schema := [
    ("enabled", Setting(Boolean, "Enable plugin for survey", Bool(false), None)),
    ("requestUrl", Setting(Text, "External API request URL", Str("https://api.example.com/get-smth"), None)),
    ("authenticationBearer", Setting(Text, "External API request authentication Bearer header value", Str("my-auth-bearer-token"), None)),
    ("paramName", Setting(Text, "an input URL parameter to be injected to API request", Str("username"), None))
  ]

  /** The host's settings store: (setting key, survey id) to stored value. */
  type Store = map<(string, string), Value>

  /** `$this->get($key, 'Survey', $sid)`: the stored value, or null. */
  function StoreGet(store: Store, key: string, sid: string): Value
  {
    if (key, sid) in store then store[(key, sid)] else Null
  }

  /** The configured URL parameter name of a survey, trimmed. */
  function ConfiguredParamName(store: Store, sid: string): string
  {
    TrimValue(StoreGet(store, "paramName", sid))
  }

  predicate DistinctKeys<T>(pairs: seq<(string, T)>)
  {
    forall i, j :: 0 <= i < j < |pairs| ==> pairs[i].0 != pairs[j].0
  }

  /** The schema as the administration page shows it for survey `sid`: every
      global entry in order, its `current` replaced by the survey's stored
      value exactly when that value is not empty. */
  function MergeSettings(global: Schema, store: Store, sid: string): (merged: Schema)
    ensures |merged| == |global|
    ensures forall i :: 0 <= i < |global| ==>
      var v := StoreGet(store, global[i].0, sid);
      && merged[i].0 == global[i].0
      && merged[i].1.kind == global[i].1.kind
      && merged[i].1.caption == global[i].1.caption
      && merged[i].1.default == global[i].1.default
      && merged[i].1.current == if Empty(v) then global[i].1.current else Some(v)
  {
    if global == [] then []
    else
      var (key, setting) := global[0];
      var v := StoreGet(store, key, sid);
      [(key, if Empty(v) then setting else setting.(current := Some(v)))] + MergeSettings(global[1..], store, sid)
  }

  /** The loop of `loadSurveySettings` that builds `$surveySettings`. */
  method SurveySettings(global: Schema, store: Store, sid: string) returns (merged: Schema)
    ensures merged == MergeSettings(global, store, sid)
  {
    merged := [];
    var i := 0;
    while i < |global|
      invariant 0 <= i <= |global|
      invariant merged == MergeSettings(global[..i], store, sid)
    {
      var (key, setting) := global[i];
      var currentSurveyValue := StoreGet(store, key, sid);
      if !Empty(currentSurveyValue) {
        setting := setting.(current := Some(currentSurveyValue));
      }
      merged := merged + [(key, setting)];
      MergeSettingsSnoc(global, store, sid, i);
      i := i + 1;
    }
    assert global[..|global|] == global;
  }

  lemma MergeSettingsSnoc(global: Schema, store: Store, sid: string, i: nat)
    requires i < |global|
    ensures var v := StoreGet(store, global[i].0, sid);
      MergeSettings(global[..i + 1], store, sid) ==
        MergeSettings(global[..i], store, sid) + [(global[i].0, if Empty(v) then global[i].1 else global[i].1.(current := Some(v)))]
  {
    var a := MergeSettings(global[..i + 1], store, sid);
    var b := MergeSettings(global[..i], store, sid);
    assert forall j :: 0 <= j < i ==> global[..i + 1][j] == global[..i][j];
  }

  /** The value a sequence of writes leaves for `key`: the last one, if any. */
  function LastWrite(pairs: seq<(string, Value)>, key: string): Option<Value>
  {
    if pairs == [] then None
    else if pairs[|pairs| - 1].0 == key then Some(pairs[|pairs| - 1].1)
    else LastWrite(pairs[..|pairs| - 1], key)
  }

  /** The store after `$this->set($name, $value, 'Survey', $sid)` for each pair in order. */
  function ApplyWrites(store: Store, sid: string, pairs: seq<(string, Value)>): Store
  {
    if pairs == [] then store
    else
      var last := pairs[|pairs| - 1];
      ApplyWrites(store, sid, pairs[..|pairs| - 1])[(last.0, sid) := last.1]
  }

  /** Writes for one survey touch only that survey's keys that were written,
      and each written key holds the last value written to it. */
  lemma {:induction false} ApplyWritesAt(store: Store, sid: string, pairs: seq<(string, Value)>)
    ensures var r := ApplyWrites(store, sid, pairs);
      && (forall p: (string, string) :: p in r <==> p in store || (p.1 == sid && LastWrite(pairs, p.0).Some?))
      && (forall p: (string, string) :: p in r ==>
            r[p] == if p.1 == sid && LastWrite(pairs, p.0).Some? then LastWrite(pairs, p.0).value else store[p])
  {
    if pairs != [] {
      ApplyWritesAt(store, sid, pairs[..|pairs| - 1]);
    }
  }

  /** With distinct keys, the value written for a key is the one submitted for it. */
  lemma {:induction false} LastWriteOfDistinct(pairs: seq<(string, Value)>, j: nat)
    requires DistinctKeys(pairs) && j < |pairs|
    ensures LastWrite(pairs, pairs[j].0) == Some(pairs[j].1)
  {
    if j < |pairs| - 1 {
      var init := pairs[..|pairs| - 1];
      assert init[j] == pairs[j];
      LastWriteOfDistinct(init, j);
    }
  }

  /** Repeating the same writes changes nothing. */
  lemma ApplyWritesTwice(store: Store, sid: string, pairs: seq<(string, Value)>)
    ensures ApplyWrites(ApplyWrites(store, sid, pairs), sid, pairs) == ApplyWrites(store, sid, pairs)
  {
    var once := ApplyWrites(store, sid, pairs);
    ApplyWritesAt(store, sid, pairs);
    ApplyWritesAt(once, sid, pairs);
  }

  /** The value of an entry that the defaults bootstrap writes. */
  function CurrentValue(setting: Setting): Value
  {
    if setting.current.Some? then setting.current.value else Null
  }

  /** The `$settings` array built by `loadDefaultSettings`: key to global `current`. */
  function Defaults(global: Schema): seq<(string, Value)>
  {
    seq(|global|, i requires 0 <= i < |global| => (global[i].0, CurrentValue(global[i].1)))
  }

  lemma DefaultsAt(global: Schema)
    requires DistinctKeys(global)
    ensures var d := Defaults(global);
      && |d| == |global| && DistinctKeys(d)
      && forall i :: 0 <= i < |d| ==> d[i] == (global[i].0, CurrentValue(global[i].1))
  {
  }

  /** The loop of `loadDefaultSettings` that builds `$settings`. */
  method DefaultValues(global: Schema) returns (settings: seq<(string, Value)>)
    ensures |settings| == |global|
    ensures forall i :: 0 <= i < |global| ==> settings[i] == (global[i].0, CurrentValue(global[i].1))
    ensures settings == Defaults(global)
  {
    settings := [];
    var i := 0;
    while i < |global|
      invariant 0 <= i <= |global|
      invariant |settings| == i
      invariant forall j :: 0 <= j < i ==> settings[j] == (global[j].0, CurrentValue(global[j].1))
    {
      var (key, setting) := global[i];
      settings := settings + [(key, CurrentValue(setting))];
      i := i + 1;
    }
  }

  /** The bootstrap runs when the survey's stored `paramName` trims to empty. */
  predicate NeedsDefaults(store: Store, sid: string)
  {
    Empty(Str(ConfiguredParamName(store, sid)))
  }

  /** The store after the bootstrap check at the end of `loadSurveySettings`. */
  function Bootstrap(global: Schema, store: Store, sid: string): Store
  {
    if NeedsDefaults(store, sid) then ApplyWrites(store, sid, Defaults(global)) else store
  }

  /** Writing the defaults leaves every global key of the survey holding its
      global `current` value. */
  lemma DefaultsWritten(global: Schema, store: Store, sid: string)
    requires DistinctKeys(global)
    ensures var r := ApplyWrites(store, sid, Defaults(global));
      forall i :: 0 <= i < |global| ==> StoreGet(r, global[i].0, sid) == CurrentValue(global[i].1)
  {
    var d := Defaults(global);
    DefaultsAt(global);
    ApplyWritesAt(store, sid, d);
    forall i | 0 <= i < |global|
      ensures LastWrite(d, global[i].0) == Some(CurrentValue(global[i].1))
    {
      LastWriteOfDistinct(d, i);
    }
  }

  /** When the bootstrap runs, every global key of the survey holds its global
      `current` value; when it does not run, the store is left as it was. */
  lemma BootstrapWritesDefaults(global: Schema, store: Store, sid: string)
    requires DistinctKeys(global)
    ensures var r := Bootstrap(global, store, sid);
      && (NeedsDefaults(store, sid) ==>
            forall i :: 0 <= i < |global| ==> StoreGet(r, global[i].0, sid) == CurrentValue(global[i].1))
      && (!NeedsDefaults(store, sid) ==> r == store)
  {
    if NeedsDefaults(store, sid) {
      DefaultsWritten(global, store, sid);
    }
  }

  /** The bootstrap never changes another survey's settings. */
  lemma BootstrapKeepsOtherSurveys(global: Schema, store: Store, sid: string)
    ensures var r := Bootstrap(global, store, sid);
      forall p: (string, string) :: p.1 != sid ==> (p in r <==> p in store) && (p in r ==> r[p] == store[p])
  {
    if NeedsDefaults(store, sid) {
      ApplyWritesAt(store, sid, Defaults(global));
    }
  }

  /** Running the bootstrap check a second time changes no stored setting. */
  lemma BootstrapIdempotent(global: Schema, store: Store, sid: string)
    ensures Bootstrap(global, Bootstrap(global, store, sid), sid) == Bootstrap(global, store, sid)
  {
    if NeedsDefaults(store, sid) {
      var once := ApplyWrites(store, sid, Defaults(global));
      assert Bootstrap(global, store, sid) == once;
      ApplyWritesTwice(store, sid, Defaults(global));
      if NeedsDefaults(once, sid) {
        assert Bootstrap(global, once, sid) == ApplyWrites(once, sid, Defaults(global));
      }
    }
  }

  /** Once the bootstrap has run with a global `paramName` that trims to a
      usable name, it does not run again. */
  lemma BootstrapSettles(global: Schema, store: Store, sid: string, k: nat)
    requires DistinctKeys(global)
    requires k < |global| && global[k].0 == "paramName"
    requires !Empty(Str(TrimValue(CurrentValue(global[k].1))))
    ensures !NeedsDefaults(Bootstrap(global, store, sid), sid)
  {
    if NeedsDefaults(store, sid) {
      var r := ApplyWrites(store, sid, Defaults(global));
      DefaultsWritten(global, store, sid);
      assert StoreGet(r, "paramName", sid) == CurrentValue(global[k].1);
    }
  }

  /** A submission followed by a settings page load shows, for every schema
      key, the submitted value as `current` when it is not empty and the
      global `current` when it is. */
  lemma SubmitThenMerge(global: Schema, store: Store, sid: string, pairs: seq<(string, Value)>, i: nat, j: nat)
    requires DistinctKeys(pairs)
    requires i < |global| && j < |pairs| && pairs[j].0 == global[i].0
    ensures var merged := MergeSettings(global, ApplyWrites(store, sid, pairs), sid);
      merged[i].1.current == if Empty(pairs[j].1) then global[i].1.current else Some(pairs[j].1)
  {
    ApplyWritesAt(store, sid, pairs);
    LastWriteOfDistinct(pairs, j);
  }

  /** The global view of a schema when no plugin-wide value has been stored:
      every entry's `current` is its default. */
  function UnconfiguredGlobal(schema: Schema): Schema
  {
    seq(|schema|, i requires 0 <= i < |schema| => (schema[i].0, schema[i].1.(current := Some(schema[i].1.default))))
  }

  /** The declared schema has distinct keys, and with no plugin-wide value
      stored the bootstrap writes the usable parameter name "username", after
      which it no longer runs. */
  lemma PluginSettingsBootstrap(store: Store, sid: string)
    ensures DistinctKeys(PluginSettings)
    ensures var r := Bootstrap(UnconfiguredGlobal(PluginSettings), store, sid);
      && !NeedsDefaults(r, sid)
      && (NeedsDefaults(store, sid) ==> ConfiguredParamName(r, sid) == "username")
  {
    var global := UnconfiguredGlobal(PluginSettings);
    UnconfiguredPluginSettings();
    UsernameIsUsable();
    BootstrapSettles(global, store, sid, 3);
    if NeedsDefaults(store, sid) {
      DefaultsWritten(global, store, sid);
      assert StoreGet(Bootstrap(global, store, sid), "paramName", sid) == Str("username");
    }
  }

  lemma UnconfiguredPluginSettings()
    ensures DistinctKeys(PluginSettings)
    ensures var global := UnconfiguredGlobal(PluginSettings);
      && DistinctKeys(global) && |global| == 4 && global[3].0 == "paramName"
      && CurrentValue(global[3].1) == Str("username")
  {
    assert DistinctKeys(PluginSettings);
    var global := UnconfiguredGlobal(PluginSettings);
    assert forall i :: 0 <= i < |global| ==> global[i].0 == PluginSettings[i].0;
  }

  lemma UsernameIsUsable()
    ensures TrimValue(Str("username")) == "username" && !Empty(Str("username"))
  {
    TrimUntouched("username");
  }
}
