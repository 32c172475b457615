# ExternalApiRequest — a Dafny model of the plugin's decision logic

ExternalApiRequest is a LimeSurvey plugin. When a survey page is rendered it
reads a configured URL parameter, caches its value in the HTTP session per
survey, and POSTs it as a single form field, with a bearer-token
`Authorization` header, to a configured URL; the decoded JSON answer is handed
to the page template. On the survey settings page it shows its four settings
(`enabled`, `requestUrl`, `authenticationBearer`, `paramName`) merged with the
survey's stored values, stores what the administrator submits, and writes the
global defaults for a survey whose `paramName` is still empty.

This project models that logic with the host services as plain values:

- `Php.dfy` — the PHP semantics the code depends on: `empty()` (null, false,
  0, "" and "0" are empty), `strval()` and `trim()` with its default character
  set " \t\n\r\0\x0B".
- `Settings.dfy` — the declared schema, the per-survey settings store as a map
  from (key, survey id) to value, the merge shown on the settings page, the
  writes of a submission and the defaults bootstrap.
- `HostEvent.dfy` — the event payload (`$event->get` / `$event->set`).
- `SurveyLookup.dfy` — choosing the survey id among the event parameters
  `surveyId`, `survey`, `surveyid` and looking the row up in the survey table.
- `SessionCache.dfy` — `paramValue`: optional reset, overwrite with the
  trimmed query value, fallback to the cached value.
- `Forwarding.dfy` — the guards of `makeRequest` and the request it builds.
- `Plugin.dfy` — the plugin object as a class: its `survey` field and the
  session, store and event its handlers update, with one method per handler
  or private method of the source, each proved against the functions above.

Behaviour that the code has and a reader of the plugin's description might not
expect, all modelled as the code has it:

- Any `newtest` query parameter resets the cache, whatever its value: the
  guard compares `isset(...)`, a boolean, with "Y", which PHP's loose
  comparison treats as true.
- The emptiness check on the query value comes before `trim`, so a
  whitespace-only value is cached as "" and replaces a good cached value; a
  value such as " 0" is cached as "0"; `makeRequest` then sends nothing.
- A `paramName` of "0" counts as unset, both for `paramValue` and for the
  defaults bootstrap.
- On the settings page a key shows the survey's stored value only when it is
  not empty; otherwise it keeps the `current` value of the global view. So a
  submitted `false`, "" or "0" does not show back as the survey's value.
- The `enabled` setting is never consulted before a request is made.

## Model

| member | source | states |
|---|---|---|
| `Php.TrimLeftShape` | ExternalApiRequest.php:135 | `ltrim` leaves the longest suffix not starting with a trim character; everything dropped is a trim character |
| `Php.TrimRightShape` | ExternalApiRequest.php:135 | `rtrim` leaves the longest prefix not ending with a trim character; everything dropped is a trim character |
| `Php.TrimShape` | ExternalApiRequest.php:135 | a trimmed value has no trim character at either end and is a contiguous piece of the input surrounded only by trim characters |
| `Php.TrimIdempotent` | ExternalApiRequest.php:135 | trimming a trimmed value changes nothing |
| `Php.TrimEmptyIff` | ExternalApiRequest.php:135 | `trim` yields "" exactly when the input is made of trim characters only |
| `Settings.MergeSettings` | ExternalApiRequest.php:216-225 | the merged settings have every global key in order with its type, label and default; `current` becomes the survey's stored value exactly when that value is not empty, else stays the global one |
| `Settings.SurveySettings` | ExternalApiRequest.php:218-225 | the loop that builds `$surveySettings` yields exactly the merged settings |
| `Settings.ApplyWritesAt` | ExternalApiRequest.php:245-252 | a submission changes only the entries of the submitted keys for that survey, each to the last value submitted for it; every other entry, of every other survey, is unchanged |
| `Settings.LastWriteOfDistinct` | ExternalApiRequest.php:249-251 | with distinct submitted keys (a PHP array), the value stored for a key is the one submitted for it |
| `Settings.ApplyWritesTwice` | ExternalApiRequest.php:249-251 | submitting the same settings twice leaves the store as one submission does |
| `Settings.DefaultValues` | ExternalApiRequest.php:257-263 | the defaults array has one entry per global key, in order, holding that key's global `current` value (null when it has none) |
| `Settings.DefaultsWritten` | ExternalApiRequest.php:254-268 | after the defaults are submitted every global key of the survey holds its global `current` value |
| `Settings.BootstrapWritesDefaults` | ExternalApiRequest.php:233-239 | the bootstrap runs exactly when the stored `paramName` trims to empty, then writes every global `current`; otherwise the store is unchanged |
| `Settings.BootstrapKeepsOtherSurveys` | ExternalApiRequest.php:254-268 | the bootstrap never changes another survey's settings |
| `Settings.BootstrapIdempotent` | ExternalApiRequest.php:233-239 | running the bootstrap check again right after it changes no stored setting |
| `Settings.BootstrapSettles` | ExternalApiRequest.php:233-239 | when the global `paramName` trims to a usable name, the bootstrap does not run a second time |
| `Settings.SubmitThenMerge` | ExternalApiRequest.php:216-251 | after a submission, the settings page shows each submitted non-empty value as the key's `current`, and the global `current` for a submitted empty value |
| `Settings.PluginSettingsBootstrap` | ExternalApiRequest.php:17-38 | the declared schema has distinct keys; with no global value stored, the bootstrap stores `paramName` "username" and then no longer runs |
| `SurveyLookup.FirstNonEmptyIndex` | ExternalApiRequest.php:158-166 | the chosen position has only empty parameters before it and is itself non-empty, or is past the end when all are empty |
| `SurveyLookup.FindSurveyId` | ExternalApiRequest.php:157-169 | the loop with `break` ends with an empty id exactly when all three parameters are empty, and otherwise with the value of the first non-empty one |
| `SurveyLookup.FirstNonEmptyIndexIs` | ExternalApiRequest.php:160-166 | the first non-empty position is determined by the emptiness of the parameters up to it |
| `SurveyLookup.ResolveSurveyPriority` | ExternalApiRequest.php:158-189 | the survey is the row of `surveyId`, else of `survey`, else of `surveyid`, whichever is the first non-empty one; none when all are empty or the table has no row for that id |
| `SessionCache.ParamValueKeyInjective` | ExternalApiRequest.php:148-151 | distinct surveys use distinct session keys `ExternalApiRequest::<sid>::paramValue` |
| `SessionCache.NoParamName` | ExternalApiRequest.php:121-125 | a parameter name that trims to empty (or "0") yields null and leaves the session unchanged |
| `SessionCache.QueryValueWins` | ExternalApiRequest.php:134-142 | a non-empty query value is trimmed, cached and returned; only the survey's cache key changes |
| `SessionCache.CacheFallback` | ExternalApiRequest.php:138-142 | without a usable query value and without `newtest`, the cached value is returned if set, otherwise null; the session is unchanged |
| `SessionCache.ResetDropsCache` | ExternalApiRequest.php:131-133 | with `newtest` present, the old cached value is dropped: the result is the trimmed query value if usable, else null with the entry removed |
| `SessionCache.ResetFlagValueIgnored` | ExternalApiRequest.php:131 | any value of `newtest` has the same effect |
| `SessionCache.PersistsUntilReset` | ExternalApiRequest.php:130-142 | a value given once is returned on later requests without it, until a request carries `newtest` |
| `SessionCache.BlankValueCachedEmpty` | ExternalApiRequest.php:134-136 | a whitespace-only query value is cached and returned as "" |
| `SessionCache.OtherSurveysUntouched` | ExternalApiRequest.php:130-136 | resolving one survey's value never changes another survey's cache entry |
| `Forwarding.ForwardSkips` | ExternalApiRequest.php:65-76 | no request is issued exactly when the parameter name is unset or the value to send is missing or empty, a cached "" or "0" included |
| `Forwarding.ForwardedRequestShape` | ExternalApiRequest.php:82-103 | an issued request goes to the survey's URL, has exactly one form field, the trimmed parameter name, with a non-empty value, and the one header "Authorization: Bearer " followed by the survey's token |
| `Forwarding.ForwardedValue` | ExternalApiRequest.php:72-88 | the value sent is the trimmed query value when usable, otherwise the cached value with the session unchanged |
| `Forwarding.EnabledNeverConsulted` | ExternalApiRequest.php:82-84 | changing the `enabled` setting changes none of the settings the request is built from |
| `Forwarding.AliceScenario` | ExternalApiRequest.php:82-103 | `p=alice` with `paramName` "p" and token "tok" posts `p=alice` with "Authorization: Bearer tok" and caches "alice" |
| `Plugin.ExternalApiRequest.LoadSurvey` | ExternalApiRequest.php:153-191 | the `survey` field is set to the resolved row, and keeps its value when no id or no row is found |
| `Plugin.ExternalApiRequest.ParamValue` | ExternalApiRequest.php:119-144 | changes only the session, returning the value and leaving the session `ResolveParamValue` gives |
| `Plugin.ExternalApiRequest.NewSurveySettings` | ExternalApiRequest.php:245-252 | the store becomes the old store with each submitted pair written, in order, for the event's survey |
| `Plugin.ExternalApiRequest.LoadDefaultSettings` | ExternalApiRequest.php:254-269 | stages the defaults and the survey id on the event and writes the defaults for the survey |
| `Plugin.ExternalApiRequest.LoadSurveySettings` | ExternalApiRequest.php:207-242 | without a survey nothing changes; otherwise the merged settings are published under `surveysettings.<sid>` with name `ExternalApiRequest` and the store is the bootstrapped store |
| `Plugin.ExternalApiRequest.MakeRequest` | ExternalApiRequest.php:62-114 | without a survey: no request and nothing changes; otherwise settings are loaded first and the request and session are those `Forward` gives over the bootstrapped store |
| `Plugin.ExternalApiRequest.BeforeSurveyPage` | ExternalApiRequest.php:52-60 | resolves the survey, and the data handed to the page is the decoded answer to the issued request, or null when none is issued |
| `Plugin.ExternalApiRequest.BeforeSurveySettings` | ExternalApiRequest.php:200-205 | resolves the survey and loads its settings, with the effects of `LoadSurveySettings` |

## Left out

- The curl transport and `json_decode` of the answer are not modelled: `BeforeSurveyPage` takes them as one given function from the request to the decoded value (None for null).
- `http_build_query`: the form body is kept as a one-entry map, not encoded.
- The Yii query builder and the `Survey` ORM object: the survey table is a map from the bound id string to a row with its primary key; a missing row stands for an empty query result.
- `Yii::log`, `logCategory` and `$app->setConfig`: logging has no effect on the state, and `BeforeSurveyPage` returns the value it would store in the configuration slot.
- Event subscription in `init`, and the internals of `getPluginSettings`, `get` and `set`: the global settings view is a given schema, and the store is a map read with null as default.
- `$_GET` values that are arrays, and event parameters that are not scalars, are not modelled: query values are strings, and a non-scalar id parameter reads as null.
- Concurrent requests of one session (last write wins) are not modelled; each handler runs alone.
- `Forwarding.ForwardedRequestShape`: states the body as a map with one field, not its URL encoding, because `http_build_query` is left out.
