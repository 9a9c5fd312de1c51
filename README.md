# LifeLens core, modelled in Dafny

LifeLens is a Streamlit chat front end (`main_streamlit.py`). An OpenAI assistant answers questions about an Immich photo library by calling ten Python tools. The tools query the Immich server and Google's reverse geocoder, post-process the JSON they get back, and may put thumbnails into the sidebar buffer `st.session_state.thumbs`. The script is executed once per Streamlit re-run and runs three phases in order:

1. Resume: on the first run it retrieves the assistant named by `OPENAI_ASSISTANT` and creates the thread. Otherwise, for a run that requires action, it dispatches that run's tool calls and submits their outputs.
2. Prompt: a new prompt starts a run.
3. Status: it reacts to the run's status. A `"failed"` status is counted in `retry_error`, and the script re-runs while fewer than three failures were counted. The failed run is neither retrieved nor created again, so each of those re-runs examines the same failed run, until the third count shows the error notice.

The model has eight modules:

- `Values` (values.dfy): JSON values and the Python behaviour the tools rely on. This covers `in`, indexing, `len`, slicing, iteration and truthiness, with the exception each raises on a wrong shape, as a `Result`.
- `Integers` (integers.dfy): Python's `int(...)` on strings and JSON values.
- `CreatedOrder` (ordering.dfy): the `fileCreatedAt` sort of `smart_search`, as a stable insertion sort that is generic over the key. The module proves that the sort yields a permutation in non-increasing key order.
- `Records` (records.dfy): the pure post-processing of the HTTP clients. This covers `trim_json`, the `assets.items` envelope, truncation to 5, 10 or `num` records, the sort, and the `"Unknown"`/`"unknown"` sentinels.
- `Location` (location.dfy): the filtering of reverse-geocode results in `get_specific_location`, as a function. The nested loops are modelled as a method proved equal to that function.
- `Tools` (tools.dfy): the ten tools, each a function of its bound arguments; their Python signatures, defaults included, are `Dispatch.Signature`. Every request to the outside world is an answer of a `Backend` value.
- `Dispatch` (dispatch.dfy): the tool table `funcs`/`available_funcs`, the binding of keyword arguments, and the loop over a required action's tool calls (`CallStep`, `RunBatch`). The loop is generic over a tool table, and the lemmas about it are specialised to the LifeLens table `Available(be)`.
- `App` (session.dfy): the re-run state machine as the functions `Resume`, `Prompted`, `HandleStatus` and `Next`, plus lemmas about `retry_error` across any sequence of re-runs. The class `Session` holds `st.session_state`. Its methods update the fields in place as the script does, and each is proved to agree with the corresponding function.

The outside world is an input, never computed:

- `Tools.Backend` gives the parsed JSON body of every Immich request, the thumbnail bytes of every asset id, and the reverse-geocode answer for a latitude/longitude pair. That answer may be an exception, which also stands for `float()` failing on the pair.
- `App.Service` gives the runs that `runs.create`, `runs.retrieve` and `submit_tool_outputs` return.
- The prompt is a parameter of `Step`. The empty string stands for "no prompt".
- `st.rerun()` and the error notice become the `Ending` of a step. `time.sleep` is left out.

## Model

| member | source | states |
|---|---|---|
| Integers.ParseInt | main_streamlit.py:139 | `int(s)` succeeds exactly on an optionally signed, non-empty run of decimal digits; anything else raises |
| Integers.ToInt | main_streamlit.py:110 | `int(v)` on every shape of value: a string converts as `Integers.ParseInt` says, a number is kept, `True`/`False` become 1/0, and None, lists and dicts raise TypeError |
| Integers.ParseShow | main_streamlit.py:139 | parsing the decimal text of any integer gives that integer back |
| Integers.ToIntShow | main_streamlit.py:110 | a count sent as the decimal text of an integer converts to that integer, the same as when it is sent as a JSON number |
| Values.Cut | main_streamlit.py:132-133 | `xs[:n]` keeps exactly the indices Python's slice rule keeps (`i < n` for `n >= 0`, `i < len + n` for negative `n`), and they form a prefix no longer than the list |
| Records.TrimJson | main_streamlit.py:46-50 | the trimmed record has exactly the keys of the input minus the eleven ignored keys, each with its original value |
| Records.TrimJsonIdempotent | main_streamlit.py:48-50 | trimming a trimmed record changes nothing |
| Records.TrimJsonKeepsKey | main_streamlit.py:46 | `fileCreatedAt` is not an ignored key, so trimming keeps the sort key |
| Records.TrimEach | main_streamlit.py:87 | the list comprehension of `trim_json` succeeds iff every item is a dict, and then its i-th record is the i-th item trimmed |
| Records.TrimRecords | main_streamlit.py:87 | `[trim_json(x) for x in v]` for any body; characterised by `Records.KeepAndTrimList` (on lists) and `Records.KeepAndTrimBound` |
| Records.KeepAndTrimList | main_streamlit.py:132-134 | truncating a list to `limit` and trimming gives the trimmed first `Cut(len, limit)` items; it succeeds iff those items are dicts |
| Records.KeepAndTrimBound | main_streamlit.py:132-134 | for any body, a non-negative limit bounds the number of records |
| Records.Truncated | main_streamlit.py:85-86 | `if len(v) > limit: v = v[:limit]`, also at lines 132-133 and 152-153; characterised by `Records.KeepAndTrimList` and `Records.KeepAndTrimBound` |
| Records.KeepAndTrim | main_streamlit.py:85-87 | truncation then trimming, also at lines 132-134 and 152-154; characterised by `Records.KeepAndTrimList` and `Records.KeepAndTrimBound` |
| Records.UnwrapEnvelope | main_streamlit.py:130-131 | a body `{"assets": {"items": xs}}` unwraps to `xs`; a bare list of dicts is kept |
| Records.Unwrap | main_streamlit.py:130-131 | the `assets.items` envelope test; characterised by `Records.UnwrapEnvelope` |
| Records.PersonAssetsFirstFive | main_streamlit.py:84-87 | `search_person_assets` yields `min(5, len)` records, the i-th being `trim_json(rj[i])`; it fails iff one of those is not a dict |
| Records.PersonAssetsAtMostFive | main_streamlit.py:85-87 | never more than five records, whatever the body |
| Records.PersonAssets | main_streamlit.py:84-87 | the tail of `search_person_assets`; characterised by `Records.PersonAssetsFirstFive` and `Records.PersonAssetsAtMostFive` |
| Records.AssetsPayload | main_streamlit.py:111-117 | `order`, `num` and `withPeople` are always sent; each of the two dates and the city is sent iff truthy, with its own value; nothing else is sent |
| Records.AssetsResultTruncates | main_streamlit.py:129-135 | `asset_search` returns the trimmed first `Cut(len, num)` unwrapped items and fails iff one of them is not a dict |
| Records.AssetsResultAtMostNum | main_streamlit.py:132-133 | with `num >= 0` at most `num` records come back |
| Records.AssetsResult | main_streamlit.py:128-135 | the tail of `asset_search`; characterised by `Records.AssetsResultTruncates` and `Records.AssetsResultAtMostNum` |
| Records.CreatedKeys | main_streamlit.py:151 | every item's key is read before the sort compares anything: this succeeds iff every item is a dict with `fileCreatedAt` |
| Records.SortByCreated | main_streamlit.py:151 | the sort; `Records.CreatedKeys` gives when it can read the keys, `Records.SortByCreatedStrKeys` that two or more sorted items have string timestamps, and `CreatedOrder.SortDescCorrect` its order and permutation |
| Records.SortByCreatedStrKeys | main_streamlit.py:151 | a sort of two or more items that goes through compared only dicts with a string `fileCreatedAt` |
| Records.SmartResultAtMostTen | main_streamlit.py:152-153 | `smart_search` post-processing never yields more than ten records |
| Records.SmartResultRecent | main_streamlit.py:148-155 | with `recent == "true"` the records are the trimmed first `min(10, len)` items of a permutation of the unwrapped list, and their timestamps never increase |
| Records.SmartResultKeepsOrder | main_streamlit.py:147-155 | otherwise the backend's order is kept: the trimmed first `min(10, len)` items |
| Records.SmartResultTimestamps | main_streamlit.py:150-155 | with `recent == "true"` and two or more records returned, every record carries a string `fileCreatedAt` |
| Records.SmartResult | main_streamlit.py:147-155 | the tail of `smart_search`; characterised by `Records.SmartResultAtMostTen`, `Records.SmartResultRecent`, `Records.SmartResultTimestamps` and `Records.SmartResultKeepsOrder` |
| Records.PersonName | main_streamlit.py:60-63 | a dict's `name` entry is returned when present; the answer is `"Unknown"` iff the key is missing or holds `"Unknown"`; a list raises iff it contains `"name"` |
| Records.Birthday | main_streamlit.py:159-162 | raises iff the person is not a dict with `birthDate`; a truthy date is returned as it is; the answer is `"unknown"` iff the date is falsy or is `"unknown"` |
| Records.AssetDetails | main_streamlit.py:209 | succeeds iff the body is a dict, and answers it without the ignored keys, every other entry with its value |
| CreatedOrder.StrLeTotal | main_streamlit.py:151 | any two timestamps are comparable under Python's string order |
| CreatedOrder.StrLeTransitive | main_streamlit.py:151 | Python's string order is transitive |
| CreatedOrder.InsertPermutes | main_streamlit.py:151 | one insertion step adds exactly the inserted item |
| CreatedOrder.InsertSorted | main_streamlit.py:151 | one insertion step keeps a newest-first list newest first |
| CreatedOrder.Insert | main_streamlit.py:151 | one step of the sort; characterised by `CreatedOrder.InsertPermutes` and `CreatedOrder.InsertSorted` |
| CreatedOrder.SortDescCorrect | main_streamlit.py:151 | `sort(key=..., reverse=True)` yields a permutation of its input whose keys never increase |
| CreatedOrder.SortDesc | main_streamlit.py:151 | `sort(key=..., reverse=True)`; characterised by `CreatedOrder.SortDescCorrect` |
| Location.AddComponentNames | main_streamlit.py:39-42 | the inner loop adds to `out` exactly the names `ComponentNames` collects, or raises what it raises |
| Location.GetSpecificLocation | main_streamlit.py:37-43 | the nested loops compute exactly `LocationNames(result)`, including which exception escapes |
| Location.ComponentSpec | main_streamlit.py:41-42 | a readable component contributes `name` iff its `long_name` is `name` and one of its types is allow-listed |
| Location.Component | main_streamlit.py:39-42 | what one address component contributes; characterised by `Location.ComponentSpec` |
| Location.TypesMatch | main_streamlit.py:41 | `any([t in result_types for t in ac['types']])`; characterised by `Location.ComponentSpec` |
| Location.Components | main_streamlit.py:39 | `r['address_components']`, iterated; characterised by `Location.NamesOfReadable` |
| Location.ComponentNamesSpec | main_streamlit.py:39-42 | the inner loop succeeds iff every component is readable, and then collects a name iff some component names it |
| Location.ComponentNames | main_streamlit.py:39-42 | the inner loop as a fold; characterised by `Location.ComponentNamesSpec`, and computed by `Location.AddComponentNames` |
| Location.NamesOfReadable | main_streamlit.py:38-42 | the outer loop succeeds iff every geocode result and each of its components is readable |
| Location.NamesOfMembers | main_streamlit.py:38-42 | when it succeeds, a name is collected iff some result has a component naming it |
| Location.NamesOf | main_streamlit.py:38-42 | the outer loop as a fold; characterised by `Location.NamesOfReadable` and `Location.NamesOfMembers` |
| Location.LocationNamesSpec | main_streamlit.py:31-44 | `get_specific_location` succeeds iff everything is readable; a name is in its answer iff some component has that `long_name` and a type from `result_types`; being a set, the answer holds each name once |
| Location.LocationNames | main_streamlit.py:36-43 | the set `out` the nested loops build; characterised by `Location.LocationNamesSpec` and computed by `Location.GetSpecificLocation` |
| Tools.ThumbsOf | main_streamlit.py:193-195 | the thumbnail loop succeeds iff every asset is a dict with `id`, and then collects one thumbnail per asset in order, that of its `id` |
| Tools.ShowImage | main_streamlit.py:175-179 | succeeds iff the id is a string; answers `"success"`; the buffer grows by exactly one thumbnail, that of `id`, and keeps its old contents as a prefix |
| Tools.RandomAssetThumbsMatch | main_streamlit.py:192-199 | after `get_random_asset` the buffer holds one thumbnail per returned record, in order, each that of the record's `id` |
| Tools.RandomAssetSucceeds | main_streamlit.py:181-196 | `get_random_asset` succeeds iff the count converts, the body iterates, and every asset is a dict with `id` |
| Tools.SmartSearchAtMostTen | main_streamlit.py:137-155 | `smart_search` returns at most ten records whatever `num` is |
| Tools.SmartSearchIgnoresNum | main_streamlit.py:139 | `num` must parse but has no other effect: any two parsable counts give the same answer |
| Tools.SmartSearchRecentNewestFirst | main_streamlit.py:150-155 | with `recent="true"` the returned records come newest first, and when two or more come back each has a string `fileCreatedAt` |
| Tools.AssetSearchAtMostNum | main_streamlit.py:110-135 | with a count that converts to `n >= 0`, `asset_search` returns at most `n` records |
| Tools.SearchPerson | main_streamlit.py:65-74 | `search_person`; characterised by `Tools.SearchPersonFirst` |
| Tools.SearchPersonFirst | main_streamlit.py:65-74 | `search_person` answers the first element of the name search's list, raises on an empty list, and raises TypeError when the name is not a string |
| Tools.GetBirthday | main_streamlit.py:157-162 | `get_birthday`: `Records.Birthday`'s contract applied to the person `Tools.SearchPerson` answers |
| Tools.GetNumAssets | main_streamlit.py:89-101 | `get_num_assets`; characterised by `Tools.GetNumAssetsAnswer` |
| Tools.GetNumAssetsAnswer | main_streamlit.py:89-101 | `get_num_assets` succeeds iff the name search's first person is a dict with `id` whose statistics are a dict with `assets`, and then answers that `assets` entry |
| Tools.GetPersonName | main_streamlit.py:52-63 | `get_person_name`: `Records.PersonName`'s contract applied to the body for that uuid; a uuid that is not a string raises |
| Tools.GetAssetDetails | main_streamlit.py:201-209 | `get_asset_details`; characterised by `Tools.GetAssetDetailsAnswer` |
| Tools.GetAssetDetailsAnswer | main_streamlit.py:201-209 | `get_asset_details` succeeds iff the asset's body is a dict, and answers that dict trimmed |
| Tools.GetSpecificLocation | main_streamlit.py:33-44 | `get_specific_location`: string arguments, then `Location.LocationNamesSpec`'s contract applied to the geocode answer |
| Tools.SearchPersonAssets | main_streamlit.py:76-87 | `search_person_assets`: `Records.PersonAssetsFirstFive`'s contract applied to the assets of the first person's `id` |
| Tools.SmartSearch | main_streamlit.py:137-155 | `smart_search`; characterised by `Tools.SmartSearchSends`, `Tools.SmartSearchAtMostTen`, `Tools.SmartSearchIgnoresNum` and `Tools.SmartSearchRecentNewestFirst` |
| Tools.SmartSearchSends | main_streamlit.py:139-147 | the only request `smart_search` sends is the search with the caller's `query` and `recent` and `smart="true"` |
| Tools.AssetSearch | main_streamlit.py:103-135 | `asset_search`; its request is `Records.AssetsPayload`, its answer characterised by `Records.AssetsResultTruncates` and `Tools.AssetSearchAtMostNum` |
| Tools.GetRandomAsset | main_streamlit.py:181-199 | `get_random_asset`; characterised by `Tools.RandomAssetSucceeds` and `Tools.RandomAssetThumbsMatch` |
| Dispatch.Lookup | main_streamlit.py:213-214 | a name found in the table is that tool's `__name__`, and every tool is found under its own name |
| Dispatch.NameOf | main_streamlit.py:213-214 | `f.__name__` for each entry of the list `Funcs` (`funcs`); characterised by `Dispatch.Lookup` and `Dispatch.FuncsListEveryTool` |
| Dispatch.FuncsListEveryTool | main_streamlit.py:213-214 | `funcs` lists every tool once, under pairwise distinct names, so the dict loses none |
| Dispatch.Signature | main_streamlit.py:103-137 | the ten Python signatures with their defaults (`"desc"`, `None`, `"7"`, `"false"`); their effect is stated by `Dispatch.AssetSearchDefaultsToSeven` and `Dispatch.SmartSearchDefaultKeepsOrder` |
| Dispatch.BindEach | main_streamlit.py:258 | binding succeeds iff every required parameter is given, and binds each parameter to its argument or else its default |
| Dispatch.Bind | main_streamlit.py:258 | `f(**args)` also raises on an unexpected keyword: it succeeds iff the keywords are parameter names and every required one is given |
| Dispatch.Invoke | main_streamlit.py:257-258 | a tool other than `show_image` and `get_random_asset` leaves the buffer as it was |
| Dispatch.InvokeIgnoresThumbs | main_streamlit.py:257-258 | whether a tool succeeds, its answer and its exception do not depend on the buffer it finds |
| Dispatch.AssetSearchDefaultsToSeven | main_streamlit.py:103-133 | `asset_search` called without `num` returns at most seven records |
| Dispatch.SmartSearchDefaultKeepsOrder | main_streamlit.py:137-155 | `smart_search` called without `recent` sends `recent="false"` and keeps the backend's order: the trimmed first `min(10, len)` unwrapped records |
| Dispatch.AvailableBlind | main_streamlit.py:214 | the LifeLens table is blind to the buffer |
| Dispatch.AvailableLeavesBuffer | main_streamlit.py:214 | only the entries for `show_image` and `get_random_asset` can change the buffer |
| Dispatch.Available | main_streamlit.py:213-214 | the LifeLens table, one backend for the whole batch; characterised by `Dispatch.Lookup`, `Dispatch.AvailableBlind` and `Dispatch.AvailableLeavesBuffer` |
| Dispatch.RunBatch | main_streamlit.py:252-259 | while no exception has been raised, there are as many outputs as call ids |
| Dispatch.FunctionCalls | main_streamlit.py:254-255 | the function-type calls, at most one per call, all of type `function` |
| Dispatch.Submission | main_streamlit.py:263 | one tool output per call id, the i-th pairing the i-th id with the i-th output |
| Dispatch.CallStep | main_streamlit.py:254-259 | one iteration of the loop; characterised by `Dispatch.CallStepSpec` and `Dispatch.OtherKindsSkipped` |
| Dispatch.CallStepSpec | main_streamlit.py:255-259 | one function call goes through iff its tool is found and does not raise, and then adds its id and its answer |
| Dispatch.BatchSucceedsIff | main_streamlit.py:252-259 | the loop gets through iff every function call in it succeeds |
| Dispatch.BatchPairsOutputs | main_streamlit.py:252-259 | after the loop there is one id and one output per function call, in order, each output being that call's answer |
| Dispatch.SubmissionMatchesCalls | main_streamlit.py:252-263 | the submitted outputs are as many as the function calls, the i-th carrying the i-th function call's id and answer |
| Dispatch.FailurePersists | main_streamlit.py:254-259 | after an exception, later calls change nothing |
| Dispatch.UnknownNameRaises | main_streamlit.py:257 | a function call whose name is not in `available_funcs` raises KeyError for that name |
| Dispatch.OtherKindsSkipped | main_streamlit.py:255 | a call that is not of function type changes neither the loop state nor the list of function calls |
| Dispatch.BatchKeepsThumbs | main_streamlit.py:252-259 | a batch whose tools all leave the buffer alone leaves it alone |
| Dispatch.BatchWithoutImagesKeepsThumbs | main_streamlit.py:252-259 | with the LifeLens table, a batch without `show_image` and `get_random_asset` calls leaves the buffer as it was |
| App.EarlyPhasesKeepRetry | main_streamlit.py:241-302 | the resume and prompt phases never change `retry_error` |
| App.HandleStatusRetry | main_streamlit.py:305-330 | a `"failed"` status adds exactly one to `retry_error`; no other status changes it; the buffer is untouched |
| App.NextRetry | main_streamlit.py:241-330 | over one re-run `retry_error` grows by one iff the status examined is `"failed"` |
| App.RerunOnlyBelowLimit | main_streamlit.py:300-330 | a re-run is scheduled only while fewer than three failures have been counted, before and after the step |
| App.NoticeExactlyAtLimit | main_streamlit.py:313-321 | the error notice appears iff the examined status is `"failed"` and the count after it is three or more, so it also shows on every later re-run that still sees the failed run; it is the exact FAILED text |
| App.ExhaustedStaysExhausted | main_streamlit.py:300-330 | once three failures are counted no re-run is ever scheduled and the count stays at least three |
| App.ThumbsOnlyThroughTools | main_streamlit.py:241-330 | the buffer changes only through the tool calls of a run that requires action |
| App.ReplayCountsFailures | main_streamlit.py:226-227 | over any sequence of re-runs, `retry_error` is the initial count plus the failed statuses seen; it is never reset |
| App.AtMostTwoRetries | main_streamlit.py:313-321 | whatever the service answers, a session re-runs after a failure at most twice |
| App.FailedRunKept | main_streamlit.py:313-321 | without a prompt, a failed run stays the session's run: one re-run only adds one to the count and ends with a re-run or the notice |
| App.FailedRunRedisplayed | main_streamlit.py:313-321 | a failed run is re-displayed, not retried: from a zero count and without prompts, three re-runs end with re-run, re-run and the notice, whatever the service answers |
| App.Resume | main_streamlit.py:241-265 | the resume phase; stated by `App.EarlyPhasesKeepRetry` and `App.ThumbsOnlyThroughTools`, and performed by `App.Session.ResumeRun` |
| App.Prompted | main_streamlit.py:280-302 | the prompt phase; stated by `App.EarlyPhasesKeepRetry`, and performed by `App.Session.StartRun` |
| App.HandleStatus | main_streamlit.py:305-330 | the status phase; stated by `App.HandleStatusRetry`, and performed by `App.Session.HandleRunStatus` |
| App.Next | main_streamlit.py:241-330 | one re-run; stated by `App.NextRetry`, `App.RerunOnlyBelowLimit`, `App.NoticeExactlyAtLimit`, `App.ExhaustedStaysExhausted` and `App.FailedRunKept`, and performed by `App.Session.Step` |
| App.Session.constructor | main_streamlit.py:217-230 | a new session is uninitialized, with run `{"status": None}`, `retry_error == 0` and an empty buffer |
| App.Session.ShowImage | main_streamlit.py:175-179 | the method appends to the buffer in place exactly as `Tools.ShowImage` describes |
| App.Session.GetRandomAsset | main_streamlit.py:181-199 | the loop collects the thumbnails and the method replaces the buffer exactly as `Tools.GetRandomAsset` describes; on an exception the buffer is kept |
| App.Session.Invoke | main_streamlit.py:257-258 | calling a tool updates the buffer and answers as `Dispatch.Invoke` describes |
| App.Session.CallFunction | main_streamlit.py:257-258 | looking a name up and calling it behaves as the LifeLens table says, including the KeyError |
| App.Session.RunToolCalls | main_streamlit.py:252-259 | the loop over the tool calls computes `RunBatch` and leaves the buffer as the batch does |
| App.Session.ResumeRun | main_streamlit.py:241-265 | the resume phase updates the session state as `Resume` describes |
| App.Session.StartRun | main_streamlit.py:280-302 | the prompt phase updates the session state as `Prompted` describes |
| App.Session.HandleRunStatus | main_streamlit.py:305-330 | the status phase updates the session state and ends as `HandleStatus` describes |
| App.Session.Step | main_streamlit.py:241-330 | one execution of the script updates the session state and ends exactly as `Next` describes |

## Left out

- HTTP, the OpenAI client and Google Maps are not computed; their answers are inputs. Non-JSON bodies and HTTP errors are not modelled: every request is a total function to a JSON value.
- The tools' `print` log output is left out. Only the TypeError that its string concatenation can raise is kept.
- Streamlit rendering is left out: the chat messages, the sidebar images, the `completed` branch that lists and displays messages (lines 268-277), and `st.set_page_config`. Also left out: `time.sleep`, loading the environment, and the session id from `uuid4`.
- `json.loads` of the call arguments and `json.dumps` of the outputs are left out. Arguments arrive as a record and outputs are submitted as values.
- The `file_id` of lines 291-292 is not modelled: nothing in the script ever sets it.
- The branch `type(number) != int` of lines 182-184 cannot be taken, because `int()` always returns an int, so it is not modelled.
- `float(lat)` and `float(lng)` are folded into the reverse-geocode oracle, which may raise instead of answering. Floating point is not modelled.
- Integers.ParseInt: it does not accept the surrounding whitespace, the digit-group underscores or the non-ASCII Unicode decimal digits that Python's `int()` also accepts.
- JSON numbers are integers here: a JSON float has no `Value`, so `int(2.0)` on a tool argument is not represented.
- Dispatch.Available: one `Backend` answers every request of a re-run, so two identical requests in one batch (two `get_random_asset` calls, say) get the same answer. The server's `/api/asset/random` need not answer the same way twice.
- The `list(out)` at line 43 has an unspecified order, so the model returns the set `out` itself.
- Location.Component: a component whose `long_name` is not a string raises in the model. Python would add any hashable value to the set.
- Records.SortByCreated: with two or more items, a timestamp that is not a string raises TypeError. Any timestamps Python can compare with each other (numbers and booleans among themselves, lists among themselves) sort in Python but raise TypeError here.
- Records.SortByCreatedStrKeys: true only because the model restricts sorted timestamps to strings (see the Records.SortByCreated line).
- Records.SmartResultTimestamps: the string-timestamp guarantee rests on the same restriction.
- Tools.SmartSearchRecentNewestFirst: its string-timestamp clause rests on the same restriction; the newest-first clause does not.
- CreatedOrder.SortDesc: the list is sorted in place in the source but as a value here. The order among equal timestamps is that of a stable insertion sort, and stability itself is not proved.
- CreatedOrder.SortDescCorrect: states a permutation with non-increasing keys, not Python's stability among equal timestamps, which decides which tied records survive the cut to ten.
- Error kinds are indicative where Python's exception class depends on details the model does not track. One such case is iterating a non-empty string where each element must be a dict.
- `get_birthday` raises KeyError when the person has no `birthDate` key, as the code does. It does not answer `"unknown"` in that case.
- The sentinels `"Unknown"` and `"unknown"` cannot be told apart from a person actually named so. The contracts of `Records.PersonName` and `Records.Birthday` state this.
- The status strings are compared exactly as written, including `"running"`, a status the OpenAI API does not use.
- `retry_error` is never reset, as in the source.
