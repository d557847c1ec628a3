# MetricsService — a Dafny model of its JSON values and chart collection

`MetricsService.java` is a small telemetry client. Charts are registered with the service. On
each cycle it collects every chart's data into a JSON payload and posts it to a statistics
server. This project models the part of that class that decides what goes into the payload:

- **Escaping** (`escape.dfy`, module `Escaping`): the `escape` helper. It gives the two-character
  escapes of section 7 of RFC 8259 for the quotation mark, the backslash, backspace, form feed,
  newline, carriage return and tab. Every other code unit up to 0x1F becomes `\u00xx` in
  lower-case hexadecimal, and every other character is copied. `EscapeString` is the function
  defining the result and `Escape` is the loop over the input.
- **JSON values** (`json.dfy`, module `Json`): the three variants object, array and primitive as
  one datatype. Host objects handed to `JsonValue.of` are a datatype `HostValue`. The module
  holds `of` with `parseMap` and `parseCollection`, the insertion-ordered field map of
  `JsonObject` (`Put` has `LinkedHashMap.put` semantics) and the `toJson` serialisers of all
  three variants.
- **Reading back** (`json_reader.dfy`, module `JsonReader`): a small reader for the compact
  text the serialisers write. It is an independent reference, used to state that `toJson`
  produces a document that reads back as exactly the value it was written from.
- **Builders** (`json_builders.dfy`, module `JsonBuilders`): `JsonObject` and `JsonArray` as
  classes whose `add` updates a field in place and returns the object itself. It also holds
  the `JsonArray.collector()` accumulator and combiner.
- **Charts** (`charts.dfy`, module `Charts`):
  - `AbstractChart.collect`, with its three outcomes: a throw, no data, or an envelope.
  - The `collectCharts` pipeline over the charts in registry order.
  - `SimplePieChart.collectData` and `PlatformChart.collectData`.
- **The service** (`metrics_service.dfy`, module `Metrics`): the class with its chart registry.
  It covers the constructor, which registers the two core charts when metrics are enabled,
  `registerChart`, and `collectCharts` over the registered chart objects.

What a chart's `collectData` does is a parameter of the model (`DataOutcome`: it throws, it
returns null, or it returns a value). So is the server type a platform chart reports. The
parameter is not tied to the charts' kinds in general. `KindsRespected` ties the platform
chart's outcome to `PlatformData`, and `Metrics.PlatformChartSent` is stated under it. The
outcomes of pie charts and the service-version chart stay free. The logger is modelled as the
sequence of warning texts that a collection produces.

Two facts about the registry follow the code:
- `registerChart` adds the chart whether or not metrics are enabled. A disabled service never
  collects, so those charts are never sent.
- The registry is a set of chart objects compared by identity. The same object registered
  twice is stored once; two distinct charts with the same id are both kept.

## Model

| member | source | states |
|---|---|---|
| `Escaping.EscapeCharSpec` | MetricsService.java:377-387 | A character is copied unchanged exactly when it is neither a control character, `"` nor `\`. The seven characters with a short escape get a backslash and their letter. Every other control character gets `\u` and four lower-case hex digits whose value is its code. No escape contains a raw control character. |
| `Escaping.EscapeChar` | MetricsService.java:376-387 | Definition of what `escape` appends for one code unit; its properties are stated by `Escaping.EscapeCharSpec` and `JsonReader.CharRoundTrip`. |
| `Escaping.EscapeString` | MetricsService.java:373-391 | Definition of the whole result of `escape`; `Escaping.Escape` is proved equal to it, and `Escaping.EscapeAppend`, `Escaping.EscapeNoControl`, `Escaping.EscapeIdentity` and `JsonReader.StringRoundTrip` state its properties. |
| `Escaping.HexDigit` | MetricsService.java:385 | The digit `%04x` prints for a value below 16 is a lower-case hex digit with that value. |
| `Escaping.EscapeAppend` | MetricsService.java:373-391 | Escaping a concatenation is the concatenation of the escapes, since each code unit is escaped on its own. |
| `Escaping.EscapeNoControl` | MetricsService.java:373-391 | The escaped text of any string holds no raw control character. |
| `Escaping.EscapeIdentity` | MetricsService.java:386 | A string without quotation marks, backslashes and control characters is left as it is. |
| `Escaping.Escape` | MetricsService.java:373-391 | The character-by-character buffer loop returns exactly the escape of the whole input. |
| `Json.Of` | MetricsService.java:218-224 | Definition of `JsonValue.of`; its properties are stated by `Json.OfJson`, `Json.OfSucceeds`, `Json.OfCollection` and `Json.OfMap`. |
| `Json.ParseMap` | MetricsService.java:226-230 | Definition of `parseMap`; its properties are stated by `Json.ParseMapSucceeds`, `Json.ParseMapStep` and `Json.ParseMapShape`. |
| `Json.ParseCollection` | MetricsService.java:232-236 | Definition of `parseCollection`; its properties are stated by `Json.ParseCollectionSucceeds` and `Json.ParseCollectionShape`. |
| `Json.AddField` | MetricsService.java:242-245 | Definition of `JsonObject.add` on the fields (`Put` of the converted value); `JsonBuilders.JsonObject.Add` and `Charts.AddTwoFields` state its results. |
| `Json.AppendItem` | MetricsService.java:258-261 | Definition of `JsonArray.add` on the items; `JsonBuilders.JsonArray.Add` and `JsonBuilders.AccumulateKeeps` state its results. |
| `Json.PrimJson` | MetricsService.java:281-288 | Definition of `JsonPrimitive.toJson`; `JsonReader.PrimRoundTrip` states that each rendering reads back. |
| `Json.ToJson` | MetricsService.java:248-252 | Definition of `toJson` for all three variants (objects 248-252, arrays 272-276, primitives 281-288); `JsonReader.ToJsonReadsBack`, `JsonReader.ToJsonInjective` and `Json.ToJsonNoControl` state its properties. |
| `Json.Members` | MetricsService.java:249-250 | Definition of the parts `toJson` joins, one per field (and one per item, lines 273-274); `Json.MembersNoControl` and `JsonReader.ValueRoundTrip` state their properties. |
| `Json.FieldJson` | MetricsService.java:250 | Definition of one field's text, the escaped key in quotes, a colon and the value's text; read back by `JsonReader.ValueRoundTrip`. |
| `Json.Join` | MetricsService.java:251 | Definition of comma joining; `Json.JoinNoControl` and `JsonReader.ValueRoundTrip` state its properties. |
| `Json.IndexOf` | MetricsService.java:240 | The position returned holds the key, and no earlier entry does. |
| `Json.Put` | MetricsService.java:242-245 | Putting a present key replaces the value at that key's position; putting a new key appends the entry. |
| `Json.PutKeys` | MetricsService.java:242-245 | After a put the key order is unchanged if the key was present; otherwise the new key comes last. |
| `Json.PutLookup` | MetricsService.java:242-245 | After a put the key gives the new value, and every other key gives what it gave before. |
| `Json.PutUnique` | MetricsService.java:240-245 | A put keeps the keys of an object unique. |
| `Json.PutTwice` | MetricsService.java:242-245 | Adding a key twice is the same as adding it once with the second value: the last write wins, and the first insertion decides the position. |
| `Json.OfJson` | MetricsService.java:220 | An existing JSON value passes through `of` unchanged. |
| `Json.OfSucceeds` | MetricsService.java:218-236 | `of` throws exactly when some map nested anywhere in its argument has a null key. |
| `Json.ParseMapSucceeds` | MetricsService.java:226-230 | `parseMap` over the remaining entries throws exactly when one of their keys is null or one of their values contains such a map. |
| `Json.ParseCollectionSucceeds` | MetricsService.java:232-236 | `parseCollection` over the remaining elements throws exactly when one of them contains a map with a null key. |
| `Json.OfCollection` | MetricsService.java:222 | A collection becomes an array of the same length whose i-th item is `of` of the i-th element. |
| `Json.ParseCollectionShape` | MetricsService.java:232-236 | Each remaining element is converted and appended in order after the items already gathered. |
| `Json.OfMap` | MetricsService.java:221 | A map with distinct keys becomes an object with one field per entry, in the map's order, keyed by each key's text and holding `of` of its value. |
| `Json.ParseMapStep` | MetricsService.java:228 | One `add` of a map entry whose key text is not among the fields gathered so far appends the entry's field; a successful step also shows the key was not null and its value converted. |
| `Json.ParseMapShape` | MetricsService.java:226-230 | For entries whose keys have pairwise distinct texts, the remaining entries are added in order after the fields already gathered, each under its key's text. |
| `Json.ToJsonNoControl` | MetricsService.java:248-252 | No serialised value, object, array or primitive holds a raw control character. |
| `Json.MembersNoControl` | MetricsService.java:249-250 | No part the serialisers join contains a raw control character. |
| `Json.JoinNoControl` | MetricsService.java:251 | Joining parts with commas introduces no control character. |
| `JsonReader.StringRoundTrip` | MetricsService.java:286 | Reading a quoted escaped string gives back the original string and the text after the closing quote. |
| `JsonReader.CharRoundTrip` | MetricsService.java:377-387 | The escape of any single character reads back as that character. |
| `JsonReader.NumberRoundTrip` | MetricsService.java:285 | The decimal text of an integer reads back as that integer. |
| `JsonReader.PrimRoundTrip` | MetricsService.java:281-288 | `null`, a bare boolean, a bare number and a quoted escaped string each read back as the primitive they came from. |
| `JsonReader.ValueRoundTrip` | MetricsService.java:248-288 | The text of any value, followed by a delimiter, reads back as that value with the delimiter left over. |
| `JsonReader.ToJsonReadsBack` | MetricsService.java:248-288 | `toJson` of any value is a complete document that reads back as exactly that value. |
| `JsonReader.ToJsonInjective` | MetricsService.java:248-288 | Two different values are never written as the same text. |
| `JsonBuilders.JsonObject.constructor` | MetricsService.java:240 | A new object has no fields. |
| `JsonBuilders.JsonObject.Add` | MetricsService.java:242-245 | On success the object itself is returned, with the converted value put under the key. A re-added key keeps its position and a new key is appended. The add throws exactly when `of` does, and then the fields are unchanged. Keys stay unique. |
| `JsonBuilders.JsonObject.ToJson` | MetricsService.java:248-252 | The text reads back as the object. It is `{}` for an empty object and is delimited by braces. |
| `JsonBuilders.JsonArray.constructor` | MetricsService.java:256 | A new array has no items. |
| `JsonBuilders.JsonArray.Add` | MetricsService.java:258-261 | On success the array itself is returned, with the converted value appended. The add throws exactly when `of` does, and then the items are unchanged. |
| `JsonBuilders.JsonArray.AddAll` | MetricsService.java:267 | The combiner appends the right array's items to the left array and returns the left array. |
| `JsonBuilders.JsonArray.ToJson` | MetricsService.java:272-276 | The text reads back as the array. It is `[]` for an empty array and is delimited by square brackets. |
| `JsonBuilders.Accumulate` | MetricsService.java:264-266 | Definition of the collector's supplier and accumulator over a stream; `JsonBuilders.AccumulateKeeps` and `JsonBuilders.CollectorSplit` state its properties. |
| `JsonBuilders.AccumulateKeeps` | MetricsService.java:264-266 | The collector's accumulator never throws on JSON values and keeps every one of them, in order. |
| `JsonBuilders.CollectorSplit` | MetricsService.java:263-268 | Collecting a stream in two parts and combining them gives the same array as collecting it in one piece. |
| `JsonBuilders.Collect` | MetricsService.java:263-268 | Collecting a sequence of values with the accumulator yields a fresh array holding exactly those values, in order. |
| `Charts.Collect` | MetricsService.java:303-313 | `collect` returns an envelope exactly when the data collection returns a value, and the envelope is `{chartId, data}`. It logs a warning exactly when the collection throws, and the warning names the chart. Null data gives neither. |
| `Charts.AddTwoFields` | MetricsService.java:307 | Two chained `add` calls with different keys on a fresh object give exactly those two fields, in order. |
| `Charts.EnvelopeShape` | MetricsService.java:307 | An envelope has exactly the keys `chartId` then `data`, they are unique, and they hold the chart id and the data. |
| `Charts.CollectAll` | MetricsService.java:95-100 | Definition of `collectCharts` over the charts in iteration order: each is collected, null results dropped, the rest gathered; its properties are stated by `Charts.CollectAllAppend`, `Charts.CollectAllCounts`, `Charts.CollectAllMembers`, `Charts.ThrowingChartSkipped`, `Charts.AbsentChartSkipped`, `Charts.AllCollected` and `Charts.OneOfManyThrows`. |
| `Charts.CollectOne` | MetricsService.java:95-100 | A single chart contributes exactly its own `collect` result. |
| `Charts.CollectAllAppend` | MetricsService.java:95-100 | Collecting two runs of charts one after the other concatenates their envelopes and their warnings. |
| `Charts.ThrowingChartSkipped` | MetricsService.java:95-100 | A chart whose collection throws drops out of the array, leaving the other envelopes in order, and adds its warning in its place among the warnings. |
| `Charts.AbsentChartSkipped` | MetricsService.java:95-100 | A chart with null data changes nothing at all. |
| `Charts.AllCollected` | MetricsService.java:95-100 | When every chart has data, the array holds one envelope per chart in registry order, and nothing is logged. |
| `Charts.OneOfManyThrows` | MetricsService.java:95-100 | Of N charts with data plus one that throws, N envelopes are sent and the one warning names the failing chart. |
| `Charts.CollectAllCounts` | MetricsService.java:95-100 | There is one envelope per chart with data and one warning per chart that threw. |
| `Charts.CollectAllMembers` | MetricsService.java:95-100 | A value is in the array exactly when it is the envelope of some chart with data. |
| `Charts.SimplePieData` | MetricsService.java:328-330 | A pie chart's data is never absent. It throws exactly when its supplier throws, a null string becomes the null primitive, and any other string becomes a string primitive. |
| `Charts.SimplePieSent` | MetricsService.java:303-330 | A pie chart whose supplier returns is always sent, with a null or string primitive as its data. |
| `Charts.PlatformData` | MetricsService.java:342-346 | The platform chart's data is an object with exactly the keys `serviceId` then `serverType`, holding the id as a number and the server type as a string. |
| `Metrics.Chart.constructor` | MetricsService.java:298-300 | A chart keeps the id and the kind it was built with. |
| `Metrics.MetricsService.constructor` | MetricsService.java:36-47 | An enabled service starts with a fresh `platform` chart carrying the service id, then a fresh `serviceVersion` chart. A disabled service starts with no charts. |
| `Metrics.MetricsService.RegisterCoreCharts` | MetricsService.java:57-60 | Appends a fresh platform chart and a fresh service-version chart, in that order, and keeps the existing charts. |
| `Metrics.MetricsService.RegisterChart` | MetricsService.java:49-51 | A null chart is refused with an exception and changes nothing. A chart already registered changes nothing. Any other chart is appended. Each chart object is held once. |
| `Metrics.MetricsService.CollectChartArray` | MetricsService.java:95-100 | `collectCharts` as written: the non-null results go through the array collector, and the fresh array holds exactly the envelopes `CollectCharts` describes, in order. |
| `Metrics.MetricsService.CollectCharts` | MetricsService.java:95-100 | There are never more envelopes than registered charts: exactly one per registered chart with data, and one warning per chart whose collection threw. A value is in the array exactly when it is the envelope of some registered chart with data. |
| `Metrics.PlatformChartSent` | MetricsService.java:342-346 | When the outcomes agree with the kinds, a registered platform chart's data is a value: it never throws and is never null. Its envelope is therefore always sent. |
| `Metrics.OneChartThrows` | MetricsService.java:95-100 | With N registered charts of which one throws and the rest have data, N−1 envelopes are sent and one warning naming that chart is logged. |

## Left out

- Configuration and the server UUID (`MetricsConfig`, lines 114-151): file I/O. The `enabled` flag is a constructor parameter.
- `HttpClientService` and gzip compression (lines 180-213): network I/O and compression.
- `MetricsScheduler` (lines 153-178), including its delay window 180000 ≤ d < 360000: timing and randomness. The constructor does not model scheduling.
- `collectAndSend`, `collectPlatformData` and `collectServiceData` (lines 62-93): they read the server and the JVM through calls outside this file. `shutdown` only stops the scheduler.
- `detectServerType` (lines 348-355): class-path lookups. The server type is a parameter of `Charts.PlatformData`.
- `ServiceVersionChart` (line 369): it reads the plugin's version through the host API. Only its registration is modelled.
- The concurrency of the `ConcurrentHashMap` key set that holds the charts (line 35). Its iteration order is unspecified, and the model fixes it as registration order.
- Floating-point numbers and other `Number` types: only integral numbers are modelled. Their `toString` is the decimal text.
- Metrics.MetricsService.CollectCharts: states which envelopes the array holds and their exact count, and the number of warnings. The order and the warnings are stated for the underlying `Charts.CollectAll` by `Charts.CollectAllAppend`, `Charts.AllCollected` and `Metrics.OneChartThrows`.
- Json.OfMap: stated for maps whose keys are distinct. Keys that differ but have the same text collapse into one field, by `Json.Put` and `Json.PutTwice`.
- Json.ParseMapShape: stated, like `Json.OfMap`, only for entries whose keys have pairwise distinct texts. Entries whose keys share a text are described by `Json.Put` and `Json.PutTwice`, not by this lemma.
- JsonBuilders.JsonObject.Add: a key is a `string`, so the null key that `LinkedHashMap.put` accepts at line 243 is not modelled, nor the `NullPointerException` that `toJson` later throws for it when it escapes the key (lines 250 and 374).
- Metrics.Chart.constructor: a chart id is a `string`, so the `NullPointerException` that `Objects.requireNonNull(chartId)` throws for a null id (line 299) is not modelled.
- Aliasing: `of` returns a mutable `JsonValue` argument itself, and `JsonObject`/`JsonArray` fields hold references. The model keeps JSON values as immutable values, so later changes through an alias are not captured.
- The logger is the sequence of warning texts; the level and the exception object are not modelled. A chart whose collection throws is a `collect` whose try block throws an `Exception` (line 309). An `Error` is not caught there and would end the whole collection; it is not modelled.
- Java strings are UTF-16 code units and Dafny strings are Unicode characters. `escape` only changes code units up to 0x1F, `"` and `\`, so the two agree on every string Dafny can represent. Lone surrogates are not modelled.
- The null key of a `parseMap` entry: `k.toString()` throws a `NullPointerException`, modelled as `Err`.
- The reader in `JsonReader` covers only the compact text the serialisers write (no whitespace, no fractions or exponents; an integer with a leading zero is refused, by `JsonReader.LeadingZeroRefused`). It is a reference for the round trip, not a model of any source code.
