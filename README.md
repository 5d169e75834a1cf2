# full-circle chart service, modelled in Dafny

full-circle turns a chart definition into a PNG image. A query is JSON that has
been base64-encoded. It carries a config (light or dark mode, width, height)
and a chart (bar, area, line or pie, plus the data rows). The React client
offers three things:

- a configurator that builds such queries (the home page and the pie-slice
  editor);
- two pages that decode a query and draw it (the chart page and the pie page);
- the form fields those pages use.

The Express server answers `GET /api/v1/chart?query=…`. It opens the client's
`/chart` page in a headless browser, waits for a `.page > #chart` element,
screenshots it into `chart.png` and sends the file. A small insertion-ordered
cache class exists beside it.

This project models that logic in Dafny and proves what it promises. The
browser, React, puppeteer, `Math.random`, base64 and JSON are kept outside:

- randomness becomes chosen indices (`ColorUtils.ColorDraw`);
- decoding and encoding become function parameters that may fail;
- the awaited browser steps of the request handler become a recorded trace of
  effects, with the failing step as a parameter.

One module stands for each source file or shared concept:

| module | models |
|---|---|
| `Wrappers`, `Sequences` | `Option`/`Result`, and removing an element from a sequence |
| `JsText` | number-to-text in template literals, and `String.prototype.trim` with the ECMAScript white-space set |
| `InsertionOrder` | a JS `Map` or plain object: keys in insertion order, where re-setting a key keeps its position |
| `Json` | JSON values, and data rows as ordered `(key, value)` lists |
| `ServerCache` | `Cache<T>` (class with in-place `set`, plus the pure functions that specify it) |
| `BaseUtils`, `ColorUtils` | `formatError` and the colour helpers. `ChartPage.tsx` and `PiePage.tsx` carry identical private copies, which are modelled once here |
| `Charts`, `ChartPage`, `PageQuery` | `QueryChart`, the older `Chart` component, and both pages' decode-or-error effect |
| `PieTypes`, `PiePage`, `ConfigPage` | pie slices, the pie renderer's arithmetic, and the slice editor |
| `HomePage`, `ClientUrls`, `Inputs` | the chart configurator state, the URLs it builds, and the form fields (classes) |
| `Server` | configuration, the CORS check, the server's `formatError`, and `getChart` |

Some behaviour of the code is worth stating on its own:

- The `/chart` route renders `pages/ChartPage.tsx`, whose chart div has no
  `id`; only `QueryChart`, which no route renders, has `id="chart"`. So no page
  the server opens ever has a `.page > #chart` element
  (`ChartPage.PageChildIds`). `waitForSelector` times out, no screenshot is
  taken, and every request with a query answers 400 with the browser left
  open (`Server.RequestAgainstChartPage`).
- The request handler never creates a `Cache`. Were every step to succeed,
  each request would launch a browser and write the one file `chart.png`
  (`Server.EveryRequestRenders`).
- The page and the browser are closed only on success, so a failure after the
  launch leaves the browser open (`Server.BrowserLeftOpenOnFailure`).
- The client requests `/api/v1/circle`, but the server serves `/api/v1/chart`
  (`Server.ClientRouteMissesServer`).
- The pages' decode effect sets one piece of state per run. When the query
  changes, an earlier error stays and hides a chart that now decodes
  (`ChartPage.StaleErrorHidesChart`). On the pie page, an earlier pie stays
  drawn beside a new error (`PiePage.StalePieBesideError`).

## Model

| member | source | states |
|---|---|---|
| `InsertionOrder.OrderedMap.Get` | packages/server/src/utils/cache.ts:14-16 | `Map.get`: a value exactly for a present key, namely the stored one |
| `InsertionOrder.OrderedMap.Set` | packages/server/src/utils/cache.ts:23 | `Map.set`: the key maps to the value and every other key is unchanged. A present key keeps its position; a new key goes last |
| `InsertionOrder.OrderedMap.Delete` | packages/server/src/utils/cache.ts:21 | `Map.delete`: the key is gone, the other keys keep their values and relative order, and a present key shortens the order by one |
| `InsertionOrder.OrderedMap.Values` | packages/client/src/components/PiePage.tsx:40 | `Object.values`: one value per key, in key order |
| `InsertionOrder.Empty` | packages/server/src/utils/cache.ts:7 | a new map is well formed and empty |
| `InsertionOrder.ValuesAfterSetNew` | packages/client/src/components/ConfigPage.tsx:40-43 | spreading in a new key appends its value at the end |
| `InsertionOrder.ValuesAfterSetPresent` | packages/client/src/components/ConfigPage.tsx:47-50 | spreading in a present key replaces its value in place |
| `InsertionOrder.ValuesAfterDelete` | packages/client/src/components/ConfigPage.tsx:54-55 | deleting a key removes exactly its value from the values |
| `ServerCache.EffectiveLimit` | packages/server/src/utils/cache.ts:5-7 | `limit \|\| 100`: an absent or zero limit becomes 100, any other is kept |
| `ServerCache.Capacity` | packages/server/src/utils/cache.ts:18-24 | the size `set` keeps the cache within: the limit when positive, exactly 1 otherwise |
| `ServerCache.Evict` | packages/server/src/utils/cache.ts:19-22 | eviction keeps the keys distinct and in step with the entries; what it removes is stated by `EvictRemovesOldest` |
| `ServerCache.CacheSet` | packages/server/src/utils/cache.ts:18-24 | after `set(k, v)`, `k` maps to `v` |
| `ServerCache.EvictRemovesOldest` | packages/server/src/utils/cache.ts:19-22 | when `size >= limit`, exactly the first-inserted key is deleted and every other entry is kept |
| `ServerCache.SetKeepsCapacity` | packages/server/src/utils/cache.ts:18-24 | if the size is within capacity before `set`, it is after |
| `ServerCache.SetBelowLimit` | packages/server/src/utils/cache.ts:19-23 | below the limit nothing is removed: other keys keep values and order |
| `ServerCache.ResetWhileFull` | packages/server/src/utils/cache.ts:19-23 | re-setting a present key once the size has reached the limit (any limit) still evicts the oldest. For a different key the cache ends with one entry fewer and the key keeps its place; for the oldest key itself, that key moves to the end |
| `ServerCache.EvictionScenario` | packages/server/src/utils/cache.ts:5-24 | through the class: after `set` of A, B, C with limit 2, `has(A)` is false and B and C keep their values |
| `ServerCache.EvictionOrderExample` | packages/server/src/utils/cache.ts:18-24 | with limit 2, inserting A, B, C leaves keys B, C in that order |
| `ServerCache.Cache.constructor` | packages/server/src/utils/cache.ts:5-8 | a new cache is empty with limit `limit \|\| 100` |
| `ServerCache.Cache.Has` | packages/server/src/utils/cache.ts:10-12 | true exactly for a stored key; changes nothing |
| `ServerCache.Cache.Get` | packages/server/src/utils/cache.ts:14-16 | the stored value, or none for an absent key; changes nothing |
| `ServerCache.Cache.Set` | packages/server/src/utils/cache.ts:18-24 | the new store is `CacheSet` of the old one, the limit is unchanged, and the key maps to the value |
| `JsText.NatToDecimal` | packages/client/src/components/ConfigPage.tsx:39 | `${n}`: non-empty decimal digits with no leading zero |
| `JsText.DecimalRoundTrip` | packages/client/src/components/ConfigPage.tsx:39 | reading the digits back gives the number |
| `JsText.DecimalInjective` | packages/client/src/components/PiePage.tsx:66 | different numbers print differently |
| `JsText.IntToDecimal` | packages/client/src/components/PiePage.tsx:113 | `${i}` for an integer: a minus sign before the digits of a negative one |
| `JsText.Trim` | packages/client/src/components/Inputs.tsx:20 | `trim()`: the longest slice with no white space at either end, where everything cut off is white space |
| `JsText.TrimIdempotent` | packages/client/src/components/Inputs.tsx:20 | trimming twice equals trimming once |
| `Json.Lookup` | packages/client/src/components/Charts/Charts.tsx:34 | property access: a value exactly for a present key, taken from the row |
| `Json.RowKeys` | packages/client/src/components/Charts/Charts.tsx:32 | `Object.keys`: the row's keys in order |
| `BaseUtils.ToStringOf` | packages/client/src/utils/baseUtils.ts:2 | `toString()` raises exactly on `undefined` and `null`, and gives a string unchanged |
| `BaseUtils.FallbackText` | packages/client/src/utils/baseUtils.ts:4 | `fallback \|\| 'An unkown error occurred'`: an empty fallback counts as absent |
| `BaseUtils.FormatError` | packages/client/src/utils/baseUtils.ts:1-5 | an object with `message` yields `message.toString()`; a string (even empty) is returned; anything else yields the fallback text; `null` raises |
| `BaseUtils.ErrorObjectFormatsToMessage` | packages/client/src/utils/baseUtils.ts:2 | an `Error` formats to its message |
| `ColorUtils.HexColor` | packages/client/src/utils/colorUtils.ts:1-8 | `#` followed by six characters of `0123456789ABCDEF` |
| `ColorUtils.RandomColor` | packages/client/src/utils/colorUtils.ts:1-8 | the loop builds `HexColor` of the drawn indices, a 7-character hex colour |
| `ColorUtils.RandomDarkColor` | packages/client/src/utils/colorUtils.ts:10-17 | length 7, characters 1-2 from `012`, characters 3-6 those of a fresh random colour |
| `ColorUtils.RandomLightColor` | packages/client/src/utils/colorUtils.ts:19-26 | length 7, characters 1-2 from `DEF`, characters 3-6 those of a fresh random colour |
| `ColorUtils.ShadedColor` | packages/client/src/utils/colorUtils.ts:10-26 | `#`, two of the three shade letters, then characters 3-6 of the fresh random colour |
| `ColorUtils.ShadedColorShape` | packages/client/src/utils/colorUtils.ts:12-16 | characters 1 and 2 are the drawn letters |
| `ColorUtils.DarkAndLightDisjoint` | packages/client/src/utils/colorUtils.ts:10-26 | no colour is both a dark and a light colour |
| `Charts.IsPortionDataList` | packages/client/src/components/Charts/Charts.tsx:29-39 | true iff every row has exactly two keys, a string `name` and a number `value`; true for no rows |
| `Charts.IsPortionRow` | packages/client/src/components/Charts/Charts.tsx:31-33 | a row that passes the test has both a `name` and a `value` key |
| `Charts.PortionRowKeys` | packages/client/src/components/Charts/Charts.tsx:32-34 | a portion row's keys are `name` and `value`, in some order |
| `Charts.PortionNames` | packages/client/src/components/Charts/Charts.tsx:158 | the rows' names, in row order |
| `Charts.SeriesKeys` | packages/client/src/components/Charts/Charts.tsx:157-159 | portion data gives the names; other data gives the first row's keys without `name`, whatever the chart type |
| `Charts.GraphKeys` | packages/client/src/components/Charts/Charts.tsx:159 | the filtered keys never include `name` and are no more than the first row's keys |
| `Charts.GraphKeysOfFirstRow` | packages/client/src/components/Charts/Charts.tsx:159 | the graph keys are exactly the first row's keys other than `name`; for an object (distinct keys) they are its keys in order with the one `name` key cut out, or all its keys when it has none |
| `Charts.SeriesColor` | packages/client/src/components/Charts/Charts.tsx:164 | light mode draws a dark colour, dark mode a light one |
| `Charts.ColorMapOf` | packages/client/src/components/Charts/Charts.tsx:161-166 | the map's domain is exactly the keys, and every colour is of the mode's shade |
| `Charts.ColorOfLastOccurrence` | packages/client/src/components/Charts/Charts.tsx:163-166 | a key's colour is the one drawn at its last occurrence |
| `Charts.BuildColorMap` | packages/client/src/components/Charts/Charts.tsx:161-166 | the loop builds `ColorMapOf` |
| `Charts.Background` | packages/client/src/components/Charts/Charts.tsx:168 | `#dedede` exactly in light mode, `#141414` exactly in dark mode |
| `Charts.QuerySubCharts` | packages/client/src/components/Charts/Charts.tsx:182-185 | each known type selects exactly its one sub-chart; an unknown type selects none |
| `Charts.QueryChart` | packages/client/src/components/Charts/Charts.tsx:149-188 | missing or empty data fails with "Data cannot be empty!"; otherwise the `chart` container, gap 40, the series keys, their colour map, the background and the type's sub-chart |
| `Charts.PieCellsColoured` | packages/client/src/components/Charts/Charts.tsx:140-141 | every pie cell's name has a colour |
| `ChartPage.PageChildIds` | packages/client/src/pages/ChartPage.tsx:211-224 | for every page state and colour draw, no element directly inside the page's root div has an id, so none has id `chart` |
| `ChartPage.PageSubCharts` | packages/client/src/pages/ChartPage.tsx:120-189 | bar, area and line each select their sub-chart; pie and others draw nothing |
| `ChartPage.Chart` | packages/client/src/pages/ChartPage.tsx:99-192 | missing data raises reading `length`, empty data fails with "data is empty"; otherwise the first row's keys without `name`, for every type, with colours and background as in `QueryChart` |
| `ChartPage.ChartPageKeysOnPortionData` | packages/client/src/pages/ChartPage.tsx:107 | for portion data the older page's only series is `value` |
| `ChartPage.RenderChartPage` | packages/client/src/pages/ChartPage.tsx:211-223 | a truthy error renders the error paragraph, otherwise the chart slot |
| `ChartPage.DecodeOutcomeRendered` | packages/client/src/pages/ChartPage.tsx:201-217 | on the first run, a decode failure renders its message instead of a chart; a successful decode renders the chart |
| `ChartPage.StaleErrorHidesChart` | packages/client/src/pages/ChartPage.tsx:201-217 | after an earlier failure with a non-empty message, a query that now decodes still renders the old error paragraph |
| `PageQuery.QueryText` | packages/client/src/pages/ChartPage.tsx:203 | `atob(query)` of an absent parameter decodes the text `null` |
| `PageQuery.LoadQuery` | packages/client/src/pages/ChartPage.tsx:201-209 | a successful decode stores the query and keeps the previous error; a failure stores the formatted error and keeps the previous query; a raising `formatError` changes nothing |
| `PageQuery.DecodeErrorStored` | packages/client/src/components/PiePage.tsx:135-144 | on the first run, an `Error` thrown by decoding becomes the page's error and no query is stored |
| `PageQuery.RerunKeepsStaleState` | packages/client/src/pages/ChartPage.tsx:201-209 | a re-run after any earlier state replaces only the query (on success) or only the error (on an `Error`) |
| `PieTypes.SumPercents` | packages/client/src/components/ConfigPage.tsx:32-35 | the `reduce` from 0: non-negative percentages give a non-negative sum; how the sum changes is stated by the three lemmas below |
| `PieTypes.SumPercentsAppend` | packages/client/src/components/ConfigPage.tsx:32-35 | the percent sum of a concatenation is the sum of the sums |
| `PieTypes.SumPercentsUpdate` | packages/client/src/components/ConfigPage.tsx:46-51 | replacing one slice changes the sum by the difference of percents |
| `PieTypes.SumPercentsRemove` | packages/client/src/components/ConfigPage.tsx:53-57 | removing one slice lowers the sum by its percent |
| `PiePage.GetSliceMaskData` | packages/client/src/components/PiePage.tsx:17-37 | begin is (size/2, size/2), middle is (size, size/2); `largeArc` is 0 iff percent > 50, else 1 |
| `PiePage.Rotation` | packages/client/src/components/PiePage.tsx:69-75 | a slice preceded by non-negative percentages has a non-negative rotation; its value is stated by `RotationIsPrefixSum` |
| `PiePage.RotationIsPrefixSum` | packages/client/src/components/PiePage.tsx:69-75 | the rotation of slice i is 360·(p0 + … + p(i-1))/100 |
| `PiePage.FullTurn` | packages/client/src/components/PiePage.tsx:40-44 | when the percents sum to 100 the rotations end at a full turn |
| `PiePage.RotateDegrees` | packages/client/src/components/PiePage.tsx:69-75 | the loop with its early `break` computes the rotation of slice `index` |
| `PiePage.StyleFor` | packages/client/src/components/PiePage.tsx:77-82 | a zero rotation gets an empty style, any other a rotation |
| `PiePage.UnrotatedSlicesUnstyled` | packages/client/src/components/PiePage.tsx:77-82 | a slice preceded only by 0 % slices (the first one included) is unstyled |
| `PiePage.MaskId` | packages/client/src/components/PiePage.tsx:66 | `pieMask_` followed by at least one more character (the index's digits) |
| `PiePage.MaskIdsDistinct` | packages/client/src/components/PiePage.tsx:66 | slices get distinct `pieMask_i` ids |
| `PiePage.SliceViewAt` | packages/client/src/components/PiePage.tsx:65-104 | slice `index` gets mask id `pieMask_index`, its own colour, and the style of 360 times the percentages before it over 100 |
| `PiePage.SliceLabel` | packages/client/src/components/PiePage.tsx:113 | the caption, then `: `, then the percent's decimal text (`String(percent)`), then `%` |
| `PiePage.SliceLabels` | packages/client/src/components/PiePage.tsx:109-116 | one label per slice, in slice order, reading `label: percent%` |
| `PiePage.StrokeWidthPercentage` | packages/client/src/components/PiePage.tsx:46-47 | `half·strokeWidth/100` for a nonzero stroke width, null for 0 |
| `PiePage.PieChart` | packages/client/src/components/PiePage.tsx:39-120 | fails with the sum message unless the percents sum to exactly 100; otherwise one slice view per slice in order, with its mask id, mask data, style and colour, plus the labels |
| `PiePage.RenderPiePage` | packages/client/src/components/PiePage.tsx:146-153 | the chart is drawn when a query is present; the error paragraph appears iff the error is truthy |
| `PiePage.PieDecodeFailureRendered` | packages/client/src/components/PiePage.tsx:135-153 | on the first run, a decode failure shows its message and no chart |
| `PiePage.StalePieBesideError` | packages/client/src/components/PiePage.tsx:135-153 | after an earlier success, a query whose decoding fails shows its message beside the old pie |
| `ConfigPage.NumSlices` | packages/client/src/components/ConfigPage.tsx:31 | the number of slices equals the number of values the page shows |
| `ConfigPage.TotalPercent` | packages/client/src/components/ConfigPage.tsx:32-35 | 0 for no slices, the one percent for one slice, non-negative for non-negative percents |
| `ConfigPage.NewSlice` | packages/client/src/components/ConfigPage.tsx:39 | percent 0, colour `#008080`, caption `Label ` followed by a number with no leading zero |
| `ConfigPage.NewSliceCaptionsDistinct` | packages/client/src/components/ConfigPage.tsx:39 | slices added at different map sizes get different captions |
| `ConfigPage.AddSlice` | packages/client/src/components/ConfigPage.tsx:37-44 | the new map keeps its keys distinct and in step with its entries; its effect is stated by `AddSliceEffect` |
| `ConfigPage.SetSlice` | packages/client/src/components/ConfigPage.tsx:46-51 | the new map keeps its keys distinct and in step with its entries; its effect is stated by `SetSliceEffect` |
| `ConfigPage.RemoveSlice` | packages/client/src/components/ConfigPage.tsx:53-57 | the new map keeps its keys distinct and in step with its entries; its effect is stated by `RemoveSliceEffect` |
| `ConfigPage.AddSliceEffect` | packages/client/src/components/ConfigPage.tsx:37-44 | one new id, last, mapped to `["Label n+1", "#008080", 0]`; other entries and the total unchanged |
| `ConfigPage.SetSliceEffect` | packages/client/src/components/ConfigPage.tsx:46-51 | `id` maps to the slice and every other entry is unchanged; a present id keeps its place, and the total changes by the difference of percents |
| `ConfigPage.RemoveSliceEffect` | packages/client/src/components/ConfigPage.tsx:53-57 | `id` is gone, every other entry unchanged, the total lowered by its percent; an absent id changes nothing |
| `ConfigPage.OnSubmit` | packages/client/src/components/ConfigPage.tsx:59-74 | submits iff the total is 100 and `btoa` accepts the query: size 400, colour `#ccc`, stroke width 10, light mode, the current slices, requested at the circle path |
| `ConfigPage.SubmittedQuery` | packages/client/src/components/ConfigPage.tsx:61-67 | the posted query is in light mode and carries the editor's slices in their order, so the pie page sums the same total |
| `ConfigPage.SubmitDisabled` | packages/client/src/components/ConfigPage.tsx:89 | enabled exactly when the slices' percents sum to 100 |
| `ConfigPage.SubmitGate` | packages/client/src/components/ConfigPage.tsx:59-60 | a click submits iff the button is enabled and the query encodes; a submitted query sums to 100 |
| `ClientUrls.ServerUrl` | packages/client/src/pages/HomePage.tsx:62 | the API base, then `/api/v1/circle`, then `?query=`, then the encoded query |
| `HomePage.InitialState` | packages/client/src/pages/HomePage.tsx:14-29 | light mode, 500×500, a bar chart of the graph data, empty URLs |
| `HomePage.SetModeLight` | packages/client/src/pages/HomePage.tsx:31 | only the mode changes, to light |
| `HomePage.SetModeDark` | packages/client/src/pages/HomePage.tsx:32 | only the mode changes, to dark |
| `HomePage.SetWidth` | packages/client/src/pages/HomePage.tsx:34 | only the width changes |
| `HomePage.SetHeight` | packages/client/src/pages/HomePage.tsx:35 | only the height changes |
| `HomePage.SetChart` | packages/client/src/pages/HomePage.tsx:37-40 | the chart takes the chosen type, with the portion data for a pie and the graph data otherwise; nothing else changes |
| `HomePage.ChartTypeMatchesDataKind` | packages/client/src/pages/HomePage.tsx:37-40 | pie always gets the portion data, bar, area and line the graph data |
| `HomePage.TextOnChange` | packages/client/src/pages/HomePage.tsx:42-43 | only the text changes, whichever handler is chosen |
| `HomePage.TextOnBlur` | packages/client/src/pages/HomePage.tsx:45-53 | parses into the portion data iff the type is pie, into the graph data otherwise; a failed parse changes nothing, nor does it touch the query's chart |
| `HomePage.RefreshUrls` | packages/client/src/pages/HomePage.tsx:55-65 | client URL `http://localhost:1234/chart?query=…` and server URL at `/api/v1/circle`, around the encoding of the current config and chart; when `btoa` throws, the URLs stay as they were |
| `HomePage.UrlsEmbedSameQuery` | packages/client/src/pages/HomePage.tsx:60-64 | when the query encodes, both URLs end with the identical encoded query |
| `Inputs.StrictlyDiffer` | packages/client/src/components/Inputs.tsx:72 | `!==`: NaN differs from everything; finite numbers differ iff unequal |
| `Inputs.NormalisedNumber` | packages/client/src/components/Inputs.tsx:70 | a non-finite value becomes 0; a finite one is unchanged |
| `Inputs.InputNumber.constructor` | packages/client/src/components/Inputs.tsx:62 | the local value starts as the given value |
| `Inputs.InputNumber.OnChangeInput` | packages/client/src/components/Inputs.tsx:64-67 | the parsed number becomes the local value; nothing is reported |
| `Inputs.InputNumber.OnBlurInput` | packages/client/src/components/Inputs.tsx:69-73 | reports the normalised value exactly once; resets the local value iff it was not finite |
| `Inputs.InputText.constructor` | packages/client/src/components/Inputs.tsx:13 | the local value starts as the given text |
| `Inputs.InputText.OnChangeInput` | packages/client/src/components/Inputs.tsx:15-17 | the typed text becomes the local value |
| `Inputs.InputText.OnBlurInput` | packages/client/src/components/Inputs.tsx:19-23 | stores and reports the trimmed text |
| `Inputs.InputText.BlurTwice` | packages/client/src/components/Inputs.tsx:19-23 | a second blur reports the same trimmed text again |
| `Inputs.InputColor.constructor` | packages/client/src/components/Inputs.tsx:40 | the picker starts hidden |
| `Inputs.InputColor.OnClick` | packages/client/src/components/Inputs.tsx:42 | toggles the picker |
| `Inputs.InputColor.OnChangeComplete` | packages/client/src/components/Inputs.tsx:43 | reports the picked hex |
| `Inputs.InputColor.ClickTwice` | packages/client/src/components/Inputs.tsx:42 | two clicks restore the picker state |
| `Server.ClientOriginValue` | packages/server/src/index.ts:6-12 | the only allowed domain is `http://localhost:1234` |
| `Server.AllowedDomains` | packages/server/src/index.ts:12 | the list holds exactly the origin `http://localhost:1234` |
| `Server.CorsOrigin` | packages/server/src/index.ts:14-19 | accepts iff the origin is absent, empty or `http://localhost:1234`, with a null error; otherwise "`<origin>` is not an allowed domain" and false |
| `Server.FormatError` | packages/server/src/index.ts:31-35 | the message or the string, otherwise "An unkown error occurred" |
| `Server.FormatErrorAgreesWithClient` | packages/server/src/index.ts:31-35 | the server's copy equals the client's with no fallback |
| `Server.ClientRouteMissesServer` | packages/server/src/index.ts:69 | no URL the client builds has the path `/api/v1/chart` |
| `Server.RenderUrl` | packages/server/src/index.ts:47 | `http://localhost:1234/chart?query=` followed by the raw query |
| `Server.RenderSteps` | packages/server/src/index.ts:44-59 | eight awaited steps, from launching the browser to closing it |
| `Server.Caught` | packages/server/src/index.ts:63-66 | status 400 with the formatted error, or nothing sent if formatting raises |
| `Server.GetChart` | packages/server/src/index.ts:37-67 | a missing or empty query gives 400 "Query is required" with no browser step; a step that throws stops the trace there and answers from `catch`; otherwise all steps run and `chart.png` is sent as `image/png` |
| `Server.BrowserLeftOpenOnFailure` | packages/server/src/index.ts:44-66 | a failure after launch leaves the browser unclosed |
| `Server.EveryRequestRenders` | packages/server/src/index.ts:44-62 | if every step succeeds, any two requests each launch a browser and send the same `chart.png`; against the real page the steps do not succeed (`RequestAgainstChartPage`) |
| `Server.RequestAgainstChartPage` | packages/server/src/index.ts:44-66 | against the `/chart` page, for any non-empty query: the browser is launched, the `.page > #chart` wait throws, no screenshot is taken, the browser stays open, and the answer is 400 with the timeout's message |

## Left out

- `Math.random`: each random colour is given as chosen indices (`ColorUtils.ColorDraw`). A chart takes the sequence of draws as a parameter.
- `atob`, `btoa`, `JSON.parse` and `JSON.stringify`: base64 and JSON text are not modelled. Decoding is a parameter that may fail. Encoding (`btoa(JSON.stringify(…))`) is a parameter that gives nothing when `btoa` throws on a character above U+00FF; `OnSubmit` and `RefreshUrls` state that outcome. `parseInt` appears only through its result (`Inputs.JsNumber`).
- A decoded query is typed: it always carries `config` and its `chart` (chart page) or `slices` (pie page). A query that lacks them, on which `Charts.tsx:150`'s destructuring or `Object.values` in `PiePage.tsx:40` throws, is not modelled.
- `HomePage.TextOnBlur`: `JSON.parse` of the textarea is a parameter that yields rows or nothing. A parse that succeeds with a value other than an array of rows, which the source stores as it is, is not modelled.
- `uuid` `v4` in `addSlice` is the `id` parameter, assumed fresh.
- The cos/sin end point of a slice mask (`PiePage.tsx:20-23`): floating-point trigonometry.
- Floating-point arithmetic: percents are integers, and rotations and stroke widths are exact `real`s. Rounding of `360 * (p / 100)` is not modelled.
- `PieTypes.SliceType`: percents are whole numbers. The editor reads them with `parseInt`, but a pie query decoded by `JSON.parse` on the pie page may carry fractional percents, and such queries are not modelled.
- `ServerCache.EffectiveLimit`: a NaN or fractional limit is not modelled; limits are integers.
- Object keys that look like array indices (`"0"`, `"1"`, …) come first in `Object.keys` and `Object.values`. Both rows and the pie's slice map keep insertion order instead. For slice ids of that form the real slice order, and so the rotations, can differ.
- `Json.Row`: a row is always an object. A `null` or other non-object row, on which `Object.keys` throws inside the portion test, is not modelled.
- `Json.Row`: a row may repeat a key, which a decoded JS object never does. `JSON.parse` keeps such a key once, with its last value. For these rows the model's results (`Lookup` takes the first value, `RowKeys` lists the key twice) describe no real input. The lemmas that depend on distinct keys (`PortionRowKeys`, `GraphKeysOfFirstRow`) say so in their contracts.
- `req.query.query` may be an array or an object in Express; only a string or absence is modelled. `path.resolve` is left out, and the output path is the relative one.
- puppeteer, express wiring, `res.sendFile` and `app.listen` are I/O. `getChart` is modelled over abstract effects. The wording of puppeteer's timeout error and the 30-second wait are not modelled; the message is a parameter of `Server.RequestAgainstChartPage`.
- `Server.GetChart`: an error that `res.sendFile` reports after the handler returns is not modelled.
- Concurrent requests, which overwrite the shared `chart.png`: concurrency.
- The logger (`logger.ts`): console output and timing.
- `imageDownloader` in `ConfigPage.tsx`: `fetch` and DOM work. `OnSubmit` records the request URL and the logged preview URL.
- JSX and recharts rendering, routing (`App.tsx`) beyond `/chart` rendering `ChartPage`, `Buttons.tsx`, and the `Slice.tsx` wiring. Only the data each view receives is modelled.
- `InputNumber`'s `min`/`max` attributes (`Inputs.tsx:82-83`): the guard compares `typeof` with `undefined`, so it is always true. It concerns rendering only.
- React's re-render timing: each handler is modelled on the state it closes over.
- `ConfigPage.RemoveSlice`: the copy-then-`delete` runs on a fresh copy, so it is modelled as a function returning the new map. The prior map is unchanged by construction.
