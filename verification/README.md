# envoy-exporter in Dafny

A model of the pure logic of envoy-exporter. This daemon polls an Enphase Envoy solar gateway for production, inverter and battery telemetry and writes the readings to InfluxDB as time-series points. The model covers four things:

- **Configuration validation** (`Config`): `Config.Validate`, an ordered chain of required-setting checks that reports the first one that fails.
- **Point construction** (`Points`, `Extract`): `lineToPoint`, `extractProductionStats`, `extractInverterStats` and `extractBatteryStats`. A point is an immutable record holding a measurement name, tags and fields. Tags and fields are pairs kept in the order the builder adds them.
- **One scrape cycle** (`Scrape`): `scrape`, modelled as a pure function. The gateway client's three answers are its inputs. Each answer is a value that may be nil plus an error that may be nil. The writer's answer is an input too. The result records:
  - the count returned;
  - the batch handed to the writer, if the writer was called;
  - the client calls made, in order;
  - the failures logged, in order.
- **Decimal text** (`Decimal`): the `%d` rendering used for line indices, with its parser. The two are proved to be inverse bijections between naturals and canonical digit strings.

Files: `wrappers.dfy` (Option/Outcome), `decimal.dfy`, `envoy.dfy` (the gateway's data records), `points.dfy`, `extract.dfy`, `config.dfy`, `scrape.dfy`.

Behaviour of main.go worth knowing:

- `scrape` makes no liveness check, never calls `InvalidateSession` and returns no "session invalid" flag.
- Each point gets its own `time.Now()`, not one shared timestamp.
- The production response contributes only when its production list is non-empty. A consumption-only response therefore adds nothing.
- A battery list that comes with an error is discarded. A production response or inverter list that comes with an error is kept.
- A username alone, a password alone or a JWT alone passes the authentication check.

## Model

| member | source | states |
|---|---|---|
| `Decimal.FromNat` | main.go:91-94 | The `%d` text of an index is non-empty, all digits, and starts with '0' only when the index is 0. |
| `Decimal.ToNatFromNat` | main.go:94 | Parsing the rendered index text gives back the index. |
| `Decimal.FromNatToNat` | main.go:94 | Every canonical digit string is the rendering of the number it denotes, so rendering is a bijection onto canonical strings. |
| `Decimal.FromNatInjective` | main.go:91-94 | Distinct line indices give distinct `line-idx` texts. |
| `Points.LineToPointShape` | main.go:90-101 | A line point is named `{type}-line{idx}`. Read as a map, its tags are exactly source, measurement-type and line-idx. Its fields are exactly P, Q, S, I_rms and V_rms, copied from WNow, ReactPwr, ApprntPwr, RmsCurrent and RmsVoltage. No tag key or field key repeats. |
| `Points.LineIndexRoundTrip` | main.go:91-94 | The line-idx tag is canonical decimal text that parses back to the index. The name is the type, then "-line", then that same text. |
| `Points.LineNamesDistinct` | main.go:91-94 | Two line points of one type have the same name exactly when they have the same index. |
| `Points.InverterPointShape` | main.go:130-135 | An inverter point is named "inverter-production-"+serial. Its tags are exactly source, measurement-type=inverter and serial. Its only field is P = LastReportWatts. |
| `Points.BatteryPointShape` | main.go:145-151 | A battery point is named "battery-"+serial. Its tags are exactly source, measurement-type=battery and serial. Its fields are exactly percent-full and temperature. |
| `Points.LinePointWellTagged` | main.go:90-101 | A line point of category production, consumption or net keeps the tagging invariant and reports that category. |
| `Points.InverterPointWellTagged` | main.go:130-135 | An inverter point keeps the tagging invariant, reports category inverter and carries the inverter's serial. |
| `Points.BatteryPointWellTagged` | main.go:145-151 | A battery point keeps the tagging invariant, reports category battery and carries the battery's serial. |
| `Extract.MeasurementPointsByLabel` | main.go:105-123 | A measurement contributes the line points of its relabelled category ("production", "total-consumption"→"consumption", "net-consumption"→"net"), or nothing when its list does not recognise its type. |
| `Extract.SectionAppend` | main.go:105-123 | A list's points are the points of its parts, concatenated in order. |
| `Extract.SectionSplit` | main.go:105-123 | A measurement's points form one contiguous block between the points of the measurements before and after it. |
| `Extract.SectionPointAt` | main.go:105-123 | Line i of a recognised measurement is the point at offset i past all earlier measurements' points, built with index i. So line-idx restarts at 0 for every measurement and source order is kept. |
| `Extract.UnrecognisedContributesNothing` | main.go:105-123 | Removing a measurement with an unrecognised type leaves the list's points unchanged, so such measurements are skipped without error. |
| `Extract.LinePointsWellTagged` | main.go:107-109 | Every point of one measurement's lines is well tagged and reports that measurement's category. |
| `Extract.MeasurementPointsWellTagged` | main.go:105-123 | Every point one measurement contributes is well tagged and reports a category its list allows. |
| `Extract.SectionWellTagged` | main.go:105-123 | Every point of a whole list is well tagged. Production-list points report "production". Consumption-list points report "consumption" or "net". |
| `Extract.LinePointsCount` | main.go:107-109 | One measurement yields exactly one point per line, all in its category. |
| `Extract.ProductionSectionCount` | main.go:105-111 | The production list yields one point per line of its "production" measurements and no points of any other category. |
| `Extract.ConsumptionSectionCount` | main.go:112-123 | The consumption list yields one "consumption" point per total-consumption line, one "net" point per net-consumption line, and nothing else. |
| `Extract.ExtractProductionCount` | main.go:103-125 | The total point count equals the lines of production, total-consumption and net-consumption measurements. Per category, the counts match the gateway types independently. |
| `Extract.ExtractProductionOrder` | main.go:103-125 | All production-list points come before all consumption-list points. |
| `Extract.ExtractProductionWellTagged` | main.go:103-125 | Every point of a production response is well tagged. |
| `Extract.InverterBatteryStats` | main.go:127-155 | Inverter and battery output has the input's length. The k-th point is named after, tagged with and built from the k-th entry. |
| `Config.Validate` | main.go:65-88 | Passes exactly when address, serial and all four InfluxDB settings are present and at least one of username, password or JWT is set. Otherwise it reports a failing check, and no earlier check fails. |
| `Config.ValidateReportsSomeFailure` | main.go:65-88 | Any failing check makes validation fail, on that check or an earlier one. |
| `Config.AnyOneCredentialSuffices` | main.go:72-74 | A username alone, a password alone or a JWT alone satisfies the authentication check. |
| `Config.ValidateTestCases` | main_test.go:62-153 | The six table-test configurations pass or fail as the test expects. Each failure is the check for the missing setting, and for address, serial and influxdb its message names that setting. |
| `Config.ValidateAdmitsZeroInterval` | main.go:61-88 | A configuration with interval 0 passes validation, and the ticker period it reaches is not positive. |
| `Config.ValidateAdmitsOverflowingInterval` | main.go:211 | A configuration with interval 9223372037 passes validation, and the product with one second wraps in int64 to a negative period. |
| `Config.Wrap64` | main.go:211 | Go's int64 result is in range, is congruent to the exact value modulo 2^64, and is the exact value when that fits. |
| `Config.EffectiveInterval` | main.go:211 | Corrected, not the code's behaviour: the interval is kept when it is between 1 and 9223372036 seconds and is 5 otherwise, so its period in nanoseconds is positive and never wraps. |
| `Config.CorrectionKeepsWorkingIntervals` | main.go:211 | For every interval from 1 to 9223372036 seconds, the as-written ticker period is the exact positive product and equals the corrected one. |
| `Scrape.Scrape` | main.go:169-203 | The writer is called exactly when the batch is non-empty, and with the whole batch. The count is the sum of the three categories' points. The client calls are Production, Inverters, Batteries, in order, and InvalidateSession is never called. Each fetch error and a failed write are logged exactly when they occur. |
| `Scrape.WriteFailureKeepsCount` | main.go:193-202 | The writer's answer changes neither the count nor the batch written. |
| `Scrape.WrittenBatchIsWholeBatch` | main.go:174-194 | The written batch is the production points, then the inverter points, then the battery points. |
| `Scrape.EmptyScrape` | main.go:193-202 | With nothing fetched the writer is not called, the count is 0 and nothing is logged. |
| `Scrape.ErrorBesideValueIgnored` | main.go:170-184 | An error returned with a production response or inverter list does not discard it. |
| `Scrape.BatteryErrorDiscards` | main.go:186-191 | A battery error discards the battery list. Without an error, one point per battery is added. |
| `Scrape.ConsumptionOnlyDropped` | main.go:175-177 | A response with an empty production list contributes nothing, even when its consumption measurements would give points. |
| `Scrape.CategoriesIndependent` | main.go:170-191 | Changing one category's fetch result leaves the other categories' points in the batch unchanged. |
| `Scrape.ProductionFailureCount` | main.go:170-191 | A failed production fetch with successful inverter and battery fetches counts exactly the inverters plus the batteries. |
| `Scrape.BatchWellTagged` | main.go:169-191 | Every point of every batch keeps the tagging invariant: unique keys, the source tag, and a known category. |
| `Scrape.SuccessfulScrapeExample` | main_test.go:326-354 | One production line, one inverter and one battery give 3 points: production-line0, inverter-production-123 and battery-456. |
| `Scrape.ProductionErrorExample` | main_test.go:355-363 | A nil production response with an error and nothing else gives count 0, no write, and one logged failure. |

## Findings

| source | as written | input that shows it | evidently intended | confidence | as-written member | corrected member |
|---|---|---|---|---|---|---|
| main.go:61, main.go:65-88, main.go:211 | `Validate` never checks `Interval`, although the field is tagged `validate:"required"`. `scrapeLoop` multiplies it by `time.Second` in int64 and passes the result unchanged to `time.NewTicker`, which panics on a period that is not positive. The preset of 5 at main.go:288 is overwritten by a decoded `interval: 0`. | a configuration file with every required setting and `interval: 0`; or with `interval: 9223372037`, whose product wraps negative | a positive scrape period: the configured interval when a duration can hold it, otherwise the default of 5 seconds | medium, not executed | `Config.ValidateAdmitsZeroInterval`, `Config.ValidateAdmitsOverflowingInterval` | `Config.EffectiveInterval` |

## Left out

- `scrapeLoop` (main.go:205-258): the ticker, context cancellation, the 5-second reconnect backoff and `time.After`. All of this is timing and concurrency. The only part of it the model keeps is the ticker period, `Config.TickerPeriod`: the configured interval times one second, in int64 nanoseconds that wrap. Nothing in main.go uses `Config.EffectiveInterval`; it is the correction proposed under Findings.
- `main` (main.go:260-338): flag parsing, YAML decoding, signal handling, the expvar HTTP server and its default port 6666, and construction of the InfluxDB client. This is I/O and foreign library code.
- `LoadConfig` and the four-argument `scrapeLoop` called by main_test.go:181 and main_test.go:414 do not exist in main.go and are not part of this model.
- Timestamps: every point calls `time.Now()` on its own (main.go:100, 135, 151). Points carry no time, and no shared-timestamp claim is made.
- Field values: float64 readings are kept as opaque 64-bit patterns and integers as int64. They are copied, never computed with. The database client's conversion of Go `int` to int64 is taken as given.
- `AddTag`/`AddField` semantics of the InfluxDB client (replacing an existing key, any sorting of `TagList`): points are built directly as records. Every builder's keys are proved distinct, so replacement never arises, and tags and fields are compared as maps.
- The `context.Context` passed to `WritePoint`, and the text of log messages. Only which operations log a failure is modelled.
- The error values of the client and the writer: only whether one is present is modelled.
- Calling `extractProductionStats`, `extractInverterStats` or `extractBatteryStats` with a nil pointer panics in Go. The model's extract functions take present values, which is what `scrape` guarantees before calling them.
