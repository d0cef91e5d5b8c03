# wlgen in Dafny

A model of the core of `wlgen`, an HTTP workload generator. A YAML profile
names a target URL, an HTTP method, an optional body template and one or
more client populations. Each population has an inter-arrival distribution
and optional bounds on request count and duration. For each population the
generator fires requests paced by a random delay, and every request reports
one `ResponseInfo`.

The project has these modules:

- `Parser` (`parser.dfy`): the YAML profile parser.
  - The YAML tree is a `Node` (nil, scalar, list, map).
  - The library parsers `strconv.Atoi`, `strconv.ParseFloat` and `time.ParseDuration` are uninterpreted functions in `Scalars`.
  - Go's unspecified map iteration order is an explicit `order` argument, required to enumerate the root map's keys exactly once each.
- `RandomDelay` (`rdelay.dfy`): which generator a distribution name selects, and which integer `Delay` picks.
- `RequestFactory` (`reqfac.dfy`): the request-id counter, with `int32` wrap-around, and the choice of request body.
  - Template parsing, template execution and `http.NewRequest` are functions in `Templates`.
- `WorkLoad` (`wlgen.dfy`): the `Start` loop.
  - The clock, the per-request time stamp and the transport are functions in `Env`.
  - Goroutines are modelled as a sequential dispatch whose result is reported at once.
- `Wrappers` and `Enumerations`: `Option`/`Result`, and enumerations of a finite set as duplicate-free sequences.

Three behaviours of the code worth knowing:

- An unknown distribution name is not rejected. `NewRandomDelay` leaves the generator unset, and every `Delay` then uses 100.
- A nil element of a parameter list reads as "". Float parsing then rejects it as "not a float64", not as "not a scalar".
- A `method` key holding nil gives the method "", not the default "GET".

## Model

| member | source | states |
|---|---|---|
| Parser.ParseDuration | parser.go:35-42 | A non-scalar node, nil included, is an error. A scalar succeeds exactly when `time.ParseDuration` accepts its text, with that value. |
| Parser.ParseInt | parser.go:44-52 | A non-scalar node, nil included, is an error. A scalar succeeds exactly when `strconv.Atoi` accepts its text, with that value. |
| Parser.ParseString | parser.go:54-65 | Succeeds exactly for nil and scalars. Nil reads as "" and a scalar as its text. Lists and maps are the "not a scalar" error. |
| Parser.ParseFloatsFrom | parser.go:72-88 | The element loop succeeds iff every element (read as a string, then parsed as a float) is accepted, and then yields one float per element in order. |
| Parser.FirstRejectedReported | parser.go:76-86 | A failing element loop reports the first rejected index, as "not a scalar" when the element is a list or map and as "not a float64" otherwise. |
| Parser.ParseFloatList | parser.go:67-93 | Nil gives a nil list. A scalar or map gives "not a list". A list gives the element loop's outcome: all elements in order, or the error of the first rejected element. |
| Parser.ParseClientProfile | parser.go:95-136 | A non-map is "profile should be a map". A map without `distribution` is "should have a distribution". A success comes from a map and carries an empty name. |
| Parser.ClientProfileOutcome | parser.go:99-133 | A client map with a distribution parses iff every present field (distribution, parameters, max-number-of-request, max-duration, wait-for) parses. Otherwise the error is the first rejected field's error in that order, wrapped with the client name and field. |
| Parser.ClientProfileFields | parser.go:98-133 | A parsed client holds the distribution string. Each optional field holds its parsed value when the key is present and nil/zero when absent. The name stays empty. |
| Parser.ParseStringFromMap | parser.go:138-147 | A missing key is "cannot find key". A present key succeeds iff its value is nil or a scalar, else "key should be a string". The value is the string reading of the node. |
| Parser.ClientKeys | parser.go:168-171 | The keys the profile loop treats as clients: exactly the keys other than `url`, `method` and `template`. |
| Parser.ClientKeysEnumerate | parser.go:168-171 | Skipping the reserved keys while ranging over every root key once visits every client key exactly once. |
| Parser.ParseClients | parser.go:168-177 | A successful client loop yields one profile per client key. |
| Parser.ParseClientsSuccess | parser.go:168-177 | The client loop succeeds iff every client key parses, and then yields those profiles in iteration order. |
| Parser.ParseClientsFailure | parser.go:172-175 | A failing client loop returns the error of the first client key, in iteration order, that does not parse. |
| Parser.ParseProfile | parser.go:149-186 | A non-map is "profile should be a map". A missing or non-string `url` is reported. `method` falls back to "GET" and `template` to "" unless the key holds a string, with nil reading as "". A successful profile has at least one client. |
| Parser.ProfileSuccessIff | parser.go:149-186 | The profile parses iff the root is a map, `url` holds a string, some key is not reserved, and every non-reserved key parses as a client. |
| Parser.ProfileClients | parser.go:168-177 | In a successful profile, the client keys list every non-reserved key once. There is one client per client key, and the i-th client is the parse of the i-th client key in iteration order. |
| Parser.ProfileClientsUnnamed | parser.go:95-136 | No client of a successful profile carries a name, since `Name` is never assigned. |
| Parser.ClientLoopValues | parser.go:168-177 | Over an enumeration of the root keys, the client keys enumerate the non-reserved keys, and a successful client loop yields one profile per client key, each the parse of its key. |
| Parser.ClientLoopSuccess | parser.go:168-184 | The client loop yields a non-empty list iff there is a non-reserved key and every one parses. |
| Parser.AllClientsOk | parser.go:168-177 | Every key of an enumeration parses iff every key of the enumerated set parses. |
| Parser.NoClientError | parser.go:182-184 | With a valid `url` and only reserved keys, the result is the "no client" error. |
| Parser.ReportedClientError | parser.go:168-184 | Once `url` is valid, a failure is either "no client" with no client key, or the error of some client whose profile fails. |
| Parser.AnyFailingClientMayBeReported | parser.go:168-177 | Which failing client gets reported depends on map iteration order. Every failing client is the one reported under some order of the keys. |
| Parser.FirstKeyReported | parser.go:168-175 | With a valid `url`, when the iteration meets a failing client first, that client's error is the profile's error. |
| Parser.ParseProfileAsWritten | parser.go:149-186 | The code as written panics exactly on an empty root map, because the capacity `len(kv)-1` is negative. Otherwise it returns what the corrected parser returns. |
| Parser.EmptyRootMap | parser.go:153-157 | On the empty root map the code as written panics, while the corrected parser reports "cannot find url". |
| Enumerations.EnumerationSize | parser.go:168 | A duplicate-free enumeration of a set, which is what ranging over a map gives, has as many elements as the set. |
| Enumerations.Enumerate | parser.go:168 | Every finite key set has some iteration order. |
| RandomDelay.ToLower | rdelay.go:18 | Lower-casing keeps the length and lower-cases each character. |
| RandomDelay.ToLowerMatches | rdelay.go:18 | A name lower-cases to a lower-case word iff it spells that word in any mixture of cases. |
| RandomDelay.Truncate | rdelay.go:31 | The float-to-integer conversion rounds toward zero. |
| RandomDelay.NewRandomDelay | rdelay.go:15-35 | The unit is stored as given. The generator is unset iff the lower-cased name is neither `poisson` nor `const`. `poisson` selects the Poisson generator. |
| RandomDelay.Delay | rdelay.go:37-44 | With no generator the sample is 100. A constant generator gives its constant and a Poisson generator its draw. An empty unit becomes "ms" and a non-empty unit is kept. |
| RandomDelay.ConstSamplesFirstParameter | rdelay.go:25-32 | `const` with parameters samples the first parameter truncated toward zero, and later parameters make no difference. |
| RandomDelay.ConstDefaultSample | rdelay.go:26 | `const` without parameters samples 500. |
| RandomDelay.ConstIgnoresCase | rdelay.go:18-32 | Any case spelling of `const` builds the same delay as `const`. |
| RandomDelay.UnknownNameFallsBack | rdelay.go:18-41 | A name matching neither `const` nor `poisson` in any case leaves the generator unset, so every sample is 100. |
| RandomDelay.UnitDefaultIdempotent | rdelay.go:42-44 | The unit after a call is the old unit, or "ms" if it was empty. A second call changes nothing more. |
| RequestFactory.Wrap32 | reqfac.go:54 | The result is an `int32` congruent to its input modulo 2^32, and equal to it when the input is in range. |
| RequestFactory.NewRequestFactory | reqfac.go:26-36 | An empty template gives a factory without template. Otherwise the factory succeeds iff the template parses, and holds it. A fresh counter is zero. |
| RequestFactory.NewRequest | reqfac.go:50-64 | With a template and no body, the counter advances by one with int32 wrap-around and the template sees the new value. A failed execution is an error, but the id stays consumed. Otherwise the factory is unchanged and the given body is passed through. When `http.NewRequest` rejects the method or URL, the error is `InvalidRequest`, with or without a template. Once the body is available, the request is built iff `http.NewRequest` accepts the method and URL, and it keeps both. |
| RequestFactory.NewRequests | reqfac.go:50-61 | n templated calls in a row see the ids after the counter, one each and in order, and leave the counter n further on (while the counter plus n stays below 2^31; the counter wraps after that). |
| RequestFactory.FreshIds | reqfac.go:26-61 | On a fresh templated factory, n calls see the ids 1..n, pairwise distinct (for n < 2^31; the counter wraps after that). |
| RequestFactory.FailedExecutionConsumesId | reqfac.go:54-60 | A failing template execution still consumes its id, so the next call sees the id after it. |
| WorkLoad.Deadline | wlgen.go:41-44 | There is a deadline iff the duration is positive, and it is the first clock reading plus the duration. |
| WorkLoad.Dispatch | wlgen.go:61-73 | A build error is reported with no response and zero duration. Otherwise the transport's response, elapsed time and error are reported, and the error is set iff the transport failed. |
| WorkLoad.DispatchAdvances | wlgen.go:64 | Each dispatch moves the shared factory one step: n dispatches consume n ids of a templated factory. |
| RequestFactory.Wrap32Succ | reqfac.go:54 | Incrementing a wrapped counter equals wrapping the incremented count. |
| WorkLoad.Schedule | wlgen.go:55-75 | n loop iterations produce 2n events, one start and one sleeper call per request. |
| WorkLoad.ScheduleShape | wlgen.go:55-75 | In the event schedule each request i is started once, in order, and followed by one sleeper call. |
| WorkLoad.Start | wlgen.go:40-77 | After the first wait, the loop starts requests 0, 1, ... with one sleeper call after each. Request k reports the dispatch of the factory after k earlier requests. A positive count bounds the number sent, and the loop stops for the count iff that many were sent. With no deadline and no external stop, exactly that many are sent. Every request started passed the deadline check, and a deadline stop means the check time was past the deadline. Without count and deadline the loop only ends when stopped from outside. |

## Left out

- `ParseProfileFile` and `NewRequestFactoryFromFile`: file I/O. The first reads a file and delegates to the parser. The second reads a template file and builds the factory itself.
- `main.go` and `dump.go`: flag handling, wiring and output. `main.go:58` calls `NewWorkLoadGenerator` with four arguments while the definition takes five.
- `NewWorkLoadGenerator`: it only stores its arguments, so it is the `WorkLoadGenerator` constructor.
- `GenerateSleeper` and `GenerateRequestFactory`: one-line delegations to the modelled constructors.
- `Sleeper`: the interface is not defined in the modelled files, so the sleeper is the event `Paced`.
- The HTTP client and transport, including the 10-second connect timeout: replaced by the `transport` function of `Env`.
- Poisson sampling: the draw is a parameter of `Delay`. The Poisson branch of `NewRandomDelay` declares an unused inner `lambda` at `rdelay.go:22`, so Go would not compile it. Its intended effect of passing the first parameter to the library is not modelled.
- `Delay`'s duration string and sleep: `fmt.Sprint` does not interpret `%v`, so the formatted text is not a valid duration. The model stops at the chosen integer and unit.
- `RandomDelay.ToLower`: only ASCII letters are lower-cased. Go's `strings.ToLower` also maps other Unicode letters.
- `RandomDelay.Truncate`: float64 rounding, infinities, NaN and overflow of the `int64` conversion are not modelled.
- The library parsers, template parsing and template execution are uninterpreted functions, so their own behaviour is not modelled.
- `Parser.ParseProfile`: on an error, Go also returns the partially filled profile, for example with "no client". The model returns only the error.
- `Parser.ParseProfile`: the Go error strings are represented by `ParseError` constructors carrying the same information, not by the text.
- `WorkLoad.Start`: goroutines, the wait group and the order of messages on the result channel are not modelled. Each request's outcome is computed in start order, and results are listed in that order.
- `WorkLoad.Start`: a `fuel` bound stands for the process being stopped from outside. Runs with no count and no deadline end only through it (`Terminated`).
- `WorkLoad.Deadline`: a deadline that lands exactly on Go's zero time would read as "no deadline" in Go. The model does not represent that.
- `WorkLoad.Start`: the shared factory's counter is advanced by concurrent goroutines in Go. The model advances it in start order, so ids are in start order only in this model.

## Findings

| source | as written | input that shows it | evidently intended | confidence | as-written member | corrected member |
|---|---|---|---|---|---|---|
| parser.go:153 | `make([]*ClientProfile, 0, len(kv)-1)` runs before any check, and a negative capacity makes Go panic | a profile whose root is an empty map | report the missing `url` ("cannot find url") | medium, not executed | Parser.ParseProfileAsWritten (with Parser.EmptyRootMap) | Parser.ParseProfile |
