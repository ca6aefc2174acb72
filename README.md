# sarah scan server core, modelled in Dafny

sarah is an HTTP front end over SANE scanners. A client posts a scan request, which names a device
and gives a map of option names to JSON values. The server then does the following:

- It resolves the device. First it opens the device by the exact name. If that fails, it opens the
  first enumerated device whose name contains the requested string.
- It applies the requested options. Each value is coerced to the kind the device declares for
  that option.
- It acquires an image and writes it as a PNG to a time-stamped file under the scan directory.
- It remembers that file's name, so that the `last` endpoint can serve it.

The project models that decision logic and proves what it promises:

- `wrappers.dfy` (`Wrappers`) holds the `Option` and `Result` types.
- `seqs.dfy` (`Seqs`) holds order facts about mapping each element of a sequence to a sequence
  and joining the results.
- `goruntime.dfy` (`GoRuntime`) holds the parts of Go the core leans on:
  - `strings.Contains`, with a reference definition by offsets;
  - the `%0Nd` verb of `fmt`, with a round trip through the decimal value;
  - `int(float64)` as truncation toward zero.
- `sane.dfy` (`Sane`) is the driver side:
  - option descriptors, devices, images and option values;
  - the driver as a set of deterministic answers (the result of opening each name, and the
    device enumeration);
  - the class `Conn`, an open connection that records the `SetOption` calls it receives, counts
    its `ReadImage` calls and knows whether it was closed.
- `sarah.dfy` (`Sarah`) is the server itself:
  - `findOption` and `openDevice`, as pure recursive searches;
  - one iteration of the option loop (`ApplyOne`), and the loop over all requested pairs
    (`ApplyOptions`);
  - the short-circuiting step order of `doScan`, first as a specification function
    (`ScanSpec`), then as the imperative methods `ApplyPair`, `ApplyRequestedOptions` and `DoScan`
    over a `Conn`, proved against it;
  - `getScanFilename`, with its parser and round trip;
  - a `Server` class holding the `scanFile` slot that `scan` overwrites and `last` reads.

The request's options come from a Go map, whose iteration order is arbitrary. The model takes
them as a sequence of pairs in any order. `ApplyOptionsOrderIndependent` shows that whether the
loop runs to the end does not depend on that order. When it does run to the end, the device
receives the same assignments, possibly reordered.

Behaviour of the code worth knowing:

- Every error `doScan` returns is answered with HTTP 400 (sarah.go:122-125). Errors are not
  classified by cause.
- `SetOption`'s error is discarded (sarah.go:215). A device that rejects an assignment never
  ends a scan (`RejectedSetOptionIgnored`).
- A value of the wrong JSON type for a settable option is an unchecked type assertion, which
  panics (sarah.go:206-212). It is not a returned error. The model gives it the separate outcome
  `Panicked`.
- `scanFile` is overwritten before the scan runs (sarah.go:119-121), not after it succeeds.
  After a failed scan the slot names the new file.
- A name contained in exactly one enumerated device name resolves to whatever opening that
  device gives, which may be an error (`UniqueMatchResolves`). It is not guaranteed to succeed.
- Option kinds other than bool, int, float and string (buttons, groups) have no case in the
  type switch. The value stays nil and `SetOption` is still called with it (sarah.go:202-215).

## Model

| member | source | states |
|---|---|---|
| Sarah.FindOption | sarah.go:231-238 | a found option has the requested name and is in the list; the lookup fails exactly when no option has that name, and the error reads "no such option " + name |
| Sarah.Error.Message | sarah.go:177 | the texts `fmt.Errorf` builds: "no device named " + name (sarah.go:177) and "no such option " + name (sarah.go:237); errors from the driver, the file system and the encoder keep their own text |
| Sarah.LookupMessagesDistinct | sarah.go:237 | a "no such option" text never equals a "no device named" text, and each text determines the name that was looked up |
| Sarah.FindOptionIsFirst | sarah.go:232-235 | when several options share the name, the first one in the list is returned |
| Sarah.FirstCandidate | sarah.go:172-176 | the device picked is the first whose name contains the requested string; none is picked exactly when no name contains it |
| Sarah.OpenDevice | sarah.go:162-163 | the exact name is always tried first |
| Sarah.OpenDeviceCases | sarah.go:162-178 | a direct open that succeeds is returned without enumerating; an enumeration error is returned; no match gives "no device named " + name; otherwise the first match is opened, its result is returned as is, and no later candidate is tried |
| Sarah.UniqueMatchResolves | sarah.go:168-175 | after a failed direct open, a name contained in exactly one enumerated device name resolves to the result of opening that device |
| GoRuntime.Contains | sarah.go:173 | `strings.Contains`: a prefix is contained, and nothing longer than the string is |
| Sarah.EmptyNameOpensFirstDevice | sarah.go:162-175 | an empty device name that does not open directly opens the first enumerated device, after one enumeration, and returns that open's result |
| GoRuntime.ContainsIffOccurs | sarah.go:173 | `strings.Contains` holds exactly when the substring occurs at some offset |
| GoRuntime.EmptyIsContained | sarah.go:173 | the empty string is contained in every string |
| Sarah.Coerce | sarah.go:202-213 | a bool kind takes a JSON bool as is; an int kind takes a JSON number truncated toward zero; a float kind takes the number unchanged; a string kind takes the string as is; any other representation is a panic; other kinds leave the value nil |
| GoRuntime.Trunc | sarah.go:208 | `int(f)` drops the fractional part toward zero |
| GoRuntime.TruncationUnique | sarah.go:208 | exactly one integer is the truncation of a number |
| GoRuntime.TruncExamples | sarah.go:208 | 2.7 becomes 2, -2.7 becomes -2, and 300.0 becomes 300 |
| Sarah.ApplyOne | sarah.go:194-216 | one requested pair never stops the loop with a success status |
| Sarah.ApplyOneCases | sarah.go:194-216 | an unknown name stops the scan with its lookup error; a non-settable option is skipped with no call and no error; a settable option receives the coerced value under its own name; a wrong representation panics |
| Sarah.ApplyOptions | sarah.go:193-217 | at most one assignment per requested pair |
| Sarah.ApplyOptionsStatus | sarah.go:193-217 | the loop runs to the end exactly when every requested pair lets it go on; otherwise it ends as one of the requested pairs makes it end |
| Sarah.ApplyOptionsAllPass | sarah.go:193-217 | when no pair stops the loop, it makes every call the pairs lead to, in visiting order, and succeeds |
| Sarah.ApplyOptionsStopsAtFirstRejected | sarah.go:193-217 | the loop makes the calls of the pairs before the first pair that stops it, then ends with that pair's error or panic |
| Sarah.RequestedCallsExtend | sarah.go:193-217 | the calls of one more pair follow the calls of the pairs before it |
| Seqs.FlatMapPermutation | sarah.go:193 | reordering the requested pairs reorders the calls they lead to, whatever calls each pair leads to |
| Sarah.ApplyOptionsOrderIndependent | sarah.go:193 | the map's iteration order changes neither whether the loop succeeds nor, on success, the assignments made (as a multiset) |
| Sarah.NonSettableOptionIgnored | sarah.go:200 | a pair naming a non-settable option can be dropped from the request without changing the loop's calls or outcome |
| Sarah.ScanSpec | sarah.go:180-229 | `doScan` over abstract file, driver and encoder: a device that was not opened receives nothing, and the scan then fails; success only after an image was acquired from an opened device |
| Sarah.ScanStepOrder | sarah.go:180-229 | no image is acquired unless the device was opened and every pair passed; nothing reaches an unopened device, and such a scan fails; a successful scan acquired an image; at most one assignment per pair |
| Sarah.UnknownOptionStopsScan | sarah.go:193-219 | an undeclared option name means no acquisition and no success; when it is the first pair to stop the loop, the scan fails with "no such option" after the earlier pairs' calls |
| Sarah.NonSettableOptionChangesNothing | sarah.go:200 | a pair naming a non-settable option can be left out of the request without changing anything the scan does |
| Sarah.ScanSucceedsIffEveryStepDoes | sarah.go:180-229 | a scan succeeds exactly when the file is created, the device resolves, every pair passes, acquisition succeeds and encoding succeeds |
| Sarah.RejectedSetOptionIgnored | sarah.go:215 | which assignments the device rejects changes neither the scan's outcome, its calls nor its acquisition |
| Sarah.GenesysExample | sarah.go:180-229 | resolution 300 and mode "Color" for a device declaring an int `resolution` and a string `mode` set both as given, acquire once and succeed |
| Sarah.NonexistentOptionExample | sarah.go:193-198 | a request naming "nonexistent" fails with "no such option nonexistent" before acquisition, with nothing set |
| Sane.Conn.SetOption | sarah.go:215 | the device records the assignment and may reject it; nothing else changes |
| Sane.Conn.ReadImage | sarah.go:219 | acquisition returns the device's frame or error and is counted |
| Sane.Conn.Close | sarah.go:191 | the connection is closed and nothing else changes |
| Sarah.ApplyPair | sarah.go:194-216 | one loop iteration against a connection stops exactly when `ApplyOne` stops, with its status, and appends exactly the call `ApplyOne` makes |
| Sarah.ApplyRequestedOptions | sarah.go:193-217 | the loop over a connection returns the status of `ApplyOptions` and appends exactly its calls to what the device has received |
| Sarah.DoScan | sarah.go:180-229 | the status is the one `ScanSpec` gives; a connection exists exactly when a device was opened; it received exactly the assignments of `ScanSpec`, was read at most once (exactly when the specification acquires) and is closed on every path |
| GoRuntime.DecimalRoundTrip | sarah.go:132 | reading back the decimal text of a number gives the number |
| GoRuntime.DecimalLength | sarah.go:132 | a number below 10^w takes at most w digits |
| GoRuntime.LeadingZeros | sarah.go:132 | leading zeros do not change the value of a digit string |
| GoRuntime.ZerosValue | sarah.go:132 | a string of zeros reads as zero |
| GoRuntime.PadIntRoundTrip | sarah.go:132 | `%0Nd` of a number that fits in N digits is exactly N digits and reads back as the number |
| GoRuntime.PadInt | sarah.go:132 | `%0Nd` never produces fewer than N characters, and a negative number starts with '-' |
| Sarah.ScanFilename | sarah.go:130-133 | `getScanFilename`: always "scan-" first and ".png" last, and never shorter than 23 characters, whatever the clock says |
| Sarah.StampRoundTrip | sarah.go:132 | for in-range components, YYYYMMDDhhmmss is 14 digits that read back as the same time |
| Sarah.StampFields | sarah.go:132 | each padded field sits at its fixed offset in the stamp |
| Sarah.ScanFilenameRoundTrip | sarah.go:130-133 | for in-range components, the file name is 23 characters and parses back to the same time |
| Sarah.ScanFilenameInjective | sarah.go:130-133 | two different in-range times never share a file name |
| Sarah.Server.LastScan | sarah.go:106 | the path served is the scan directory, a slash, and the slot's file name |
| Sarah.Server.Scan | sarah.go:111-128 | a body that fails to bind leaves the slot unchanged; otherwise the slot is set to the new file name before the scan, whatever the scan's outcome, and the scan writes to the path `last` serves |

## Left out

- HTTP routing, CORS, JSON binding, and the choice of status codes and response bodies in `list`,
  `config`, `scan` and `last`. `scan` takes the bound request or the bind error as a parameter.
- `main`, flag parsing, configuration loading, `sane.Init`/`sane.Exit` and `die`. These are
  process setup; `scanPath` is a constructor parameter.
- The SANE driver. `sane.Open`, `sane.Devices` and the frame `ReadImage` returns are
  deterministic answers given as parameters.
- The driver reloading its option descriptors after a `SetOption`. A handle's options are fixed,
  although the source re-reads `c.Options()` on every iteration.
- PNG encoding and file creation. `os.Create` and `png.Encode` are given as functions that
  report an error or success. Reading the file back in `last` (`readImage`) is not part of this
  model, so neither is the round trip from encoder to retrieval.
- `time.Now()`. The clock's components are a parameter of `Scan`.
- Concurrency: races on the global `scanFile` between simultaneous handlers, and serialising
  acquisitions on one device.
- IEEE floating point. JSON numbers are reals, so the undefined result of `int(f)` for values
  outside the 64-bit range is not modelled.
- The contents of JSON arrays and objects. The model only needs to know that they are neither
  bools, numbers nor strings.
- Sarah.Server.Scan: a panic is returned as the status `Panicked`, not unwound; the deferred
  closes still run in `DoScan`.
