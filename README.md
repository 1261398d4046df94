# ProcessService start/stop lifecycle — a Dafny model

ADDSMonitoringDemo tracks "processes": units of work that a caller names by
five string properties. `POST /ADDSDemo/start` records the start of a process and
`POST /ADDSDemo/stop` records its end. Both calls go through `ProcessService`, which
keeps one Elasticsearch document per process in the `addsmonitoring` index.
This project models that service:

- **Id derivation (`GetHash`).** The five properties are concatenated with
  no separator and UTF-8 encoded. The bytes are hashed with SHA-256 and the
  32-byte digest is rendered by `BitConverter.ToString` (upper-case pairs
  joined by `-`). The dashes are then removed.
- **Start (`StartProcessAsync`).** Upserts an open document at that id,
  with the request's properties and the current time as `StartTimestamp`.
  It returns the id.
- **Stop (`StopProcessAsync`).** Re-derives the id and reads the stored
  document. It keeps the stored `StartTimestamp`, sets `StopTimestamp` to
  now and `Duration` to their difference. Then it overwrites the whole
  document at the same id.

The model makes three abstractions:
- the index is a `map<string, ProcessDocument>`;
- SHA-256 is any function from bytes to 32-byte digests, held by the service;
- the clock is a `now` tick count passed to each call.

## Layout

| file | module | contents |
|---|---|---|
| `wrappers.dfy` | `Wrappers` | `Option`, `Result`, `Outcome` |
| `bytes.dfy` | `Bytes` | the `byte` type |
| `utf8.dfy` | `Utf8` | `Encoding.UTF8.GetBytes` and a decoder that undoes it |
| `hex.dfy` | `Hex` | `BitConverter.ToString`, `String.Replace("-", "")`, a reference rendering and its parser |
| `processes.dfy` | `Processes` | `ProcessRequest`, `ProcessDocument`, `DateTime` as ticks |
| `fingerprint.dfy` | `Fingerprint` | `GetHash` and what the id depends on |
| `lifecycle.dfy` | `Lifecycle` | start and stop as functions on the index, their lemmas, runs of several calls |
| `service.dfy` | `Service` | the `ProcessService` class, whose methods update its `index` field, and `StartThenStopScenario`, a worked start/stop example |

## Behaviour the model pins down

These are proved as stated:
- Separator-free concatenation makes different requests share an id, for
  any hash function. An example is `("ab","c",…)` and `("a","bc",…)`.
- Otherwise the id separates requests as far as the hash does. Two
  requests hash the same bytes exactly when their concatenations are equal.
  They get the same id exactly when their digests are equal.
- Start silently overwrites an existing document, open or stopped. This
  resets its start time.
- Stop writes the properties of the stop request, not the stored ones.
- Stop never sets `IsComplete`, and neither does start. No run of calls
  sets it.
- Stop never checks the sign of the duration. A `now` earlier than the
  start stores a negative duration.
- Stop twice succeeds both times. The second stop keeps the original start.
- Stop with no stored document fails and writes nothing.

Three details of the code that the model reproduces:
- `StopProcessAsync` never sets `IsComplete`, and neither does `StartProcessAsync`.
- With no stored document, line 75 dereferences the null `Source` and throws
  `NullReferenceException`. The model represents that exception as the
  failure value `Failure(SourceMissing(id))` and leaves the index unchanged.
- An open document carries `default(DateTime)` (tick 0) as its stop time and
  `TimeSpan.Zero` as its duration, not missing fields.

## Model

| member | source | states |
|---|---|---|
| `Utf8.EncodeChar` | Controllers/ADDSDemoController.cs:97 | a character encodes to 1–4 bytes; exactly the ASCII characters take one byte, and only then is the first byte below 0x80 |
| `Utf8.Encode` | Controllers/ADDSDemoController.cs:97 | the encoding of a string has between 1 and 4 bytes per character |
| `Utf8.DecodeEncode` | Controllers/ADDSDemoController.cs:97 | decoding the UTF-8 encoding of any string gives the string back |
| `Utf8.EncodeInjective` | Controllers/ADDSDemoController.cs:97 | two strings have the same UTF-8 bytes if and only if they are equal |
| `Utf8.EncodeConcat` | Controllers/ADDSDemoController.cs:97 | the encoding of a concatenation is the concatenation of the encodings |
| `Hex.Digit` | Controllers/ADDSDemoController.cs:101 | a nibble's digit is in 0-9 or A-F and parses back to the nibble |
| `Hex.DigitValue` | Controllers/ADDSDemoController.cs:101 | exactly the upper-case hex digits have a value, and it is below 16 |
| `Hex.RemoveDashes` | Controllers/ADDSDemoController.cs:101 | `Replace("-", "")` leaves no dash, returns a dash-free string unchanged, turns `"-"` into `""`, never lengthens the string and keeps only characters of its input; with `RemoveDashesConcat` this fixes it: every non-dash character kept, in order |
| `Hex.RemoveDashesConcat` | Controllers/ADDSDemoController.cs:101 | removing dashes distributes over concatenation |
| `Hex.BitConverterToString` | Controllers/ADDSDemoController.cs:101 | `BitConverter.ToString` of n > 0 bytes has 3n-1 characters (none for no bytes), and a character is a dash exactly at the positions 3i+2 between pairs |
| `Hex.BitConverterToStringLayout` | Controllers/ADDSDemoController.cs:101 | in `BitConverter.ToString`, byte i's high and low digit stand at positions 3i and 3i+1 |
| `Hex.RemoveDashesOfBitConverterToString` | Controllers/ADDSDemoController.cs:101 | stripping the dashes from `BitConverter.ToString` gives exactly the digit pairs back to back |
| `Hex.HexLayout` | Controllers/ADDSDemoController.cs:101 | the dash-free rendering has 2 characters per byte, high nibble then low nibble, each in 0-9 or A-F |
| `Hex.ParseHexOfHex` | Controllers/ADDSDemoController.cs:101 | parsing the rendering gives the bytes back |
| `Hex.HexInjective` | Controllers/ADDSDemoController.cs:101 | two byte sequences render the same if and only if they are equal |
| `Fingerprint.GetHash` | Controllers/ADDSDemoController.cs:95-103 | the id is 64 characters, each in 0-9 or A-F |
| `Fingerprint.GetHashLayout` | Controllers/ADDSDemoController.cs:98-101 | the id is the digest's hex rendering: characters 2i and 2i+1 are byte i's high and low digit |
| `Fingerprint.Concatenation` | Controllers/ADDSDemoController.cs:97 | the interpolated string is as long as the five properties together and holds Prop1..Prop5 in order, each starting where the previous one ends |
| `Fingerprint.HashInput` | Controllers/ADDSDemoController.cs:97 | the hashed bytes are the UTF-8 bytes of Prop1..Prop5 back to back with no separator |
| `Fingerprint.HashInputsEqualIffConcatenationsEqual` | Controllers/ADDSDemoController.cs:97 | two requests hash the same bytes if and only if their concatenations are equal |
| `Fingerprint.IdsEqualIffDigestsEqual` | Controllers/ADDSDemoController.cs:95-102 | two requests get the same id if and only if the hash gives their inputs the same digest |
| `Fingerprint.SameConcatenationSameId` | Controllers/ADDSDemoController.cs:95-97 | equal concatenations give equal ids, whatever the hash |
| `Fingerprint.SeparatorFreeCollision` | Controllers/ADDSDemoController.cs:97 | `("ab","c","","","")` and `("a","bc","","","")` are different requests with the same id |
| `Lifecycle.Start` | Controllers/ADDSDemoController.cs:53-69 | start returns `GetHash(request)` and writes that one key: the key set grows by it and every other document is unchanged. The document there has the request's properties, the start time `now`, a default stop time, a zero duration and `IsComplete` false |
| `Lifecycle.Stop` | Controllers/ADDSDemoController.cs:71-93 | stop fails with `SourceMissing(id)` if and only if no document is stored at the id. Otherwise it keeps the key set and every other document. The document at the id has the request's properties, the stored start time, the stop time `now`, duration `now - start` and `IsComplete` false |
| `Lifecycle.StartOverwritesExisting` | Controllers/ADDSDemoController.cs:56-67 | start on an occupied id keeps the number of documents and resets the start time, stop time and duration |
| `Lifecycle.StopWithoutStartFails` | Controllers/ADDSDemoController.cs:73-75 | stop on any index that holds no document at the request's id fails with `SourceMissing` at that id |
| `Lifecycle.StartThenStop` | Controllers/ADDSDemoController.cs:53-93 | start at t0 then stop at t1 succeeds, adds only the started id and stores start t0, stop t1, duration t1 - t0 |
| `Lifecycle.NegativeDurationIsStored` | Controllers/ADDSDemoController.cs:75-77 | start at tick 10 and stop at tick 4 store a duration of -6 |
| `Lifecycle.StopTakesPropertiesFromRequest` | Controllers/ADDSDemoController.cs:79-90 | after start with r1, stop with a colliding r2 succeeds, stores r2's properties and keeps r1's start time |
| `Lifecycle.StopTwice` | Controllers/ADDSDemoController.cs:71-92 | a second stop succeeds, keeps the original start and records the later stop and duration; only that key differs from before both stops |
| `Lifecycle.DurationFitsTimeSpan` | Controllers/ADDSDemoController.cs:77 | the computed duration always lies within the range of a `TimeSpan` |
| `Lifecycle.OperationsKeepKeyedById` | Controllers/ADDSDemoController.cs:58-92 | start and a successful stop keep every document stored under its own `Id` |
| `Lifecycle.RunKeys` | Controllers/ADDSDemoController.cs:53-93 | after any sequence of calls the ids are the old ones plus those of the starts: stop creates nothing, nothing is deleted |
| `Lifecycle.RunNeverCompletes` | Controllers/ADDSDemoController.cs:53-93 | from an index where no document is complete, no sequence of calls sets `IsComplete` on any document |
| `Lifecycle.RunKeepsKeyedById` | Controllers/ADDSDemoController.cs:53-93 | from an index where every document is stored under its own `Id`, every sequence of calls keeps it so |
| `Service.ProcessService.constructor` | Controllers/ADDSDemoController.cs:39-40 | a service holds the given hash and the index contents it is built over |
| `Service.ProcessService.Get` | Controllers/ADDSDemoController.cs:74 | the lookup finds a document if and only if one is stored at the id, and it is the stored one |
| `Service.ProcessService.StartProcess` | Controllers/ADDSDemoController.cs:53-70 | the new index and the returned id are those of `Lifecycle.Start` on the old index; documents stay keyed by their id |
| `Service.ProcessService.StopProcess` | Controllers/ADDSDemoController.cs:71-93 | passes if and only if the request's id was stored; the new index is `Lifecycle.Stop`'s on success and the old index on failure |

## Left out

- The HTTP controller `ADDSDemoController` is left out: it only forwards requests and wraps the results.
- The `ProcessService` constructor reads `config.json` and builds the Elasticsearch client. This I/O is left out: the model's constructor takes the hash and the initial index contents.
- `ElasticOptions` is configuration only and is left out.
- The Elasticsearch client is not modelled. `IndexAsync` is a map update and `GetAsync` a map lookup. Store and network errors are not modelled, since the code ignores the index response. The JSON round trip of a document is taken as exact; `DateTime` precision and `Kind` are not modelled.
- SHA-256 itself is not modelled. The service is given an arbitrary function from bytes to 32-byte digests. So the model proves nothing that depends on collision resistance.
- `Utf8.Decode` is the left inverse used to prove that encoding is injective. It is not a model of a .NET decoder; it accepts overlong forms.
- UTF-16 strings with unpaired surrogates cannot be written as Dafny strings. .NET encodes each unpaired surrogate as EF BF BD, so such strings can share hash inputs in a way the model does not show.
- A property left null by model binding is interpolated as "" but stored as null. The model's properties are always strings.
- `DateTime.UtcNow` is the `now` parameter, a tick count between 0 and `DateTime.MaxValue.Ticks`. `TimeSpan` is a signed tick count.
- Async execution and races between concurrent starts and stops are left out. The service takes no lock, so its calls are modelled one after another.
- The unused `Timestamp` field of `ProcessDocument` is left out.
- The demo-data generator (`create_demo_data`) is not part of this model.
