# Laundry machine records: decoding and rendering

A Dafny model of the machine record of a laundry-status chat bot. A remote API
describes each washer or dryer as a JSON object. `(*machine).UnmarshalJSON`
reads one object into a `machine`: it looks up a fixed display name for the
machine's position, and it computes the time left on the current cycle when
the machine is in use. `machines.String` renders a list of machines as text,
one block per machine.

Layout:

- `wrappers.dfy`: module `Wrappers`, the `Option` and `Result` datatypes.
- `json.dfy`: module `Json`. It holds JSON values and the Go `interface{}`
  values that encoding/json stores for them in a `map[string]interface{}`.
  It also holds the map lookup and the comma-ok type assertions `.(float64)`,
  `.(string)` and `.(int)` on those values.
- `gotime.dfy`: module `GoTime`, `time.Time` and the 64-bit `time.Duration`,
  with wrap-around multiplication, `Add`, and `Sub`/`Until`, which saturate.
- `machine.dfy`: module `Machine`. It holds the `Record` value, the name
  switch, the pure specification `Decode`, the class `Machine` whose
  `Unmarshal` assigns its fields step by step, and `Render`, the rendering
  loop, proved against `RenderAll`.
- `machine_lemmas.dfy`: module `MachineLemmas`, the properties of the decoder
  and the renderer.

Inputs that the code takes from the environment are parameters:

- the wall clock of `time.Until` is `now`;
- `time.Parse(time.RFC3339, ·)` is `parse: string -> Option<Time>`;
- `Time.Format(time.Kitchen)` is `kitchen`;
- `Duration.String` is `format`.

The payload is given after JSON parsing: `None` stands for bytes that are not
JSON.

Behaviour kept as the code has it:

- `type` and `status` are stored as the raw strings. A missing or non-string
  value becomes `""`. Nothing maps them to an "unknown" variant, and no status
  is turned into a phrase. The rendered block prints the raw status.
- `duration` is read with `.(int)`. Every JSON number decodes to `float64`, so
  this assertion never succeeds and the duration is always 0. An in-use record
  therefore gets `TimeLeft = LastStartedAt.Sub(now)`.
  `MachineLemmas.InUseWasherScenario` shows this: a 1800-second cycle started
  1000 seconds ago has 1000 seconds *past due*, not 800 seconds left.
- The name and the time left are computed inside the decode, which reads the
  wall clock. Here the clock is an explicit `now` parameter.
- The record keeps no position and no duration, only the fields of `machine`.
- Blocks are concatenated directly. Each block ends in `" \n"`, and no extra
  blank line separates them.
- JSON `null` unmarshals into a nil map without an error. It then reads like
  an object with no keys, so it fails only because the timestamp `""` does not
  parse. A JSON value that is neither an object nor null is a type error.

## Model

| member | source | states |
|---|---|---|
| `GoTime.Wrap64` | machine.go:90 | the 64-bit two's-complement value of an integer: congruent to it mod 2^64, and the integer itself when it fits (used for `time.Duration(duration)` and inside `Mul`) |
| `GoTime.Mul` | machine.go:90 | `time.Duration(duration) * time.Second` is the product modulo 2^64 in the int64 range, and the exact product when it fits |
| `GoTime.Add` | machine.go:90 | `Sub` inverts `Time.Add`: measuring back from the moved instant gives the duration added; the zone is kept |
| `GoTime.Sub` | machine.go:90 | `time.Until`/`Time.Sub` gives the exact signed difference when it fits in 64 bits, saturates to the int64 bounds otherwise, and is negative exactly when the target lies before `now` |
| `GoTime.Until` | machine.go:90 | `time.Until(t)` with the given `now` is the duration that, added to `now`, reaches `t` whenever it fits in 64 bits; it is negative exactly when `t` is before `now` and zero exactly when they coincide |
| `Json.Stored` | machine.go:40-41 | encoding/json stores JSON null as nil, a number as float64 and a string as string, each exactly; no decoded value has the dynamic type int |
| `Json.Float64AssertionOnDecoded` | machine.go:46-49 | `.(float64)` with ok ignored yields the number for a JSON number and 0 for any other decoded value |
| `Json.StringAssertionOnDecoded` | machine.go:50-55 | `.(string)` with ok ignored yields the string for a JSON string and "" for any other decoded value |
| `Json.IntAssertionOnDecoded` | machine.go:89 | `.(int)` yields 0 for every decoded JSON value, numbers included, since none is stored as int |
| `Machine.MachineName` | machine.go:62-74 | positions 0 to 3 give the four table names in order; every other integer, and only those, gives "Unknown machine" |
| `Machine.ObjectOf` | machine.go:40-43 | unmarshalling into the map fails exactly when the payload is not JSON, or is JSON that is neither an object nor null |
| `Machine.TimeLeftOf` | machine.go:82-90 | the time left is zero for every status other than "in_use" |
| `Machine.Decode` | machine.go:38-93 | a decoded record whose status is not "in_use" has zero time left; its name is one of the five fixed names; an unmarshalling failure is returned before any field is read |
| `Machine.Block` | machine.go:101 | one machine's text starts with the name, " is ", the raw status and " \n\t last started at ", ends with " remaining \n", and is as long as its four inserted strings plus the 40 characters of the format |
| `Machine.RenderAll` | machine.go:98-104 | no machines render as ""; otherwise the text starts with the first machine's block |
| `Machine.RenderAllAppend` | machine.go:100-102 | one more machine at the end of the list adds its block at the end of the text |
| `Machine.Machine.constructor` | machine.go:11-18 | a new machine holds the zero value of every field |
| `Machine.Machine.Unmarshal` | machine.go:38-93 | on success the fields hold the decoded record and no error is returned; on failure the error is returned and every field keeps its old value |
| `Machine.Values` | machine.go:96 | the records of a list of machines, one per machine, in order |
| `Machine.Render` | machine.go:98-104 | the rendered text is the in-order concatenation of one block per machine |
| `MachineLemmas.PositionNames` | machine.go:62-74 | a decoded "pos" of 0, 1, 2, 3 names the coin washer, PayLah washer, PayLah dryer, coin dryer; any other integer, negative included, gives "Unknown machine" |
| `MachineLemmas.NameDependsOnlyOnPos` | machine.go:48-49 | two objects with the same "pos" get the same name, whatever else differs |
| `MachineLemmas.NumbersDefaultToZero` | machine.go:46-49 | "floor" is the number given or 0 when it is absent or not a number; a missing or non-number "pos" names the coin washer |
| `MachineLemmas.StringsVerbatim` | machine.go:50-53 | "type" and "status" are stored verbatim when they are strings and are "" otherwise |
| `MachineLemmas.LenientFieldsNeverFail` | machine.go:46-59 | two objects with the same "last_started_at" either both decode or both fail, whatever their other fields |
| `MachineLemmas.TimestampIsStrict` | machine.go:55-59 | an object fails exactly when its timestamp string does not parse; the error carries that string; on success the start time is the parsed one |
| `MachineLemmas.MissingTimestampFails` | machine.go:55-59 | a missing or non-string "last_started_at" fails with a parse error on "" |
| `MachineLemmas.UnparsableTimestampFails` | machine.go:55-59 | a timestamp string that does not parse fails with a parse error on that string |
| `MachineLemmas.NonObjectPayloads` | machine.go:40-43 | non-JSON bytes and non-object JSON fail before any field is read; null decodes like an object without keys and so fails on the timestamp |
| `MachineLemmas.InUseTimeLeftFormula` | machine.go:89-90 | in use, the time left is start plus duration seconds minus now, exactly, whenever the values fit in 64 bits; it is not clamped at zero |
| `MachineLemmas.InUseTimeLeft` | machine.go:82-90 | after a successful in-use decode, the time left is the start time minus now (duration contributes nothing); it is negative exactly when now is past the start |
| `MachineLemmas.NotInUseNoTimeLeft` | machine.go:82-85 | a status other than the string "in_use" leaves exactly zero time |
| `MachineLemmas.OtherKeysIgnored` | machine.go:45-90 | setting or removing a key other than floor, pos, type, status and last_started_at does not change the result |
| `MachineLemmas.DurationIgnored` | machine.go:89 | any "duration" value gives the same result as no "duration" at all |
| `MachineLemmas.IdleWasherScenario` | machine_test.go:19-34 | the idle floor-14 washer at position 0 decodes to "Coin washer", floor 14, type "washer", status "idle", the parsed start time and zero time left |
| `MachineLemmas.InUseWasherScenario` | machine.go:82-90 | the same washer in use, started 1000 s before now with an 1800 s cycle, decodes with -1000 s left |
| `MachineLemmas.RenderAllConcat` | machine.go:98-104 | rendering a concatenated list gives the concatenation of the two renderings |
| `MachineLemmas.RenderOne` | machine.go:100-103 | a list of one machine renders as that machine's block alone |

## Left out

- Parsing raw bytes into JSON (`json.Unmarshal`, machine.go:40-43) is not modelled. The decoder receives the decoded value, and `None` stands for bytes that are not JSON.
- JSON numbers are integers. The `float64` to `int` conversion at machine.go:47,49 (fractions, NaN, out-of-range values) is floating point and is not modelled.
- `time.Parse` with the RFC 3339 layout is the `parse` parameter, and its grammar is not modelled. Lemmas that need the empty string to be rejected say so with `parse("") == None`.
- `Time.Format(time.Kitchen)` and `Duration.String` are the `kitchen` and `format` parameters. Their text is not modelled.
- The wall clock of `time.Until` is the explicit `now`. Go's monotonic clock reading is not modelled, because a parsed time has none.
- `time.Time` is an unbounded count of nanoseconds plus a zone offset. Go's bounds on the representable years and its `Location` values are not modelled.
- `strings.Builder` is a string that the rendering loop extends. This changes nothing in the text produced.
- Nil entries in the `machines` slice are not modelled: `String` would dereference them and panic. The slice is a sequence of non-null machines.
- main.go is not part of this model. It covers the chat bot, the HTTP request with its API-key header, the route table and the decoding of the response array.
