/**
 * Properties of the machine decoder and renderer: the fixed name lookup, the
 * lenient fields and their defaults, the one strict field, the time left, the
 * ignored keys, and the ordered concatenation of the rendered blocks.
 */
module MachineLemmas {
  import opened Wrappers
  import opened Json
  import opened GoTime
  import opened Machine

  /** Decoding a JSON object. */
  function DecodeObject(xs: map<string, JsonValue>, now: Time, parse: string -> Option<Time>)
    : Result<Record, DecodeError>
  {
    Decode(Some(JObject(xs)), now, parse)
  }

  // ----- Name -----

  /** The name is the fixed lookup of the number under "pos": 0 to 3 give the
      four known names, every other integer (negative ones too) the unknown
      name. */
  lemma PositionNames(xs: map<string, JsonValue>, now: Time, parse: string -> Option<Time>, p: int)
    requires Lookup(xs, PosKey) == JNumber(p)
    requires DecodeObject(xs, now, parse).Success?
    ensures p == 0 ==> DecodeObject(xs, now, parse).value.name == "Coin washer"
    ensures p == 1 ==> DecodeObject(xs, now, parse).value.name == "PayLah washer"
    ensures p == 2 ==> DecodeObject(xs, now, parse).value.name == "PayLah dryer"
    ensures p == 3 ==> DecodeObject(xs, now, parse).value.name == "Coin dryer"
    ensures (p < 0 || p > 3) <==> DecodeObject(xs, now, parse).value.name == "Unknown machine"
  {
  }

  /** Two objects with the same "pos" decode to the same name, whatever their
      other fields, clocks and parsers. */
  lemma NameDependsOnlyOnPos(xs: map<string, JsonValue>, ys: map<string, JsonValue>,
                             now: Time, now': Time,
                             parse: string -> Option<Time>, parse': string -> Option<Time>)
    requires Lookup(xs, PosKey) == Lookup(ys, PosKey)
    requires DecodeObject(xs, now, parse).Success? && DecodeObject(ys, now', parse').Success?
    ensures DecodeObject(xs, now, parse).value.name == DecodeObject(ys, now', parse').value.name
  {
  }

  // ----- Lenient fields -----

  /** "floor" and "pos" are read as numbers and default to 0 when absent or of
      another type; a missing "pos" therefore names the coin washer. The last
      clause is a case of the one before it (a missing key reads as null),
      spelled out because it is the common case. */
  lemma NumbersDefaultToZero(xs: map<string, JsonValue>, now: Time, parse: string -> Option<Time>)
    requires DecodeObject(xs, now, parse).Success?
    ensures Lookup(xs, FloorKey).JNumber? ==>
              DecodeObject(xs, now, parse).value.floor == Lookup(xs, FloorKey).n
    ensures !Lookup(xs, FloorKey).JNumber? ==> DecodeObject(xs, now, parse).value.floor == 0
    ensures !Lookup(xs, PosKey).JNumber? ==> DecodeObject(xs, now, parse).value.name == "Coin washer"
    ensures PosKey !in xs ==> DecodeObject(xs, now, parse).value.name == "Coin washer"
  {
  }

  /** "type" and "status" are kept verbatim when they are strings, with no
      mapping to known values, and become "" otherwise. */
  lemma StringsVerbatim(xs: map<string, JsonValue>, now: Time, parse: string -> Option<Time>)
    requires DecodeObject(xs, now, parse).Success?
    ensures DecodeObject(xs, now, parse).value.machineType ==
              if Lookup(xs, TypeKey).JString? then Lookup(xs, TypeKey).s else ""
    ensures DecodeObject(xs, now, parse).value.status ==
              if Lookup(xs, StatusKey).JString? then Lookup(xs, StatusKey).s else ""
  {
  }

  /** Whether an object decodes depends on "last_started_at" alone: no other
      field, present, absent or ill-typed, can make decoding fail. */
  lemma LenientFieldsNeverFail(xs: map<string, JsonValue>, ys: map<string, JsonValue>,
                               now: Time, now': Time, parse: string -> Option<Time>)
    requires Lookup(xs, LastStartedAtKey) == Lookup(ys, LastStartedAtKey)
    ensures DecodeObject(xs, now, parse).Success? <==> DecodeObject(ys, now', parse).Success?
  {
  }

  // ----- The strict field -----

  /** An object fails to decode exactly when the string under
      "last_started_at" (or "", when there is none) does not parse, and the
      error carries that string. */
  lemma TimestampIsStrict(xs: map<string, JsonValue>, now: Time, parse: string -> Option<Time>)
    ensures DecodeObject(xs, now, parse).Failure? <==>
              parse(AssertString(Field(xs, LastStartedAtKey))).None?
    ensures DecodeObject(xs, now, parse).Failure? ==>
              DecodeObject(xs, now, parse).error == TimeParseError(AssertString(Field(xs, LastStartedAtKey)))
    ensures DecodeObject(xs, now, parse).Success? ==>
              Some(DecodeObject(xs, now, parse).value.lastStartedAt) == parse(AssertString(Field(xs, LastStartedAtKey)))
  {
  }

  /** A missing or non-string "last_started_at" is parsed as "", which RFC 3339
      rejects, so decoding fails. */
  lemma MissingTimestampFails(xs: map<string, JsonValue>, now: Time, parse: string -> Option<Time>)
    requires parse("") == None
    requires !Lookup(xs, LastStartedAtKey).JString?
    ensures DecodeObject(xs, now, parse) == Failure(TimeParseError(""))
  {
  }

  /** A string under "last_started_at" that does not parse fails the decode. */
  lemma UnparsableTimestampFails(xs: map<string, JsonValue>, now: Time, parse: string -> Option<Time>, stamp: string)
    requires Lookup(xs, LastStartedAtKey) == JString(stamp)
    requires parse(stamp) == None
    ensures DecodeObject(xs, now, parse) == Failure(TimeParseError(stamp))
  {
  }

  /** A payload that is not JSON, or JSON that is neither an object nor null,
      fails before any field is read; null reads as an object with no keys. */
  lemma NonObjectPayloads(payload: Option<JsonValue>, now: Time, parse: string -> Option<Time>)
    ensures payload == None ==> Decode(payload, now, parse) == Failure(SyntaxError)
    ensures payload.Some? && !payload.value.JObject? && !payload.value.JNull? ==>
              Decode(payload, now, parse) == Failure(UnmarshalTypeError)
    ensures payload == Some(JNull) ==> Decode(payload, now, parse) == DecodeObject(map[], now, parse)
    ensures payload == Some(JNull) && parse("") == None ==>
              Decode(payload, now, parse) == Failure(TimeParseError(""))
  {
  }

  // ----- Time left -----

  /** In use, the time left is the duration from `now` until `duration` seconds
      after the start, exactly whenever that fits in 64 bits; it is not clamped
      at zero. */
  lemma InUseTimeLeftFormula(startedAt: Time, duration: int, now: Time)
    requires MinInt64 <= duration * Second <= MaxInt64
    requires MinInt64 <= startedAt.nanos + duration * Second - now.nanos <= MaxInt64
    ensures TimeLeftOf(StatusInUse, startedAt, duration, now) ==
              startedAt.nanos + duration * Second - now.nanos
  {
  }

  /** After a successful decode with status "in_use", the time left is
      `LastStartedAt - now` (the "duration" field never contributes), negative
      once `now` is past the start. */
  lemma InUseTimeLeft(xs: map<string, JsonValue>, now: Time, parse: string -> Option<Time>)
    requires DecodeObject(xs, now, parse).Success?
    requires DecodeObject(xs, now, parse).value.status == StatusInUse
    ensures var m := DecodeObject(xs, now, parse).value;
            m.timeLeft == Sub(m.lastStartedAt, now) &&
            (MinInt64 <= m.lastStartedAt.nanos - now.nanos <= MaxInt64 ==>
               m.timeLeft == m.lastStartedAt.nanos - now.nanos) &&
            (m.timeLeft < 0 <==> now.nanos > m.lastStartedAt.nanos)
  {
  }

  /** Any status other than "in_use", including the known "idle", "finishing"
      and "error" and any unknown string, leaves no time. */
  lemma NotInUseNoTimeLeft(xs: map<string, JsonValue>, now: Time, parse: string -> Option<Time>)
    requires DecodeObject(xs, now, parse).Success?
    requires Lookup(xs, StatusKey) != JString(StatusInUse)
    ensures DecodeObject(xs, now, parse).value.timeLeft == 0
  {
  }

  // ----- Ignored keys -----

  /** Keys other than the five the decoder reads make no difference; among
      them is "duration", which is read with an `int` assertion that never
      succeeds. */
  lemma OtherKeysIgnored(xs: map<string, JsonValue>, k: string, v: JsonValue,
                         now: Time, parse: string -> Option<Time>)
    requires k !in {FloorKey, PosKey, TypeKey, StatusKey, LastStartedAtKey}
    ensures DecodeObject(xs[k := v], now, parse) == DecodeObject(xs, now, parse)
    ensures DecodeObject(xs - {k}, now, parse) == DecodeObject(xs, now, parse)
  {
  }

  /** The "duration" field, whatever its value, does not change the result.
      Unlike the keys of `OtherKeysIgnored` in general, machine.go does read
      this one, so this is stated on its own: the present value and the absent
      key decode alike. */
  lemma DurationIgnored(xs: map<string, JsonValue>, v: JsonValue, now: Time, parse: string -> Option<Time>)
    ensures DecodeObject(xs[DurationKey := v], now, parse) == DecodeObject(xs - {DurationKey}, now, parse)
  {
  }

  // ----- Scenarios -----

  /** The idle floor-14 washer at position 0. */
  function IdleWasher(stamp: string): map<string, JsonValue>
  {
    map[FloorKey := JNumber(14), PosKey := JNumber(0), TypeKey := JString("washer"),
        StatusKey := JString("idle"), LastStartedAtKey := JString(stamp),
        DurationKey := JNumber(1800)]
  }

  /** The idle floor-14 washer at position 0 decodes to the coin washer with
      no time left. */
  lemma IdleWasherScenario(now: Time, parse: string -> Option<Time>, epoch: Time)
    requires parse("1970-01-01T00:00:00+00:00") == Some(epoch)
    ensures DecodeObject(IdleWasher("1970-01-01T00:00:00+00:00"), now, parse) ==
              Success(Record("Coin washer", 14, Washer, StatusIdle, epoch, 0))
  {
  }

  /** The same washer in use, started 1000 seconds before `now` with a
      1800-second cycle: because "duration" is never read, the time left is
      1000 seconds past due rather than 800 seconds to go. */
  lemma InUseWasherScenario(now: Time, parse: string -> Option<Time>, stamp: string, startedAt: Time)
    requires parse(stamp) == Some(startedAt)
    requires now.nanos == startedAt.nanos + 1000 * Second
    ensures DecodeObject(IdleWasher(stamp)[StatusKey := JString(StatusInUse)], now, parse).Success?
    ensures DecodeObject(IdleWasher(stamp)[StatusKey := JString(StatusInUse)], now, parse).value.timeLeft
              == -1000 * Second
  {
  }

  // ----- Rendering -----

  /** Rendering two lists one after the other renders their concatenation. */
  lemma {:induction false} RenderAllConcat(ms: seq<Record>, ns: seq<Record>,
                                           kitchen: Time -> string, format: Duration -> string)
    ensures RenderAll(ms + ns, kitchen, format) == RenderAll(ms, kitchen, format) + RenderAll(ns, kitchen, format)
  {
    if ms == [] {
      assert ms + ns == ns;
    } else {
      assert (ms + ns)[1..] == ms[1..] + ns;
      RenderAllConcat(ms[1..], ns, kitchen, format);
    }
  }

  /** A single machine renders as its block alone. */
  lemma RenderOne(m: Record, kitchen: Time -> string, format: Duration -> string)
    ensures RenderAll([m], kitchen, format) == Block(m, kitchen, format)
  {
  }
}
