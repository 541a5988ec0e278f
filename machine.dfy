/**
 * A washer or dryer of the laundry room: how one JSON object becomes a machine
 * record (`(*machine).UnmarshalJSON` in machine.go), and how a list of machines
 * is rendered as text (`machines.String`).
 */
module Machine {
  import opened Wrappers
  import opened Json
  import opened GoTime

  // The keys read from a machine object.
  const FloorKey: string := "floor"
  const PosKey: string := "pos"
  const TypeKey: string := "type"
  const StatusKey: string := "status"
  const LastStartedAtKey: string := "last_started_at"
  const DurationKey: string := "duration"

  // The named values of `machineType`. The decoder stores any string as the
  // type; these two are not used to normalise it.
  const Washer: string := "washer"
  const Dryer: string := "dryer"

  // The named values of `machineStatus`; the decoder stores any string, and
  // only `StatusInUse` changes its behaviour.
  const StatusError: string := "error"
  const StatusIdle: string := "idle"
  const StatusFinishing: string := "finishing"
  const StatusInUse: string := "in_use"

  /** The display names of the positions 0 to 3, in order. */
  const KnownNames: seq<string> := ["Coin washer", "PayLah washer", "PayLah dryer", "Coin dryer"]

  /** The display name of every other position. */
  const UnknownMachine: string := "Unknown machine"

  /** Why `UnmarshalJSON` returned an error. */
  datatype DecodeError =
    | SyntaxError                    // the payload is not JSON at all
    | UnmarshalTypeError             // JSON, but neither an object nor null
    | TimeParseError(value: string)  // `time.Parse(time.RFC3339, value)` failed

  /** The fields of a `machine`, as a value. */
  datatype Record = Record(
    name: string,
    floor: int,
    machineType: string,
    status: string,
    lastStartedAt: Time,
    timeLeft: Duration)

  /** The zero value of `machine`. */
  const ZeroRecord: Record := Record("", 0, "", "", ZeroTime, 0)

  /** The `switch pos` of machine.go: the display name of a position. */
  function MachineName(pos: int): (name: string)
    ensures 0 <= pos < |KnownNames| ==> name == KnownNames[pos]
    ensures !(0 <= pos < |KnownNames|) <==> name == UnknownMachine
  {
    if pos == 0 then "Coin washer"
    else if pos == 1 then "PayLah washer"
    else if pos == 2 then "PayLah dryer"
    else if pos == 3 then "Coin dryer"
    else "Unknown machine"
  }

  /** `json.Unmarshal(data, &xs)` for `xs` of type `map[string]interface{}`, on
      a payload that is `None` when the bytes are not JSON. JSON `null` leaves
      the map nil, which reads like an empty map. */
  function ObjectOf(payload: Option<JsonValue>): (r: Result<map<string, JsonValue>, DecodeError>)
    ensures r.Failure? <==> !(payload.Some? && (payload.value.JObject? || payload.value.JNull?))
  {
    match payload
    case None => Failure(SyntaxError)
    case Some(JNull) => Success(map[])
    case Some(JObject(xs)) => Success(xs)
    case Some(_) => Failure(UnmarshalTypeError)
  }

  /** What `UnmarshalJSON` assigns to `TimeLeft`: zero unless the status is
      "in_use"; otherwise the time from `now` until `duration` seconds after
      the cycle started. */
  function TimeLeftOf(status: string, startedAt: Time, duration: int, now: Time): (d: Duration)
    ensures status != StatusInUse ==> d == 0
  {
    if status != StatusInUse then 0
    else Until(Add(startedAt, Mul(Wrap64(duration), Second)), now)
  }

  /** The record that `UnmarshalJSON` leaves in its receiver, or the error it
      returns, for a payload, the wall clock `now`, and `parse`, which stands
      for `time.Parse(time.RFC3339, ·)`. */
  function Decode(payload: Option<JsonValue>, now: Time, parse: string -> Option<Time>)
    : (r: Result<Record, DecodeError>)
    ensures r.Success? && r.value.status != StatusInUse ==> r.value.timeLeft == 0
    ensures r.Success? ==> r.value.name in KnownNames || r.value.name == UnknownMachine
    ensures ObjectOf(payload).Failure? ==> r == Failure(ObjectOf(payload).error)
  {
    match ObjectOf(payload)
    case Failure(e) => Failure(e)
    case Success(xs) =>
      var floor := AssertFloat64(Field(xs, FloorKey));
      var pos := AssertFloat64(Field(xs, PosKey));
      var machineType := AssertString(Field(xs, TypeKey));
      var status := AssertString(Field(xs, StatusKey));
      var stamp := AssertString(Field(xs, LastStartedAtKey));
      match parse(stamp)
      case None => Failure(TimeParseError(stamp))
      case Some(startedAt) =>
        var duration := AssertInt(Field(xs, DurationKey));
        Success(Record(MachineName(pos), floor, machineType, status, startedAt,
                       TimeLeftOf(status, startedAt, duration, now)))
  }

  /** The text `machines.String` writes for one machine, given `kitchen` for
      `Time.Format(time.Kitchen)` and `format` for `Duration.String`. */
  function Block(m: Record, kitchen: Time -> string, format: Duration -> string): (b: string)
    ensures var head := m.name + " is " + m.status + " \n\t last started at ";
            |head| <= |b| && b[..|head|] == head
    ensures |" remaining \n"| <= |b| && b[|b| - |" remaining \n"|..] == " remaining \n"
    ensures |b| == |m.name| + |m.status| + |kitchen(m.lastStartedAt)| + |format(m.timeLeft)| + 40
  {
    m.name + " is " + m.status + " \n\t last started at " + kitchen(m.lastStartedAt)
      + " \n\t " + format(m.timeLeft) + " remaining \n"
  }

  /** The blocks of a list of machines, one after another, in order. */
  function RenderAll(ms: seq<Record>, kitchen: Time -> string, format: Duration -> string): (s: string)
    ensures ms == [] ==> s == ""
    ensures ms != [] ==> |Block(ms[0], kitchen, format)| <= |s| && s[..|Block(ms[0], kitchen, format)|] == Block(ms[0], kitchen, format)
  {
    if ms == [] then "" else Block(ms[0], kitchen, format) + RenderAll(ms[1..], kitchen, format)
  }

  /** Adding a machine at the end of the list adds its block at the end of the
      text. */
  lemma {:induction false} RenderAllAppend(ms: seq<Record>, m: Record, kitchen: Time -> string, format: Duration -> string)
    ensures RenderAll(ms + [m], kitchen, format) == RenderAll(ms, kitchen, format) + Block(m, kitchen, format)
  {
    if ms == [] {
      assert ms + [m] == [m];
    } else {
      assert (ms + [m])[1..] == ms[1..] + [m];
      RenderAllAppend(ms[1..], m, kitchen, format);
    }
  }

  /** A `machine`, whose fields `UnmarshalJSON` assigns in place. */
  class Machine {
    var name: string
    var floor: int
    var machineType: string
    var status: string
    var lastStartedAt: Time
    var timeLeft: Duration

    /** The fields, as a record. */
    function Value(): Record
      reads this
    {
      Record(name, floor, machineType, status, lastStartedAt, timeLeft)
    }

    /** `var m machine`: every field holds its zero value. */
    constructor ()
      ensures Value() == ZeroRecord
    {
      name, floor, machineType, status := "", 0, "", "";
      lastStartedAt, timeLeft := ZeroTime, 0;
    }

    /** `m.UnmarshalJSON(data)`: on success every field is overwritten with the
        decoded record; on failure the error is returned and no field changes. */
    method Unmarshal(payload: Option<JsonValue>, now: Time, parse: string -> Option<Time>)
      returns (err: Option<DecodeError>)
      modifies this
      ensures Decode(payload, now, parse).Success? ==>
                err == None && Value() == Decode(payload, now, parse).value
      ensures Decode(payload, now, parse).Failure? ==>
                err == Some(Decode(payload, now, parse).error) && Value() == old(Value())
    {
      var decoded := ObjectOf(payload);
      if decoded.Failure? {
        return Some(decoded.error);
      }
      var xs := decoded.value;

      var floor' := AssertFloat64(Field(xs, FloorKey));
      var pos := AssertFloat64(Field(xs, PosKey));
      var machineType' := AssertString(Field(xs, TypeKey));
      var status' := AssertString(Field(xs, StatusKey));

      var stamp := AssertString(Field(xs, LastStartedAtKey));
      var parsed := parse(stamp);
      if parsed.None? {
        return Some(TimeParseError(stamp));
      }
      var startedAt := parsed.value;

      var name' := MachineName(pos);

      floor := floor';
      machineType := machineType';
      status := status';
      name := name';
      lastStartedAt := startedAt;

      if status' != StatusInUse {
        timeLeft := 0;
        return None;
      }

      var duration := AssertInt(Field(xs, DurationKey));
      timeLeft := Until(Add(startedAt, Mul(Wrap64(duration), Second)), now);
      return None;
    }
  }

  /** The records of a list of machines, in order. */
  function Values(ms: seq<Machine>): (rs: seq<Record>)
    reads ms
    ensures |rs| == |ms| && forall i :: 0 <= i < |ms| ==> rs[i] == ms[i].Value()
  {
    if ms == [] then [] else [ms[0].Value()] + Values(ms[1..])
  }

  /** `machines.String`: one block per machine, written in list order. */
  method Render(ms: seq<Machine>, kitchen: Time -> string, format: Duration -> string)
    returns (s: string)
    ensures s == RenderAll(Values(ms), kitchen, format)
  {
    ghost var rs := Values(ms);
    s := "";
    for i := 0 to |ms|
      invariant s == RenderAll(rs[..i], kitchen, format)
    {
      assert rs[..i + 1] == rs[..i] + [ms[i].Value()];
      RenderAllAppend(rs[..i], ms[i].Value(), kitchen, format);
      s := s + Block(ms[i].Value(), kitchen, format);
    }
    assert rs[..|ms|] == rs;
  }
}
