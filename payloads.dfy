/** Event payloads: the name-value pairs of one tracked event, as the
    emitter receives, stores, stamps and sends them. */
module Payloads {
  import opened Decimal

  /** A payload value. `Other` stands for any other Python value (a float,
      `None`, a nested structure), carried by the text `str()` gives it. */
  datatype Value = Str(s: string) | Int(i: int) | Bool(b: bool) | Other(text: string)

  /** One event: a dictionary from parameter name to value. */
  type Payload = map<string, Value>

  /** The key of the send timestamp. */
  const STM := "stm"

  /** Python's `str(v)`. */
  function Text(v: Value): string {
    match v
    case Str(s) => s
    case Int(i) => IntToString(i)
    case Bool(b) => if b then "True" else "False"
    case Other(text) => text
  }

  /** POST mode stores `{key: str(payload[key]) for key in payload}`: the same
      keys, every value turned into a string, strings left as they are. */
  function Stringify(p: Payload): (r: Payload)
    ensures r.Keys == p.Keys
    ensures forall k :: k in r ==> r[k].Str?
    ensures forall k :: k in p && p[k].Str? ==> r[k] == p[k]
  {
    map k | k in p :: Str(Text(p[k]))
  }

  /** Stringifying a payload that was already stringified changes nothing. */
  lemma StringifyIdempotent(p: Payload)
    ensures Stringify(Stringify(p)) == Stringify(p)
  {
    var once := Stringify(p);
    forall k | k in once
      ensures Stringify(once)[k] == once[k]
    {
    }
  }

  /** Stringifying an integer value keeps the integer: it can be read back. */
  lemma StringifyKeepsIntegers(p: Payload, k: string)
    requires k in p && p[k].Int?
    ensures IsIntText(Stringify(p)[k].s) && ParseInt(Stringify(p)[k].s) == p[k].i
  {
    IntToStringRoundTrip(p[k].i);
  }

  /** The `stm` value for a clock reading of `seconds` whole seconds:
      `str(int(time.time()) * 1000)`. */
  function StmValue(seconds: nat): (v: Value)
    ensures v.Str? && IsIntText(v.s)
  {
    Str(IntToString(seconds * 1000))
  }

  /** The `stm` text is the send time in milliseconds, and distinct seconds
      give distinct timestamps. */
  lemma StmValueMeaning(seconds: nat, other: nat)
    ensures ParseInt(StmValue(seconds).s) == seconds * 1000
    ensures StmValue(seconds) == StmValue(other) ==> seconds == other
  {
    IntToStringRoundTrip(seconds * 1000);
    if StmValue(seconds) == StmValue(other) {
      IntToStringInjective(seconds * 1000, other * 1000);
    }
  }

  /** `e.update({'stm': ...})` on one event. */
  function Stamp(p: Payload, seconds: nat): (r: Payload)
    ensures r.Keys == p.Keys + {STM} && r[STM] == StmValue(seconds)
    ensures forall k :: k in p && k != STM ==> r[k] == p[k]
  {
    p[STM := StmValue(seconds)]
  }

  /** Every event of a batch stamped, event `i` with the `i`-th clock reading. */
  function StampAll(events: seq<Payload>, clock: nat -> nat): (r: seq<Payload>)
    ensures |r| == |events|
    ensures forall i :: 0 <= i < |r| ==> r[i].Keys == events[i].Keys + {STM}
  {
    var r := seq(|events|, i requires 0 <= i < |events| => Stamp(events[i], clock(i)));
    assert forall i :: 0 <= i < |r| ==> r[i] == Stamp(events[i], clock(i));
    r
  }

  /** `attach_sent_timestamp`: stamps each event of the batch in turn. */
  method AttachSentTimestamp(events: seq<Payload>, clock: nat -> nat) returns (stamped: seq<Payload>)
    ensures stamped == StampAll(events, clock)
    ensures |stamped| == |events|
    ensures forall i :: 0 <= i < |events| ==>
      stamped[i].Keys == events[i].Keys + {STM} && stamped[i][STM] == StmValue(clock(i))
    ensures forall i, k :: 0 <= i < |events| && k in events[i] && k != STM ==> stamped[i][k] == events[i][k]
  {
    stamped := [];
    var i := 0;
    while i < |events|
      invariant 0 <= i <= |events|
      invariant |stamped| == i
      invariant forall j :: 0 <= j < i ==> stamped[j] == Stamp(events[j], clock(j))
    {
      stamped := stamped + [Stamp(events[i], clock(i))];
      i := i + 1;
    }
  }

  /** With the clock reading the same second throughout (as when the batch is
      stamped within one second), every event carries the same `stm`. */
  lemma StampAllUniform(events: seq<Payload>, clock: nat -> nat, seconds: nat)
    requires forall i :: 0 <= i < |events| ==> clock(i) == seconds
    ensures forall i :: 0 <= i < |events| ==> StampAll(events, clock)[i][STM] == StmValue(seconds)
    ensures forall i, j :: 0 <= i < |events| && 0 <= j < |events| ==>
      StampAll(events, clock)[i][STM] == StampAll(events, clock)[j][STM]
  {
  }
}
