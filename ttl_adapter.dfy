/**
  `TtlAdapter`: the JSON adapter that reads and writes a `TtlVO` as a bare
  JSON number of seconds. A JSON reader is a token list with a cursor; a JSON
  writer is the token list written so far.
 */
module TtlAdapter {
  import opened Wrappers
  import opened Protocol

  /** The JSON tokens a streaming reader can report; a number is its exact value. */
  datatype Token =
    | NumberToken(value: real)
    | StringToken(s: string)
    | BoolToken(b: bool)
    | NullToken
    | NameToken(name: string)
    | BeginObject | EndObject | BeginArray | EndArray

  datatype JsonReader = JsonReader(tokens: seq<Token>, pos: nat)

  /** `JsonDataException` from `nextLong()`: the number is not a Long. */
  datatype JsonDataException = ExpectedLong(value: real)

  const LONG_MIN: int := -0x8000_0000_0000_0000
  const LONG_MAX: int := 0x7FFF_FFFF_FFFF_FFFF

  /** A value of Kotlin's `Long`. */
  predicate IsLong(x: int) {
    LONG_MIN <= x <= LONG_MAX
  }

  /** `hasNext()`: a value follows the cursor (not the end of the document, an object or an array). */
  predicate HasNext(r: JsonReader) {
    r.pos < |r.tokens| && !r.tokens[r.pos].EndObject? && !r.tokens[r.pos].EndArray?
  }

  /** `peek() == NUMBER` right after `hasNext()`. */
  predicate NextIsNumber(r: JsonReader) {
    HasNext(r) && r.tokens[r.pos].NumberToken?
  }

  /**
    `nextLong()` on a number: its value when it is a whole number that fits
    a Long (`1.0` and `1e3` do), and the exception otherwise (`1.5`, `2^63`).
   */
  function NextLong(value: real): (r: Result<int, JsonDataException>)
    ensures r.Success? <==> value == value.Floor as real && IsLong(value.Floor)
    ensures r.Success? ==> r.value as real == value && IsLong(r.value)
    ensures r.Failure? ==> r.error == ExpectedLong(value)
  {
    if value == value.Floor as real && IsLong(value.Floor) then Success(value.Floor) else Failure(ExpectedLong(value))
  }

  /**
    `fromJson`: when a number is next, either the TTL of that many seconds
    and the reader moved past it, or, for a number that is not a Long, the
    exception `nextLong()` throws; when anything else is next, null and the
    reader where it was.
   */
  function FromJson(r: JsonReader): (res: Result<(Option<Ttl>, JsonReader), JsonDataException>)
    ensures NextIsNumber(r) ==>
      var v := r.tokens[r.pos].value;
      && (res.Success? <==> v == v.Floor as real && IsLong(v.Floor))
      && (res.Success? ==> res.value == (Some(Ttl(v.Floor)), r.(pos := r.pos + 1)) && v.Floor as real == v)
      && (res.Failure? ==> res.error == ExpectedLong(v))
    ensures !NextIsNumber(r) ==> res == Success((None, r))
  {
    if HasNext(r) && r.tokens[r.pos].NumberToken? then
      match NextLong(r.tokens[r.pos].value)
      case Success(seconds) => Success((Some(Ttl(seconds)), r.(pos := r.pos + 1)))
      case Failure(e) => Failure(e)
    else
      Success((None, r))
  }

  /** `toJson`: appends exactly one number, the seconds of the TTL, or 0 for null. */
  function ToJson(w: seq<Token>, value: Option<Ttl>): (out: seq<Token>)
    ensures |out| == |w| + 1 && out[..|w|] == w && out[|w|].NumberToken?
    ensures value.Some? ==> out[|w|].value == value.value.seconds as real
    ensures value.None? ==> out[|w|].value == 0.0
  {
    match value
    case Some(ttl) => w + [NumberToken(ttl.seconds as real)]
    case None => w + [NumberToken(0.0)]
  }

  /**
    Reading back what `toJson` wrote, from where it started writing, gives
    the TTL that was written and consumes exactly that token; a null TTL
    comes back as a TTL of 0 seconds, not as null. The seconds of a `TtlVO`
    are a Long.
   */
  lemma RoundTrip(w: seq<Token>, value: Option<Ttl>)
    requires value.Some? ==> IsLong(value.value.seconds)
    ensures FromJson(JsonReader(ToJson(w, value), |w|))
         == Success((Some(value.GetOr(Ttl(0))), JsonReader(ToJson(w, value), |w| + 1)))
  {
  }

  /** In particular, null does not survive a round trip. */
  lemma NullBecomesZero()
    ensures FromJson(JsonReader(ToJson([], None), 0)) == Success((Some(Ttl(0)), JsonReader([NumberToken(0.0)], 1)))
    ensures FromJson(JsonReader(ToJson([], None), 0)).value.0 != None
  {
    RoundTrip([], None);
  }

  /** A fractional number of seconds, or one beyond the Long range, makes `fromJson` throw. */
  lemma NonLongNumbersAreRejected()
    ensures FromJson(JsonReader([NumberToken(1.5)], 0)) == Failure(ExpectedLong(1.5))
    ensures FromJson(JsonReader([NumberToken((LONG_MAX + 1) as real)], 0)).Failure?
    ensures FromJson(JsonReader([NumberToken(1000.0)], 0)).Success?
  {
    assert (1.5).Floor == 1;
  }
}
