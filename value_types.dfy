/** The value types of attribute types (`AttributeType.ValueType` in
    concept/Type/AttributeType.ts): decoding from the wire enum, keyability and
    writability. */
module ValueTypes {
  import opened Wrappers

  datatype ValueType = OBJECT | BOOLEAN | LONG | DOUBLE | STRING | DATETIME

  /** The protocol's `AttributeType.VALUE_TYPE` enum as received. The enum is a
      number at run time, so `Unrecognised` stands for any number the enum does
      not name. */
  datatype WireValueType =
    | WIRE_OBJECT | WIRE_BOOLEAN | WIRE_LONG | WIRE_DOUBLE | WIRE_STRING | WIRE_DATETIME
    | Unrecognised(code: int)

  const BadValueType: string := "Bad value type"

  /** The wire values `of` accepts. */
  predicate Decodable(w: WireValueType)
  {
    w in {WIRE_STRING, WIRE_BOOLEAN, WIRE_LONG, WIRE_DOUBLE, WIRE_DATETIME}
  }

  /** `ValueType.of`: the same-named value type for the five concrete wire
      values; anything else (OBJECT included) throws "Bad value type". */
  function Of(w: WireValueType): (r: Result<ValueType, string>)
    ensures r.Success? <==> Decodable(w)
    ensures r.Failure? ==> r.error == BadValueType
    ensures r.Success? ==> r.value != OBJECT && IsWritable(r.value)
  {
    match w
    case WIRE_STRING => Success(STRING)
    case WIRE_BOOLEAN => Success(BOOLEAN)
    case WIRE_LONG => Success(LONG)
    case WIRE_DOUBLE => Success(DOUBLE)
    case WIRE_DATETIME => Success(DATETIME)
    case _ => Failure(BadValueType)
  }

  /** `isKeyable`: membership in [LONG, STRING, DATETIME]. */
  predicate IsKeyable(v: ValueType)
    ensures IsKeyable(v) ==> IsWritable(v)
  {
    v in [LONG, STRING, DATETIME]
  }

  /** `isWritable`: every value type except OBJECT. */
  predicate IsWritable(v: ValueType)
    ensures IsWritable(v) <==> v in {BOOLEAN, LONG, DOUBLE, STRING, DATETIME}
  {
    v != OBJECT
  }

  /** The value types that cannot be keys are exactly BOOLEAN, DOUBLE and OBJECT. */
  lemma {:induction false} NotKeyable(v: ValueType)
    ensures !IsKeyable(v) <==> v in {BOOLEAN, DOUBLE, OBJECT}
  {
    match v
    case OBJECT =>
    case BOOLEAN =>
    case LONG =>
    case DOUBLE =>
    case STRING =>
    case DATETIME =>
  }

  /** `of` maps each concrete wire value to the value type of the same name. */
  lemma OfSameName()
    ensures Of(WIRE_STRING) == Success(STRING)
    ensures Of(WIRE_BOOLEAN) == Success(BOOLEAN)
    ensures Of(WIRE_LONG) == Success(LONG)
    ensures Of(WIRE_DOUBLE) == Success(DOUBLE)
    ensures Of(WIRE_DATETIME) == Success(DATETIME)
    ensures Of(WIRE_OBJECT) == Failure(BadValueType)
  {
  }

  /** Distinct accepted wire values decode to distinct value types. */
  lemma OfInjective(w1: WireValueType, w2: WireValueType)
    requires Of(w1).Success? && Of(w1) == Of(w2)
    ensures w1 == w2
  {
  }

  /** The value types `of` can produce are exactly the writable ones. */
  lemma {:induction false} OfImageIsWritable(v: ValueType)
    ensures (exists w :: Of(w) == Success(v)) <==> IsWritable(v)
  {
    if IsWritable(v) {
      var w := match v
        case BOOLEAN => WIRE_BOOLEAN
        case LONG => WIRE_LONG
        case DOUBLE => WIRE_DOUBLE
        case STRING => WIRE_STRING
        case DATETIME => WIRE_DATETIME;
      assert Of(w) == Success(v);
    }
  }
}
