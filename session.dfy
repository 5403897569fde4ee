/** The session type of api/GraknSession.ts: two singletons, DATA and SCHEMA,
    each carrying the protocol's session-type tag. */
module Session {

  /** The protocol enum `Session.Type`. */
  datatype ProtoSessionType = PROTO_DATA | PROTO_SCHEMA

  /** `GraknSession.Type.Impl`: the tag given at construction, never reassigned.
      The class is not exported, so DATA and SCHEMA are its only instances and
      identity comparison coincides with equality of these values. */
  datatype SessionType = Impl(tag: ProtoSessionType)

  const DATA: SessionType := Impl(PROTO_DATA)
  const SCHEMA: SessionType := Impl(PROTO_SCHEMA)

  /** `proto()`: the tag supplied at construction. */
  function Proto(t: SessionType): (p: ProtoSessionType)
    ensures t == DATA ==> p == PROTO_DATA
    ensures t == SCHEMA ==> p == PROTO_SCHEMA
  {
    t.tag
  }

  /** `isData()`: identity with the DATA constant. */
  predicate IsData(t: SessionType)
    ensures IsData(t) <==> Proto(t) == PROTO_DATA
  {
    t == DATA
  }

  /** `isSchema()`: identity with the SCHEMA constant. */
  predicate IsSchema(t: SessionType)
    ensures IsSchema(t) <==> Proto(t) == PROTO_SCHEMA
  {
    t == SCHEMA
  }

  /** Every session type is one of the two constants, and the two differ. */
  lemma OnlyTwoSessionTypes(t: SessionType)
    ensures t == DATA || t == SCHEMA
    ensures DATA != SCHEMA
  {
    match t.tag
    case PROTO_DATA =>
    case PROTO_SCHEMA =>
  }

  /** Exactly one of `isData` and `isSchema` holds of each session type. */
  lemma ExactlyOneKind(t: SessionType)
    ensures IsData(t) != IsSchema(t)
    ensures IsData(DATA) && !IsSchema(DATA)
    ensures IsSchema(SCHEMA) && !IsData(SCHEMA)
  {
  }

  /** The tag determines the session type: `proto()` is injective. */
  lemma ProtoInjective(s: SessionType, t: SessionType)
    requires Proto(s) == Proto(t)
    ensures s == t
  {
  }
}
