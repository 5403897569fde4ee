/** The concept manager of concept/ConceptManager.ts: each lookup builds a
    concept-manager request, sends it once through the transaction's `execute`
    and decodes the matching response variant. The transaction's request
    multiplexer and the protocol decoders are not part of this model: the
    former is the `execute` function held by the manager, the latter are
    represented by the message a concept is read from plus, for types, the
    class the decoder picks (`typeKind`). */
module Concept {
  import opened Wrappers

  /** Protocol messages, reduced to the fields this code passes along. */
  datatype TypeProto = TypeProto(typeLabel: string)
  datatype ThingProto = ThingProto(iid: string)
  datatype RuleProto = RuleProto(ruleLabel: string, whenClause: string, thenClause: string)

  /** `ConceptManager.Req`: one variant per operation. */
  datatype ConceptManagerReq =
    | PutEntityTypeReq(typeLabel: string)
    | PutRelationTypeReq(typeLabel: string)
    | PutAttributeTypeReq(typeLabel: string)
    | PutRuleReq(ruleLabel: string, whenClause: string, thenClause: string)
    | GetThingReq(iid: string)
    | GetTypeReq(typeLabel: string)
    | GetRuleReq(ruleLabel: string)

  /** `ConceptManager.Res`. For the three lookups, `None` is the RES_NOT_SET case
      and `Some` the TYPE, THING or RULE case. */
  datatype ConceptManagerRes =
    | PutEntityTypeRes(entityType: TypeProto)
    | PutRelationTypeRes(relationType: TypeProto)
    | PutAttributeTypeRes(attributeType: TypeProto)
    | PutRuleRes(putRule: RuleProto)
    | GetThingRes(thing: Option<ThingProto>)
    | GetTypeRes(typeProto: Option<TypeProto>)
    | GetRuleRes(getRule: Option<RuleProto>)

  /** `Transaction.Req` and `Transaction.Res`: only the concept-manager
      variants are built or read here. */
  datatype TransactionReq = ConceptManagerTxReq(conceptManagerReq: ConceptManagerReq) | OtherTxReq
  datatype TransactionRes = ConceptManagerTxRes(conceptManagerRes: ConceptManagerRes) | OtherTxRes

  /** A failed lookup: whatever the transaction reported, or a response lacking
      the variant the code reads (the code then calls a method on `undefined`). */
  datatype Error = TransactionError(message: string) | MalformedResponse

  /** The class the concept decoder produces for a type message. */
  datatype TypeKind = ThingTypeKind | EntityTypeKind | RelationTypeKind | AttributeTypeKind | RoleTypeKind

  /** Decoded concepts: a type is its class and the message it was read from. */
  datatype Type = Type(kind: TypeKind, proto: TypeProto)
  datatype Thing = Thing(proto: ThingProto)
  datatype Rule = Rule(proto: RuleProto)

  /** The manager's collaborators: the transaction's unary `execute` (request to
      response or error) and the concept decoder's choice of class for types. */
  datatype ConceptManager = ConceptManager(
    transaction: TransactionReq -> Result<TransactionRes, Error>,
    typeKind: TypeProto -> TypeKind)

  /** The private `execute`: wrap the request as the concept-manager variant of
      a transaction request, send it, and project the concept-manager response. */
  function Execute(cm: ConceptManager, req: ConceptManagerReq): (r: Result<ConceptManagerRes, Error>)
    ensures r.Success? <==> cm.transaction(ConceptManagerTxReq(req)).Success? &&
                            cm.transaction(ConceptManagerTxReq(req)).value.ConceptManagerTxRes?
    ensures r.Success? ==> cm.transaction(ConceptManagerTxReq(req)) == Success(ConceptManagerTxRes(r.value))
    ensures cm.transaction(ConceptManagerTxReq(req)).Failure? ==> r == Failure(cm.transaction(ConceptManagerTxReq(req)).error)
    ensures cm.transaction(ConceptManagerTxReq(req)) == Success(OtherTxRes) ==> r == Failure(MalformedResponse)
  {
    match cm.transaction(ConceptManagerTxReq(req))
    case Failure(e) => Failure(e)
    case Success(ConceptManagerTxRes(res)) => Success(res)
    case Success(OtherTxRes) => Failure(MalformedResponse)
  }

  /** `ConceptProtoReader.type`. */
  function ReadType(cm: ConceptManager, p: TypeProto): Type
  {
    Type(cm.typeKind(p), p)
  }

  /** `getType`: the decoded type when the response case is TYPE, `null` when it
      is not set; errors of the exchange propagate. */
  function GetType(cm: ConceptManager, typeLabel: string): (r: Result<Option<Type>, Error>)
    ensures var res := Execute(cm, GetTypeReq(typeLabel));
      && (res.Failure? ==> r == Failure(res.error))
      && (res.Success? && !res.value.GetTypeRes? ==> r == Failure(MalformedResponse))
      && (res == Success(GetTypeRes(None)) ==> r == Success(None))
      && (r.Success? && r.value.Some? <==> res.Success? && res.value.GetTypeRes? && res.value.typeProto.Some?)
      && (r.Success? && r.value.Some? ==> r.value.value == ReadType(cm, res.value.typeProto.value))
  {
    match Execute(cm, GetTypeReq(typeLabel))
    case Failure(e) => Failure(e)
    case Success(GetTypeRes(Some(p))) => Success(Some(ReadType(cm, p)))
    case Success(GetTypeRes(None)) => Success(None)
    case Success(_) => Failure(MalformedResponse)
  }

  /** `getThing`: the decoded thing when the response case is THING, else `null`. */
  function GetThing(cm: ConceptManager, iid: string): (r: Result<Option<Thing>, Error>)
    ensures var res := Execute(cm, GetThingReq(iid));
      && (res.Failure? ==> r == Failure(res.error))
      && (res.Success? && !res.value.GetThingRes? ==> r == Failure(MalformedResponse))
      && (res == Success(GetThingRes(None)) ==> r == Success(None))
      && (r.Success? && r.value.Some? <==> res.Success? && res.value.GetThingRes? && res.value.thing.Some?)
      && (r.Success? && r.value.Some? ==> r.value.value == Thing(res.value.thing.value))
  {
    match Execute(cm, GetThingReq(iid))
    case Failure(e) => Failure(e)
    case Success(GetThingRes(Some(p))) => Success(Some(Thing(p)))
    case Success(GetThingRes(None)) => Success(None)
    case Success(_) => Failure(MalformedResponse)
  }

  /** `getRule`: the decoded rule when the response case is RULE, else `null`. */
  function GetRule(cm: ConceptManager, ruleLabel: string): (r: Result<Option<Rule>, Error>)
    ensures var res := Execute(cm, GetRuleReq(ruleLabel));
      && (res.Failure? ==> r == Failure(res.error))
      && (res.Success? && !res.value.GetRuleRes? ==> r == Failure(MalformedResponse))
      && (res == Success(GetRuleRes(None)) ==> r == Success(None))
      && (r.Success? && r.value.Some? <==> res.Success? && res.value.GetRuleRes? && res.value.getRule.Some?)
      && (r.Success? && r.value.Some? ==> r.value.value == Rule(res.value.getRule.value))
  {
    match Execute(cm, GetRuleReq(ruleLabel))
    case Failure(e) => Failure(e)
    case Success(GetRuleRes(Some(p))) => Success(Some(Rule(p)))
    case Success(GetRuleRes(None)) => Success(None)
    case Success(_) => Failure(MalformedResponse)
  }

  /** The `instanceof` test of the three kind-specific getters. */
  function OfKind(t: Result<Option<Type>, Error>, kind: TypeKind): Result<Option<Type>, Error>
  {
    match t
    case Success(Some(ty)) => if ty.kind == kind then t else Success(None)
    case _ => t
  }

  /** `getEntityType`: the looked-up type if it is an entity type, else `null`. */
  function GetEntityType(cm: ConceptManager, typeLabel: string): (r: Result<Option<Type>, Error>)
    ensures GetType(cm, typeLabel).Failure? ==> r == GetType(cm, typeLabel)
    ensures r.Success? && r.value.Some? <==>
            GetType(cm, typeLabel).Success? && GetType(cm, typeLabel).value.Some? &&
            GetType(cm, typeLabel).value.value.kind == EntityTypeKind
    ensures r.Success? && r.value.Some? ==> r == GetType(cm, typeLabel)
    ensures GetType(cm, typeLabel).Success? ==> r.Success?
  {
    OfKind(GetType(cm, typeLabel), EntityTypeKind)
  }

  /** `getRelationType`: the looked-up type if it is a relation type, else `null`. */
  function GetRelationType(cm: ConceptManager, typeLabel: string): (r: Result<Option<Type>, Error>)
    ensures GetType(cm, typeLabel).Failure? ==> r == GetType(cm, typeLabel)
    ensures r.Success? && r.value.Some? <==>
            GetType(cm, typeLabel).Success? && GetType(cm, typeLabel).value.Some? &&
            GetType(cm, typeLabel).value.value.kind == RelationTypeKind
    ensures r.Success? && r.value.Some? ==> r == GetType(cm, typeLabel)
    ensures GetType(cm, typeLabel).Success? ==> r.Success?
  {
    OfKind(GetType(cm, typeLabel), RelationTypeKind)
  }

  /** `getAttributeType`: the looked-up type if it is an attribute type, else `null`. */
  function GetAttributeType(cm: ConceptManager, typeLabel: string): (r: Result<Option<Type>, Error>)
    ensures GetType(cm, typeLabel).Failure? ==> r == GetType(cm, typeLabel)
    ensures r.Success? && r.value.Some? <==>
            GetType(cm, typeLabel).Success? && GetType(cm, typeLabel).value.Some? &&
            GetType(cm, typeLabel).value.value.kind == AttributeTypeKind
    ensures r.Success? && r.value.Some? ==> r == GetType(cm, typeLabel)
    ensures GetType(cm, typeLabel).Success? ==> r.Success?
  {
    OfKind(GetType(cm, typeLabel), AttributeTypeKind)
  }

  /** The root getters: `getType` on the root labels, with an unchecked cast. */
  function GetRootThingType(cm: ConceptManager): Result<Option<Type>, Error>
  {
    GetType(cm, "thing")
  }

  function GetRootEntityType(cm: ConceptManager): Result<Option<Type>, Error>
  {
    GetType(cm, "entity")
  }

  function GetRootRelationType(cm: ConceptManager): Result<Option<Type>, Error>
  {
    GetType(cm, "relation")
  }

  function GetRootAttributeType(cm: ConceptManager): Result<Option<Type>, Error>
  {
    GetType(cm, "attribute")
  }

  /** The root getters look up "thing", "entity", "relation" and "attribute",
      and so each sends a type lookup for that label and nothing else. */
  lemma RootGettersLookUpRootLabels(cm: ConceptManager)
    ensures GetRootThingType(cm) == GetType(cm, "thing")
    ensures GetRootEntityType(cm) == GetType(cm, "entity")
    ensures GetRootRelationType(cm) == GetType(cm, "relation")
    ensures GetRootAttributeType(cm) == GetType(cm, "attribute")
  {
  }

  /** `putEntityType`: the entity type read from the reply (`EntityTypeImpl.of`). */
  function PutEntityType(cm: ConceptManager, typeLabel: string): (r: Result<Type, Error>)
    ensures var res := Execute(cm, PutEntityTypeReq(typeLabel));
      && (res.Failure? ==> r == Failure(res.error))
      && (r.Success? <==> res.Success? && res.value.PutEntityTypeRes?)
      && (res.Success? && !res.value.PutEntityTypeRes? ==> r == Failure(MalformedResponse))
      && (r.Success? ==> r.value == Type(EntityTypeKind, res.value.entityType))
  {
    match Execute(cm, PutEntityTypeReq(typeLabel))
    case Failure(e) => Failure(e)
    case Success(PutEntityTypeRes(p)) => Success(Type(EntityTypeKind, p))
    case Success(_) => Failure(MalformedResponse)
  }

  /** `putRelationType`: the relation type read from the reply (`RelationTypeImpl.of`). */
  function PutRelationType(cm: ConceptManager, typeLabel: string): (r: Result<Type, Error>)
    ensures var res := Execute(cm, PutRelationTypeReq(typeLabel));
      && (res.Failure? ==> r == Failure(res.error))
      && (r.Success? <==> res.Success? && res.value.PutRelationTypeRes?)
      && (res.Success? && !res.value.PutRelationTypeRes? ==> r == Failure(MalformedResponse))
      && (r.Success? ==> r.value == Type(RelationTypeKind, res.value.relationType))
  {
    match Execute(cm, PutRelationTypeReq(typeLabel))
    case Failure(e) => Failure(e)
    case Success(PutRelationTypeRes(p)) => Success(Type(RelationTypeKind, p))
    case Success(_) => Failure(MalformedResponse)
  }

  /** `putAttributeType`: the attribute type read from the reply. */
  function PutAttributeType(cm: ConceptManager, typeLabel: string): (r: Result<Type, Error>)
    ensures var res := Execute(cm, PutAttributeTypeReq(typeLabel));
      && (res.Failure? ==> r == Failure(res.error))
      && (r.Success? <==> res.Success? && res.value.PutAttributeTypeRes?)
      && (res.Success? && !res.value.PutAttributeTypeRes? ==> r == Failure(MalformedResponse))
      && (r.Success? ==> r.value == Type(AttributeTypeKind, res.value.attributeType))
  {
    match Execute(cm, PutAttributeTypeReq(typeLabel))
    case Failure(e) => Failure(e)
    case Success(PutAttributeTypeRes(p)) => Success(Type(AttributeTypeKind, p))
    case Success(_) => Failure(MalformedResponse)
  }

  /** `putRule`: the request carries the label, when and then unchanged; the reply's
      rule is returned. */
  function PutRule(cm: ConceptManager, ruleLabel: string, whenClause: string, thenClause: string): (r: Result<Rule, Error>)
    ensures var res := Execute(cm, PutRuleReq(ruleLabel, whenClause, thenClause));
      && (res.Failure? ==> r == Failure(res.error))
      && (r.Success? <==> res.Success? && res.value.PutRuleRes?)
      && (res.Success? && !res.value.PutRuleRes? ==> r == Failure(MalformedResponse))
      && (r.Success? ==> r.value == Rule(res.value.putRule))
  {
    match Execute(cm, PutRuleReq(ruleLabel, whenClause, thenClause))
    case Failure(e) => Failure(e)
    case Success(PutRuleRes(p)) => Success(Rule(p))
    case Success(_) => Failure(MalformedResponse)
  }

  /** Every lookup depends on the transaction only through its answer to the
      single concept-manager request it builds: two transactions that answer
      that request alike give the same result. */
  lemma LookupsSendOnlyTheirRequest(cm1: ConceptManager, cm2: ConceptManager, typeLabel: string, ruleLabel: string, iid: string)
    requires cm1.typeKind == cm2.typeKind
    requires cm1.transaction(ConceptManagerTxReq(GetTypeReq(typeLabel))) == cm2.transaction(ConceptManagerTxReq(GetTypeReq(typeLabel)))
    requires cm1.transaction(ConceptManagerTxReq(GetThingReq(iid))) == cm2.transaction(ConceptManagerTxReq(GetThingReq(iid)))
    requires cm1.transaction(ConceptManagerTxReq(GetRuleReq(ruleLabel))) == cm2.transaction(ConceptManagerTxReq(GetRuleReq(ruleLabel)))
    ensures GetType(cm1, typeLabel) == GetType(cm2, typeLabel)
    ensures GetEntityType(cm1, typeLabel) == GetEntityType(cm2, typeLabel)
    ensures GetRelationType(cm1, typeLabel) == GetRelationType(cm2, typeLabel)
    ensures GetAttributeType(cm1, typeLabel) == GetAttributeType(cm2, typeLabel)
    ensures GetThing(cm1, iid) == GetThing(cm2, iid)
    ensures GetRule(cm1, ruleLabel) == GetRule(cm2, ruleLabel)
  {
  }

  /** A type returned by a kind-specific getter has that kind, and a type of
      that kind found by `getType` is never dropped. */
  lemma KindGettersAgreeWithGetType(cm: ConceptManager, typeLabel: string, kind: TypeKind)
    requires GetType(cm, typeLabel).Success? && GetType(cm, typeLabel).value.Some?
    requires GetType(cm, typeLabel).value.value.kind == kind
    ensures kind == EntityTypeKind ==> GetEntityType(cm, typeLabel) == GetType(cm, typeLabel)
    ensures kind == RelationTypeKind ==> GetRelationType(cm, typeLabel) == GetType(cm, typeLabel)
    ensures kind == AttributeTypeKind ==> GetAttributeType(cm, typeLabel) == GetType(cm, typeLabel)
    ensures kind != EntityTypeKind ==> GetEntityType(cm, typeLabel) == Success(None)
    ensures kind != RelationTypeKind ==> GetRelationType(cm, typeLabel) == Success(None)
    ensures kind != AttributeTypeKind ==> GetAttributeType(cm, typeLabel) == Success(None)
  {
  }
}
