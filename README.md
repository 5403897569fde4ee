# A verified model of the TypeDB (Grakn) Node.js client's stub, session-type, value-type, relation and concept-manager logic

This project models five small pieces of the Node.js client driver for the TypeDB (formerly Grakn) graph database. It proves their behaviour in Dafny.

- **Cluster server stub** (`cluster.dfy`, module `Cluster`). Each call carries metadata: the username, then the password while the stub holds no token, or the token once it holds one. `open` probes the server, fetches the first token, and swallows errors that carry a gRPC `code`. `mayRenewToken` is the guard around every user-management call. When the call fails with the "token credential invalid" client error, the guard clears the token, fetches a fresh one and retries exactly once. The stub is a class whose one mutable field is `token: Option<string>`. The remote call is a parameter: a function from (attempt number, metadata sent) to an outcome. The token exchange and the connection probe are given as their outcomes. `MayRenewToken` returns the metadata of every attempt it made, so "at most two attempts" is a postcondition about a real output. `RenewalScenario` is a client of these contracts: one invalid token followed by a successful renewal, then two invalid tokens in a row.
- **Attribute value types** (`value_types.dfy`, module `ValueTypes`). The six-value `ValueType` enum, decoding from the protocol's `VALUE_TYPE` enum (`of`), `isKeyable` and `isWritable`.
- **Relations** (`relation.dfy`, module `Relation`):
  - the local and transaction-bound relation objects (`asRemote`, `getType`);
  - the request of `getPlayers`, whose role-type list defaults to empty;
  - `getPlayersByRoleType` and `findRole`. Together they fold the stream of (role type, player) pairs into an insertion-ordered `Map<RoleType, Thing[]>`, keyed by the first-seen role object of each scoped name.

  The map is a sequence of entries. `findRole` and `getPlayersByRoleType` are loop methods. `getPlayersByRoleType` is proved equal to the recursive specification `Group`; `findRole` is proved equal to `FindRoleSpec`, which is defined through the recursive `Find`. Separate lemmas prove what the grouping means:
  - keys have distinct scoped names;
  - each key is the first role object with its scoped name, and keys appear in first-seen order;
  - each group holds exactly the players of its scoped name, in stream order;
  - every pair falls into exactly one group, so the total number of players equals the number of pairs.
- **Session type** (`session.dfy`, module `Session`). The two singletons DATA and SCHEMA, with their protocol tag and `isData`/`isSchema`.
- **Concept manager** (`concept.dfy`, module `Concept`). Each lookup wraps a concept-manager request in a transaction request and sends it once through the transaction's `execute`. A lookup returns the decoded concept when the response case is TYPE, THING or RULE (for the kind-specific getters, only when the decoded type also has the matching class, and `null` otherwise). It returns `null` when the response case is not set. The transaction's errors propagate, and a reply of the wrong response variant fails as malformed. The put operations never return `null`: they read the concept from the reply, propagate the transaction's errors and fail on a reply of the wrong variant. The transaction's `execute` and the decoder's choice of class are fields of the `ConceptManager` value. `null` is `None`, and a thrown error is `Failure`.

`wrappers.dfy` holds the `Option` and `Result` datatypes.

## Behaviour of the code worth noting

- A failure of the retried call is re-thrown as it is, except a gRPC service error, which is wrapped in a new client error (connection/cluster/ClusterServerStub.ts:190-193).
- `open` swallows every thrown value that has a `code` field, whether it comes from the probe or from the first token fetch (connection/cluster/ClusterServerStub.ts:72-74).
- After an invalid-token failure the guard fetches the new token at once, before its single retry (connection/cluster/ClusterServerStub.ts:184-186).

## Model

| member | source | states |
|---|---|---|
| `Cluster.ClusterServerStub.constructor` | connection/cluster/ClusterServerStub.ts:59-65 | a new stub keeps its address and credential and holds no token |
| `Cluster.CallMetadata` | connection/cluster/ClusterServerStub.ts:87-96 | the metadata always carries the username; it carries the password exactly when no token is held, and otherwise the token and no password |
| `Cluster.ClusterServerStub.Open` | connection/cluster/ClusterServerStub.ts:67-75 | when the probe and the token fetch both succeed, the fetched token is stored; when either fails the token is unchanged, an error with a `code` (`isServiceError`, lines 50-52) is swallowed, and any other error propagates |
| `Cluster.SurfaceRetryFailure` | connection/cluster/ClusterServerStub.ts:190-194 | a failure of the retried call that is a service error becomes a client error wrapping it; any other failure is re-thrown as it is; so a service error never escapes the retry |
| `Cluster.ClusterServerStub.MayRenewToken` | connection/cluster/ClusterServerStub.ts:178-197 | at most two attempts, and the first carries the current token's metadata. If the first attempt succeeds, its result is returned, with no retry and the token unchanged. Any failure other than token-invalid is re-thrown unchanged, with no retry and the token unchanged. On token-invalid, if the renewal fetch fails, the token is left absent, there is no retry and the fetch error propagates. Otherwise the new token is stored and exactly one retry is made, carrying the new token's metadata; its success is returned and its failure surfaced through `SurfaceRetryFailure`. There are two attempts exactly in that last case |
| `ValueTypes.Of` | concept/Type/AttributeType.ts:152-166 | `of` succeeds exactly on the five concrete wire values; any other input fails with "Bad value type"; it never returns OBJECT, and every result is writable |
| `ValueTypes.OfSameName` | concept/Type/AttributeType.ts:152-166 | STRING, BOOLEAN, LONG, DOUBLE and DATETIME decode to the value type of the same name; the wire OBJECT is rejected |
| `ValueTypes.OfInjective` | concept/Type/AttributeType.ts:152-163 | two accepted wire values that decode alike are equal |
| `ValueTypes.OfImageIsWritable` | concept/Type/AttributeType.ts:152-175 | a value type is a possible result of `of` exactly when it is writable |
| `ValueTypes.IsKeyable` | concept/Type/AttributeType.ts:169-171 | every keyable value type is writable |
| `ValueTypes.NotKeyable` | concept/Type/AttributeType.ts:169-171 | the value types that are not keyable are exactly BOOLEAN, DOUBLE and OBJECT (so the keyable ones are LONG, STRING and DATETIME) |
| `ValueTypes.IsWritable` | concept/Type/AttributeType.ts:173-175 | writable exactly for BOOLEAN, LONG, DOUBLE, STRING and DATETIME, that is every value type but OBJECT |
| `Relation.AsRemote` | concept/thing/RelationImpl.ts:42-44 | the remote object is bound to the given transaction and keeps the relation's iid and type |
| `Relation.RemoteAsRemote` | concept/thing/RelationImpl.ts:68-70 | `asRemote` on a remote relation returns that same object |
| `Relation.GetTypeIsConstructionType` | concept/thing/RelationImpl.ts:37-74 | `getType` on both classes returns the type given at construction, and `asRemote` of a remote relation is idempotent |
| `Relation.GetPlayersRequest` | concept/thing/RelationImpl.ts:81-84 | the request carries the relation's iid and the given role types |
| `Relation.GetPlayersDefaultsToEmpty` | concept/thing/RelationImpl.ts:82 | calling `getPlayers` without role types builds the same request as calling it with an empty list |
| `Relation.Find` | concept/thing/RelationImpl.ts:108-119 | the index of the first entry, in insertion order, whose key has the given scoped name, or none when no key has it |
| `Relation.FindRoleSpec` | concept/thing/RelationImpl.ts:108-119 | the result is `null` exactly when no key has the role's scoped name; otherwise it is the first key of the map, in insertion order, with that scoped name |
| `Relation.FindRole` | concept/thing/RelationImpl.ts:108-119 | the iterator walk returns the first key in insertion order whose scoped name equals the role's, and `null` when none does |
| `Relation.GetPlayersByRoleType` | concept/thing/RelationImpl.ts:90-106 | the built map is the grouping of the stream: keys have distinct scoped names; each key is the first-seen role object for its scoped name, and keys are in first-seen order; each group holds exactly the players paired with that scoped name, in stream order; every pair's scoped name has a key; and the total number of players equals the number of pairs |
| `Relation.AddKeepsGrouping` | concept/thing/RelationImpl.ts:96-103 | one step of the `forEach` (look up by scoped name, add the role with an empty list when absent, push the player) turns the grouping of a stream into the grouping of that stream extended by one pair |
| `Relation.GroupIsGrouping` | concept/thing/RelationImpl.ts:93-104 | the fold over the whole stream yields a map with all the grouping properties above |
| `Relation.GroupTotal` | concept/thing/RelationImpl.ts:93-104 | the players over all groups number as many as the input pairs |
| `Relation.PairInExactlyOneGroup` | concept/thing/RelationImpl.ts:98-103 | in the grouping, each input pair's scoped name belongs to exactly one key |
| `Session.Proto` | api/GraknSession.ts:59-61 | `DATA.proto()` is the protocol's DATA tag and `SCHEMA.proto()` its SCHEMA tag, as supplied to the constructors (lines 73-74) |
| `Session.IsData` | api/GraknSession.ts:63-65 | `isData` holds exactly when the tag is the protocol's DATA tag |
| `Session.IsSchema` | api/GraknSession.ts:67-69 | `isSchema` holds exactly when the tag is the protocol's SCHEMA tag |
| `Session.OnlyTwoSessionTypes` | api/GraknSession.ts:51-74 | every session type is DATA or SCHEMA, and the two differ |
| `Session.ExactlyOneKind` | api/GraknSession.ts:63-74 | exactly one of `isData` and `isSchema` holds of each session type; `isData` holds for DATA only and `isSchema` for SCHEMA only |
| `Session.ProtoInjective` | api/GraknSession.ts:53-61 | the tag fixed at construction determines the session type |
| `Concept.Execute` | concept/ConceptManager.ts:137-141 | the request is sent as the concept-manager variant of a transaction request; the concept-manager response is returned; an error of the transaction propagates unchanged; a response of any other variant is malformed |
| `Concept.GetType` | concept/ConceptManager.ts:119-127 | a `getType` request for the label is sent. The result is the decoded type exactly when the response case is TYPE, and `null` when no case is set. A response of the wrong variant is malformed, and errors propagate |
| `Concept.GetThing` | concept/ConceptManager.ts:109-117 | the same for a `getThing` request on the iid and the THING case |
| `Concept.GetRule` | concept/ConceptManager.ts:129-135 | the same for a `getRule` request on the label and the RULE case |
| `Concept.GetEntityType` | concept/ConceptManager.ts:67-71 | the looked-up type exactly when `getType` found one and it is an entity type; `null` when `getType` succeeded otherwise; errors of `getType` propagate |
| `Concept.GetRelationType` | concept/ConceptManager.ts:80-84 | the same for relation types |
| `Concept.GetAttributeType` | concept/ConceptManager.ts:93-97 | the same for attribute types |
| `Concept.KindGettersAgreeWithGetType` | concept/ConceptManager.ts:67-97 | a type that `getType` finds is returned unchanged by the getter of its own kind, and the other two kind getters return `null` for it |
| `Concept.RootGettersLookUpRootLabels` | concept/ConceptManager.ts:44-58 | the root getters are `getType` on "thing", "entity", "relation" and "attribute" |
| `Concept.PutEntityType` | concept/ConceptManager.ts:60-65 | a put-entity-type request for the label is sent; the reply's type is returned as an entity type; a reply of another variant is malformed; errors propagate |
| `Concept.PutRelationType` | concept/ConceptManager.ts:73-78 | the same for relation types |
| `Concept.PutAttributeType` | concept/ConceptManager.ts:86-91 | the same for attribute types |
| `Concept.PutRule` | concept/ConceptManager.ts:99-107 | the put-rule request carries the given label, when and then unchanged; the reply's rule is returned; a reply of another variant is malformed; errors propagate |
| `Concept.LookupsSendOnlyTheirRequest` | concept/ConceptManager.ts:109-141 | each of getType, getEntityType, getRelationType, getAttributeType, getThing and getRule depends on the transaction only through its answer to the one request that lookup builds |

## Left out

- Channel and TLS construction in `createChannelCredentials` (connection/cluster/ClusterServerStub.ts:77-85): it reads a file and builds gRPC channel credentials, which is I/O and foreign-library code. The credential's root-CA path is kept but not used.
- The seven user-management wrappers (`usersAll` … `userPasswordUpdate`), `userToken` and `stub` (connection/cluster/ClusterServerStub.ts:101-176, 199-210): they only adapt gRPC callbacks to promises. Each is an instance of `MayRenewToken` with its own call function, and `userToken`'s outcome is the `fetch` parameter.
- The `console.log` lines of the renewal guard: logging only.
- Cluster.ClusterServerStub.MayRenewToken: the message template that `TypeDBClientError`'s constructor derives from a wrapped service error is not part of this model. A wrapped service error is its own constructor, `WrappedServiceError`, and is never classified as token-invalid. After the retry this makes no difference, since nothing is classified then. Likewise a `TypeDBClientError` is taken to have no `code` field, so `isServiceError` holds only of gRPC service errors.
- Cluster.ClusterServerStub.Open: the connection probe (`connectionOpen`, defined in `TypeDBStub`, which is not part of this model) is given as its outcome.
- Promises and `async`: every operation is modelled as sequential. Concurrent calls through one stub, and so the question of renewal races, are not modelled.
- The protocol decoders (`ConceptProtoReader`, `RoleTypeImpl.of`, `ThingImpl.of`, `RuleImpl.of`, `EntityTypeImpl.of`, `RelationTypeImpl.of`, `RelationImpl.of`, `Bytes.bytesToHexString`): a decoded concept is represented by the message it was read from. For types, it also carries the class the decoder picks, which is a field of the `ConceptManager` value. A role type is represented by an identity number and its scoped name.
- Relation.FindRole: the key side reads `roleType.label().scopedName()` and the argument side `role.getLabel().scopedName()`. `RoleTypeImpl` is not part of this model, so both are taken to give the same scoped name.
- `addPlayer`, `removePlayer` and the element mapping of `getPlayers` (concept/thing/RelationImpl.ts:76-79, 86-87, 121-124): they only build requests from decoder output and stream responses through the transaction, which is not part of this model. The role types in the `getPlayers` request are kept as role types rather than their protocol form.
- Relation.GetPlayersByRoleType: the response stream is taken as already received, as a sequence of pairs. Pagination and the stream's flattening of response parts are not modelled.
- The request multiplexer, correlation ids, the cluster replica and term router, `src/Transaction.js` (plain delegation to a transaction service that is not part of this model) and `api/database/Database.ts` (interfaces only).
- The `Remote*AttributeType` interfaces (concept/Type/AttributeType.ts:44-139): declarations with no behaviour.
- ValueTypes.Of: the protocol's `VALUE_TYPE` enum is taken to name the same six values as `ValueType`. Any other number it may carry at run time is `Unrecognised(code)`.
