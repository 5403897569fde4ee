/** Relations of concept/thing/RelationImpl.ts: the local and transaction-bound
    relation objects, the request of `getPlayers`, and the grouping of a stream
    of (role type, player) pairs into an insertion-ordered map keyed by the
    first-seen role type of each scoped name (`getPlayersByRoleType` and
    `findRole`). */
module Relation {
  import opened Wrappers

  /** A role type object as the decoder produces it: `ref` stands for the
      object's identity (each decoded pair yields a new object), `scopedName`
      for its label's scoped name. */
  datatype RoleType = RoleType(ref: nat, scopedName: string)

  datatype Thing = Thing(iid: string)

  datatype RelationType = RelationType(typeLabel: string)

  /** One (role type, player) pair of the `getPlayersByRoleType` stream. */
  datatype RolePlayer = RolePlayer(role: RoleType, player: Thing)

  /** One entry of the insertion-ordered JavaScript `Map<RoleType, Thing[]>`. */
  datatype Entry = Entry(key: RoleType, players: seq<Thing>)

  // ---------------------------------------------------------------------------
  // Local and remote relation objects

  /** The transaction a remote object is bound to. */
  datatype Transaction = Transaction(id: nat)

  /** `RelationImpl`: an instance id and the relation type given at construction. */
  datatype RelationImpl = RelationImpl(iid: string, relationType: RelationType)

  /** `RelationImpl.RemoteImpl`: the same data bound to a transaction. */
  datatype RemoteImpl = RemoteImpl(transaction: Transaction, iid: string, relationType: RelationType)

  /** `RelationImpl.asRemote`: bind this relation's iid and type to the transaction. */
  function AsRemote(r: RelationImpl, tx: Transaction): (rr: RemoteImpl)
    ensures rr.transaction == tx && rr.iid == r.iid
    ensures RemoteGetType(rr) == GetType(r)
  {
    RemoteImpl(tx, r.iid, GetType(r))
  }

  /** `RelationImpl.getType`. */
  function GetType(r: RelationImpl): RelationType
  {
    r.relationType
  }

  /** `RemoteImpl.asRemote`: returns the object itself, whatever the transaction. */
  function RemoteAsRemote(rr: RemoteImpl, tx: Transaction): (r: RemoteImpl)
    ensures r == rr
  {
    rr
  }

  /** `RemoteImpl.getType`. */
  function RemoteGetType(rr: RemoteImpl): RelationType
  {
    rr.relationType
  }

  /** `getType` on both classes returns the type given at construction, and
      binding to a transaction is idempotent. */
  lemma GetTypeIsConstructionType(iid: string, t: RelationType, tx: Transaction, tx': Transaction)
    ensures GetType(RelationImpl(iid, t)) == t
    ensures RemoteGetType(RemoteImpl(tx, iid, t)) == t
    ensures RemoteGetType(AsRemote(RelationImpl(iid, t), tx)) == t
    ensures RemoteAsRemote(AsRemote(RelationImpl(iid, t), tx), tx') == AsRemote(RelationImpl(iid, t), tx)
  {
  }

  /** The `getPlayers` request: the relation's iid and the role types that
      restrict it (sent as their protocol form). */
  datatype GetPlayersReq = GetPlayersReq(iid: string, roleTypes: seq<RoleType>)

  /** `getPlayers`' request; a missing role-type list counts as an empty one. */
  function GetPlayersRequest(rr: RemoteImpl, roleTypes: Option<seq<RoleType>>): (req: GetPlayersReq)
    ensures req.iid == rr.iid
    ensures roleTypes.Some? ==> req.roleTypes == roleTypes.value
  {
    GetPlayersReq(rr.iid, if roleTypes.None? then [] else roleTypes.value)
  }

  /** Calling `getPlayers` without role types is calling it with none. */
  lemma GetPlayersDefaultsToEmpty(rr: RemoteImpl)
    ensures GetPlayersRequest(rr, None) == GetPlayersRequest(rr, Some([]))
    ensures GetPlayersRequest(rr, None).roleTypes == []
  {
  }

  // ---------------------------------------------------------------------------
  // Specification of the grouping

  /** The index of the first entry whose key has the given scoped name. */
  function Find(m: seq<Entry>, name: string): (r: Option<nat>)
    ensures r.Some? ==> r.value < |m| && m[r.value].key.scopedName == name
    ensures r.Some? ==> forall j :: 0 <= j < r.value ==> m[j].key.scopedName != name
    ensures r.None? ==> forall j :: 0 <= j < |m| ==> m[j].key.scopedName != name
  {
    if |m| == 0 then None
    else if m[0].key.scopedName == name then Some(0)
    else match Find(m[1..], name)
      case None => None
      case Some(i) => Some(i + 1)
  }

  /** What `findRole` returns: the first key, in insertion order, with the role's
      scoped name, or `null`. */
  function FindRoleSpec(m: seq<Entry>, role: RoleType): (k: Option<RoleType>)
    ensures k.None? <==> forall j :: 0 <= j < |m| ==> m[j].key.scopedName != role.scopedName
    ensures k.Some? ==> exists i ::
              0 <= i < |m| && m[i].key == k.value
              && forall j :: 0 <= j < i ==> m[j].key.scopedName != role.scopedName
    ensures k.Some? ==> k.value.scopedName == role.scopedName
  {
    match Find(m, role.scopedName)
    case None => None
    case Some(i) => Some(m[i].key)
  }

  /** `map.get(key).push(player)`: append to the players of the entry whose key
      is the object `key`. */
  function AppendTo(m: seq<Entry>, key: RoleType, player: Thing): (r: seq<Entry>)
    ensures |r| == |m|
  {
    seq(|m|, j requires 0 <= j < |m| =>
      if m[j].key == key then Entry(key, m[j].players + [player]) else m[j])
  }

  /** One step of the `forEach`: look the role up by scoped name, add it as a new
      key with an empty list when absent, then push the player. */
  function Add(m: seq<Entry>, p: RolePlayer): seq<Entry>
  {
    match FindRoleSpec(m, p.role)
    case None => AppendTo(m + [Entry(p.role, [])], p.role, p.player)
    case Some(key) => AppendTo(m, key, p.player)
  }

  /** The map `getPlayersByRoleType` builds from the stream `s`. */
  function Group(s: seq<RolePlayer>): seq<Entry>
  {
    if |s| == 0 then [] else Add(Group(s[..|s| - 1]), s[|s| - 1])
  }

  /** The index of the first pair of the stream whose role has the given scoped name. */
  function FirstIndex(s: seq<RolePlayer>, name: string): (r: Option<nat>)
    ensures r.Some? ==> r.value < |s| && s[r.value].role.scopedName == name
    ensures r.Some? ==> forall j :: 0 <= j < r.value ==> s[j].role.scopedName != name
    ensures r.None? ==> forall j :: 0 <= j < |s| ==> s[j].role.scopedName != name
  {
    if |s| == 0 then None
    else match FirstIndex(s[..|s| - 1], name)
      case Some(k) => Some(k)
      case None => if s[|s| - 1].role.scopedName == name then Some(|s| - 1) else None
  }

  /** The players of the stream whose role has the given scoped name, in stream order. */
  function PlayersNamed(s: seq<RolePlayer>, name: string): seq<Thing>
  {
    if |s| == 0 then []
    else PlayersNamed(s[..|s| - 1], name) + (if s[|s| - 1].role.scopedName == name then [s[|s| - 1].player] else [])
  }

  /** The number of players over all entries. */
  function TotalPlayers(m: seq<Entry>): nat
  {
    if |m| == 0 then 0 else |m[0].players| + TotalPlayers(m[1..])
  }

  /** No two keys share a scoped name. */
  ghost predicate DistinctNames(m: seq<Entry>)
  {
    forall i, j :: 0 <= i < j < |m| ==> m[i].key.scopedName != m[j].key.scopedName
  }

  /** Each key is the first role object of the stream with its scoped name. */
  ghost predicate KeysFirstSeen(m: seq<Entry>, s: seq<RolePlayer>)
  {
    forall i :: 0 <= i < |m| ==>
      FirstIndex(s, m[i].key.scopedName).Some? &&
      s[FirstIndex(s, m[i].key.scopedName).value].role == m[i].key
  }

  /** Keys are in the order their scoped names first appear in the stream. */
  ghost predicate KeysInOrder(m: seq<Entry>, s: seq<RolePlayer>)
    requires KeysFirstSeen(m, s)
  {
    forall i, j :: 0 <= i < j < |m| ==>
      FirstIndex(s, m[i].key.scopedName).value < FirstIndex(s, m[j].key.scopedName).value
  }

  /** Each entry holds exactly the players paired with its scoped name, in stream order. */
  ghost predicate PlayersGrouped(m: seq<Entry>, s: seq<RolePlayer>)
  {
    forall i :: 0 <= i < |m| ==> m[i].players == PlayersNamed(s, m[i].key.scopedName)
  }

  /** Every scoped name of the stream has an entry. */
  ghost predicate NamesCovered(m: seq<Entry>, s: seq<RolePlayer>)
  {
    forall k :: 0 <= k < |s| ==> Find(m, s[k].role.scopedName).Some?
  }

  /** `m` is the grouping of the stream `s`. */
  ghost predicate GroupedBy(m: seq<Entry>, s: seq<RolePlayer>)
  {
    && DistinctNames(m)
    && KeysFirstSeen(m, s)
    && KeysInOrder(m, s)
    && PlayersGrouped(m, s)
    && NamesCovered(m, s)
  }

  // ---------------------------------------------------------------------------
  // Lemmas about the grouping

  /** Extending the stream by one pair changes first occurrences and player
      lists only for that pair's scoped name. */
  lemma SnocFacts(s: seq<RolePlayer>, p: RolePlayer, x: string)
    ensures FirstIndex(s + [p], x) ==
            if FirstIndex(s, x).Some? then FirstIndex(s, x)
            else if p.role.scopedName == x then Some(|s|) else None
    ensures PlayersNamed(s + [p], x) ==
            PlayersNamed(s, x) + (if p.role.scopedName == x then [p.player] else [])
  {
    assert (s + [p])[..|s|] == s;
  }

  /** A scoped name that no pair of the stream carries has no players. */
  lemma {:induction false} NoPlayersForAbsentName(s: seq<RolePlayer>, x: string)
    requires forall j :: 0 <= j < |s| ==> s[j].role.scopedName != x
    ensures PlayersNamed(s, x) == []
  {
    if |s| > 0 {
      NoPlayersForAbsentName(s[..|s| - 1], x);
    }
  }

  /** Pushing to a key the map does not yet hold, right after adding it with an
      empty list, appends a one-player entry at the end. */
  lemma AppendToNewKey(m: seq<Entry>, role: RoleType, player: Thing)
    requires forall j :: 0 <= j < |m| ==> m[j].key != role
    ensures AppendTo(m + [Entry(role, [])], role, player) == m + [Entry(role, [player])]
  {
    var a := AppendTo(m + [Entry(role, [])], role, player);
    var b := m + [Entry(role, [player])];
    forall j | 0 <= j < |a|
      ensures a[j] == b[j]
    {
      if j < |m| {
        assert (m + [Entry(role, [])])[j] == m[j];
      }
    }
  }

  /** Pushing to the key of entry `i`, when no other entry has that key,
      extends that entry's players only. */
  lemma AppendToExistingKey(m: seq<Entry>, i: nat, player: Thing)
    requires i < |m|
    requires forall j :: 0 <= j < |m| && j != i ==> m[j].key != m[i].key
    ensures AppendTo(m, m[i].key, player) == m[i := Entry(m[i].key, m[i].players + [player])]
  {
  }

  /** A scoped name without an entry does not occur in a covered stream. */
  lemma AbsentNameNotInStream(m: seq<Entry>, s: seq<RolePlayer>, n: string)
    requires NamesCovered(m, s)
    requires Find(m, n).None?
    ensures FirstIndex(s, n).None?
  {
  }

  lemma NewNameDistinct(m: seq<Entry>, e: Entry)
    requires DistinctNames(m)
    requires Find(m, e.key.scopedName).None?
    ensures DistinctNames(m + [e])
  {
  }

  /** After a pair with a new scoped name, first occurrences of the old names
      are unchanged and the new name first occurs at the end. */
  lemma NewNameFirstIndexes(m: seq<Entry>, s: seq<RolePlayer>, p: RolePlayer)
    requires KeysFirstSeen(m, s)
    requires FirstIndex(s, p.role.scopedName).None?
    ensures FirstIndex(s + [p], p.role.scopedName) == Some(|s|)
    ensures forall i :: 0 <= i < |m| ==>
              FirstIndex(s + [p], m[i].key.scopedName) == FirstIndex(s, m[i].key.scopedName)
  {
    SnocFacts(s, p, p.role.scopedName);
    forall i | 0 <= i < |m|
      ensures FirstIndex(s + [p], m[i].key.scopedName) == FirstIndex(s, m[i].key.scopedName)
    {
      SnocFacts(s, p, m[i].key.scopedName);
    }
  }

  lemma NewNameFirstSeen(m: seq<Entry>, s: seq<RolePlayer>, p: RolePlayer)
    requires KeysFirstSeen(m, s)
    requires FirstIndex(s, p.role.scopedName).None?
    ensures KeysFirstSeen(m + [Entry(p.role, [p.player])], s + [p])
  {
    var s', m' := s + [p], m + [Entry(p.role, [p.player])];
    NewNameFirstIndexes(m, s, p);
    forall i | 0 <= i < |m'|
      ensures FirstIndex(s', m'[i].key.scopedName).Some?
      ensures s'[FirstIndex(s', m'[i].key.scopedName).value].role == m'[i].key
    {
      if i < |m| {
        assert m'[i] == m[i];
      }
    }
  }

  lemma NewNameInOrder(m: seq<Entry>, s: seq<RolePlayer>, p: RolePlayer)
    requires KeysFirstSeen(m, s) && KeysInOrder(m, s)
    requires FirstIndex(s, p.role.scopedName).None?
    requires KeysFirstSeen(m + [Entry(p.role, [p.player])], s + [p])
    ensures KeysInOrder(m + [Entry(p.role, [p.player])], s + [p])
  {
    NewNameFirstIndexes(m, s, p);
  }

  lemma NewNamePlayers(m: seq<Entry>, s: seq<RolePlayer>, p: RolePlayer)
    requires PlayersGrouped(m, s)
    requires forall i :: 0 <= i < |m| ==> m[i].key.scopedName != p.role.scopedName
    requires FirstIndex(s, p.role.scopedName).None?
    ensures PlayersGrouped(m + [Entry(p.role, [p.player])], s + [p])
  {
    var s', m' := s + [p], m + [Entry(p.role, [p.player])];
    SnocFacts(s, p, p.role.scopedName);
    NoPlayersForAbsentName(s, p.role.scopedName);
    forall i | 0 <= i < |m|
      ensures m'[i].players == PlayersNamed(s', m'[i].key.scopedName)
    {
      SnocFacts(s, p, m[i].key.scopedName);
    }
  }

  lemma NewNameCovered(m: seq<Entry>, s: seq<RolePlayer>, p: RolePlayer)
    requires NamesCovered(m, s)
    ensures NamesCovered(m + [Entry(p.role, [p.player])], s + [p])
  {
    var s', m' := s + [p], m + [Entry(p.role, [p.player])];
    forall k | 0 <= k < |s'|
      ensures Find(m', s'[k].role.scopedName).Some?
    {
      if k < |s| {
        var i := Find(m, s[k].role.scopedName).value;
        assert m'[i].key.scopedName == s'[k].role.scopedName;
      } else {
        assert m'[|m|].key.scopedName == s'[k].role.scopedName;
      }
    }
  }

  /** A step that meets a new scoped name appends a one-player entry and keeps
      the grouping invariant. */
  lemma AddNewNameKeepsGrouping(m: seq<Entry>, s: seq<RolePlayer>, p: RolePlayer)
    requires GroupedBy(m, s)
    requires Find(m, p.role.scopedName).None?
    ensures GroupedBy(m + [Entry(p.role, [p.player])], s + [p])
  {
    AbsentNameNotInStream(m, s, p.role.scopedName);
    NewNameDistinct(m, Entry(p.role, [p.player]));
    NewNameFirstSeen(m, s, p);
    NewNameInOrder(m, s, p);
    NewNamePlayers(m, s, p);
    NewNameCovered(m, s, p);
  }

  lemma KnownNameFirstSeen(m: seq<Entry>, s: seq<RolePlayer>, p: RolePlayer, i: nat, m': seq<Entry>)
    requires KeysFirstSeen(m, s) && KeysInOrder(m, s)
    requires i < |m| && m[i].key.scopedName == p.role.scopedName
    requires |m'| == |m| && forall j :: 0 <= j < |m| ==> m'[j].key == m[j].key
    ensures KeysFirstSeen(m', s + [p]) && KeysInOrder(m', s + [p])
  {
    var s' := s + [p];
    forall j | 0 <= j < |m|
      ensures FirstIndex(s', m'[j].key.scopedName) == FirstIndex(s, m[j].key.scopedName)
    {
      SnocFacts(s, p, m[j].key.scopedName);
    }
  }

  lemma KnownNamePlayers(m: seq<Entry>, s: seq<RolePlayer>, p: RolePlayer, i: nat)
    requires PlayersGrouped(m, s) && DistinctNames(m)
    requires i < |m| && m[i].key.scopedName == p.role.scopedName
    ensures PlayersGrouped(m[i := Entry(m[i].key, m[i].players + [p.player])], s + [p])
  {
    var s', m' := s + [p], m[i := Entry(m[i].key, m[i].players + [p.player])];
    forall j | 0 <= j < |m'|
      ensures m'[j].players == PlayersNamed(s', m'[j].key.scopedName)
    {
      SnocFacts(s, p, m[j].key.scopedName);
      if j != i {
        assert m[j].key.scopedName != m[i].key.scopedName by {
          if j < i {} else {}
        }
      }
    }
  }

  lemma KnownNameCovered(m: seq<Entry>, s: seq<RolePlayer>, p: RolePlayer, i: nat, m': seq<Entry>)
    requires NamesCovered(m, s)
    requires i < |m| && m[i].key.scopedName == p.role.scopedName
    requires |m'| == |m| && forall j :: 0 <= j < |m| ==> m'[j].key == m[j].key
    ensures NamesCovered(m', s + [p])
  {
    var s' := s + [p];
    forall k | 0 <= k < |s'|
      ensures Find(m', s'[k].role.scopedName).Some?
    {
      if k < |s| {
        var i' := Find(m, s[k].role.scopedName).value;
        assert m'[i'].key.scopedName == s'[k].role.scopedName;
      } else {
        assert m'[i].key.scopedName == s'[k].role.scopedName;
      }
    }
  }

  /** A step that meets a known scoped name extends that entry only and keeps
      the grouping invariant. */
  lemma AddKnownNameKeepsGrouping(m: seq<Entry>, s: seq<RolePlayer>, p: RolePlayer, i: nat)
    requires GroupedBy(m, s)
    requires Find(m, p.role.scopedName) == Some(i)
    ensures GroupedBy(m[i := Entry(m[i].key, m[i].players + [p.player])], s + [p])
  {
    var m' := m[i := Entry(m[i].key, m[i].players + [p.player])];
    assert DistinctNames(m');
    KnownNameFirstSeen(m, s, p, i, m');
    KnownNamePlayers(m, s, p, i);
    KnownNameCovered(m, s, p, i, m');
  }

  /** One step of the `forEach` keeps the grouping invariant. */
  lemma {:induction false} AddKeepsGrouping(m: seq<Entry>, s: seq<RolePlayer>, p: RolePlayer)
    requires GroupedBy(m, s)
    ensures GroupedBy(Add(m, p), s + [p])
  {
    match Find(m, p.role.scopedName)
    case None =>
      AppendToNewKey(m, p.role, p.player);
      AddNewNameKeepsGrouping(m, s, p);
    case Some(i) =>
      AppendToExistingKey(m, i, p.player);
      AddKnownNameKeepsGrouping(m, s, p, i);
  }

  /** The map `getPlayersByRoleType` builds is the grouping of the stream. */
  lemma {:induction false} GroupIsGrouping(s: seq<RolePlayer>)
    ensures GroupedBy(Group(s), s)
  {
    if |s| > 0 {
      var s0, p := s[..|s| - 1], s[|s| - 1];
      assert s == s0 + [p];
      GroupIsGrouping(s0);
      AddKeepsGrouping(Group(s0), s0, p);
    }
  }

  lemma {:induction false} TotalPlayersAppend(m: seq<Entry>, e: Entry)
    ensures TotalPlayers(m + [e]) == TotalPlayers(m) + |e.players|
  {
    if |m| > 0 {
      assert (m + [e])[1..] == m[1..] + [e];
      TotalPlayersAppend(m[1..], e);
    }
  }

  lemma {:induction false} TotalPlayersUpdate(m: seq<Entry>, i: nat, e: Entry)
    requires i < |m|
    ensures TotalPlayers(m[i := e]) == TotalPlayers(m) - |m[i].players| + |e.players|
  {
    if i > 0 {
      assert m[i := e][1..] == m[1..][i - 1 := e];
      TotalPlayersUpdate(m[1..], i - 1, e);
    } else {
      assert m[i := e][1..] == m[1..];
    }
  }

  /** Every pair lands in exactly one group: the players over all groups number
      as many as the pairs of the stream. */
  lemma {:induction false} GroupTotal(s: seq<RolePlayer>)
    ensures TotalPlayers(Group(s)) == |s|
  {
    if |s| > 0 {
      var s0 := s[..|s| - 1];
      var p := s[|s| - 1];
      var m := Group(s0);
      GroupTotal(s0);
      GroupIsGrouping(s0);
      match Find(m, p.role.scopedName)
      case None =>
        AppendToNewKey(m, p.role, p.player);
        TotalPlayersAppend(m, Entry(p.role, [p.player]));
      case Some(i) =>
        AppendToExistingKey(m, i, p.player);
        TotalPlayersUpdate(m, i, Entry(m[i].key, m[i].players + [p.player]));
    }
  }

  /** In a grouping, each pair of the stream is in the group of its scoped
      name and in no other: exactly one key carries that name. */
  lemma PairInExactlyOneGroup(m: seq<Entry>, s: seq<RolePlayer>, k: nat)
    requires DistinctNames(m) && NamesCovered(m, s)
    requires k < |s|
    ensures exists i :: 0 <= i < |m| && m[i].key.scopedName == s[k].role.scopedName &&
              forall j :: 0 <= j < |m| && j != i ==> m[j].key.scopedName != s[k].role.scopedName
  {
    var i := Find(m, s[k].role.scopedName).value;
    forall j | 0 <= j < |m| && j != i
      ensures m[j].key.scopedName != s[k].role.scopedName
    {
      if j < i {
        assert m[j].key.scopedName != m[i].key.scopedName;
      } else {
        assert m[i].key.scopedName != m[j].key.scopedName;
      }
    }
    assert m[i].key.scopedName == s[k].role.scopedName;
  }

  // ---------------------------------------------------------------------------
  // The imperative operations

  /** `findRole`: walk the keys in insertion order and return the first whose
      scoped name is the role's, or `null`. */
  method FindRole(m: seq<Entry>, role: RoleType) returns (key: Option<RoleType>)
    ensures key == FindRoleSpec(m, role)
  {
    var i := 0;
    while i < |m|
      invariant 0 <= i <= |m|
      invariant forall j :: 0 <= j < i ==> m[j].key.scopedName != role.scopedName
    {
      if m[i].key.scopedName == role.scopedName {
        return Some(m[i].key);
      }
      i := i + 1;
    }
    return None;
  }

  /** `getPlayersByRoleType`, after the stream of pairs has been received. */
  method GetPlayersByRoleType(stream: seq<RolePlayer>) returns (m: seq<Entry>)
    ensures m == Group(stream)
    ensures GroupedBy(m, stream)
    ensures TotalPlayers(m) == |stream|
  {
    m := [];
    var i := 0;
    while i < |stream|
      invariant 0 <= i <= |stream|
      invariant m == Group(stream[..i])
    {
      var role, player := stream[i].role, stream[i].player;
      var key := FindRole(m, role);
      if key.None? {
        m := m + [Entry(role, [])];
        key := Some(role);
      }
      m := AppendTo(m, key.value, player);
      assert stream[..i + 1][..i] == stream[..i];
      i := i + 1;
    }
    assert stream[..|stream|] == stream;
    GroupIsGrouping(stream);
    GroupTotal(stream);
  }
}
