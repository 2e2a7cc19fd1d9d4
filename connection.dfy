/** lib/common/RLSConnection.ts: a virtual connection for one tenant over a
    shared original connection. It copies the original, rewires the entity
    metadata to itself, and builds its own RLSPostgresDriver. */
module Connection {
  import opened Wrappers
  import opened Tenancy
  import opened Postgres
  import opened QueryRunner
  import opened Driver

  const CloseMessage: string :=
    "Cannot close connection on a virtual connection. Use the original connection object to close the connection"

  /** Some relation in `relations` belongs to the metadata object at index `j`. */
  ghost predicate Owns(relations: seq<RelationMetadata>, j: nat)
  {
    exists r :: r in relations && r.entityMetadata == j
  }

  /** The inner forEach: each relation's own entity metadata object gets
      `owner` as its connection (line 44 writes into that shared object). */
  function MarkOwners(records: seq<EntityMetadata>, relations: seq<RelationMetadata>, owner: object)
    : (r: seq<EntityMetadata>)
    requires forall k :: 0 <= k < |relations| ==> relations[k].entityMetadata < |records|
    ensures |r| == |records|
    ensures forall i :: 0 <= i < |records| ==>
              && r[i].name == records[i].name && r[i].relations == records[i].relations
              && r[i].connection == (if Owns(relations, i) then owner else records[i].connection)
    decreases |relations|
  {
    if relations == [] then records
    else
      var j := relations[0].entityMetadata;
      var rest := MarkOwners(records[j := records[j].(connection := owner)], relations[1..], owner);
      assert forall i :: Owns(relations, i) <==> i == j || Owns(relations[1..], i) by {
        forall i ensures Owns(relations, i) <==> i == j || Owns(relations[1..], i) {
          if Owns(relations, i) {
            var r :| r in relations && r.entityMetadata == i;
            if r != relations[0] {
              assert r in relations[1..];
            }
          }
          if Owns(relations[1..], i) {
            var r :| r in relations[1..] && r.entityMetadata == i;
            assert r in relations;
          }
          if i == j {
            assert relations[0] in relations;
          }
        }
      }
      rest
  }

  /** `Object.assign({}, EntityMetadata.prototype, em, { connection: this })`:
      a new metadata object with the same name and relations, owned by `owner`. */
  function WrapMetadata(em: EntityMetadata, owner: object): EntityMetadata
  {
    em.(connection := owner)
  }

  /** The outer forEach over `entityMetadatas`, on the arena `records`: for each
      one in order, allocate its wrapped copy at the end of the arena, then mark
      the owners of its relations. */
  function Rewire(records: seq<EntityMetadata>, metadatas: seq<nat>, owner: object): (r: seq<EntityMetadata>)
    requires WellLinked(records, metadatas)
    ensures |r| == |records| + |metadatas|
    decreases |metadatas|
  {
    if metadatas == [] then records
    else
      var em := records[metadatas[0]];
      var grown := records + [WrapMetadata(em, owner)];
      assert grown[|records|].relations == em.relations;
      var marked := MarkOwners(grown, em.relations, owner);
      Rewire(marked, metadatas[1..], owner)
  }

  /** Some relation of one of the listed metadata objects belongs to `j`. */
  ghost predicate Referenced(records: seq<EntityMetadata>, metadatas: seq<nat>, j: nat)
    requires WellLinked(records, metadatas)
  {
    exists k :: 0 <= k < |metadatas| && Owns(records[metadatas[k]].relations, j)
  }

  lemma {:induction false} RewireWrapsAt(records: seq<EntityMetadata>, metadatas: seq<nat>, owner: object, k: nat)
    requires WellLinked(records, metadatas) && k < |metadatas|
    ensures Rewire(records, metadatas, owner)[|records| + k] == WrapMetadata(records[metadatas[k]], owner)
    decreases |metadatas|
  {
    var em := records[metadatas[0]];
    var grown := records + [WrapMetadata(em, owner)];
    var marked := MarkOwners(grown, em.relations, owner);
    WrapStepLinked(records, metadatas[1..], metadatas[0], owner);
    assert Rewire(records, metadatas, owner) == Rewire(marked, metadatas[1..], owner);
    if k == 0 {
      RewireKeepsAt(marked, metadatas[1..], owner, |records|);
      assert grown[|records|] == WrapMetadata(em, owner);
    } else {
      RewireWrapsAt(marked, metadatas[1..], owner, k - 1);
      assert metadatas[1..][k - 1] == metadatas[k];
      assert marked[metadatas[k]].name == records[metadatas[k]].name;
      assert marked[metadatas[k]].relations == records[metadatas[k]].relations;
    }
  }

  /** The wrapped copies: one per original metadata, in the same order, at the
      end of the arena; each keeps its name and its relations and is owned by
      the new connection. */
  lemma RewireWraps(records: seq<EntityMetadata>, metadatas: seq<nat>, owner: object)
    requires WellLinked(records, metadatas)
    ensures forall k :: 0 <= k < |metadatas| ==>
              Rewire(records, metadatas, owner)[|records| + k] == WrapMetadata(records[metadatas[k]], owner)
  {
    forall k | 0 <= k < |metadatas| {
      RewireWrapsAt(records, metadatas, owner, k);
    }
  }

  /** The arena stays well linked after rewiring: the copies' relations
      point at old objects, and any list of old metadata stays in range. */
  lemma RewireStaysLinked(records: seq<EntityMetadata>, metadatas: seq<nat>, owner: object, others: seq<nat>)
    requires WellLinked(records, metadatas) && WellLinked(records, others)
    ensures WellLinked(Rewire(records, metadatas, owner), others)
  {
    var r := Rewire(records, metadatas, owner);
    RewireKeeps(records, metadatas, owner);
    RewireWraps(records, metadatas, owner);
    forall i, rel | 0 <= i < |r| && rel in r[i].relations
      ensures rel.entityMetadata < |r|
    {
      if i >= |records| {
        assert r[|records| + (i - |records|)].relations == records[metadatas[i - |records|]].relations;
      }
    }
  }

  /** After one step of `Rewire`, the metadata objects still to be visited
      carry the relations they had before, and every reference stays inside
      the arena. */
  lemma TailUnchanged(records: seq<EntityMetadata>, metadatas: seq<nat>, owner: object)
    requires WellLinked(records, metadatas) && metadatas != []
    ensures var em := records[metadatas[0]];
            var marked := MarkOwners(records + [WrapMetadata(em, owner)], em.relations, owner);
            && WellLinked(marked, metadatas[1..])
            && forall k :: 0 <= k < |metadatas| - 1 ==> marked[metadatas[1..][k]].relations == records[metadatas[k + 1]].relations
  {
    var em := records[metadatas[0]];
    var grown := records + [WrapMetadata(em, owner)];
    var tail := metadatas[1..];
    WrapStepLinked(records, metadatas, metadatas[0], owner);
    assert forall k :: 0 <= k < |tail| ==> tail[k] == metadatas[k + 1];
    assert forall k :: 0 <= k < |tail| ==> grown[tail[k]] == records[tail[k]];
  }

  /** One step of the outer forEach as seen from an old object `j`: it is
      referenced by the listed metadata exactly when the first one's relations
      own it or the remaining ones, read in the updated arena, reference it. */
  lemma ReferencedStep(records: seq<EntityMetadata>, metadatas: seq<nat>, owner: object, j: nat)
    requires WellLinked(records, metadatas) && metadatas != [] && j < |records|
    ensures var em := records[metadatas[0]];
            var marked := MarkOwners(records + [WrapMetadata(em, owner)], em.relations, owner);
            && WellLinked(marked, metadatas[1..])
            && (Referenced(records, metadatas, j) <==> Owns(em.relations, j) || Referenced(marked, metadatas[1..], j))
  {
    var em := records[metadatas[0]];
    var marked := MarkOwners(records + [WrapMetadata(em, owner)], em.relations, owner);
    var tail := metadatas[1..];
    TailUnchanged(records, metadatas, owner);
    if Referenced(records, metadatas, j) {
      var k :| 0 <= k < |metadatas| && Owns(records[metadatas[k]].relations, j);
      if k > 0 {
        assert marked[tail[k - 1]].relations == records[metadatas[k]].relations;
      }
    }
    if Referenced(marked, tail, j) {
      var k :| 0 <= k < |tail| && Owns(marked[tail[k]].relations, j);
      assert marked[tail[k]].relations == records[metadatas[k + 1]].relations;
    }
  }

  lemma {:induction false} RewireKeepsAt(records: seq<EntityMetadata>, metadatas: seq<nat>, owner: object, j: nat)
    requires WellLinked(records, metadatas) && j < |records|
    ensures var r := Rewire(records, metadatas, owner);
            && r[j].name == records[j].name && r[j].relations == records[j].relations
            && r[j].connection == (if Referenced(records, metadatas, j) then owner else records[j].connection)
    decreases |metadatas|
  {
    if metadatas != [] {
      var em := records[metadatas[0]];
      var grown := records + [WrapMetadata(em, owner)];
      var marked := MarkOwners(grown, em.relations, owner);
      ReferencedStep(records, metadatas, owner, j);
      RewireKeepsAt(marked, metadatas[1..], owner, j);
      assert grown[j] == records[j];
    }
  }

  /** The objects that were already in the arena keep their names and
      relations; exactly those that some relation of a rewired metadata belongs
      to now name the new connection as their owner. So the original metadata
      is not left untouched. */
  lemma RewireKeeps(records: seq<EntityMetadata>, metadatas: seq<nat>, owner: object)
    requires WellLinked(records, metadatas)
    ensures var r := Rewire(records, metadatas, owner);
            forall j :: 0 <= j < |records| ==>
              && r[j].name == records[j].name && r[j].relations == records[j].relations
              && r[j].connection == (if Referenced(records, metadatas, j) then owner else records[j].connection)
  {
    forall j | 0 <= j < |records| {
      RewireKeepsAt(records, metadatas, owner, j);
    }
  }

  /** The inner forEach of the constructor: copy each relation and write
      `owner` into the entity metadata object it belongs to. */
  method MarkRelationOwners(arena: MetadataArena, relations: seq<RelationMetadata>, owner: object)
    returns (metadataRelations: seq<RelationMetadata>)
    requires forall k :: 0 <= k < |relations| ==> relations[k].entityMetadata < |arena.records|
    modifies arena
    ensures arena.records == MarkOwners(old(arena.records), relations, owner)
    ensures metadataRelations == relations
  {
    metadataRelations := [];
    var j := 0;
    while j < |relations|
      invariant 0 <= j <= |relations|
      invariant metadataRelations == relations[..j]
      invariant |arena.records| == |old(arena.records)|
      invariant MarkOwners(arena.records, relations[j..], owner) == MarkOwners(old(arena.records), relations, owner)
    {
      var relation := relations[j];
      var owning := arena.records[relation.entityMetadata];
      arena.records := arena.records[relation.entityMetadata := owning.(connection := owner)];
      metadataRelations := metadataRelations + [relation];
      assert relations[j..][1..] == relations[j + 1..];
      j := j + 1;
    }
    assert relations[j..] == [];
  }

  /** Allocating a wrapped copy of `records[m]` and marking the owners of its
      relations keeps every reference inside the arena. */
  lemma WrapStepLinked(records: seq<EntityMetadata>, metadatas: seq<nat>, m: nat, owner: object)
    requires WellLinked(records, metadatas) && m < |records|
    ensures var em := records[m];
            WellLinked(MarkOwners(records + [WrapMetadata(em, owner)], em.relations, owner), metadatas)
  {
    var em := records[m];
    var grown := records + [WrapMetadata(em, owner)];
    assert forall i :: 0 <= i < |grown| ==> grown[i].relations == (if i < |records| then records[i].relations else em.relations);
  }

  /** One turn of the outer forEach: `Object.assign` a wrapped copy of the
      metadata at `m`, owned by `owner`, at the end of the arena, then run the
      inner forEach over its relations and give the copy those relations. */
  method WrapEntityMetadata(arena: MetadataArena, m: nat, owner: object) returns (wrapped: nat)
    requires m < |arena.records|
    requires forall r :: r in arena.records[m].relations ==> r.entityMetadata < |arena.records|
    modifies arena
    ensures wrapped == |old(arena.records)|
    ensures var em := old(arena.records)[m];
            arena.records == MarkOwners(old(arena.records) + [WrapMetadata(em, owner)], em.relations, owner)
  {
    var em := arena.records[m];
    wrapped := |arena.records|;
    arena.records := arena.records + [WrapMetadata(em, owner)];
    assert forall k :: 0 <= k < |em.relations| ==> em.relations[k] in em.relations;
    var metadataRelations := MarkRelationOwners(arena, em.relations, owner);
    ghost var marked := arena.records;
    assert marked[wrapped].relations == metadataRelations;
    // Object.assign(wrappedMetadata, { relations: metadataRelations })
    arena.records := arena.records[wrapped := arena.records[wrapped].(relations := metadataRelations)];
    assert arena.records == marked;
  }

  /** The outer forEach of the constructor: for each entity metadata in
      order, allocate its wrapped copy owned by `owner`, rewire its relations,
      and collect the copies. */
  method WrapEntityMetadatas(arena: MetadataArena, originals: seq<nat>, owner: object)
    returns (metadatas: seq<nat>)
    requires WellLinked(arena.records, originals)
    modifies arena
    ensures arena.records == Rewire(old(arena.records), originals, owner)
    ensures |metadatas| == |originals|
    ensures forall k :: 0 <= k < |metadatas| ==> metadatas[k] == |old(arena.records)| + k
  {
    metadatas := [];
    var i := 0;
    while i < |originals|
      invariant 0 <= i <= |originals|
      invariant WellLinked(arena.records, originals)
      invariant |arena.records| == |old(arena.records)| + i
      invariant |metadatas| == i && forall k :: 0 <= k < i ==> metadatas[k] == |old(arena.records)| + k
      invariant Rewire(arena.records, originals[i..], owner) == Rewire(old(arena.records), originals, owner)
    {
      ghost var before := arena.records;
      var wrapped := WrapEntityMetadata(arena, originals[i], owner);
      WrapStepLinked(before, originals, originals[i], owner);
      assert originals[i..][0] == originals[i] && originals[i..][1..] == originals[i + 1..];
      metadatas := metadatas + [wrapped];
      i := i + 1;
    }
    assert originals[i..] == [];
  }

  class RLSConnection {
    /** Copied from the original connection. */
    var name: string
    var options: ConnectionOptions
    var isInitialized: bool
    var namingStrategy: string
    var migrations: seq<string>
    var subscribers: seq<string>
    const metadataArena: MetadataArena

    var entityMetadatas: seq<nat>
    var driver: RLSPostgresDriver
    var tenantId: Id
    var actorId: Id

    /** The driver serves this connection with this connection's tenant and actor. */
    ghost predicate Valid()
      reads this, driver
    {
      driver.connection == this && driver.tenantId == tenantId && driver.actorId == actorId
    }

    constructor (connection: DataSource, tenancyModelOptions: TenancyModelOptions)
      requires WellLinked(connection.metadataArena.records, connection.entityMetadatas)
      modifies connection.metadataArena
      ensures Valid() && fresh(driver)
      ensures tenantId == tenancyModelOptions.tenantId && actorId == tenancyModelOptions.actorId
      ensures name == connection.name && options == connection.options
      ensures isInitialized == connection.isInitialized && namingStrategy == connection.namingStrategy
      ensures migrations == connection.migrations && subscribers == connection.subscribers
      ensures metadataArena == connection.metadataArena
      ensures |entityMetadatas| == |connection.entityMetadatas|
      ensures forall k :: 0 <= k < |entityMetadatas| ==>
                entityMetadatas[k] == |old(connection.metadataArena.records)| + k
      ensures metadataArena.records == Rewire(old(connection.metadataArena.records), connection.entityMetadatas, this)
      ensures driver.options == connection.driver.options && driver.database == connection.driver.database
      ensures driver.connectedQueryRunners == connection.driver.connectedQueryRunners
    {
      // Object.assign(this, connection)
      name := connection.name;
      options := connection.options;
      isInitialized := connection.isInitialized;
      namingStrategy := connection.namingStrategy;
      migrations := connection.migrations;
      subscribers := connection.subscribers;
      metadataArena := connection.metadataArena;
      entityMetadatas := connection.entityMetadatas;
      tenantId := tenancyModelOptions.tenantId;
      actorId := tenancyModelOptions.actorId;
      // `new RLSPostgresDriver(this, ...)` copies `this.driver`, which is still
      // the original connection's driver at that point.
      driver := new RLSPostgresDriver(connection.driver, tenancyModelOptions);
      new;

      var metadatas := WrapEntityMetadatas(metadataArena, entityMetadatas, this);
      entityMetadatas := metadatas;
      driver.connection := this;
    }

    /** `super.createQueryRunner()`: the driver's runner for the master. */
    method CreateQueryRunner() returns (r: RLSPostgresQueryRunner)
      ensures fresh(r) && r.driver == driver && r.connection == driver.connection && r.mode == Master
      ensures r.Options() == TenancyModelOptions(driver.tenantId, driver.actorId)
      ensures Valid() ==> r.connection == this && r.Options() == TenancyModelOptions(tenantId, actorId)
    {
      r := driver.CreateQueryRunner(Master);
    }

    /** A virtual connection never closes the shared pool; it always fails and
        changes nothing. */
    method Close() returns (r: Outcome<string>)
      ensures r == Fail(CloseMessage)
    {
      r := Fail(CloseMessage);
    }
  }
}
