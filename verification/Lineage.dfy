/** Chains of restores: where the data of an instance may have come from. */
module Lineage {
  import opened GoTypes
  import opened Pairs
  import opened ServiceDetails
  import opened Snapshots

  /** A group that was provisioned: its tags, and the birth whose snapshot it was restored from. */
  datatype Birth = Birth(tags: map<string, string>, parent: Option<nat>)

  datatype Taken = Taken(info: SnapshotInfo, of: nat)

  datatype World = World(brokerName: string, births: seq<Birth>, snapshots: seq<Taken>)

  datatype Event =
    | Fresh(instanceID: string, details: Details)
    | Restore(instanceID: string, details: Details, source: string, pick: nat)
    | TakeSnapshot(of: nat, name: string, time: int)
    | DropSnapshot(pick: nat)

  /** What Broker.Provision lets through: the newest snapshot tagged with the source, if it matches. */
  predicate MayRestore(w: World, source: string, pick: nat, d: Details) {
    && pick < |w.snapshots|
    && TaggedWith(w.snapshots[pick].info, "instance-id", source)
    && (forall q :: 0 <= q < |w.snapshots| && TaggedWith(w.snapshots[q].info, "instance-id", source) ==>
          w.snapshots[pick].info.createTime >= w.snapshots[q].info.createTime)
    && MatchesDetails(w.snapshots[pick].info, d)
  }

  /** The snapshots that AWS lists are those of this world. */
  ghost predicate ListsSnapshots(all: seq<Listed>, tagsOf: string -> Option<TagList>, w: World) {
    && AllUsable(all, tagsOf) && |all| == |w.snapshots|
    && forall i :: 0 <= i < |all| ==> InfoOf(all[i], tagsOf) == w.snapshots[i].info
  }

  /** Positions `at` of what was found, which is exactly what is tagged with the source. */
  ghost predicate FoundAt(w: World, found: seq<SnapshotInfo>, at: seq<nat>, source: string) {
    && |at| == |found|
    && (forall k :: 0 <= k < |at| ==> at[k] < |w.snapshots| && found[k] == w.snapshots[at[k]].info)
    && (forall q :: 0 <= q < |w.snapshots| ==> (q in at <==> TaggedWith(w.snapshots[q].info, "instance-id", source)))
  }

  lemma RestorableIsNewest(
      w: World, found: seq<SnapshotInfo>, at: seq<nat>, source: string, pick: nat, d: Details)
    requires FoundAt(w, found, at, source) && MayRestore(w, source, pick, d)
    ensures Newest(w.snapshots[pick].info, found)
  {
    assert pick in at;
    var k :| 0 <= k < |at| && at[k] == pick;
    assert found[k] == w.snapshots[pick].info;
    forall t | t in found ensures w.snapshots[pick].info.createTime >= t.createTime {
      var l :| 0 <= l < |found| && found[l] == t;
      assert at[l] in at;
    }
  }

  lemma NewestIsRestorable(
      w: World, found: seq<SnapshotInfo>, at: seq<nat>, source: string, info: SnapshotInfo, d: Details)
      returns (pick: nat)
    requires FoundAt(w, found, at, source) && Newest(info, found) && MatchesDetails(info, d)
    ensures MayRestore(w, source, pick, d) && w.snapshots[pick].info == info
  {
    var k :| 0 <= k < |found| && found[k] == info;
    pick := at[k];
    assert pick in at;
    forall q | 0 <= q < |w.snapshots| && TaggedWith(w.snapshots[q].info, "instance-id", source)
      ensures info.createTime >= w.snapshots[q].info.createTime
    {
      assert q in at;
      var l :| 0 <= l < |at| && at[l] == q;
      assert found[l] in found;
    }
  }

  /**
   * And that is the broker's check: a snapshot may be restored from exactly if it is a newest one of
   * those FindSnapshots finds for the source, and it matches.
   */
  lemma MayRestoreIsTheCheck(
      w: World, all: seq<Listed>, tagsOf: string -> Option<TagList>, source: string, d: Details, info: SnapshotInfo)
    requires ListsSnapshots(all, tagsOf, w)
    ensures Newest(info, SnapshotsOf(all, tagsOf, source)) && MatchesDetails(info, d)
       <==> exists pick: nat :: MayRestore(w, source, pick, d) && w.snapshots[pick].info == info
  {
    var found := SnapshotsOf(all, tagsOf, source);
    var at := ExactlyTheTagged(all, tagsOf, source);
    assert FoundAt(w, found, at, source);
    if Newest(info, found) && MatchesDetails(info, d) {
      var pick := NewestIsRestorable(w, found, at, source, info, d);
    }
    if pick: nat :| MayRestore(w, source, pick, d) && w.snapshots[pick].info == info {
      RestorableIsNewest(w, found, at, source, pick, d);
    }
  }

  /** Snapshots carry the tags of their group; any group ever born may be snapshotted at any time. */
  function Exec(w: World, e: Event): World {
    match e
    case Fresh(id, d) => w.(births := w.births + [Birth(BrokerTags(w.brokerName, d, id), None)])
    case Restore(id, d, source, pick) =>
      if MayRestore(w, source, pick, d)
      then w.(births := w.births + [Birth(BrokerTags(w.brokerName, d, id), Some(w.snapshots[pick].of))])
      else w
    case TakeSnapshot(of, name, time) =>
      if of < |w.births|
      then w.(snapshots := w.snapshots + [Taken(SnapshotInfo(name, time, w.births[of].tags), of)])
      else w
    case DropSnapshot(pick) =>
      if pick < |w.snapshots|
      then w.(snapshots := w.snapshots[..pick] + w.snapshots[pick + 1..])
      else w
  }

  function Run(w: World, es: seq<Event>): World
    decreases |es|
  {
    if es == [] then w else Run(Exec(w, es[0]), es[1..])
  }

  predicate SameUnder(key: string, a: map<string, string>, b: map<string, string>) {
    key in a && key in b && a[key] == b[key]
  }

  predicate SameHome(a: map<string, string>, b: map<string, string>) {
    SameUnder("organization-id", a, b) && SameUnder("space-id", a, b) && SameUnder("plan-id", a, b)
  }

  predicate ParentsComeFirst(births: seq<Birth>) {
    forall k :: 0 <= k < |births| && births[k].parent.Some? ==> births[k].parent.value < k
  }

  /** The first instance of the chain of restores that ends in birth k. */
  function Root(births: seq<Birth>, k: nat): (r: nat)
    requires ParentsComeFirst(births) && k < |births|
    ensures r <= k && births[r].parent.None?
    decreases k
  {
    if births[k].parent.None? then k else Root(births, births[k].parent.value)
  }

  ghost predicate Sound(w: World) {
    && ParentsComeFirst(w.births)
    && (forall k :: 0 <= k < |w.births| ==> SameHome(w.births[k].tags, w.births[k].tags))
    && (forall k :: 0 <= k < |w.births| && w.births[k].parent.Some? ==>
          SameHome(w.births[k].tags, w.births[w.births[k].parent.value].tags))
    && (forall q :: 0 <= q < |w.snapshots| ==>
          w.snapshots[q].of < |w.births| && w.snapshots[q].info.tags == w.births[w.snapshots[q].of].tags)
  }

  lemma SoundWithBirth(w: World, b: Birth)
    requires Sound(w) && SameHome(b.tags, b.tags)
    requires b.parent.Some? ==> b.parent.value < |w.births| && SameHome(b.tags, w.births[b.parent.value].tags)
    ensures Sound(w.(births := w.births + [b]))
  {
  }

  /** The broker's check on a snapshot is what makes the new instance's tags agree with it. */
  lemma MatchingTags(brokerName: string, id: string, d: Details, s: SnapshotInfo)
    requires MatchesDetails(s, d)
    ensures SameHome(BrokerTags(brokerName, d, id), s.tags)
  {
    BrokerTagsSay(brokerName, d, id);
  }

  lemma SoundKept(w: World, e: Event)
    requires Sound(w)
    ensures Sound(Exec(w, e))
  {
    match e
    case Fresh(id, d) =>
      BrokerTagsSay(w.brokerName, d, id);
      SoundWithBirth(w, Birth(BrokerTags(w.brokerName, d, id), None));
    case Restore(id, d, source, pick) =>
      if MayRestore(w, source, pick, d) {
        MatchingTags(w.brokerName, id, d, w.snapshots[pick].info);
        SoundWithBirth(w, Birth(BrokerTags(w.brokerName, d, id), Some(w.snapshots[pick].of)));
      }
    case TakeSnapshot(of, name, time) =>
    case DropSnapshot(pick) =>
  }

  lemma {:induction false} SoundAlways(w: World, es: seq<Event>)
    requires Sound(w)
    ensures Sound(Run(w, es))
    decreases |es|
  {
    if es != [] {
      SoundKept(w, es[0]);
      SoundAlways(Exec(w, es[0]), es[1..]);
    }
  }

  lemma {:induction false} RootSharesHome(w: World, k: nat)
    requires Sound(w) && k < |w.births|
    ensures SameHome(w.births[k].tags, w.births[Root(w.births, k)].tags)
    decreases k
  {
    if w.births[k].parent.Some? {
      RootSharesHome(w, w.births[k].parent.value);
    }
  }

  /**
   * Over any history of provisions, restores and snapshots, every instance has the organization, space
   * and plan of the first instance its data came from.
   */
  lemma RestoresStayHome(brokerName: string, es: seq<Event>, k: nat)
    requires k < |Run(World(brokerName, [], []), es).births|
    ensures var births := Run(World(brokerName, [], []), es).births;
      ParentsComeFirst(births) && SameHome(births[k].tags, births[Root(births, k)].tags)
  {
    SoundAlways(World(brokerName, [], []), es);
    RootSharesHome(Run(World(brokerName, [], []), es), k);
  }
}
