/** Finding the snapshots of an instance, and choosing the one to restore from. */
module Snapshots {
  import opened GoTypes
  import opened Pairs
  import opened ServiceDetails

  /** A snapshot as AWS lists it; the optional fields may be nil. */
  datatype Listed = Listed(name: Option<string>, nodeCreateTimes: seq<Option<int>>)

  datatype SnapshotInfo = SnapshotInfo(name: string, createTime: int, tags: map<string, string>)

  /** What AWS answers: the pages, or an error, and for each snapshot name its tags, or an error. */
  datatype Listing = Listing(pages: Option<seq<seq<Listed>>>, tagsOf: string -> Option<TagList>)

  function Flatten<T>(pages: seq<seq<T>>): seq<T> {
    if pages == [] then [] else pages[0] + Flatten(pages[1..])
  }

  lemma {:induction false} FlattenHas<T>(pages: seq<seq<T>>, x: T)
    ensures x in Flatten(pages) <==> exists page :: page in pages && x in page
  {
    if pages != [] {
      FlattenHas(pages[1..], x);
      assert pages == [pages[0]] + pages[1..];
    }
  }

  lemma {:induction false} FlattenOneMore<T>(pages: seq<seq<T>>, last: seq<T>)
    ensures Flatten(pages + [last]) == Flatten(pages) + last
  {
    if pages == [] {
      assert pages + [last] == [last];
      assert [last][1..] == [];
    } else {
      assert (pages + [last])[1..] == pages[1..] + [last];
      FlattenOneMore(pages[1..], last);
    }
  }

  predicate Usable(s: Listed, tagsOf: string -> Option<TagList>) {
    && s.name.Some? && |s.nodeCreateTimes| > 0 && s.nodeCreateTimes[0].Some?
    && tagsOf(s.name.value).Some?
  }

  predicate AllUsable(all: seq<Listed>, tagsOf: string -> Option<TagList>) {
    forall i :: 0 <= i < |all| ==> Usable(all[i], tagsOf)
  }

  function InfoOf(s: Listed, tagsOf: string -> Option<TagList>): SnapshotInfo
    requires Usable(s, tagsOf)
  {
    SnapshotInfo(s.name.value, s.nodeCreateTimes[0].value, FromPairs(ReadTags(tagsOf(s.name.value).value)))
  }

  predicate TaggedWith(info: SnapshotInfo, key: string, value: string) {
    key in info.tags && info.tags[key] == value
  }

  /** The snapshots of one instance, in the order AWS lists them. */
  function SnapshotsOf(all: seq<Listed>, tagsOf: string -> Option<TagList>, instanceID: string): seq<SnapshotInfo>
    requires AllUsable(all, tagsOf)
  {
    if all == [] then []
    else
      var info := InfoOf(all[|all| - 1], tagsOf);
      SnapshotsOf(all[..|all| - 1], tagsOf, instanceID)
      + (if TaggedWith(info, "instance-id", instanceID) then [info] else [])
  }

  /** Exactly the tagged snapshots are found, and any two keep their order. */
  lemma {:induction false} ExactlyTheTagged(
      all: seq<Listed>, tagsOf: string -> Option<TagList>, instanceID: string)
      returns (at: seq<nat>)
    requires AllUsable(all, tagsOf)
    ensures var found := SnapshotsOf(all, tagsOf, instanceID);
      && |at| == |found|
      && (forall k :: 0 <= k < |at| ==> at[k] < |all| && found[k] == InfoOf(all[at[k]], tagsOf))
      && (forall k, l :: 0 <= k < l < |at| ==> at[k] < at[l])
      && (forall i :: 0 <= i < |all| ==> (i in at <==> TaggedWith(InfoOf(all[i], tagsOf), "instance-id", instanceID)))
  {
    if all == [] {
      at := [];
    } else {
      var n := |all| - 1;
      at := ExactlyTheTagged(all[..n], tagsOf, instanceID);
      ghost var before := at;
      if TaggedWith(InfoOf(all[n], tagsOf), "instance-id", instanceID) {
        at := at + [n];
      }
      forall i | 0 <= i < |all|
        ensures i in at <==> TaggedWith(InfoOf(all[i], tagsOf), "instance-id", instanceID)
      {
        if i < n {
          assert all[..n][i] == all[i];
          assert i in at <==> i in before;
        } else {
          assert n !in before;
        }
      }
    }
  }

  method FindSnapshots(listing: Listing, instanceID: string) returns (r: Result<seq<SnapshotInfo>, ()>)
    ensures r.Ok? <==> listing.pages.Some? && AllUsable(Flatten(listing.pages.value), listing.tagsOf)
    ensures r.Ok? ==> r.value == SnapshotsOf(Flatten(listing.pages.value), listing.tagsOf, instanceID)
  {
    if listing.pages.None? {
      return Err(());
    }
    var pages, tagsOf := listing.pages.value, listing.tagsOf;
    var snapshots: seq<Listed> := [];
    for p := 0 to |pages|
      invariant snapshots == Flatten(pages[..p])
    {
      FlattenOneMore(pages[..p], pages[p]);
      assert pages[..p + 1] == pages[..p] + [pages[p]];
      snapshots := snapshots + pages[p];
    }
    assert pages[..|pages|] == pages;
    var infos: seq<SnapshotInfo> := [];
    for i := 0 to |snapshots|
      invariant AllUsable(snapshots[..i], tagsOf)
      invariant infos == SnapshotsOf(snapshots[..i], tagsOf, instanceID)
    {
      var s := snapshots[i];
      if s.name.None? || |s.nodeCreateTimes| == 0 || s.nodeCreateTimes[0].None? {
        return Err(());
      }
      var tagList := tagsOf(s.name.value);
      if tagList.None? {
        return Err(());
      }
      var tags := TagsValues(tagList.value);
      assert snapshots[..i + 1][..i] == snapshots[..i];
      if "instance-id" in tags {
        if tags["instance-id"] == instanceID {
          infos := infos + [SnapshotInfo(s.name.value, s.nodeCreateTimes[0].value, tags)];
        }
      }
    }
    assert snapshots[..|snapshots|] == snapshots;
    return Ok(infos);
  }

  // ---- sorting, newest first ----

  predicate Less(a: SnapshotInfo, b: SnapshotInfo) {
    a.createTime > b.createTime
  }

  ghost predicate Newest(s: SnapshotInfo, all: seq<SnapshotInfo>) {
    s in all && forall t :: t in all ==> s.createTime >= t.createTime
  }

  method Swap(ct: array<SnapshotInfo>, i: nat, j: nat)
    requires i < ct.Length && j < ct.Length
    modifies ct
    ensures ct[..] == old(ct[..])[i := old(ct[j])][j := old(ct[i])]
    ensures multiset(ct[..]) == multiset(old(ct[..]))
  {
    ct[i], ct[j] := ct[j], ct[i];
  }

  ghost predicate SortedTo(s: seq<SnapshotInfo>, n: nat) {
    forall i, j :: 0 <= i < j < n <= |s| ==> !Less(s[j], s[i])
  }

  /** sort.Sort through Less and Swap; which sort it is does not matter. */
  method Sort(ct: array<SnapshotInfo>)
    modifies ct
    ensures multiset(ct[..]) == multiset(old(ct[..]))
    ensures SortedTo(ct[..], ct.Length)
  {
    for n := 0 to ct.Length
      invariant multiset(ct[..]) == multiset(old(ct[..]))
      invariant SortedTo(ct[..], n)
    {
      var j := n;
      while j > 0 && Less(ct[j], ct[j - 1])
        invariant 0 <= j <= n
        invariant multiset(ct[..]) == multiset(old(ct[..]))
        invariant forall a, b :: 0 <= a < b <= n && b != j ==> !Less(ct[b], ct[a])
      {
        Swap(ct, j, j - 1);
        j := j - 1;
      }
    }
  }

  lemma FirstIsNewest(s: seq<SnapshotInfo>, all: seq<SnapshotInfo>)
    requires |s| > 0 && SortedTo(s, |s|) && multiset(s) == multiset(all)
    ensures Newest(s[0], all)
  {
    assert s[0] in multiset(s);
    forall t | t in all ensures s[0].createTime >= t.createTime {
      assert t in multiset(s);
      var i :| 0 <= i < |s| && s[i] == t;
    }
  }

  predicate MatchesDetails(s: SnapshotInfo, d: Details) {
    && TaggedWith(s, "space-id", d.space)
    && TaggedWith(s, "organization-id", d.organization)
    && TaggedWith(s, "plan-id", d.planID)
  }

  datatype RestoreError = NoSnapshots | OtherSpaceOrOrganization | OtherPlan

  /** A restore goes ahead only from a newest snapshot, and only if that one matches. */
  method ChooseSnapshot(found: seq<SnapshotInfo>, d: Details) returns (r: Result<string, RestoreError>)
    ensures r == Err(NoSnapshots) <==> found == []
    ensures r.Ok? ==> exists s :: Newest(s, found) && MatchesDetails(s, d) && r.value == s.name
    ensures r.Err? && found != [] ==> exists s :: Newest(s, found) && !MatchesDetails(s, d)
    ensures r == Err(OtherPlan) ==>
      exists s :: (Newest(s, found) && !TaggedWith(s, "plan-id", d.planID)
                   && TaggedWith(s, "space-id", d.space) && TaggedWith(s, "organization-id", d.organization))
  {
    if |found| == 0 {
      return Err(NoSnapshots);
    }
    var snapshots := new SnapshotInfo[|found|](i requires 0 <= i < |found| => found[i]);
    assert snapshots[..] == found;
    Sort(snapshots);
    var latest := snapshots[0];
    FirstIsNewest(snapshots[..], found);
    if "space-id" !in latest.tags || latest.tags["space-id"] != d.space {
      return Err(OtherSpaceOrOrganization);
    }
    if "organization-id" !in latest.tags || latest.tags["organization-id"] != d.organization {
      return Err(OtherSpaceOrOrganization);
    }
    if "plan-id" !in latest.tags || latest.tags["plan-id"] != d.planID {
      return Err(OtherPlan);
    }
    return Ok(latest.name);
  }

  // ---- in terms of what AWS lists ----

  ghost predicate IsListed(listing: Listing, s: Listed) {
    listing.pages.Some? && exists page :: page in listing.pages.value && s in page
  }

  /** AWS answers for the snapshot's tags, and they say this. */
  ghost predicate Carries(listing: Listing, s: Listed, key: string, value: string) {
    && s.name.Some? && listing.tagsOf(s.name.value).Some?
    && Says(listing.tagsOf(s.name.value).value, key, value)
  }

  ghost predicate Readable(listing: Listing) {
    listing.pages.Some? && AllUsable(Flatten(listing.pages.value), listing.tagsOf)
  }

  ghost function Found(listing: Listing, source: string): seq<SnapshotInfo>
    requires Readable(listing)
  {
    SnapshotsOf(Flatten(listing.pages.value), listing.tagsOf, source)
  }

  /** The search succeeds exactly if AWS lists pages and each snapshot in them has what the search follows. */
  lemma ReadableExactlyIf(listing: Listing)
    ensures Readable(listing) <==>
      && listing.pages.Some?
      && forall s :: IsListed(listing, s) ==>
           && s.name.Some? && |s.nodeCreateTimes| > 0 && s.nodeCreateTimes[0].Some?
           && listing.tagsOf(s.name.value).Some?
  {
    if listing.pages.Some? {
      var all := Flatten(listing.pages.value);
      forall s ensures s in all <==> IsListed(listing, s) {
        FlattenHas(listing.pages.value, s);
      }
      if !AllUsable(all, listing.tagsOf) {
        var i :| 0 <= i < |all| && !Usable(all[i], listing.tagsOf);
        assert IsListed(listing, all[i]);
      }
    }
  }

  lemma InfoCarries(listing: Listing, s: Listed, key: string, value: string)
    requires Usable(s, listing.tagsOf)
    ensures TaggedWith(InfoOf(s, listing.tagsOf), key, value) <==> Carries(listing, s, key, value)
  {
    ReadTagsSay(listing.tagsOf(s.name.value).value, key, value);
  }

  /** What is found comes from listed snapshots tagged with the source, and from all of those. */
  lemma FoundAreListed(listing: Listing, source: string, info: SnapshotInfo)
    requires Readable(listing)
    ensures info in Found(listing, source) <==>
      exists s :: IsListed(listing, s) && Usable(s, listing.tagsOf) && Carries(listing, s, "instance-id", source)
                  && InfoOf(s, listing.tagsOf) == info
  {
    var all, found := Flatten(listing.pages.value), Found(listing, source);
    var at := ExactlyTheTagged(all, listing.tagsOf, source);
    if info in found {
      var k :| 0 <= k < |found| && found[k] == info;
      var s := all[at[k]];
      FlattenHas(listing.pages.value, s);
      assert at[k] in at;
      InfoCarries(listing, s, "instance-id", source);
    }
    if s :| IsListed(listing, s) && Usable(s, listing.tagsOf) && Carries(listing, s, "instance-id", source)
            && InfoOf(s, listing.tagsOf) == info {
      FlattenHas(listing.pages.value, s);
      var i :| 0 <= i < |all| && all[i] == s;
      InfoCarries(listing, s, "instance-id", source);
      var k :| 0 <= k < |at| && at[k] == i;
      assert found[k] == info;
    }
  }

  /** A newest one that is found comes from a listed one that no other of the source is younger than. */
  lemma NewestIsListed(listing: Listing, source: string, info: SnapshotInfo) returns (s: Listed)
    requires Readable(listing) && Newest(info, Found(listing, source))
    ensures IsListed(listing, s) && s.name == Some(info.name) && Carries(listing, s, "instance-id", source)
    ensures forall key, value :: TaggedWith(info, key, value) <==> Carries(listing, s, key, value)
    ensures |s.nodeCreateTimes| > 0 && s.nodeCreateTimes[0].Some?
    ensures forall t :: IsListed(listing, t) && Carries(listing, t, "instance-id", source) ==>
      |t.nodeCreateTimes| > 0 && t.nodeCreateTimes[0].Some?
      && t.nodeCreateTimes[0].value <= s.nodeCreateTimes[0].value
  {
    FoundAreListed(listing, source, info);
    s :| IsListed(listing, s) && Usable(s, listing.tagsOf) && Carries(listing, s, "instance-id", source)
         && InfoOf(s, listing.tagsOf) == info;
    forall key, value ensures TaggedWith(info, key, value) <==> Carries(listing, s, key, value) {
      InfoCarries(listing, s, key, value);
    }
    ReadableExactlyIf(listing);
    forall t | IsListed(listing, t) && Carries(listing, t, "instance-id", source)
      ensures t.nodeCreateTimes[0].value <= s.nodeCreateTimes[0].value
    {
      FoundAreListed(listing, source, InfoOf(t, listing.tagsOf));
    }
  }
}
