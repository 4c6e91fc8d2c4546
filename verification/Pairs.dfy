/** Maps that cross the wire as lists: parameters and tags. */
module Pairs {
  import opened GoTypes

  type Pair = (string, string)

  /** What a list of pairs says; a later pair overrides an earlier one. */
  function FromPairs(list: seq<Pair>): map<string, string> {
    if list == [] then map[]
    else
      var last := list[|list| - 1];
      FromPairs(list[..|list| - 1])[last.0 := last.1]
  }

  /** The list holds the map's entries, in some order. */
  ghost predicate Lists(list: seq<Pair>, m: map<string, string>) {
    && (forall i :: 0 <= i < |list| ==> list[i].0 in m && m[list[i].0] == list[i].1)
    && (forall k :: k in m ==> (k, m[k]) in list)
  }

  lemma {:induction false} FromPairsSays(list: seq<Pair>, m: map<string, string>)
    requires forall i :: 0 <= i < |list| ==> list[i].0 in m && m[list[i].0] == list[i].1
    ensures forall k :: k in FromPairs(list) <==> exists i :: 0 <= i < |list| && list[i].0 == k
    ensures forall k :: k in FromPairs(list) ==> k in m && FromPairs(list)[k] == m[k]
  {
    if list != [] {
      var n := |list| - 1;
      FromPairsSays(list[..n], m);
      forall k ensures k in FromPairs(list) <==> exists i :: 0 <= i < |list| && list[i].0 == k {
        if k in FromPairs(list[..n]) {
          var i :| 0 <= i < n && list[..n][i].0 == k;
          assert list[i].0 == k;
        }
        if i :| 0 <= i < |list| && list[i].0 == k {
          if i < n {
            assert list[..n][i].0 == k;
          }
        }
      }
    }
  }

  /** Whatever order the entries come in, reading the list back gives the map. */
  lemma PairsRoundTrip(list: seq<Pair>, m: map<string, string>)
    requires Lists(list, m)
    ensures FromPairs(list) == m
  {
    FromPairsSays(list, m);
    forall k | k in m ensures k in FromPairs(list) {
      var i :| 0 <= i < |list| && list[i] == (k, m[k]);
    }
  }

  /** Ranging over a map visits its keys in an order of its own choosing. */
  method ToPairs(m: map<string, string>) returns (list: seq<Pair>)
    ensures Lists(list, m) && |list| == |m|
  {
    list := [];
    var left := m.Keys;
    while left != {}
      invariant left <= m.Keys
      invariant forall i :: 0 <= i < |list| ==> list[i].0 in m && list[i].0 !in left && m[list[i].0] == list[i].1
      invariant forall k :: k in m && k !in left ==> (k, m[k]) in list
      invariant |list| + |left| == |m|
      decreases left
    {
      var k :| k in left;
      list := list + [(k, m[k])];
      left := left - {k};
    }
  }

  // ---- lists whose keys and values may be nil ----

  type TagList = seq<(Option<string>, Option<string>)>

  function OrEmpty(s: Option<string>): string {
    match s case None => "" case Some(text) => text
  }

  function ReadTags(tags: TagList): seq<Pair> {
    seq(|tags|, i requires 0 <= i < |tags| => (OrEmpty(tags[i].0), OrEmpty(tags[i].1)))
  }

  /** The text, where nil stands for no text. */
  ghost predicate Stands(s: Option<string>, text: string) {
    s == Some(text) || (s == None && text == "")
  }

  /** The last entry with this key has this value. */
  ghost predicate Says(list: TagList, key: string, value: string) {
    exists i :: 0 <= i < |list| && Stands(list[i].0, key) && Stands(list[i].1, value)
      && forall j :: i < j < |list| ==> !Stands(list[j].0, key)
  }

  lemma {:induction false} FromPairsAtLast(list: seq<Pair>, i: nat)
    requires i < |list| && forall j :: i < j < |list| ==> list[j].0 != list[i].0
    ensures list[i].0 in FromPairs(list) && FromPairs(list)[list[i].0] == list[i].1
    decreases |list|
  {
    var n := |list| - 1;
    if i < n {
      FromPairsAtLast(list[..n], i);
    }
  }

  lemma {:induction false} FromPairsHasOnly(list: seq<Pair>, key: string) returns (i: nat)
    requires key in FromPairs(list)
    ensures i < |list| && list[i].0 == key && forall j :: i < j < |list| ==> list[j].0 != key
    decreases |list|
  {
    var n := |list| - 1;
    if list[n].0 == key {
      i := n;
    } else {
      i := FromPairsHasOnly(list[..n], key);
      forall j | i < j < |list| ensures list[j].0 != key {
        if j < n {
          assert list[j] == list[..n][j];
        }
      }
    }
  }

  /** What is read from a list of tags is what it says: for each key the value of its last entry. */
  lemma ReadTagsSay(list: TagList, key: string, value: string)
    ensures Says(list, key, value) <==> key in FromPairs(ReadTags(list)) && FromPairs(ReadTags(list))[key] == value
  {
    var read := ReadTags(list);
    forall i, text | 0 <= i < |list|
      ensures Stands(list[i].0, text) <==> read[i].0 == text
      ensures Stands(list[i].1, text) <==> read[i].1 == text
    {
    }
    if Says(list, key, value) {
      var i :| 0 <= i < |list| && Stands(list[i].0, key) && Stands(list[i].1, value)
        && forall j :: i < j < |list| ==> !Stands(list[j].0, key);
      FromPairsAtLast(read, i);
    }
    if key in FromPairs(read) && FromPairs(read)[key] == value {
      var i := FromPairsHasOnly(read, key);
      FromPairsAtLast(read, i);
      assert Stands(list[i].0, key) && Stands(list[i].1, value);
    }
  }

  /** For each key that occurs the value of its last entry, nil keys and values read as empty; and nothing else. */
  lemma ReadTagsAreLast(tags: TagList)
    ensures forall i ::
      (&& 0 <= i < |tags|
       && forall j :: i < j < |tags| ==>
            (if tags[j].0.Some? then tags[j].0.value else "") != (if tags[i].0.Some? then tags[i].0.value else ""))
      ==>
      var key := if tags[i].0.Some? then tags[i].0.value else "";
      && key in FromPairs(ReadTags(tags))
      && FromPairs(ReadTags(tags))[key] == if tags[i].1.Some? then tags[i].1.value else ""
    ensures forall key :: key in FromPairs(ReadTags(tags)) ==>
      exists i :: 0 <= i < |tags| && (if tags[i].0.Some? then tags[i].0.value else "") == key
  {
    forall i |
      && 0 <= i < |tags|
      && forall j :: i < j < |tags| ==>
           (if tags[j].0.Some? then tags[j].0.value else "") != (if tags[i].0.Some? then tags[i].0.value else "")
      ensures var key := if tags[i].0.Some? then tags[i].0.value else "";
        && key in FromPairs(ReadTags(tags))
        && FromPairs(ReadTags(tags))[key] == if tags[i].1.Some? then tags[i].1.value else ""
    {
      FromPairsAtLast(ReadTags(tags), i);
    }
    forall key | key in FromPairs(ReadTags(tags))
      ensures exists i :: 0 <= i < |tags| && (if tags[i].0.Some? then tags[i].0.value else "") == key
    {
      var i := FromPairsHasOnly(ReadTags(tags), key);
    }
  }

  /** tagsValues. */
  method TagsValues(tags: TagList) returns (values: map<string, string>)
    ensures values == FromPairs(ReadTags(tags))
  {
    values := map[];
    ghost var read := [];
    for i := 0 to |tags|
      invariant |read| == i && forall k :: 0 <= k < i ==> read[k] == (OrEmpty(tags[k].0), OrEmpty(tags[k].1))
      invariant values == FromPairs(read)
    {
      values := values[OrEmpty(tags[i].0) := OrEmpty(tags[i].1)];
      read := read + [(OrEmpty(tags[i].0), OrEmpty(tags[i].1))];
      assert read[..i] + [read[i]] == read;
    }
    assert read == ReadTags(tags);
  }
}
