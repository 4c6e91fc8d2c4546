/** Primary and replica nodes of a group, and what a cutover does to them. */
module Roles {
  import opened Aws
  import opened Requests

  function Ids(nodes: seq<Node>): seq<string> {
    if nodes == [] then [] else [nodes[0].id] + Ids(nodes[1..])
  }

  /** Nodes are named, differently, and exactly one of them is the primary, with a replica beside it. */
  ghost predicate SoundRoles(nodes: seq<Node>) {
    && (forall i :: 0 <= i < |nodes| ==> nodes[i].id != "")
    && (forall i, j :: 0 <= i < |nodes| && 0 <= j < |nodes| && nodes[i].id == nodes[j].id ==> i == j)
    && OnePrimary(nodes)
    && exists r :: 0 <= r < |nodes| && nodes[r].role == Replica
  }

  ghost predicate OnePrimary(nodes: seq<Node>) {
    exists p :: 0 <= p < |nodes| && nodes[p].role == Primary
      && forall i :: 0 <= i < |nodes| && nodes[i].role == Primary ==> i == p
  }

  ghost predicate HasNode(nodes: seq<Node>, id: string, role: Role) {
    exists i :: 0 <= i < |nodes| && nodes[i] == Node(id, role)
  }

  lemma {:induction false} IdsWithRoleAre(nodes: seq<Node>, role: Role, id: string)
    ensures id in IdsWithRole(nodes, role) <==> HasNode(nodes, id, role)
  {
    if nodes != [] {
      IdsWithRoleAre(nodes[1..], role, id);
      if HasNode(nodes[1..], id, role) {
        var i :| 0 <= i < |nodes[1..]| && nodes[1..][i] == Node(id, role);
        assert nodes[i + 1] == Node(id, role);
      }
      if HasNode(nodes, id, role) && nodes[0] != Node(id, role) {
        var i :| 0 <= i < |nodes| && nodes[i] == Node(id, role);
        assert nodes[1..][i - 1] == Node(id, role);
      }
    }
  }

  /** The node a scan settles on has the role it looked for, if any node has. */
  lemma LastHasRole(nodes: seq<Node>, role: Role)
    requires forall i :: 0 <= i < |nodes| ==> nodes[i].id != ""
    ensures var found := LastOrEmpty(IdsWithRole(nodes, role));
      && (found != "" <==> exists i :: 0 <= i < |nodes| && nodes[i].role == role)
      && (found != "" ==> HasNode(nodes, found, role))
  {
    var ids := IdsWithRole(nodes, role);
    var found := LastOrEmpty(ids);
    if ids != [] {
      IdsWithRoleAre(nodes, role, found);
    }
    if i :| 0 <= i < |nodes| && nodes[i].role == role {
      IdsWithRoleAre(nodes, role, nodes[i].id);
    }
  }

  lemma {:induction false} PromoteConcat(a: seq<Node>, b: seq<Node>, target: string)
    ensures Promote(a + b, target) == Promote(a, target) + Promote(b, target)
  {
  }

  lemma {:induction false} MembersOfPromoted(nodeGroups: seq<NodeGroup>, target: string)
    ensures Members(PromoteIn(nodeGroups, target)) == Promote(Members(nodeGroups), target)
  {
    if nodeGroups != [] {
      MembersOfPromoted(nodeGroups[1..], target);
      PromoteConcat(nodeGroups[0].members, Members(nodeGroups[1..]), target);
      assert PromoteIn(nodeGroups, target)[1..] == PromoteIn(nodeGroups[1..], target);
    }
  }

  lemma {:induction false} IdsAt(nodes: seq<Node>)
    ensures |Ids(nodes)| == |nodes|
    ensures forall i :: 0 <= i < |nodes| ==> Ids(nodes)[i] == nodes[i].id
  {
    if nodes != [] {
      IdsAt(nodes[1..]);
    }
  }

  lemma {:induction false} PromoteTwice(nodeGroups: seq<NodeGroup>, target: string)
    ensures PromoteIn(PromoteIn(nodeGroups, target), target) == PromoteIn(nodeGroups, target)
  {
    if nodeGroups != [] {
      var members := nodeGroups[0].members;
      assert Promote(Promote(members, target), target) == Promote(members, target);
      PromoteTwice(nodeGroups[1..], target);
    }
  }

  // ---- which node a scan settles on ----

  lemma {:induction false} IdsOfConcat(a: seq<Node>, b: seq<Node>, role: Role)
    ensures IdsWithRole(a + b, role) == IdsWithRole(a, role) + IdsWithRole(b, role)
  {
    if a == [] {
      assert a + b == b;
    } else {
      assert (a + b)[1..] == a[1..] + b;
      IdsOfConcat(a[1..], b, role);
    }
  }

  lemma {:induction false} NoneInRole(nodes: seq<Node>, role: Role)
    requires forall i :: 0 <= i < |nodes| ==> nodes[i].role != role
    ensures IdsWithRole(nodes, role) == []
  {
    if nodes != [] {
      NoneInRole(nodes[1..], role);
    }
  }

  lemma LastOfNodes(nodes: seq<Node>, role: Role, m: nat)
    requires m < |nodes| && nodes[m].role == role
    requires forall i :: m < i < |nodes| ==> nodes[i].role != role
    ensures var ids := IdsWithRole(nodes, role); ids != [] && ids[|ids| - 1] == nodes[m].id
  {
    assert nodes == nodes[..m] + ([nodes[m]] + nodes[m + 1..]);
    IdsOfConcat(nodes[..m], [nodes[m]] + nodes[m + 1..], role);
    IdsOfConcat([nodes[m]], nodes[m + 1..], role);
    NoneInRole(nodes[m + 1..], role);
    assert IdsWithRole([nodes[m]], role) == [nodes[m].id] by {
      assert [nodes[m]][1..] == [];
    }
  }

  lemma {:induction false} NoMemberInRole(nodeGroups: seq<NodeGroup>, role: Role)
    requires forall g, m :: 0 <= g < |nodeGroups| && 0 <= m < |nodeGroups[g].members| ==>
      nodeGroups[g].members[m].role != role
    ensures IdsWithRole(Members(nodeGroups), role) == []
  {
    if nodeGroups != [] {
      NoMemberInRole(nodeGroups[1..], role);
      NoneInRole(nodeGroups[0].members, role);
      IdsOfConcat(nodeGroups[0].members, Members(nodeGroups[1..]), role);
    }
  }

  lemma {:induction false} LastMemberInRole(nodeGroups: seq<NodeGroup>, role: Role, g: nat, m: nat)
    requires g < |nodeGroups| && m < |nodeGroups[g].members| && nodeGroups[g].members[m].role == role
    requires forall i :: m < i < |nodeGroups[g].members| ==> nodeGroups[g].members[i].role != role
    requires forall h, i :: g < h < |nodeGroups| && 0 <= i < |nodeGroups[h].members| ==>
      nodeGroups[h].members[i].role != role
    ensures var ids := IdsWithRole(Members(nodeGroups), role);
      ids != [] && ids[|ids| - 1] == nodeGroups[g].members[m].id
    decreases |nodeGroups|
  {
    IdsOfConcat(nodeGroups[0].members, Members(nodeGroups[1..]), role);
    if g == 0 {
      LastOfNodes(nodeGroups[0].members, role, m);
      NoMemberInRole(nodeGroups[1..], role);
    } else {
      LastMemberInRole(nodeGroups[1..], role, g - 1, m);
    }
  }

  /**
   * A scan settles on the last primary and the last replica in listed order, node group by node group,
   * and on nothing where there is none.
   */
  lemma ScansSettleOnTheLast(nodeGroups: seq<NodeGroup>)
    ensures forall g, m ::
      (&& 0 <= g < |nodeGroups| && 0 <= m < |nodeGroups[g].members| && nodeGroups[g].members[m].role == Primary
       && (forall i :: m < i < |nodeGroups[g].members| ==> nodeGroups[g].members[i].role != Primary)
       && (forall h, i :: g < h < |nodeGroups| && 0 <= i < |nodeGroups[h].members| ==>
             nodeGroups[h].members[i].role != Primary))
      ==> PrimaryIn(nodeGroups) == nodeGroups[g].members[m].id
    ensures forall g, m ::
      (&& 0 <= g < |nodeGroups| && 0 <= m < |nodeGroups[g].members| && nodeGroups[g].members[m].role == Replica
       && (forall i :: m < i < |nodeGroups[g].members| ==> nodeGroups[g].members[i].role != Replica)
       && (forall h, i :: g < h < |nodeGroups| && 0 <= i < |nodeGroups[h].members| ==>
             nodeGroups[h].members[i].role != Replica))
      ==> ReplicaIn(nodeGroups) == nodeGroups[g].members[m].id
    ensures (forall g, m :: 0 <= g < |nodeGroups| && 0 <= m < |nodeGroups[g].members| ==>
               nodeGroups[g].members[m].role != Primary) ==> PrimaryIn(nodeGroups) == ""
    ensures (forall g, m :: 0 <= g < |nodeGroups| && 0 <= m < |nodeGroups[g].members| ==>
               nodeGroups[g].members[m].role != Replica) ==> ReplicaIn(nodeGroups) == ""
  {
    forall role, g, m |
      && role in {Primary, Replica}
      && 0 <= g < |nodeGroups| && 0 <= m < |nodeGroups[g].members| && nodeGroups[g].members[m].role == role
      && (forall i :: m < i < |nodeGroups[g].members| ==> nodeGroups[g].members[i].role != role)
      && (forall h, i :: g < h < |nodeGroups| && 0 <= i < |nodeGroups[h].members| ==>
            nodeGroups[h].members[i].role != role)
      ensures LastOrEmpty(IdsWithRole(Members(nodeGroups), role)) == nodeGroups[g].members[m].id
    {
      LastMemberInRole(nodeGroups, role, g, m);
    }
    forall role | forall g, m :: 0 <= g < |nodeGroups| && 0 <= m < |nodeGroups[g].members| ==>
                    nodeGroups[g].members[m].role != role
      ensures LastOrEmpty(IdsWithRole(Members(nodeGroups), role)) == ""
    {
      NoMemberInRole(nodeGroups, role);
    }
  }

  // ---- what a cutover does ----

  lemma BeforeCutover(nodeGroups: seq<NodeGroup>)
    requires SoundRoles(Members(nodeGroups))
    ensures PrimaryIn(nodeGroups) != "" && ReplicaIn(nodeGroups) != ""
    ensures PrimaryIn(nodeGroups) != ReplicaIn(nodeGroups)
    ensures HasNode(Members(nodeGroups), PrimaryIn(nodeGroups), Primary)
    ensures HasNode(Members(nodeGroups), ReplicaIn(nodeGroups), Replica)
  {
    LastHasRole(Members(nodeGroups), Primary);
    LastHasRole(Members(nodeGroups), Replica);
  }

  lemma PromoteKeepsIds(nodes: seq<Node>, target: string)
    ensures Ids(Promote(nodes, target)) == Ids(nodes)
  {
    IdsAt(nodes);
    IdsAt(Promote(nodes, target));
  }

  lemma PromoteKeepsSound(nodes: seq<Node>, former: string, target: string)
    requires SoundRoles(nodes) && HasNode(nodes, former, Primary) && HasNode(nodes, target, Replica)
    ensures SoundRoles(Promote(nodes, target))
    ensures HasNode(Promote(nodes, target), former, Replica)
    ensures HasNode(Promote(nodes, target), target, Primary)
  {
    var cut := Promote(nodes, target);
    var f :| 0 <= f < |nodes| && nodes[f] == Node(former, Primary);
    var t :| 0 <= t < |nodes| && nodes[t] == Node(target, Replica);
    assert nodes[f].id != nodes[t].id;
    assert cut[f] == Node(former, Replica);
    assert cut[t] == Node(target, Primary);
    forall i | 0 <= i < |cut| && cut[i].role == Primary ensures i == t {
      assert cut[i] == PromoteNode(nodes[i], target);
    }
    forall i | 0 <= i < |cut| ensures cut[i].id == nodes[i].id {
      assert cut[i] == PromoteNode(nodes[i], target);
    }
  }

  /** Where the roles are sound, a scan finds the primary itself. */
  lemma ScanFindsPrimary(nodes: seq<Node>, id: string)
    requires SoundRoles(nodes) && HasNode(nodes, id, Primary)
    ensures LastOrEmpty(IdsWithRole(nodes, Primary)) == id
  {
    LastHasRole(nodes, Primary);
  }

  /** After the cutover the target is the one primary and the old primary is a replica. */
  lemma AfterCutover(nodeGroups: seq<NodeGroup>)
    requires SoundRoles(Members(nodeGroups))
    ensures var cut := PromoteIn(nodeGroups, ReplicaIn(nodeGroups));
      && SoundRoles(Members(cut)) && Ids(Members(cut)) == Ids(Members(nodeGroups))
      && PrimaryIn(cut) == ReplicaIn(nodeGroups) && ReplicaIn(cut) != ""
      && HasNode(Members(cut), PrimaryIn(nodeGroups), Replica)
      && PromoteIn(cut, ReplicaIn(nodeGroups)) == cut
  {
    var target := ReplicaIn(nodeGroups);
    BeforeCutover(nodeGroups);
    MembersOfPromoted(nodeGroups, target);
    PromoteTwice(nodeGroups, target);
    PromoteKeepsIds(Members(nodeGroups), target);
    PromoteKeepsSound(Members(nodeGroups), PrimaryIn(nodeGroups), target);
    ScanFindsPrimary(Promote(Members(nodeGroups), target), target);
    LastHasRole(Promote(Members(nodeGroups), target), Replica);
  }
}
