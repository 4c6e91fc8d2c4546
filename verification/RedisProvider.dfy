/**
 * The provider's code, call by call, against the AWS clients. Each method is proved to make the very
 * calls of its task in Requests, in order, and to end as it does, whatever others do to the stores
 * between two calls: what is proved about tasks, alone or interleaved, holds of the code.
 */
module RedisProvider {
  import opened GoTypes
  import opened Aws
  import opened Requests
  import Courses
  import opened Pairs
  import opened GoMaps
  import opened Naming
  import opened NamingVector
  import Roles
  import Token
  import CredentialUri

  /** Scanning all node groups for the last primary and the last replica. */
  method GetPrimaryAndReplicaCacheClusterIds(g: Group) returns (primary: string, replica: string, failed: bool)
    ensures failed <==> PrimaryIn(g.nodeGroups) == "" || ReplicaIn(g.nodeGroups) == ""
    ensures primary == (if failed then "" else PrimaryIn(g.nodeGroups))
    ensures replica == (if failed then "" else ReplicaIn(g.nodeGroups))
  {
    primary, replica := "", "";
    for i := 0 to |g.nodeGroups|
      invariant primary == LastOrEmpty(IdsWithRole(Members(g.nodeGroups[..i]), Primary))
      invariant replica == LastOrEmpty(IdsWithRole(Members(g.nodeGroups[..i]), Replica))
    {
      var members := g.nodeGroups[i].members;
      ghost var before := Members(g.nodeGroups[..i]);
      assert before + members[..0] == before;
      for j := 0 to |members|
        invariant primary == LastOrEmpty(IdsWithRole(before + members[..j], Primary))
        invariant replica == LastOrEmpty(IdsWithRole(before + members[..j], Replica))
      {
        NextNode(before, members, j, Primary);
        NextNode(before, members, j, Replica);
        if members[j].role == Primary {
          primary := members[j].id;
        } else if members[j].role == Replica {
          replica := members[j].id;
        }
      }
      NextGroup(g.nodeGroups, i);
    }
    assert g.nodeGroups[..|g.nodeGroups|] == g.nodeGroups;
    failed := primary == "" || replica == "";
    if failed {
      primary, replica := "", "";
    }
  }

  datatype InstanceParameters = InstanceParameters(
    autoFailover: bool, activeNodes: seq<string>, passiveNodes: seq<string>, maxMemoryPolicy: string)

  /** From the group and the parameters AWS describes; a memory policy without a value would panic. */
  method GetInstanceParameters(g: Group, cacheParameters: seq<(string, Option<string>)>)
      returns (r: InstanceParameters)
    requires forall i :: 0 <= i < |cacheParameters| && cacheParameters[i].0 == "maxmemory-policy" ==>
      cacheParameters[i].1.Some?
    ensures r.autoFailover <==> g.failover == Some(Enabled)
    ensures r.activeNodes == IdsWithRole(Members(g.nodeGroups), Primary)
    ensures r.passiveNodes == IdsWithRole(Members(g.nodeGroups), Replica)
    ensures PrimaryIn(g.nodeGroups) == LastOrEmpty(r.activeNodes)
    ensures ReplicaIn(g.nodeGroups) == LastOrEmpty(r.passiveNodes)
    ensures forall i ::
      (&& 0 <= i < |cacheParameters| && cacheParameters[i].0 == "maxmemory-policy"
       && forall k :: i < k < |cacheParameters| ==> cacheParameters[k].0 != "maxmemory-policy")
      ==> cacheParameters[i].1 == Some(r.maxMemoryPolicy)
    ensures (forall p :: p in cacheParameters ==> p.0 != "maxmemory-policy") ==> r.maxMemoryPolicy == ""
  {
    var active: seq<string>, passive: seq<string> := [], [];
    for i := 0 to |g.nodeGroups|
      invariant active == IdsWithRole(Members(g.nodeGroups[..i]), Primary)
      invariant passive == IdsWithRole(Members(g.nodeGroups[..i]), Replica)
    {
      var members := g.nodeGroups[i].members;
      ghost var before := Members(g.nodeGroups[..i]);
      assert before + members[..0] == before;
      for j := 0 to |members|
        invariant active == IdsWithRole(before + members[..j], Primary)
        invariant passive == IdsWithRole(before + members[..j], Replica)
      {
        NextNode(before, members, j, Primary);
        NextNode(before, members, j, Replica);
        if members[j].role == Primary {
          active := active + [members[j].id];
        }
        if members[j].role == Replica {
          passive := passive + [members[j].id];
        }
      }
      NextGroup(g.nodeGroups, i);
    }
    assert g.nodeGroups[..|g.nodeGroups|] == g.nodeGroups;
    var policy := "";
    for i := 0 to |cacheParameters|
      invariant forall l ::
        (&& 0 <= l < i && cacheParameters[l].0 == "maxmemory-policy"
         && forall k :: l < k < i ==> cacheParameters[k].0 != "maxmemory-policy")
        ==> cacheParameters[l].1 == Some(policy)
      invariant (forall k :: 0 <= k < i ==> cacheParameters[k].0 != "maxmemory-policy") ==> policy == ""
    {
      if cacheParameters[i].0 == "maxmemory-policy" {
        policy := cacheParameters[i].1.value;
        assert cacheParameters[i] == ("maxmemory-policy", Some(policy));
      }
    }
    r := InstanceParameters(g.failover == Some(Enabled), active, passive, policy);
  }

  lemma NextGroup(nodeGroups: seq<NodeGroup>, i: nat)
    requires i < |nodeGroups|
    ensures var members := nodeGroups[i].members;
      Members(nodeGroups[..i + 1]) == Members(nodeGroups[..i]) + members[..|members|]
  {
    var members := nodeGroups[i].members;
    OneMoreGroup(nodeGroups[..i], nodeGroups[i]);
    assert nodeGroups[..i + 1] == nodeGroups[..i] + [nodeGroups[i]];
    assert members[..|members|] == members;
  }

  lemma NextNode(before: seq<Node>, members: seq<Node>, j: nat, role: Role)
    requires j < |members|
    ensures IdsWithRole(before + members[..j + 1], role)
         == IdsWithRole(before + members[..j], role) + (if members[j].role == role then [members[j].id] else [])
  {
    assert before + members[..j + 1] == (before + members[..j]) + [members[j]];
    Roles.IdsOfConcat(before + members[..j], [members[j]], role);
    assert [members[j]][1..] == [];
  }

  lemma {:induction false} OneMoreGroup(nodeGroups: seq<NodeGroup>, last: NodeGroup)
    ensures Members(nodeGroups + [last]) == Members(nodeGroups) + last.members
  {
    if nodeGroups == [] {
      assert nodeGroups + [last] == [last];
      assert [last][1..] == [];
    } else {
      assert (nodeGroups + [last])[1..] == nodeGroups[1..] + [last];
      OneMoreGroup(nodeGroups[1..], last);
    }
  }

  datatype Made = Made(stores: Stores, created: bool, failed: bool, calls: nat, made: seq<Exchange>)

  /** The two calls that make a parameter group. */
  function ParamGroupMade(
      names: Names, id: GoString, parameters: map<string, string>,
      s: Stores, env: Environment, n: nat, made: seq<Exchange>): Made
  {
    var create := CreateParamGroup(names.group(id));
    var store := ModifyParamGroup(names.group(id), WithClusterDefault(parameters));
    var (s1, created) := Serve(env, s, create, n);
    if !created.Accepted? then Made(s1, false, true, n + 1, made + [Exchange(create, created)])
    else
      var (s2, stored) := Serve(env, s1, store, n + 1);
      Made(s2, true, !stored.Accepted?, n + 2, made + [Exchange(create, created)] + [Exchange(store, stored)])
  }

  lemma ProvisionBegins(
      names: Names, id: GoString, spec: ProvisionSpec, s: Stores, env: Environment, n: nat, made: seq<Exchange>)
    ensures var begun := ParamGroupMade(names, id, spec.parameters, s, env, n, made);
      CourseOf(names, CreatingParamGroup(id, spec), s, env, n, made) ==
      CourseOf(names, if begun.failed then Finished(id, Failed) else CreatingSecret(id, spec),
               begun.stores, env, begun.calls, begun.made)
  {
    var create := CreateParamGroup(names.group(id));
    Unroll(names, CreatingParamGroup(id, spec), s, env, n, made);
    var (s1, created) := Serve(env, s, create, n);
    if created.Accepted? {
      Unroll(names, SettingParams(id, spec), s1, env, n + 1, made + [Exchange(create, created)]);
    }
  }

  /** strings.TrimRight with a single character. */
  function TrimRight(s: GoString, c: GoByte): (r: GoString)
    ensures r <= s && (r == [] || r[|r| - 1] != c)
    ensures forall i :: |r| <= i < |s| ==> s[i] == c
  {
    if s == [] || s[|s| - 1] != c then s else TrimRight(s[..|s| - 1], c)
  }

  class Provider {
    const cloud: Cloud
    const names: Names

    constructor (cloud: Cloud, secretsManagerPath: GoString)
      ensures this.cloud == cloud && names == BrokerNames(TrimRight(secretsManagerPath, '/'))
      ensures forall id :: names.group(id) == GenerateReplicationGroupName(id)
      ensures forall id :: names.secret(id) == TrimRight(secretsManagerPath, '/') + "/" + id + "/auth-token"
      ensures names.group("foobar") == "cf-qwkec4pxhft6q"
    {
      this.cloud := cloud;
      this.names := BrokerNames(TrimRight(secretsManagerPath, '/'));
      FoobarName();
    }

    /** The task from here on, with the calls made so far and those still to come. */
    ghost function Rest(t: Task): Course
      reads cloud
    {
      CourseOf(names, t, cloud.stores, cloud.env, cloud.calls, cloud.made)
    }

    /** One AWS call, which is the next call of task t. */
    method Make(call: Call, ghost t: Task) returns (reply: Reply)
      requires !t.Finished? && call == NextCall(names, t)
      modifies cloud
      ensures old(Rest(t)) == Rest(Resume(names, t, reply))
      ensures (cloud.stores, reply) == Serve(cloud.env, old(cloud.stores), call, old(cloud.calls))
      ensures cloud.calls == old(cloud.calls) + 1 && cloud.made == old(cloud.made) + [Exchange(call, reply)]
    {
      Unroll(names, t, cloud.stores, cloud.env, cloud.calls, cloud.made);
      reply := cloud.Invoke(call);
    }

    method CreateCacheParameterGroup(id: GoString, params: StringMap?) returns (failed: bool)
      modifies cloud, if params == null then {} else {params}
      ensures var begun := ParamGroupMade(
          names, id, old(Entries(params)), old(cloud.stores), cloud.env, old(cloud.calls), old(cloud.made));
        && cloud.stores == begun.stores && failed == begun.failed
        && cloud.calls == begun.calls && cloud.made == begun.made
      ensures var name, plan, made := names.group(id), old(Entries(params)), |cloud.made| - |old(cloud.made)|;
        var full := if "cluster-enabled" in plan then plan else plan["cluster-enabled" := "no"];
        && 1 <= made <= 2
        && Adds(old(cloud.made), cloud.made, [CreateParamGroup(name), ModifyParamGroup(name, full)][..made])
        && (made == 2 <==> ReplyTo(old(cloud.made), cloud.made, 0).Accepted?)
        && (failed <==> made == 1 || !ReplyTo(old(cloud.made), cloud.made, 1).Accepted?)
        && (params != null ==> params.m == if made == 2 then full else plan)
    {
      var reply := cloud.Invoke(CreateParamGroup(names.group(id)));
      if !reply.Accepted? {
        return true;
      }
      var parameters: StringMap;
      if params == null {
        parameters := new StringMap(map[]);
      } else {
        parameters := params;
      }
      if "cluster-enabled" !in parameters.m {
        parameters.m := parameters.m["cluster-enabled" := "no"];
      }
      assert "cluster-enabled" in parameters.m && parameters.m == WithClusterDefault(old(Entries(params)));
      failed := ModifyCacheParameterGroup(id, parameters.m);
    }

    /** Nothing is sent for an empty map. */
    method ModifyCacheParameterGroup(id: GoString, params: map<string, string>) returns (failed: bool)
      modifies cloud
      ensures params == map[] ==> !failed && unchanged(cloud)
      ensures params != map[] ==>
        var call := ModifyParamGroup(names.group(id), params);
        var (s, reply) := Serve(cloud.env, old(cloud.stores), call, old(cloud.calls));
        && cloud.stores == s && failed == !reply.Accepted?
        && cloud.calls == old(cloud.calls) + 1 && cloud.made == old(cloud.made) + [Exchange(call, reply)]
    {
      if |params| == 0 {
        return false;
      }
      var list := ToPairs(params);
      PairsRoundTrip(list, params);
      var reply := cloud.Invoke(ModifyParamGroup(names.group(id), FromPairs(list)));
      failed := !reply.Accepted?;
    }

    /** Nothing is sent for an empty window. */
    method ModifyReplicationGroup(id: GoString, window: string) returns (failed: bool)
      modifies cloud
      ensures window == "" ==> !failed && unchanged(cloud)
      ensures window != "" ==>
        var call := ModifyGroup(names.group(id), SetWindow(window));
        var (s, reply) := Serve(cloud.env, old(cloud.stores), call, old(cloud.calls));
        && cloud.stores == s && failed == !reply.Accepted?
        && cloud.calls == old(cloud.calls) + 1 && cloud.made == old(cloud.made) + [Exchange(call, reply)]
    {
      if |window| == 0 {
        return false;
      }
      var reply := cloud.Invoke(ModifyGroup(names.group(id), SetWindow(window)));
      failed := !reply.Accepted?;
    }

    /** The window step of an update that goes on to `policy`; an empty window takes no call. */
    method UpdateReplicationGroup(id: GoString, window: string, ghost policy: Option<string>) returns (failed: bool)
      modifies cloud
      ensures window == "" ==> !failed && unchanged(cloud)
      ensures window != "" ==> old(Rest(UpdatingWindow(id, window, policy))) == Rest(
        if failed then Finished(id, Failed)
        else if policy.Some? then UpdatingPolicy(id, policy.value)
        else Finished(id, Success))
    {
      Unroll(names, UpdatingWindow(id, window, policy), cloud.stores, cloud.env, cloud.calls, cloud.made);
      failed := ModifyReplicationGroup(id, window);
    }

    /** An empty map takes no call, any other one call; a memory policy by itself is the policy step of an update. */
    method UpdateParamGroupParameters(id: GoString, params: map<string, string>) returns (failed: bool)
      modifies cloud
      ensures params == map[] ==> !failed && unchanged(cloud)
      ensures params != map[] ==>
        var call := ModifyParamGroup(names.group(id), params);
        var (s, reply) := Serve(cloud.env, old(cloud.stores), call, old(cloud.calls));
        && cloud.stores == s && failed == !reply.Accepted?
        && cloud.calls == old(cloud.calls) + 1 && cloud.made == old(cloud.made) + [Exchange(call, reply)]
      ensures params.Keys == {"maxmemory-policy"} ==>
        old(Rest(UpdatingPolicy(id, params["maxmemory-policy"]))) ==
        Rest(Finished(id, if failed then Failed else Success))
    {
      if params.Keys == {"maxmemory-policy"} {
        var value := params["maxmemory-policy"];
        Unroll(names, UpdatingPolicy(id, value), cloud.stores, cloud.env, cloud.calls, cloud.made);
        assert params == map["maxmemory-policy" := value];
        assert "maxmemory-policy" in params;
      }
      failed := ModifyCacheParameterGroup(id, params);
    }

    /** A parameter group that is not there counts as deleted. */
    method DeleteCacheParameterGroup(id: GoString, ghost t: Task) returns (failed: bool)
      requires t.id == id && (t.DroppingParamGroup? || t.UndoingParamGroup?)
      modifies cloud
      ensures t.DroppingParamGroup? ==> old(Rest(t)) == Rest(Finished(id, if failed then Failed else Gone))
      ensures t.UndoingParamGroup? ==> old(Rest(t)) == Rest(UndoingSecret(id, t.spec))
      ensures Adds(old(cloud.made), cloud.made, [DeleteParamGroup(names.group(id))])
      ensures var reply := ReplyTo(old(cloud.made), cloud.made, 0);
        failed <==> !reply.Accepted? && reply != Refused(NotFound)
    {
      var reply := Make(DeleteParamGroup(names.group(id)), t);
      failed := !reply.Accepted? && reply != Refused(NotFound);
    }

    method CreateAuthTokenSecret(id: GoString, authToken: GoString, ghost spec: ProvisionSpec) returns (failed: bool)
      requires spec.token == authToken
      modifies cloud
      ensures old(Rest(CreatingSecret(id, spec))) ==
        Rest(if failed then Finished(id, Failed) else CreatingGroup(id, spec))
      ensures Adds(old(cloud.made), cloud.made, [CreateSecret(names.secret(id), authToken)])
      ensures failed <==> !ReplyTo(old(cloud.made), cloud.made, 0).Accepted?
    {
      var reply := Make(CreateSecret(names.secret(id), authToken), CreatingSecret(id, spec));
      failed := !reply.Accepted?;
    }

    method DeleteAuthTokenSecret(id: GoString, recoveryWindowInDays: nat, ghost t: Task) returns (failed: bool)
      requires t.id == id && (t.UndoingSecret? || t.DeletingSecret?)
      requires recoveryWindowInDays == if t.UndoingSecret? then 7 else 30
      modifies cloud
      ensures old(Rest(t)) == Rest(Finished(id, if failed || t.UndoingSecret? then Failed else Success))
      ensures Adds(old(cloud.made), cloud.made, [DeleteSecret(names.secret(id), recoveryWindowInDays)])
      ensures failed <==> !ReplyTo(old(cloud.made), cloud.made, 0).Accepted?
    {
      var reply := Make(DeleteSecret(names.secret(id), recoveryWindowInDays), t);
      failed := !reply.Accepted?;
    }

    /** The end of a provision: the group, or the clean-up, whose own errors are only logged. */
    method CreateReplicationGroup(
        id: GoString, authToken: GoString, tags: map<string, string>, snapshot: Option<string>,
        ghost spec: ProvisionSpec) returns (failed: bool)
      requires spec.token == authToken && spec.tags == tags && spec.restoreFrom == snapshot
      modifies cloud
      ensures old(Rest(CreatingGroup(id, spec))) == Rest(Finished(id, if failed then Failed else Success))
    {
      var list := ToPairs(tags);
      PairsRoundTrip(list, tags);
      var reply := Make(CreateGroup(names.group(id), authToken, FromPairs(list), snapshot), CreatingGroup(id, spec));
      failed := !reply.Accepted?;
      if failed {
        var ignored := DeleteCacheParameterGroup(id, UndoingParamGroup(id, spec));
        ignored := DeleteAuthTokenSecret(id, 7, UndoingSecret(id, spec));
      }
    }

    method Provision(
        id: GoString, params: StringMap?, tags: map<string, string>, snapshot: Option<string>, random: Token.RandReader)
      returns (failed: bool, ghost spec: ProvisionSpec)
      modifies cloud, random, if params == null then {} else {params}
      ensures spec.parameters == old(Entries(params)) && spec.tags == tags && spec.restoreFrom == snapshot
      ensures old(Rest(CreatingParamGroup(id, spec))) == Rest(Finished(id, if failed then Failed else Success))
      ensures old(random.drawn) <= random.drawn
      ensures random.drawn != old(random.drawn) ==>
        var indices := random.drawn[|old(random.drawn)|..];
        Token.Choice(indices) && |indices| == 32 && spec.token == Token.TokenOf(indices)
      ensures !failed ==> random.drawn != old(random.drawn)
    {
      spec := ProvisionSpec(Entries(params), tags, snapshot, []);
      ghost var before, calls, made := cloud.stores, cloud.calls, cloud.made;
      failed := CreateCacheParameterGroup(id, params);
      if failed {
        ProvisionBegins(names, id, spec, before, cloud.env, calls, made);
        return;
      }
      var authToken := Token.RandomAlphaNum(Token.PASSWORD_LENGTH, random);
      spec := spec.(token := authToken);
      ProvisionBegins(names, id, spec, before, cloud.env, calls, made);
      failed := CreateAuthTokenSecret(id, authToken, spec);
      if failed {
        return;
      }
      failed := CreateReplicationGroup(id, authToken, tags, snapshot, spec);
    }

    method Deprovision(id: GoString) returns (failed: bool)
      modifies cloud
      ensures old(Rest(DeletingGroup(id))) == Rest(Finished(id, if failed then Failed else Success))
    {
      var reply := Make(DeleteGroup(names.group(id)), DeletingGroup(id));
      if !reply.Accepted? {
        return true;
      }
      failed := DeleteAuthTokenSecret(id, 30, DeletingSecret(id));
    }

    /** Where the code follows AutomaticFailover, AWS has set it: the code would panic otherwise. */
    ghost predicate PointersPresent(id: GoString, action: Action)
      reads cloud
    {
      var name := names.group(id);
      !cloud.env.faults(cloud.calls) && name in cloud.Found().groups ==>
        var g := cloud.Found().groups[name];
        && action == FailoverTest && g.status == Some(Available)
        && PrimaryIn(g.nodeGroups) != "" && ReplicaIn(g.nodeGroups) != ""
        ==> g.failover.Some?
    }

    /** None stands for providers.NonExisting. */
    method ProgressState(id: GoString, action: Action, oldPrimary: string)
      returns (failed: bool, state: Option<Status>)
      requires PointersPresent(id, action)
      modifies cloud
      ensures old(Rest(Polling(id, action, oldPrimary))) == Rest(
        if failed then Finished(id, Failed)
        else if state.Some? then Finished(id, InState(state.value))
        else if action == Deprovisioning then DroppingParamGroup(id)
        else Finished(id, Gone))
    {
      var name := names.group(id);
      var reply := Make(DescribeGroup(name), Polling(id, action, oldPrimary));
      if !reply.Described? {
        return reply != Refused(NotFound), None;
      }
      var g := reply.group;
      if g.status.None? {
        return true, None;
      }
      if g.status.value == Available {
        if action == FailoverTest {
          var primary, replica, noRoles := GetPrimaryAndReplicaCacheClusterIds(g);
          if noRoles {
            return true, None;
          }
          if g.failover.value == Disabled {
            if oldPrimary != "" && primary == oldPrimary {
              reply := Make(ModifyGroup(name, Cutover(replica)), Advancing(id, Cutover(replica)));
              return !reply.Accepted?, Some(Modifying);
            } else {
              reply := Make(ModifyGroup(name, EnableHA), Advancing(id, EnableHA));
              return !reply.Accepted?, Some(Modifying);
            }
          }
        }
      }
      return false, g.status;
    }

    /** The describe must succeed: its error is overwritten, and a nil group is dereferenced. */
    method StartFailoverTest(id: GoString) returns (failed: bool, oldPrimary: string)
      requires !cloud.env.faults(cloud.calls) && names.group(id) in cloud.Found().groups
      modifies cloud
      ensures old(Rest(InspectingRoles(id))) ==
        Rest(Finished(id, if failed then Failed else FailoverStarted(oldPrimary)))
      ensures !failed ==> oldPrimary == PrimaryIn(old(cloud.Found().groups[names.group(id)].nodeGroups))
    {
      var name := names.group(id);
      var reply := Make(DescribeGroup(name), InspectingRoles(id));
      var primary, replica, noRoles := GetPrimaryAndReplicaCacheClusterIds(reply.group);
      if noRoles {
        return true, "";
      }
      reply := Make(ModifyGroup(name, DisableHA), DisablingHA(id, primary));
      if !reply.Accepted? {
        return true, "";
      }
      return false, primary;
    }

    method GenerateCredentials(id: GoString) returns (failed: bool, credentials: Credentials, uri: GoString)
      modifies cloud
      ensures old(Rest(LocatingGroup(id))) == Rest(Finished(id, if failed then Failed else Bound(credentials)))
      ensures var name, path := names.group(id), names.secret(id);
        var seen := Serve(cloud.env, old(cloud.stores), DescribeGroup(name), old(cloud.calls)).1;
        if !seen.Described? || (seen.group.configurationEndpoint.None? && |seen.group.nodeGroups| == 0) then
          failed && Adds(old(cloud.made), cloud.made, [DescribeGroup(name)])
        else
          && Adds(old(cloud.made), cloud.made, [DescribeGroup(name), GetSecret(path)])
          && (failed <==> !ReplyTo(old(cloud.made), cloud.made, 1).SecretIs?)
          && (!failed ==>
                var endpoint :=
                  if seen.group.configurationEndpoint.Some? then seen.group.configurationEndpoint.value
                  else seen.group.nodeGroups[0].primaryEndpoint;
                && credentials.host == endpoint.address && credentials.port == endpoint.port
                && credentials.password == ReplyTo(old(cloud.made), cloud.made, 1).value)
      ensures !failed ==> uri == CredentialUri.Uri(credentials.host, credentials.port, credentials.password)
      ensures !failed && CredentialUri.PlainHost(credentials.host) ==>
        CredentialUri.Read(uri) == Some(
          CredentialUri.Parts("", credentials.password, credentials.host, credentials.port))
    {
      var name := names.group(id);
      credentials, uri := Credentials("", 0, name, ""), "";
      var reply := Make(DescribeGroup(name), LocatingGroup(id));
      if !reply.Described? {
        return true, credentials, uri;
      }
      var endpoint: Endpoint;
      if reply.group.configurationEndpoint.Some? {
        endpoint := reply.group.configurationEndpoint.value;
      } else if |reply.group.nodeGroups| == 0 {
        return true, credentials, uri;
      } else {
        endpoint := reply.group.nodeGroups[0].primaryEndpoint;
      }
      reply := Make(GetSecret(names.secret(id)), ReadingSecret(id, endpoint));
      if !reply.SecretIs? {
        return true, credentials, uri;
      }
      credentials := Credentials(endpoint.address, endpoint.port, name, reply.value);
      uri := CredentialUri.Uri(endpoint.address, endpoint.port, reply.value);
      if CredentialUri.PlainHost(endpoint.address) {
        CredentialUri.UriRoundTrip(endpoint.address, endpoint.port, reply.value);
      }
      failed := false;
    }
  }
}
