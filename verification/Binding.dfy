/** What a bind returns while other requests run, and AWS moves endpoints. */
module Binding {
  import opened GoTypes
  import opened Aws
  import opened Requests
  import opened Lifecycle
  import opened Compensation

  function GroupOf(w: World, id: GoString): Group
    requires w.names.group(id) in w.stores.groups
  {
    w.stores.groups[w.names.group(id)]
  }

  predicate AtSecret(w: World, p: nat, id: GoString) {
    p in w.tasks && w.tasks[p].ReadingSecret? && w.tasks[p].id == id
  }

  /** What a bind that is about to read the secret returns. */
  function Result(w: World, p: nat): Task
    requires p in w.tasks
  {
    Exec(w, Step(p, false)).tasks[p]
  }

  function CredentialsFor(w: World, id: GoString, e: Endpoint, password: GoString): Credentials {
    Credentials(e.address, e.port, w.names.group(id), password)
  }

  /** The credentials are those of this group, endpoint and password. */
  predicate BelongTo(c: Credentials, g: Group) {
    EndpointOf(g) == Some(Endpoint(c.host, c.port)) && c.password == g.authToken
  }

  // ---- the password ----

  lemma ReadGetsTheToken(now: World, p: nat, id: GoString)
    requires AtSecret(now, p, id) && InService(now, id) && HasSecret(now, id, TokenOf(now, id))
    ensures Result(now, p) == Finished(id, Bound(CredentialsFor(now, id, now.tasks[p].endpoint, TokenOf(now, id))))
  {
  }

  /** A bind that reads the secret while the group is in service gets that group's token. */
  lemma BindGetsTheToken(w: World, es: seq<Event>, p: nat, id: GoString)
    requires Start(w) && AtSecret(Run(w, es), p, id) && InService(Run(w, es), id)
    ensures var now := Run(w, es);
      Result(now, p) == Finished(id, Bound(CredentialsFor(now, id, now.tasks[p].endpoint, TokenOf(now, id))))
  {
    OwnershipAlways(w, es);
    NamesAndIdsFixed(w, es);
    SecretsMatchGroups(w, es, id);
    ReadGetsTheToken(Run(w, es), p, id);
  }

  /** While a group stays in service, however long and whatever runs beside it, every bind returns one password. */
  lemma EveryBindReturnsOnePassword(w: World, before: seq<Event>, during: seq<Event>, p: nat, q: nat, id: GoString)
    requires Start(w) && InServiceThroughout(Run(w, before), during, id)
    requires AtSecret(Run(w, before), p, id) && AtSecret(Run(Run(w, before), during), q, id)
    ensures var first, last := Result(Run(w, before), p), Result(Run(Run(w, before), during), q);
      && first.Finished? && first.outcome.Bound? && last.Finished? && last.outcome.Bound?
      && first.outcome.credentials.password == last.outcome.credentials.password
      && first.outcome.credentials.password == TokenOf(Run(w, before), id)
  {
    OnePasswordForLife(Run(w, before), during, id);
    RunConcat(w, before, during);
    BindGetsTheToken(w, before, p, id);
    BindGetsTheToken(w, before + during, q, id);
  }

  // ---- the endpoint ----

  lemma {:induction false} FinishedStays(w: World, es: seq<Event>, p: nat)
    requires p in w.tasks && w.tasks[p].Finished?
    ensures p in Run(w, es).tasks && Run(w, es).tasks[p] == w.tasks[p]
    decreases |es|
  {
    if es != [] {
      FinishedStays(Exec(w, es[0]), es[1..], p);
    }
  }

  /** A bind that is still to read the secret has kept the endpoint it saw. */
  lemma {:induction false} EndpointIsKept(w: World, es: seq<Event>, p: nat)
    requires p in w.tasks && w.tasks[p].ReadingSecret?
    requires p in Run(w, es).tasks && Run(w, es).tasks[p].ReadingSecret?
    ensures Run(w, es).tasks[p] == w.tasks[p]
    decreases |es|
  {
    if es != [] {
      var next := Exec(w, es[0]);
      if next.tasks[p].Finished? {
        FinishedStays(next, es[1..], p);
      } else {
        EndpointIsKept(next, es[1..], p);
      }
    }
  }

  /** About to describe a group that has an endpoint. */
  predicate AtGroup(w: World, p: nat, id: GoString) {
    && p in w.tasks && w.tasks[p] == LocatingGroup(id)
    && w.names.group(id) in w.stores.groups && EndpointOf(GroupOf(w, id)).Some?
  }

  lemma LocatedAt(w: World, p: nat, id: GoString)
    requires AtGroup(w, p, id)
    ensures Exec(w, Step(p, false)) == w.(
      tasks := w.tasks[p := ReadingSecret(id, EndpointOf(GroupOf(w, id)).value)])
  {
  }

  /**
   * A bind describes the group, other things happen, and it reads the secret while the group is in
   * service. It returns the endpoint it described and the password of the group that is there now. So
   * what it returns belongs to that group if and only if the endpoint is still the one described, and
   * the password is that of the group described if that one has stayed in service.
   */
  lemma BindReturnsTheGroup(w: World, before: seq<Event>, between: seq<Event>, p: nat, id: GoString)
    requires Start(w) && AtGroup(Run(w, before), p, id)
    requires var now := Run(Exec(Run(w, before), Step(p, false)), between);
      AtSecret(now, p, id) && InService(now, id)
    ensures var seen, now := Run(w, before), Run(Exec(Run(w, before), Step(p, false)), between);
      var c := CredentialsFor(now, id, EndpointOf(GroupOf(seen, id)).value, TokenOf(now, id));
      && Result(now, p) == Finished(id, Bound(c))
      && (BelongTo(c, GroupOf(now, id)) <==> EndpointOf(GroupOf(now, id)) == EndpointOf(GroupOf(seen, id)))
      && (InServiceThroughout(Exec(seen, Step(p, false)), between, id) ==>
            c.password == GroupOf(seen, id).authToken)
  {
    var seen := Run(w, before);
    var described := Exec(seen, Step(p, false));
    LocatedAt(seen, p, id);
    EndpointIsKept(described, between, p);
    RunConcat(w, before, [Step(p, false)]);
    assert [Step(p, false)][1..] == [];
    assert Run(w, before + [Step(p, false)]) == described;
    RunConcat(w, before + [Step(p, false)], between);
    BindGetsTheToken(w, before + [Step(p, false)] + between, p, id);
    if InServiceThroughout(described, between, id) {
      OnePasswordForLife(described, between, id);
    }
  }

  // ---- runs in which it is not ----

  function Serving(names: Names, id: GoString, spec: ProvisionSpec, e: Endpoint): Group {
    NewGroup(spec.token, spec.tags, spec.restoreFrom).(status := Some(Available), configurationEndpoint := Some(e))
  }

  /** Stores with one instance in them, available at an endpoint. */
  function InUse(names: Names, id: GoString, spec: ProvisionSpec, e: Endpoint): Stores {
    Stores(
      map[names.group(id) := WithClusterDefault(spec.parameters)],
      map[names.secret(id) := Live(spec.token)],
      map[names.group(id) := Serving(names, id, spec, e)])
  }

  lemma RunOne(w: World, e: Event)
    ensures Run(w, [e]) == Exec(w, e)
  {
    assert [e][1..] == [];
  }

  /** An undisturbed provision from empty stores. */
  lemma ProvisionedAlone(w: World, p: nat, id: GoString, spec: ProvisionSpec) returns (es: seq<Event>)
    requires id in w.ids && p !in w.tasks && w.stores == Stores(map[], map[], map[])
    ensures var names := w.names;
      var s := InUse(names, id, spec, Endpoint("", 0));
      Run(w, es) == Put(w, p,
        s.(groups := map[names.group(id) := NewGroup(spec.token, spec.tags, spec.restoreFrom)]), Finished(id, Success))
  {
    var t := CreatingParamGroup(id, spec);
    var arrived := Exec(w, Arrive(p, t));
    assert arrived == Put(w, p, w.stores, t);
    var rest := RunningAloneIsARun(arrived, p, (n: nat) => false, 0);
    SuccessLeaves(w.names, id, spec, w.stores, (n: nat) => false, 0);
    es := [Arrive(p, t)] + rest;
    RunOne(w, Arrive(p, t));
    RunConcat(w, [Arrive(p, t)], rest);
    assert w.tasks[p := t][p := Finished(id, Success)] == w.tasks[p := Finished(id, Success)];
  }

  /** And AWS makes the group available. */
  lemma BroughtUp(w: World, p: nat, id: GoString, spec: ProvisionSpec, e: Endpoint) returns (es: seq<Event>)
    requires id in w.ids && p !in w.tasks && w.stores == Stores(map[], map[], map[])
    ensures Run(w, es) == Put(w, p, InUse(w.names, id, spec, e), Finished(id, Success))
  {
    var first := ProvisionedAlone(w, p, id, spec);
    var last := Evolve(w.names.group(id), Serving(w.names, id, spec, e));
    es := first + [last];
    RunConcat(w, first, [last]);
    RunOne(Run(w, first), last);
    assert Run(w, es).stores.groups == InUse(w.names, id, spec, e).groups;
  }

  /** A bind arrives and describes the group. */
  lemma BindDescribes(w: World, p: nat, id: GoString, spec: ProvisionSpec, e: Endpoint) returns (es: seq<Event>)
    requires id in w.ids && p !in w.tasks && w.stores == InUse(w.names, id, spec, e)
    ensures Run(w, es) == Put(w, p, w.stores, ReadingSecret(id, e))
  {
    es := [Arrive(p, LocatingGroup(id)), Step(p, false)];
    RunTwo(w, es[0], es[1]);
    assert Exec(w, es[0]) == Put(w, p, w.stores, LocatingGroup(id));
    StepPuts(w, p, w.stores, LocatingGroup(id), false);
  }

  /** The endpoint moves. */
  lemma Moved(w: World, id: GoString, spec: ProvisionSpec, a: Endpoint, b: Endpoint) returns (es: seq<Event>)
    requires w.stores == InUse(w.names, id, spec, a)
    ensures Run(w, es) == w.(stores := InUse(w.names, id, spec, b))
  {
    var e := Evolve(w.names.group(id), Serving(w.names, id, spec, b));
    es := [e];
    RunOne(w, e);
    assert Exec(w, e).stores.groups == InUse(w.names, id, spec, b).groups;
  }

  /**
   * A bind can return an endpoint that is no longer the group's: AWS moves it after the describe and
   * before the secret is read.
   */
  lemma StaleEndpoint(w: World, id: GoString, spec: ProvisionSpec, a: Endpoint, b: Endpoint) returns (es: seq<Event>)
    requires Start(w) && id in w.ids && a != b
    ensures var now := Run(w, es);
      && InService(now, id) && EndpointOf(GroupOf(now, id)) == Some(b) && 1 in now.tasks
      && Result(now, 1) == Finished(id, Bound(CredentialsFor(w, id, a, spec.token)))
      && !BelongTo(CredentialsFor(w, id, a, spec.token), GroupOf(now, id))
  {
    var up := BroughtUp(w, 0, id, spec, a);
    var described := BindDescribes(Run(w, up), 1, id, spec, a);
    var moved := Moved(Run(Run(w, up), described), id, spec, a, b);
    RunConcat(w, up, described);
    RunConcat(w, up + described, moved);
    es := up + described + moved;
    ReadGetsTheToken(Run(w, es), 1, id);
  }

  function DeletedStores(s: Stores, names: Names, id: GoString, spec: ProvisionSpec, e: Endpoint): Stores {
    var g := Serving(names, id, spec, e).(status := Some(Deleting), pending := None);
    s.(groups := map[names.group(id) := g], secrets := map[names.secret(id) := Scheduled(spec.token, 30)])
  }

  function TwoCalls(p: nat, t: Task): seq<Event> {
    [Arrive(p, t)] + [Step(p, false), Step(p, false)]
  }

  lemma TwoCallsRun(w: World, p: nat, t: Task, s1: Stores, t1: Task, s2: Stores, t2: Task)
    requires p !in w.tasks && IsRequest(t) && t.id in w.ids && !t1.Finished?
    requires var (s, reply) := Apply(w.stores, NextCall(w.names, t), false);
      s1 == s && t1 == Resume(w.names, t, reply)
    requires var (s, reply) := Apply(s1, NextCall(w.names, t1), false);
      s2 == s && t2 == Resume(w.names, t1, reply)
    ensures Run(w, TwoCalls(p, t)) == Put(w, p, s2, t2)
  {
    RunConcat(w, [Arrive(p, t)], [Step(p, false), Step(p, false)]);
    RunOne(w, Arrive(p, t));
    RunTwo(Exec(w, Arrive(p, t)), Step(p, false), Step(p, false));
    StepPuts(w, p, w.stores, t, false);
    StepPuts(w, p, s1, t1, false);
  }

  /** A deprovision runs through. */
  lemma Deleted(w: World, d: nat, id: GoString, spec: ProvisionSpec, e: Endpoint)
    requires id in w.ids && d !in w.tasks && w.stores == InUse(w.names, id, spec, e)
    ensures Run(w, TwoCalls(d, DeletingGroup(id)))
         == Put(w, d, DeletedStores(w.stores, w.names, id, spec, e), Finished(id, Success))
  {
    var retired := DeletedStores(w.stores, w.names, id, spec, e).(secrets := w.stores.secrets);
    assert w.stores.groups[w.names.group(id) := retired.groups[w.names.group(id)]] == retired.groups;
    assert retired.secrets[w.names.secret(id) := Scheduled(spec.token, 30)]
        == map[w.names.secret(id) := Scheduled(spec.token, 30)];
    TwoCallsRun(w, d, DeletingGroup(id), retired, DeletingSecret(id),
      DeletedStores(w.stores, w.names, id, spec, e), Finished(id, Success));
  }

  /** The group goes, and the recovery window passes. */
  lemma Emptied(w: World, id: GoString, spec: ProvisionSpec, e: Endpoint)
    requires w.stores == DeletedStores(InUse(w.names, id, spec, e), w.names, id, spec, e)
    ensures Run(w, [Vanish(w.names.group(id)), Purge(w.names.secret(id))])
         == w.(stores := w.stores.(secrets := map[], groups := map[]))
  {
    var gone := w.(stores := w.stores.(groups := map[]));
    RunTwo(w, Vanish(w.names.group(id)), Purge(w.names.secret(id)));
    assert Exec(w, Vanish(w.names.group(id))) == gone by {
      assert w.stores.groups - {w.names.group(id)} == map[];
    }
    assert Purged(gone.stores, w.names.secret(id)) == gone.stores.(secrets := map[]) by {
      assert w.stores.secrets - {w.names.secret(id)} == map[];
    }
  }

  /** A deprovisioning poll finds no group, and drops the parameter group. */
  lemma Dropped(w: World, p: nat, id: GoString)
    requires id in w.ids && p !in w.tasks && w.stores.secrets == map[] && w.stores.groups == map[]
    requires w.stores.paramGroups.Keys == {w.names.group(id)}
    ensures Run(w, TwoCalls(p, Polling(id, Deprovisioning, "")))
         == Put(w, p, Stores(map[], map[], map[]), Finished(id, Gone))
  {
    assert w.stores.paramGroups - {w.names.group(id)} == map[];
    TwoCallsRun(w, p, Polling(id, Deprovisioning, ""), w.stores, DroppingParamGroup(id),
      Stores(map[], map[], map[]), Finished(id, Gone));
  }

  /** From a bind that has described the group to the same instance provisioned afresh, the bind still waiting. */
  lemma Replaced(
      w: World, id: GoString, spec: ProvisionSpec, again: ProvisionSpec, a: Endpoint, b: Endpoint)
      returns (es: seq<Event>)
    requires id in w.ids && AtSecret(w, 1, id) && w.stores == InUse(w.names, id, spec, a)
    requires 2 !in w.tasks && 3 !in w.tasks && 4 !in w.tasks
    ensures var now := Run(w, es);
      && now.names == w.names && now.stores == InUse(w.names, id, again, b)
      && AtSecret(now, 1, id) && now.tasks[1] == w.tasks[1]
  {
    var deleting, emptying := TwoCalls(2, DeletingGroup(id)), [Vanish(w.names.group(id)), Purge(w.names.secret(id))];
    var dropping := TwoCalls(3, Polling(id, Deprovisioning, ""));
    Deleted(w, 2, id, spec, a);
    Emptied(Run(w, deleting), id, spec, a);
    RunConcat(w, deleting, emptying);
    Dropped(Run(w, deleting + emptying), 3, id);
    RunConcat(w, deleting + emptying, dropping);
    var up := BroughtUp(Run(w, deleting + emptying + dropping), 4, id, again, b);
    RunConcat(w, deleting + emptying + dropping, up);
    es := deleting + emptying + dropping + up;
  }

  /**
   * And when the instance is deprovisioned and provisioned again in between, a bind returns the host of
   * the old group with the password of the new one.
   */
  lemma OldHostNewPassword(
      w: World, id: GoString, spec: ProvisionSpec, again: ProvisionSpec, a: Endpoint, b: Endpoint)
      returns (es: seq<Event>)
    requires Start(w) && id in w.ids && a != b
    ensures var now := Run(w, es);
      && InService(now, id) && EndpointOf(GroupOf(now, id)) == Some(b) && 1 in now.tasks
      && Result(now, 1) == Finished(id, Bound(CredentialsFor(w, id, a, again.token)))
  {
    var up := BroughtUp(w, 0, id, spec, a);
    var described := BindDescribes(Run(w, up), 1, id, spec, a);
    RunConcat(w, up, described);
    var replaced := Replaced(Run(w, up + described), id, spec, again, a, b);
    RunConcat(w, up + described, replaced);
    es := up + described + replaced;
    ReadGetsTheToken(Run(w, es), 1, id);
  }
}
