/**
 * Requests of any number of instances running side by side. Between any two steps another request
 * may make a call, a call may fail, and AWS may move a group along, remove a deleted one, or let the
 * recovery window of a deleted secret pass.
 */
module Lifecycle {
  import opened GoTypes
  import opened Aws
  import opened Naming
  import opened Requests

  /** `ids` are the instance ids in play, `tasks` the requests by number, finished ones included. */
  datatype World = World(names: Names, ids: set<GoString>, stores: Stores, tasks: map<nat, Task>)

  datatype Event =
    | Arrive(pid: nat, request: Task)
    | Step(pid: nat, fault: bool)
    | Evolve(name: GoString, group: Group)
    | Vanish(name: GoString)
    | Purge(path: GoString)

  /** Requests as the platform sends them. */
  predicate IsRequest(t: Task) {
    || t.CreatingParamGroup? || t.DeletingGroup? || t.UpdatingWindow? || t.UpdatingPolicy?
    || t.InspectingRoles? || t.Polling? || t.LocatingGroup?
  }

  /** What AWS may do to a group on its own: anything but rename it, revive it or start deleting it. */
  predicate MayBecome(g: Group, g': Group) {
    g'.authToken == g.authToken && g'.tags == g.tags && (BeingDeleted(g) <==> BeingDeleted(g'))
  }

  /** One event; an event that cannot happen changes nothing. */
  function Exec(w: World, e: Event): World {
    match e
    case Arrive(pid, t) =>
      if pid !in w.tasks && IsRequest(t) && t.id in w.ids then w.(tasks := w.tasks[pid := t]) else w
    case Step(pid, fault) =>
      if pid in w.tasks && !w.tasks[pid].Finished? then
        var t := w.tasks[pid];
        var (stores, reply) := Apply(w.stores, NextCall(w.names, t), fault);
        w.(stores := stores, tasks := w.tasks[pid := Resume(w.names, t, reply)])
      else w
    case Evolve(name, g) =>
      if name in w.stores.groups && MayBecome(w.stores.groups[name], g)
      then w.(stores := w.stores.(groups := w.stores.groups[name := g])) else w
    case Vanish(name) =>
      if name in w.stores.groups && BeingDeleted(w.stores.groups[name])
      then w.(stores := w.stores.(groups := w.stores.groups - {name})) else w
    case Purge(path) => w.(stores := Purged(w.stores, path))
  }

  function Run(w: World, es: seq<Event>): World
    decreases |es|
  {
    if es == [] then w else Run(Exec(w, es[0]), es[1..])
  }

  lemma {:induction false} RunConcat(w: World, a: seq<Event>, b: seq<Event>)
    ensures Run(w, a + b) == Run(Run(w, a), b)
    decreases |a|
  {
    if a == [] {
      assert a + b == b;
    } else {
      assert (a + b)[1..] == a[1..] + b;
      RunConcat(Exec(w, a[0]), a[1..], b);
    }
  }

  lemma RunTwo(w: World, a: Event, b: Event)
    ensures Run(w, [a, b]) == Exec(Exec(w, a), b)
  {
    assert [a, b][1..] == [b] && [b][1..] == [];
    assert Run(w, [a, b]) == Run(Exec(w, a), [b]);
  }

  lemma RunFive(w: World, a: Event, b: Event, c: Event, d: Event, e: Event)
    ensures Run(w, [a, b, c, d, e]) == Exec(Exec(Exec(Exec(Exec(w, a), b), c), d), e)
  {
    assert [a, b, c, d, e] == [a, b] + ([c, d] + [e]);
    RunConcat(w, [a, b], [c, d] + [e]);
    RunTwo(w, a, b);
    RunConcat(Exec(Exec(w, a), b), [c, d], [e]);
    RunTwo(Exec(Exec(w, a), b), c, d);
    assert [e][1..] == [];
  }

  /** One request has moved on, and the stores with it. */
  function Put(w: World, p: nat, s: Stores, t: Task): World {
    w.(stores := s, tasks := w.tasks[p := t])
  }

  lemma StepPuts(w: World, p: nat, s: Stores, t: Task, fault: bool)
    requires !t.Finished?
    ensures var (s', reply) := Apply(s, NextCall(w.names, t), fault);
      Exec(Put(w, p, s, t), Step(p, fault)) == Put(w, p, s', Resume(w.names, t, reply))
  {
    var (s', reply) := Apply(s, NextCall(w.names, t), fault);
    assert w.tasks[p := t][p := Resume(w.names, t, reply)] == w.tasks[p := Resume(w.names, t, reply)];
  }

  predicate HasSecret(w: World, id: GoString, value: GoString) {
    var path := w.names.secret(id);
    path in w.stores.secrets && w.stores.secrets[path] == Live(value)
  }

  /** The group of an instance exists and nobody has asked for its deletion. */
  predicate InService(w: World, id: GoString) {
    var name := w.names.group(id);
    name in w.stores.groups && !BeingDeleted(w.stores.groups[name])
  }

  function TokenOf(w: World, id: GoString): GoString
    requires InService(w, id)
  {
    w.stores.groups[w.names.group(id)].authToken
  }

  // ---- who owns a secret ----

  /** Requests that created their instance's secret, or took it over from a group, and still answer for it. */
  predicate OwnsSecret(t: Task) {
    t.CreatingGroup? || t.UndoingParamGroup? || t.UndoingSecret? || t.DeletingSecret?
  }

  predicate NonColliding(w: World) {
    && (forall a, b :: a in w.ids && b in w.ids && w.names.group(a) == w.names.group(b) ==> a == b)
    && (forall a, b :: a in w.ids && b in w.ids && w.names.secret(a) == w.names.secret(b) ==> a == b)
  }

  predicate OwnerIsSound(w: World, t: Task)
    requires OwnsSecret(t)
  {
    && IsLive(w.stores, w.names.secret(t.id))
    && !InService(w, t.id)
    && (!t.DeletingSecret? ==> HasSecret(w, t.id, t.spec.token))
  }

  predicate Owns(w: World, p: nat, id: GoString) {
    p in w.tasks && OwnsSecret(w.tasks[p]) && w.tasks[p].id == id
  }

  /** The live secret of an instance has at most one owner: its group while in service, or one request. */
  ghost predicate OneOwner(w: World, id: GoString) {
    && (InService(w, id) ==> HasSecret(w, id, TokenOf(w, id)))
    && (forall p :: Owns(w, p, id) ==> OwnerIsSound(w, w.tasks[p]))
    && (forall p, q :: Owns(w, p, id) && Owns(w, q, id) ==> p == q)
  }

  ghost predicate Ownership(w: World) {
    && NonColliding(w)
    && (forall p :: p in w.tasks ==> w.tasks[p].id in w.ids)
    && (forall id :: id in w.ids ==> OneOwner(w, id))
  }

  ghost predicate Start(w: World) {
    NonColliding(w) && w.tasks == map[] && w.stores == Stores(map[], map[], map[])
  }

  // ---- what a step can do to groups and secrets ----

  predicate IsProvision(t: Task) {
    || t.CreatingParamGroup? || t.SettingParams? || t.CreatingSecret? || t.CreatingGroup?
    || t.UndoingParamGroup? || t.UndoingSecret?
  }

  /** No group appears, none starts to be deleted, and the live secrets stay as they are. */
  ghost predicate Quiet(s: Stores, s': Stores) {
    && (forall n :: n in s'.groups ==> n in s.groups && MayBecome(s.groups[n], s'.groups[n]))
    && (forall path :: IsLive(s, path) ==> path in s'.secrets && s'.secrets[path] == s.secrets[path])
    && (forall path :: IsLive(s', path) ==> IsLive(s, path))
  }

  ghost predicate MintsSecret(names: Names, t: Task, s: Stores, s': Stores, t': Task) {
    && t.CreatingSecret? && t' == CreatingGroup(t.id, t.spec)
    && names.secret(t.id) !in s.secrets
    && s' == s.(secrets := s.secrets[names.secret(t.id) := Live(t.spec.token)])
  }

  ghost predicate MintsGroup(names: Names, t: Task, s: Stores, s': Stores, t': Task) {
    && t.CreatingGroup? && t' == Finished(t.id, Success)
    && names.group(t.id) !in s.groups
    && s' == s.(groups := s.groups[names.group(t.id) := NewGroup(t.spec.token, t.spec.tags, t.spec.restoreFrom)])
  }

  ghost predicate SchedulesSecret(names: Names, t: Task, s: Stores, s': Stores, t': Task) {
    var path := names.secret(t.id);
    && (t.UndoingSecret? || t.DeletingSecret?) && t'.Finished? && t'.id == t.id
    && IsLive(s, path)
    && s'.groups == s.groups
    && s'.secrets == s.secrets[path := Scheduled(s.secrets[path].value, if t.UndoingSecret? then 7 else 30)]
  }

  ghost predicate RetiresGroup(names: Names, t: Task, s: Stores, s': Stores, t': Task) {
    var name := names.group(t.id);
    && t.DeletingGroup? && t' == DeletingSecret(t.id)
    && name in s.groups && !BeingDeleted(s.groups[name])
    && s'.secrets == s.secrets
    && s'.groups == s.groups[name := s.groups[name].(status := Some(Deleting), pending := None)]
  }

  ghost predicate QuietStep(t: Task, s: Stores, s': Stores, t': Task) {
    && Quiet(s, s') && t'.id == t.id
    && (OwnsSecret(t') ==> OwnsSecret(t) && !t'.DeletingSecret? && !t.DeletingSecret? && t'.spec == t.spec)
    && (IsProvision(t') ==> IsProvision(t))
  }

  ghost predicate AllowedStep(names: Names, t: Task, s: Stores, s': Stores, t': Task) {
    || QuietStep(t, s, s', t')
    || MintsSecret(names, t, s, s', t')
    || MintsGroup(names, t, s, s', t')
    || SchedulesSecret(names, t, s, s', t')
    || RetiresGroup(names, t, s, s', t')
  }

  lemma ParamGroupStep(names: Names, t: Task, s: Stores, fault: bool)
    requires t.CreatingParamGroup? || t.SettingParams? || t.UndoingParamGroup?
    ensures var (s', reply) := Apply(s, NextCall(names, t), fault);
      QuietStep(t, s, s', Resume(names, t, reply))
  {
  }

  lemma ProvisionStep(names: Names, t: Task, s: Stores, fault: bool)
    requires t.CreatingSecret? || t.CreatingGroup? || t.UndoingSecret?
    ensures var (s', reply) := Apply(s, NextCall(names, t), fault);
      AllowedStep(names, t, s, s', Resume(names, t, reply))
  {
    var (s', reply) := Apply(s, NextCall(names, t), fault);
    var t' := Resume(names, t, reply);
    if t.CreatingSecret? {
      assert QuietStep(t, s, s', t') || MintsSecret(names, t, s, s', t');
    } else if t.CreatingGroup? {
      assert QuietStep(t, s, s', t') || MintsGroup(names, t, s, s', t');
    } else {
      assert QuietStep(t, s, s', t') || SchedulesSecret(names, t, s, s', t');
    }
  }

  lemma DeprovisionStep(names: Names, t: Task, s: Stores, fault: bool)
    requires t.DeletingGroup? || t.DeletingSecret?
    ensures var (s', reply) := Apply(s, NextCall(names, t), fault);
      AllowedStep(names, t, s, s', Resume(names, t, reply))
  {
    var (s', reply) := Apply(s, NextCall(names, t), fault);
    var t' := Resume(names, t, reply);
    if t.DeletingGroup? {
      assert QuietStep(t, s, s', t') || RetiresGroup(names, t, s, s', t');
    } else {
      assert QuietStep(t, s, s', t') || SchedulesSecret(names, t, s, s', t');
    }
  }

  predicate OnlyReads(t: Task) {
    t.Polling? || t.InspectingRoles? || t.LocatingGroup? || t.ReadingSecret?
  }

  lemma ReadingStep(names: Names, t: Task, s: Stores, fault: bool)
    requires OnlyReads(t)
    ensures var (s', reply) := Apply(s, NextCall(names, t), fault);
      s' == s && QuietStep(t, s, s', Resume(names, t, reply))
  {
  }

  lemma UpdatingStep(names: Names, t: Task, s: Stores, fault: bool)
    requires t.UpdatingWindow? || t.UpdatingPolicy? || t.DisablingHA?
    ensures var (s', reply) := Apply(s, NextCall(names, t), fault);
      QuietStep(t, s, s', Resume(names, t, reply))
  {
  }

  lemma PollingStep(names: Names, t: Task, s: Stores, fault: bool)
    requires t.Advancing? || t.DroppingParamGroup?
    ensures var (s', reply) := Apply(s, NextCall(names, t), fault);
      QuietStep(t, s, s', Resume(names, t, reply))
  {
  }

  lemma StepEffect(names: Names, t: Task, s: Stores, fault: bool)
    requires !t.Finished?
    ensures var (s', reply) := Apply(s, NextCall(names, t), fault);
      AllowedStep(names, t, s, s', Resume(names, t, reply))
  {
    if t.CreatingParamGroup? || t.SettingParams? || t.UndoingParamGroup? {
      ParamGroupStep(names, t, s, fault);
    } else if IsProvision(t) {
      ProvisionStep(names, t, s, fault);
    } else if t.DeletingGroup? || t.DeletingSecret? {
      DeprovisionStep(names, t, s, fault);
    } else if OnlyReads(t) {
      ReadingStep(names, t, s, fault);
    } else if t.Advancing? || t.DroppingParamGroup? {
      PollingStep(names, t, s, fault);
    } else {
      UpdatingStep(names, t, s, fault);
    }
  }

  // ---- the invariant ----

  lemma OneOwnerQuietly(w: World, w': World, id: GoString)
    requires OneOwner(w, id) && w'.names == w.names && Quiet(w.stores, w'.stores)
    requires forall p :: Owns(w', p, id) ==> Owns(w, p, id)
    requires forall p :: Owns(w', p, id) ==> w'.tasks[p].DeletingSecret? == w.tasks[p].DeletingSecret?
    requires forall p :: Owns(w', p, id) && !w'.tasks[p].DeletingSecret? ==> w'.tasks[p].spec == w.tasks[p].spec
    ensures OneOwner(w', id)
  {
    forall p | Owns(w', p, id) ensures OwnerIsSound(w', w'.tasks[p]) {
      assert OwnerIsSound(w, w.tasks[p]);
    }
  }

  /** One request goes from t to t' while the stores go from s to s'. */
  ghost predicate Moves(w: World, p: nat, w': World) {
    && p in w.tasks && p in w'.tasks && w'.tasks[p].id == w.tasks[p].id
    && w' == w.(stores := w'.stores, tasks := w.tasks[p := w'.tasks[p]])
  }

  lemma OwnershipAfterMint(w: World, p: nat, w': World)
    requires Ownership(w) && Moves(w, p, w')
    requires MintsSecret(w.names, w.tasks[p], w.stores, w'.stores, w'.tasks[p])
    ensures Ownership(w')
  {
    forall id | id in w.ids ensures OneOwner(w', id) {
      assert OneOwner(w, id);
      assert forall q :: Owns(w', q, id) && q != p ==> Owns(w, q, id);
    }
  }

  lemma OwnershipAfterCreate(w: World, p: nat, w': World)
    requires Ownership(w) && Moves(w, p, w')
    requires MintsGroup(w.names, w.tasks[p], w.stores, w'.stores, w'.tasks[p])
    ensures Ownership(w')
  {
    assert Owns(w, p, w.tasks[p].id);
    forall id | id in w.ids ensures OneOwner(w', id) {
      assert OneOwner(w, id);
      assert forall q :: Owns(w', q, id) ==> Owns(w, q, id) && q != p;
    }
  }

  lemma OwnershipAfterSchedule(w: World, p: nat, w': World)
    requires Ownership(w) && Moves(w, p, w')
    requires SchedulesSecret(w.names, w.tasks[p], w.stores, w'.stores, w'.tasks[p])
    ensures Ownership(w')
  {
    assert Owns(w, p, w.tasks[p].id);
    forall id | id in w.ids ensures OneOwner(w', id) {
      assert OneOwner(w, id);
      assert forall q :: Owns(w', q, id) ==> Owns(w, q, id) && q != p;
    }
  }

  lemma OwnershipAfterRetire(w: World, p: nat, w': World)
    requires Ownership(w) && Moves(w, p, w')
    requires RetiresGroup(w.names, w.tasks[p], w.stores, w'.stores, w'.tasks[p])
    ensures Ownership(w')
  {
    forall id | id in w.ids ensures OneOwner(w', id) {
      assert OneOwner(w, id);
      assert forall q :: Owns(w', q, id) && q != p ==> Owns(w, q, id);
    }
  }

  lemma OwnershipKeptQuietly(w: World, p: nat, w': World)
    requires Ownership(w) && Moves(w, p, w')
    requires QuietStep(w.tasks[p], w.stores, w'.stores, w'.tasks[p])
    ensures Ownership(w')
  {
    forall id | id in w.ids ensures OneOwner(w', id) {
      assert OneOwner(w, id);
      OneOwnerQuietly(w, w', id);
    }
  }

  lemma OwnershipKeptByMove(w: World, p: nat, w': World)
    requires Ownership(w) && Moves(w, p, w')
    requires AllowedStep(w.names, w.tasks[p], w.stores, w'.stores, w'.tasks[p])
    ensures Ownership(w')
  {
    var t, t', s, s' := w.tasks[p], w'.tasks[p], w.stores, w'.stores;
    if QuietStep(t, s, s', t') {
      OwnershipKeptQuietly(w, p, w');
    } else if MintsSecret(w.names, t, s, s', t') {
      OwnershipAfterMint(w, p, w');
    } else if MintsGroup(w.names, t, s, s', t') {
      OwnershipAfterCreate(w, p, w');
    } else if SchedulesSecret(w.names, t, s, s', t') {
      OwnershipAfterSchedule(w, p, w');
    } else {
      OwnershipAfterRetire(w, p, w');
    }
  }

  lemma OwnershipKeptByAws(w: World, s': Stores)
    requires Ownership(w) && Quiet(w.stores, s')
    ensures Ownership(w.(stores := s'))
  {
    var w' := w.(stores := s');
    forall id | id in w.ids ensures OneOwner(w', id) {
      assert OneOwner(w, id);
      OneOwnerQuietly(w, w', id);
    }
  }

  lemma OwnershipKeptByArrival(w: World, pid: nat, t: Task)
    requires Ownership(w) && pid !in w.tasks && IsRequest(t) && t.id in w.ids
    ensures Ownership(w.(tasks := w.tasks[pid := t]))
  {
    var w' := w.(tasks := w.tasks[pid := t]);
    forall id | id in w.ids ensures OneOwner(w', id) {
      assert OneOwner(w, id);
      OneOwnerQuietly(w, w', id);
    }
  }

  lemma AwsIsQuiet(w: World, e: Event)
    requires e.Evolve? || e.Vanish? || e.Purge?
    ensures Quiet(w.stores, Exec(w, e).stores) && Exec(w, e) == w.(stores := Exec(w, e).stores)
  {
  }

  lemma OwnershipKept(w: World, e: Event)
    requires Ownership(w)
    ensures Ownership(Exec(w, e))
  {
    if e.Arrive? {
      if e.pid !in w.tasks && IsRequest(e.request) && e.request.id in w.ids {
        OwnershipKeptByArrival(w, e.pid, e.request);
      }
    } else if !e.Step? {
      AwsIsQuiet(w, e);
      OwnershipKeptByAws(w, Exec(w, e).stores);
    } else if e.pid in w.tasks && !w.tasks[e.pid].Finished? {
      StepEffect(w.names, w.tasks[e.pid], w.stores, e.fault);
      OwnershipKeptByMove(w, e.pid, Exec(w, e));
    }
  }

  lemma {:induction false} OwnershipAlways(w: World, es: seq<Event>)
    requires Ownership(w)
    ensures Ownership(Run(w, es))
    decreases |es|
  {
    if es != [] {
      OwnershipKept(w, es[0]);
      OwnershipAlways(Exec(w, es[0]), es[1..]);
    }
  }

  // ---- secret and group agree ----

  /**
   * However requests interleave, every group in service has a live secret at its instance's path,
   * and its value is the auth token the group was created with.
   */
  lemma SecretsMatchGroups(w: World, es: seq<Event>, id: GoString)
    requires Start(w) && id in w.ids && InService(Run(w, es), id)
    ensures HasSecret(Run(w, es), id, TokenOf(Run(w, es), id))
  {
    OwnershipAlways(w, es);
    NamesAndIdsFixed(w, es);
    assert OneOwner(Run(w, es), id);
  }

  lemma {:induction false} NamesAndIdsFixed(w: World, es: seq<Event>)
    ensures Run(w, es).names == w.names && Run(w, es).ids == w.ids
    decreases |es|
  {
    if es != [] {
      NamesAndIdsFixed(Exec(w, es[0]), es[1..]);
    }
  }

  /** With the broker's own names, distinct hashes are all the start needs. */
  lemma BrokerMayStart(prefix: GoString, ids: set<GoString>)
    requires forall a, b ::
      (a in ids && b in ids && GenerateReplicationGroupName(a) == GenerateReplicationGroupName(b)) ==> a == b
    ensures Start(World(BrokerNames(prefix), ids, Stores(map[], map[], map[]), map[]))
  {
    forall a, b | a in ids && b in ids && AuthTokenPath(prefix, a) == AuthTokenPath(prefix, b) ensures a == b {
      PathsAreDistinct(prefix, a, b);
    }
  }

  /** Identity of a group while it stays in service: its token and its tags. */
  lemma IdentityKept(w: World, e: Event, id: GoString)
    requires InService(w, id) && InService(Exec(w, e), id)
    ensures TokenOf(Exec(w, e), id) == TokenOf(w, id)
    ensures TagsOf(Exec(w, e), id) == TagsOf(w, id)
  {
    if e.Step? && e.pid in w.tasks && !w.tasks[e.pid].Finished? {
      StepEffect(w.names, w.tasks[e.pid], w.stores, e.fault);
    }
  }

  function TagsOf(w: World, id: GoString): map<string, string>
    requires InService(w, id)
  {
    w.stores.groups[w.names.group(id)].tags
  }

  ghost predicate InServiceThroughout(w: World, es: seq<Event>, id: GoString)
    decreases |es|
  {
    InService(w, id) && (es != [] ==> InServiceThroughout(Exec(w, es[0]), es[1..], id))
  }

  /** As long as a group stays in service, its token and its tags are the same. */
  lemma {:induction false} OnePasswordForLife(w: World, es: seq<Event>, id: GoString)
    requires InServiceThroughout(w, es, id)
    ensures InService(Run(w, es), id)
    ensures TokenOf(Run(w, es), id) == TokenOf(w, id)
    ensures TagsOf(Run(w, es), id) == TagsOf(w, id)
    decreases |es|
  {
    if es != [] {
      IdentityKept(w, es[0], id);
      OnePasswordForLife(Exec(w, es[0]), es[1..], id);
    }
  }

  /** A group enters service only by a provision of its own instance, with that request's token and tags. */
  lemma EntersByProvision(w: World, e: Event, id: GoString)
    requires Ownership(w) && id in w.ids && !InService(w, id)
    ensures InService(Exec(w, e), id) ==>
      && e.Step? && e.pid in w.tasks
      && w.tasks[e.pid].CreatingGroup? && w.tasks[e.pid].id == id
      && TokenOf(Exec(w, e), id) == w.tasks[e.pid].spec.token
      && TagsOf(Exec(w, e), id) == w.tasks[e.pid].spec.tags
  {
    if e.Step? && e.pid in w.tasks && !w.tasks[e.pid].Finished? {
      StepEffect(w.names, w.tasks[e.pid], w.stores, e.fault);
    }
  }

  /** Whatever else runs, a provision that cleans up after itself deletes the very secret it created. */
  lemma CleanUpDeletesItsOwnSecret(w: World, es: seq<Event>, p: nat)
    requires Start(w) && p in Run(w, es).tasks && Run(w, es).tasks[p].UndoingSecret?
    ensures var now, t := Run(w, es), Run(w, es).tasks[p];
      && HasSecret(now, t.id, t.spec.token) && !InService(now, t.id)
      && forall q :: Owns(now, q, t.id) ==> q == p
  {
    OwnershipAlways(w, es);
    var now := Run(w, es);
    assert OneOwner(now, now.tasks[p].id) && Owns(now, p, now.tasks[p].id);
  }

  /** A request running undisturbed is one of the runs above. */
  lemma {:induction false} RunningAloneIsARun(w: World, p: nat, faults: nat -> bool, n: nat) returns (es: seq<Event>)
    requires p in w.tasks
    ensures var r := RunAlone(w.names, w.tasks[p], w.stores, faults, n);
      Run(w, es) == w.(stores := r.stores, tasks := w.tasks[p := r.task])
    decreases CallsLeft(w.tasks[p])
  {
    if w.tasks[p].Finished? {
      es := [];
      assert w.tasks[p := w.tasks[p]] == w.tasks;
    } else {
      var next := Exec(w, Step(p, faults(n)));
      var rest := RunningAloneIsARun(next, p, faults, n + 1);
      es := [Step(p, faults(n))] + rest;
      assert es[1..] == rest;
      var r := RunAlone(w.names, w.tasks[p], w.stores, faults, n);
      assert next.tasks[p := r.task] == w.tasks[p := r.task];
    }
  }

  // ---- the code inside a run ----

  /** One call of a request: what it found, and whether it failed. */
  datatype Encounter = Encounter(found: Stores, fault: bool)

  predicate StepsNow(w: World, e: Event, p: nat) {
    e.Step? && e.pid == p && p in w.tasks && !w.tasks[p].Finished?
  }

  function EncountersOf(w: World, es: seq<Event>, p: nat): seq<Encounter>
    decreases |es|
  {
    if es == [] then []
    else
      (if StepsNow(w, es[0], p) then [Encounter(w.stores, es[0].fault)] else [])
      + EncountersOf(Exec(w, es[0]), es[1..], p)
  }

  function ExchangeNow(w: World, p: nat, fault: bool): Exchange
    requires p in w.tasks && !w.tasks[p].Finished?
  {
    var call := NextCall(w.names, w.tasks[p]);
    Exchange(call, Apply(w.stores, call, fault).1)
  }

  /** The calls of one request in a run, and their replies. */
  function ExchangesOf(w: World, es: seq<Event>, p: nat): seq<Exchange>
    decreases |es|
  {
    if es == [] then []
    else
      (if StepsNow(w, es[0], p) then [ExchangeNow(w, p, es[0].fault)] else [])
      + ExchangesOf(Exec(w, es[0]), es[1..], p)
  }

  /** From call n on, the environment does what the encounters say, whatever the last call has left. */
  ghost predicate Agrees(env: Environment, n: nat, q: seq<Encounter>)
    decreases |q|
  {
    q == [] ||
    (&& env.faults(n) == q[0].fault && (forall s :: env.meanwhile(n)(s) == q[0].found)
     && Agrees(env, n + 1, q[1..]))
  }

  function EnvironmentOf(q: seq<Encounter>): Environment {
    Environment(
      (n: nat) => n < |q| && q[n].fault,
      (n: nat) => (s: Stores) => if n < |q| then q[n].found else s)
  }

  lemma {:induction false} EnvironmentAgrees(q: seq<Encounter>, n: nat)
    requires n <= |q|
    ensures Agrees(EnvironmentOf(q), n, q[n..])
    decreases |q| - n
  {
    if n < |q| {
      EnvironmentAgrees(q, n + 1);
      assert q[n..][1..] == q[n + 1..];
    }
  }

  /** A task after these encounters, and its exchanges on the way. */
  function Through(names: Names, t: Task, q: seq<Encounter>): (Task, seq<Exchange>)
    decreases |q|
  {
    if t.Finished? || q == [] then (t, [])
    else
      var call := NextCall(names, t);
      var reply := Apply(q[0].found, call, q[0].fault).1;
      var rest := Through(names, Resume(names, t, reply), q[1..]);
      (rest.0, [Exchange(call, reply)] + rest.1)
  }

  lemma OthersKeepTask(w: World, e: Event, p: nat)
    requires p in w.tasks && !StepsNow(w, e, p)
    ensures p in Exec(w, e).tasks && Exec(w, e).tasks[p] == w.tasks[p] && Exec(w, e).names == w.names
  {
  }

  lemma StepMovesTask(w: World, e: Event, p: nat)
    requires StepsNow(w, e, p)
    ensures var reply := Apply(w.stores, NextCall(w.names, w.tasks[p]), e.fault).1;
      && p in Exec(w, e).tasks && Exec(w, e).tasks[p] == Resume(w.names, w.tasks[p], reply)
      && Exec(w, e).names == w.names
  {
  }

  lemma EncountersFinished(w: World, es: seq<Event>, p: nat)
    requires p in w.tasks && w.tasks[p].Finished?
    ensures EncountersOf(w, es, p) == [] && ExchangesOf(w, es, p) == []
    ensures p in Run(w, es).tasks && Run(w, es).tasks[p] == w.tasks[p]
    decreases |es|
  {
    if es != [] {
      OthersKeepTask(w, es[0], p);
      EncountersFinished(Exec(w, es[0]), es[1..], p);
    }
  }

  lemma {:induction false} RunGoesThrough(w: World, es: seq<Event>, p: nat)
    requires p in w.tasks
    ensures p in Run(w, es).tasks
    ensures Through(w.names, w.tasks[p], EncountersOf(w, es, p)) == (Run(w, es).tasks[p], ExchangesOf(w, es, p))
    decreases |es|
  {
    if w.tasks[p].Finished? {
      EncountersFinished(w, es, p);
    } else if es != [] {
      RunGoesThrough(Exec(w, es[0]), es[1..], p);
      if StepsNow(w, es[0], p) {
        StepMovesTask(w, es[0], p);
        assert EncountersOf(w, es, p)[1..] == EncountersOf(Exec(w, es[0]), es[1..], p);
      } else {
        OthersKeepTask(w, es[0], p);
        assert EncountersOf(w, es, p) == EncountersOf(Exec(w, es[0]), es[1..], p);
        assert ExchangesOf(w, es, p) == ExchangesOf(Exec(w, es[0]), es[1..], p);
      }
    }
  }

  lemma {:induction false} CourseGoesThrough(
      names: Names, t: Task, s: Stores, env: Environment, n: nat, made: seq<Exchange>, q: seq<Encounter>)
    requires Agrees(env, n, q) && Through(names, t, q).0.Finished?
    ensures var course := CourseOf(names, t, s, env, n, made);
      course.end.task == Through(names, t, q).0 && course.made == made + Through(names, t, q).1
    decreases |q|
  {
    if t.Finished? {
      assert made + [] == made;
    } else {
      var call := NextCall(names, t);
      var (s', reply) := Serve(env, s, call, n);
      CourseGoesThrough(names, Resume(names, t, reply), s', env, n + 1, made + [Exchange(call, reply)], q[1..]);
      var later := Through(names, Resume(names, t, reply), q[1..]).1;
      assert made + [Exchange(call, reply)] + later == made + ([Exchange(call, reply)] + later);
    }
  }

  /**
   * Whatever runs beside it, a request that ends in a run ends as its course does in some environment,
   * after the same calls and replies. The code follows its course in every environment, so it does so in every run.
   */
  lemma InterleavedIsACourse(w: World, es: seq<Event>, p: nat) returns (env: Environment)
    requires p in w.tasks && p in Run(w, es).tasks && Run(w, es).tasks[p].Finished?
    ensures var course := CourseOf(w.names, w.tasks[p], w.stores, env, 0, []);
      course.end.task == Run(w, es).tasks[p] && course.made == ExchangesOf(w, es, p)
  {
    var q := EncountersOf(w, es, p);
    env := EnvironmentOf(q);
    EnvironmentAgrees(q, 0);
    assert q[0..] == q;
    RunGoesThrough(w, es, p);
    CourseGoesThrough(w.names, w.tasks[p], w.stores, env, 0, [], q);
  }
}
