/**
 * Whose parameter group the clean-up of a provision deletes while other requests run: its own, unless a
 * deprovisioning poll of the same instance drops it in between.
 */
module ParamGroupOwnership {
  import opened GoTypes
  import opened Aws
  import opened Requests
  import opened Lifecycle
  import opened Compensation

  /** A world, and for each parameter group that is stored the request that created it. */
  datatype History = History(world: World, makers: map<GoString, nat>)

  /** The event is a provision's first call, and AWS accepts it. */
  predicate Creates(w: World, e: Event) {
    && e.Step? && e.pid in w.tasks && w.tasks[e.pid].CreatingParamGroup?
    && Exec(w, e).tasks[e.pid].SettingParams?
  }

  function Follow(h: History, e: Event): History {
    var w' := Exec(h.world, e);
    History(w',
      if Creates(h.world, e) then h.makers[h.world.names.group(h.world.tasks[e.pid].id) := e.pid]
      else map n | n in h.makers && n in w'.stores.paramGroups :: h.makers[n])
  }

  function FollowAll(h: History, es: seq<Event>): History
    decreases |es|
  {
    if es == [] then h else FollowAll(Follow(h, es[0]), es[1..])
  }

  function Track(w: World, es: seq<Event>): History {
    FollowAll(History(w, map[]), es)
  }

  lemma {:induction false} FollowAllRuns(h: History, es: seq<Event>)
    ensures FollowAll(h, es).world == Run(h.world, es)
    decreases |es|
  {
    if es != [] {
      FollowAllRuns(Follow(h, es[0]), es[1..]);
    }
  }

  // ---- the invariant ----

  /** Between creating its parameter group and being done with it. */
  predicate NeedsParamGroup(t: Task) {
    t.SettingParams? || t.CreatingSecret? || t.CreatingGroup? || t.UndoingParamGroup?
  }

  predicate Holds(w: World, p: nat, id: GoString) {
    p in w.tasks && w.tasks[p].id == id && NeedsParamGroup(w.tasks[p])
  }

  predicate Made(h: History, p: nat, id: GoString) {
    var name := h.world.names.group(id);
    name in h.makers && h.makers[name] == p
  }

  /** Whoever is at work on an instance's parameter group finds the one it created; so there is one such request. */
  ghost predicate HoldersMadeTheirs(h: History, id: GoString) {
    forall p :: Holds(h.world, p, id) ==> Made(h, p, id)
  }

  ghost predicate InPlay(w: World) {
    NonColliding(w) && forall p :: p in w.tasks ==> w.tasks[p].id in w.ids
  }

  ghost predicate Faithful(h: History) {
    InPlay(h.world) && h.makers.Keys == h.world.stores.paramGroups.Keys
  }

  /** A deprovisioning poll is about to drop the parameter group of an instance that is being provisioned. */
  ghost predicate DropsUnderProvision(w: World, e: Event, id: GoString) {
    && e.Step? && !e.fault && e.pid in w.tasks && w.tasks[e.pid] == DroppingParamGroup(id)
    && exists q :: Holds(w, q, id)
  }

  /** What a step does to parameter groups. */
  lemma ParamGroupEffect(names: Names, t: Task, s: Stores, fault: bool)
    requires !t.Finished?
    ensures var (s', reply) := Apply(s, NextCall(names, t), fault);
      var name, t' := names.group(t.id), Resume(names, t, reply);
      && (forall n :: n != name ==> (n in s'.paramGroups <==> n in s.paramGroups))
      && (name in s'.paramGroups <==>
            (name in s.paramGroups && (fault || (!t.DroppingParamGroup? && !t.UndoingParamGroup?)))
            || (t.CreatingParamGroup? && !fault))
      && (t.CreatingParamGroup? && t'.SettingParams? ==> name !in s.paramGroups && !fault)
      && (t.CreatingParamGroup? && !fault && name !in s.paramGroups ==> t'.SettingParams?)
      && (NeedsParamGroup(t') ==> NeedsParamGroup(t) || (t.CreatingParamGroup? && t'.SettingParams?))
      && (t.UndoingParamGroup? ==> !NeedsParamGroup(t')) && !t'.CreatingParamGroup?
  {
  }

  lemma FaithfulKept(h: History, e: Event)
    requires Faithful(h)
    ensures Faithful(Follow(h, e))
  {
    var w := h.world;
    if e.Step? && e.pid in w.tasks && !w.tasks[e.pid].Finished? {
      ParamGroupEffect(w.names, w.tasks[e.pid], w.stores, e.fault);
    }
  }

  /** The exact condition, step by step: only a drop under a provision takes a parameter group from its maker. */
  lemma OnlyADropTakesIt(h: History, e: Event, id: GoString)
    requires Faithful(h) && HoldersMadeTheirs(h, id) && id in h.world.ids
    ensures HoldersMadeTheirs(Follow(h, e), id) <==> !DropsUnderProvision(h.world, e, id)
  {
    var w := h.world;
    if e.Step? && e.pid in w.tasks && !w.tasks[e.pid].Finished? {
      ParamGroupEffect(w.names, w.tasks[e.pid], w.stores, e.fault);
      if w.tasks[e.pid].id == id {
        TakenByOwnStep(h, e, id);
      } else {
        KeptByOthers(h, e, id);
      }
    } else {
      KeptOutsideSteps(h, e, id);
    }
  }

  lemma KeptOutsideSteps(h: History, e: Event, id: GoString)
    requires Faithful(h) && HoldersMadeTheirs(h, id)
    requires e.Step? ==> e.pid !in h.world.tasks || h.world.tasks[e.pid].Finished?
    ensures HoldersMadeTheirs(Follow(h, e), id)
  {
    forall p | Holds(Follow(h, e).world, p, id) ensures Made(Follow(h, e), p, id) {
      assert Holds(h.world, p, id);
    }
  }

  lemma KeptByOthers(h: History, e: Event, id: GoString)
    requires Faithful(h) && HoldersMadeTheirs(h, id) && id in h.world.ids
    requires e.Step? && e.pid in h.world.tasks && !h.world.tasks[e.pid].Finished? && h.world.tasks[e.pid].id != id
    ensures HoldersMadeTheirs(Follow(h, e), id)
  {
    var w := h.world;
    ParamGroupEffect(w.names, w.tasks[e.pid], w.stores, e.fault);
    assert w.names.group(w.tasks[e.pid].id) != w.names.group(id);
    forall p | Holds(Follow(h, e).world, p, id) ensures Made(Follow(h, e), p, id) {
      assert Holds(w, p, id);
    }
  }

  lemma TakenByOwnStep(h: History, e: Event, id: GoString)
    requires Faithful(h) && HoldersMadeTheirs(h, id)
    requires e.Step? && e.pid in h.world.tasks && !h.world.tasks[e.pid].Finished? && h.world.tasks[e.pid].id == id
    ensures HoldersMadeTheirs(Follow(h, e), id) <==> !DropsUnderProvision(h.world, e, id)
  {
    var w, h' := h.world, Follow(h, e);
    ParamGroupEffect(w.names, w.tasks[e.pid], w.stores, e.fault);
    if DropsUnderProvision(w, e, id) {
      var q :| Holds(w, q, id);
      assert Holds(h'.world, q, id) && !Made(h', q, id);
    } else {
      forall p | Holds(h'.world, p, id) ensures Made(h', p, id) {
        assert p != e.pid ==> Holds(w, p, id);
        assert Holds(w, e.pid, id) ==> Made(h, e.pid, id);
      }
    }
  }

  // ---- over whole runs ----

  ghost predicate AlwaysTheirs(h: History, es: seq<Event>, id: GoString)
    decreases |es|
  {
    HoldersMadeTheirs(h, id) && (es != [] ==> AlwaysTheirs(Follow(h, es[0]), es[1..], id))
  }

  ghost predicate NeverDropped(w: World, es: seq<Event>, id: GoString)
    decreases |es|
  {
    es != [] ==> !DropsUnderProvision(w, es[0], id) && NeverDropped(Exec(w, es[0]), es[1..], id)
  }

  lemma {:induction false} TheirsUnlessDroppedFrom(h: History, es: seq<Event>, id: GoString)
    requires Faithful(h) && HoldersMadeTheirs(h, id) && id in h.world.ids
    ensures AlwaysTheirs(h, es, id) <==> NeverDropped(h.world, es, id)
    ensures AlwaysTheirs(h, es, id) ==> HoldersMadeTheirs(FollowAll(h, es), id)
    decreases |es|
  {
    if es != [] {
      OnlyADropTakesIt(h, es[0], id);
      FaithfulKept(h, es[0]);
      if HoldersMadeTheirs(Follow(h, es[0]), id) {
        TheirsUnlessDroppedFrom(Follow(h, es[0]), es[1..], id);
      }
    }
  }

  lemma StartsFaithful(w: World, id: GoString)
    requires Start(w)
    ensures Faithful(History(w, map[])) && HoldersMadeTheirs(History(w, map[]), id)
  {
  }

  lemma {:induction false} FaithfulAlways(h: History, es: seq<Event>)
    requires Faithful(h)
    ensures Faithful(FollowAll(h, es))
    decreases |es|
  {
    if es != [] {
      FaithfulKept(h, es[0]);
      FaithfulAlways(Follow(h, es[0]), es[1..]);
    }
  }

  /**
   * In every run, whoever else is at work: each provision of an instance keeps the parameter group it
   * created until it is done with it, if and only if no deprovisioning poll of that instance drops the
   * parameter group while one of its provisions is under way.
   */
  lemma TheirsUnlessDropped(w: World, es: seq<Event>, id: GoString)
    requires Start(w) && id in w.ids
    ensures AlwaysTheirs(History(w, map[]), es, id) <==> NeverDropped(w, es, id)
    ensures NeverDropped(w, es, id) ==> HoldersMadeTheirs(Track(w, es), id)
  {
    StartsFaithful(w, id);
    TheirsUnlessDroppedFrom(History(w, map[]), es, id);
  }

  /** So the clean-up of a provision then deletes the parameter group this same call created. */
  lemma CleanUpDeletesItsOwnParamGroup(w: World, es: seq<Event>, p: nat)
    requires Start(w) && p in Run(w, es).tasks && Run(w, es).tasks[p].UndoingParamGroup?
    requires NeverDropped(w, es, Run(w, es).tasks[p].id)
    ensures var now, id := Run(w, es), Run(w, es).tasks[p].id;
      var name := now.names.group(id);
      && Track(w, es).world == now && Made(Track(w, es), p, id)
      && (forall q :: Holds(now, q, id) ==> q == p)
      && name in now.stores.paramGroups
      && name !in Exec(now, Step(p, false)).stores.paramGroups
  {
    FollowAllRuns(History(w, map[]), es);
    NamesAndIdsFixed(w, es);
    StartsFaithful(w, Run(w, es).tasks[p].id);
    FaithfulAlways(History(w, map[]), es);
    TheirsUnlessDropped(w, es, Run(w, es).tasks[p].id);
    assert Holds(Run(w, es), p, Run(w, es).tasks[p].id);
  }

  // ---- what a clean-up deletes, exactly ----

  /** While request p is under way with its parameter group, a poll or another clean-up deletes that. */
  predicate TakesFrom(w: World, e: Event, p: nat, id: GoString) {
    && e.Step? && !e.fault && e.pid != p && e.pid in w.tasks && w.tasks[e.pid].id == id
    && (w.tasks[e.pid].DroppingParamGroup? || w.tasks[e.pid].UndoingParamGroup?)
    && Holds(w, p, id)
  }

  predicate Taken(w: World, es: seq<Event>, p: nat, id: GoString)
    decreases |es|
  {
    es != [] && (TakesFrom(w, es[0], p, id) || Taken(Exec(w, es[0]), es[1..], p, id))
  }

  predicate CreatesOf(w: World, e: Event, id: GoString) {
    Creates(w, e) && w.tasks[e.pid].id == id
  }

  predicate CreatedIn(w: World, es: seq<Event>, id: GoString)
    decreases |es|
  {
    es != [] && (CreatesOf(w, es[0], id) || CreatedIn(Exec(w, es[0]), es[1..], id))
  }

  /** It is taken from request p, and later another provision of the instance creates a new one. */
  predicate TakenAndCreatedAnew(w: World, es: seq<Event>, p: nat, id: GoString)
    decreases |es|
  {
    es != [] &&
    (|| (TakesFrom(w, es[0], p, id) && CreatedIn(Exec(w, es[0]), es[1..], id))
     || TakenAndCreatedAnew(Exec(w, es[0]), es[1..], p, id))
  }

  /** One step: a request keeps what it made unless it is taken, and never gets back what was. */
  lemma TakenStep(h: History, e: Event, p: nat, id: GoString)
    requires Faithful(h) && id in h.world.ids && Holds(Follow(h, e).world, p, id)
    ensures Made(Follow(h, e), p, id) <==>
      (!Holds(h.world, p, id) || Made(h, p, id)) && !TakesFrom(h.world, e, p, id)
  {
    var w := h.world;
    if e.Step? && e.pid in w.tasks && !w.tasks[e.pid].Finished? {
      var t := w.tasks[e.pid];
      ParamGroupEffect(w.names, t, w.stores, e.fault);
      if t.id == id {
        TakenOwnStep(h, e, p, id);
      } else {
        assert w.names.group(t.id) != w.names.group(id);
        assert Holds(w, p, id);
      }
    } else {
      assert Holds(w, p, id);
    }
  }

  lemma TakenOwnStep(h: History, e: Event, p: nat, id: GoString)
    requires Faithful(h) && Holds(Follow(h, e).world, p, id)
    requires e.Step? && e.pid in h.world.tasks && !h.world.tasks[e.pid].Finished? && h.world.tasks[e.pid].id == id
    ensures Made(Follow(h, e), p, id) <==>
      (!Holds(h.world, p, id) || Made(h, p, id)) && !TakesFrom(h.world, e, p, id)
  {
    var w := h.world;
    ParamGroupEffect(w.names, w.tasks[e.pid], w.stores, e.fault);
  }

  lemma {:induction false} HoldsNoMore(w: World, es: seq<Event>, p: nat, id: GoString)
    requires p in w.tasks && !NeedsParamGroup(w.tasks[p]) && !w.tasks[p].CreatingParamGroup?
    ensures !Holds(Run(w, es), p, id)
    decreases |es|
  {
    if es != [] {
      if StepsNow(w, es[0], p) {
        ParamGroupEffect(w.names, w.tasks[p], w.stores, es[0].fault);
      } else {
        OthersKeepTask(w, es[0], p);
      }
      HoldsNoMore(Exec(w, es[0]), es[1..], p, id);
    }
  }

  lemma {:induction false} MadeUnlessTaken(h: History, es: seq<Event>, p: nat, id: GoString)
    requires Faithful(h) && id in h.world.ids && Holds(FollowAll(h, es).world, p, id)
    ensures Made(FollowAll(h, es), p, id) <==>
      (!Holds(h.world, p, id) || Made(h, p, id)) && !Taken(h.world, es, p, id)
    decreases |es|
  {
    if es != [] {
      var next := Follow(h, es[0]);
      FaithfulKept(h, es[0]);
      MadeUnlessTaken(next, es[1..], p, id);
      if Holds(next.world, p, id) {
        TakenStep(h, es[0], p, id);
      } else if Holds(h.world, p, id) {
        LetsGo(h.world, es[0], p, id);
        FollowAllRuns(next, es[1..]);
        HoldsNoMore(next.world, es[1..], p, id);
      }
    }
  }

  lemma LetsGo(w: World, e: Event, p: nat, id: GoString)
    requires Holds(w, p, id) && !Holds(Exec(w, e), p, id)
    ensures var w' := Exec(w, e);
      p in w'.tasks && !NeedsParamGroup(w'.tasks[p]) && !w'.tasks[p].CreatingParamGroup?
  {
    if StepsNow(w, e, p) {
      ParamGroupEffect(w.names, w.tasks[p], w.stores, e.fault);
    } else {
      OthersKeepTask(w, e, p);
    }
  }

  lemma AppearsByCreation(w: World, e: Event, id: GoString)
    requires InPlay(w) && id in w.ids && w.names.group(id) !in w.stores.paramGroups
    ensures w.names.group(id) in Exec(w, e).stores.paramGroups ==> CreatesOf(w, e, id)
  {
    if e.Step? && e.pid in w.tasks && !w.tasks[e.pid].Finished? {
      ParamGroupEffect(w.names, w.tasks[e.pid], w.stores, e.fault);
    }
  }

  lemma {:induction false} PresentMeansCreated(h: History, es: seq<Event>, id: GoString)
    requires Faithful(h) && id in h.world.ids && h.world.names.group(id) !in h.world.stores.paramGroups
    requires h.world.names.group(id) in Run(h.world, es).stores.paramGroups
    ensures CreatedIn(h.world, es, id)
    decreases |es|
  {
    var next := Follow(h, es[0]);
    FaithfulKept(h, es[0]);
    AppearsByCreation(h.world, es[0], id);
    if h.world.names.group(id) !in next.world.stores.paramGroups {
      PresentMeansCreated(next, es[1..], id);
    }
  }

  lemma GoneWhenTaken(w: World, e: Event, p: nat, id: GoString)
    requires TakesFrom(w, e, p, id)
    ensures w.names.group(id) !in Exec(w, e).stores.paramGroups
  {
    ParamGroupEffect(w.names, w.tasks[e.pid], w.stores, e.fault);
  }

  lemma {:induction false} TakenAndThere(h: History, es: seq<Event>, p: nat, id: GoString)
    requires Faithful(h) && id in h.world.ids
    requires h.world.names.group(id) in Run(h.world, es).stores.paramGroups
    ensures TakenAndCreatedAnew(h.world, es, p, id) <==> Taken(h.world, es, p, id)
    decreases |es|
  {
    if es != [] {
      var next := Follow(h, es[0]);
      FaithfulKept(h, es[0]);
      TakenAndThere(next, es[1..], p, id);
      if TakesFrom(h.world, es[0], p, id) {
        GoneWhenTaken(h.world, es[0], p, id);
        PresentMeansCreated(next, es[1..], id);
      }
    }
  }

  /**
   * What the clean-up of a provision deletes, in every run: the parameter group this same call created, if
   * and only if nobody took that away before; and another call's, if and only if somebody did, another
   * provision then created a new one, and that is still there.
   */
  lemma WhatTheCleanUpDeletes(w: World, es: seq<Event>, p: nat)
    requires Start(w) && p in Run(w, es).tasks && Run(w, es).tasks[p].UndoingParamGroup?
    ensures var now, id, h := Run(w, es), Run(w, es).tasks[p].id, Track(w, es);
      var there := now.names.group(id) in now.stores.paramGroups;
      && h.world == now && h.makers.Keys == now.stores.paramGroups.Keys
      && (there && Made(h, p, id) <==> !Taken(w, es, p, id))
      && (there && !Made(h, p, id) <==> there && TakenAndCreatedAnew(w, es, p, id))
  {
    var id := Run(w, es).tasks[p].id;
    FollowAllRuns(History(w, map[]), es);
    NamesAndIdsFixed(w, es);
    StartsFaithful(w, id);
    FaithfulAlways(History(w, map[]), es);
    assert Holds(Run(w, es), p, id);
    MadeUnlessTaken(History(w, map[]), es, p, id);
    if w.names.group(id) in Run(w, es).stores.paramGroups {
      TakenAndThere(History(w, map[]), es, p, id);
    }
  }

  /** A step of a provision changes nothing but its own parameter group and its own secret. */
  ghost predicate ChangesOnlyItsOwn(h: History, p: nat, s': Stores)
    requires p in h.world.tasks
  {
    var w, s, id := h.world, h.world.stores, h.world.tasks[p].id;
    && (forall n :: n in s.paramGroups && !(n == w.names.group(id) && Made(h, p, id)) ==>
          n in s'.paramGroups && s'.paramGroups[n] == s.paramGroups[n])
    && (forall path :: path in s.secrets && !(path == w.names.secret(id) && Owns(w, p, id)) ==>
          path in s'.secrets && s'.secrets[path] == s.secrets[path])
    && (forall n :: n in s.groups ==> n in s'.groups && s'.groups[n] == s.groups[n])
    && AddsOnlyFor(w.names, id, s, s')
  }

  /**
   * On every path and between any other requests: no step of a provision changes a group, or a
   * parameter group or secret that this same call did not create, and it adds only its own.
   */
  lemma ProvisionStepsTouchOnlyTheirOwn(w: World, es: seq<Event>, p: nat, fault: bool)
    requires Start(w) && p in Run(w, es).tasks && IsProvision(Run(w, es).tasks[p])
    requires NeverDropped(w, es, Run(w, es).tasks[p].id)
    ensures Track(w, es).world == Run(w, es)
    ensures ChangesOnlyItsOwn(Track(w, es), p, Exec(Run(w, es), Step(p, fault)).stores)
  {
    var now := Run(w, es);
    var t := now.tasks[p];
    FollowAllRuns(History(w, map[]), es);
    NamesAndIdsFixed(w, es);
    OwnershipAlways(w, es);
    TheirsUnlessDropped(w, es, t.id);
    assert NeedsParamGroup(t) ==> Holds(now, p, t.id);
    ProvisionEffect(now.names, t, now.stores, fault);
  }

  lemma ProvisionEffect(names: Names, t: Task, s: Stores, fault: bool)
    requires IsProvision(t)
    ensures var s' := Apply(s, NextCall(names, t), fault).0;
      && (forall n :: n in s.paramGroups && !(n == names.group(t.id) && NeedsParamGroup(t)) ==>
            n in s'.paramGroups && s'.paramGroups[n] == s.paramGroups[n])
      && (forall path :: path in s.secrets && !(path == names.secret(t.id) && t.UndoingSecret?) ==>
            path in s'.secrets && s'.secrets[path] == s.secrets[path])
      && (forall n :: n in s.groups ==> n in s'.groups && s'.groups[n] == s.groups[n])
      && AddsOnlyFor(names, t.id, s, s')
  {
  }

  // ---- the run that breaks it ----

  /** The poll of a deprovisioned instance finds no group, and is about to drop its parameter group. */
  function StalePoll(id: GoString): seq<Event> {
    [Arrive(0, Polling(id, Deprovisioning, "")), Step(0, false)]
  }

  /** A provision gets as far as creating its group, where the call fails. */
  function FailingProvision(id: GoString, spec: ProvisionSpec): seq<Event> {
    [Arrive(1, CreatingParamGroup(id, spec)), Step(1, false), Step(1, false), Step(1, false), Step(1, true)]
  }

  function SecondProvision(id: GoString, spec: ProvisionSpec): seq<Event> {
    [Arrive(2, CreatingParamGroup(id, spec)), Step(2, false)]
  }

  /** The poll's drop comes after the first provision has failed, and before the second one begins. */
  function DroppedBetween(id: GoString, spec: ProvisionSpec, again: ProvisionSpec): seq<Event> {
    StalePoll(id) + FailingProvision(id, spec) + [Step(0, false)] + SecondProvision(id, again)
  }

  lemma StalePollRun(w: World, id: GoString)
    requires Start(w) && id in w.ids
    ensures Run(w, StalePoll(id)) == w.(tasks := map[0 := DroppingParamGroup(id)])
  {
    var arrived := w.(tasks := map[0 := Polling(id, Deprovisioning, "")]);
    RunTwo(w, Arrive(0, Polling(id, Deprovisioning, "")), Step(0, false));
    assert Exec(w, Arrive(0, Polling(id, Deprovisioning, ""))) == arrived;
    assert arrived.tasks[0 := DroppingParamGroup(id)] == map[0 := DroppingParamGroup(id)];
  }

  /** Stores in which one provision has got this far. */
  function ParamsSet(names: Names, id: GoString, spec: ProvisionSpec): Stores {
    Stores(map[names.group(id) := WithClusterDefault(spec.parameters)], map[], map[])
  }

  function SecretSet(names: Names, id: GoString, spec: ProvisionSpec): Stores {
    ParamsSet(names, id, spec).(secrets := map[names.secret(id) := Live(spec.token)])
  }

  lemma FailingProvisionRun(w: World, id: GoString, spec: ProvisionSpec)
    requires id in w.ids && 1 !in w.tasks && w.stores == Stores(map[], map[], map[])
    ensures Run(w, FailingProvision(id, spec))
         == Put(w, 1, SecretSet(w.names, id, spec), UndoingParamGroup(id, spec))
  {
    var names := w.names;
    var made := Stores(map[names.group(id) := map[]], map[], map[]);
    var full := WithClusterDefault(spec.parameters);
    assert map[] + full == full;
    assert made.paramGroups[names.group(id) := full] == ParamsSet(names, id, spec).paramGroups;
    StepPuts(w, 1, w.stores, CreatingParamGroup(id, spec), false);
    StepPuts(w, 1, made, SettingParams(id, spec), false);
    StepPuts(w, 1, ParamsSet(names, id, spec), CreatingSecret(id, spec), false);
    StepPuts(w, 1, SecretSet(names, id, spec), CreatingGroup(id, spec), true);
    RunFive(w, Arrive(1, CreatingParamGroup(id, spec)),
      Step(1, false), Step(1, false), Step(1, false), Step(1, true));
  }

  lemma SecondProvisionRun(w: World, id: GoString, again: ProvisionSpec)
    requires id in w.ids && 2 !in w.tasks && w.names.group(id) !in w.stores.paramGroups
    ensures Run(w, SecondProvision(id, again))
         == Put(w, 2, w.stores.(paramGroups := w.stores.paramGroups[w.names.group(id) := map[]]),
                SettingParams(id, again))
  {
    StepPuts(w, 2, w.stores, CreatingParamGroup(id, again), false);
    RunTwo(w, Arrive(2, CreatingParamGroup(id, again)), Step(2, false));
  }

  lemma {:induction false} FollowAllConcat(h: History, a: seq<Event>, b: seq<Event>)
    ensures FollowAll(h, a + b) == FollowAll(FollowAll(h, a), b)
    decreases |a|
  {
    if a == [] {
      assert a + b == b;
    } else {
      assert (a + b)[1..] == a[1..] + b;
      FollowAllConcat(Follow(h, a[0]), a[1..], b);
    }
  }

  lemma LastMakes(h: History, id: GoString, again: ProvisionSpec)
    requires id in h.world.ids && 2 !in h.world.tasks && h.world.names.group(id) !in h.world.stores.paramGroups
    ensures Made(FollowAll(h, SecondProvision(id, again)), 2, id)
  {
    var arrived := Follow(h, Arrive(2, CreatingParamGroup(id, again)));
    var es := SecondProvision(id, again);
    assert es[1..] == [Step(2, false)] && es[1..][1..] == [];
    assert FollowAll(h, es) == FollowAll(arrived, es[1..]);
    assert FollowAll(arrived, es[1..]) == Follow(arrived, Step(2, false));
    StepPuts(h.world, 2, h.world.stores, CreatingParamGroup(id, again), false);
    assert arrived.world == Put(h.world, 2, h.world.stores, CreatingParamGroup(id, again));
  }

  /** The poll's drop leaves the first provision without its parameter group. */
  lemma DropRun(w: World, id: GoString, spec: ProvisionSpec)
    requires Start(w) && id in w.ids
    ensures Run(w, StalePoll(id) + FailingProvision(id, spec) + [Step(0, false)]) == w.(
      stores := Stores(map[], map[w.names.secret(id) := Live(spec.token)], map[]),
      tasks := map[0 := Finished(id, Gone), 1 := UndoingParamGroup(id, spec)])
  {
    var polled := Run(w, StalePoll(id));
    var failed := Run(polled, FailingProvision(id, spec));
    StalePollRun(w, id);
    FailingProvisionRun(polled, id, spec);
    RunConcat(w, StalePoll(id), FailingProvision(id, spec));
    RunConcat(w, StalePoll(id) + FailingProvision(id, spec), [Step(0, false)]);
    assert [Step(0, false)][1..] == [];
    assert polled.tasks[1 := UndoingParamGroup(id, spec)]
        == map[0 := DroppingParamGroup(id), 1 := UndoingParamGroup(id, spec)];
    PollDrops(failed, id, spec);
  }

  lemma PollDrops(w: World, id: GoString, spec: ProvisionSpec)
    requires w.tasks == map[0 := DroppingParamGroup(id), 1 := UndoingParamGroup(id, spec)]
    requires w.stores == SecretSet(w.names, id, spec)
    ensures Exec(w, Step(0, false)) == w.(
      stores := w.stores.(paramGroups := map[]),
      tasks := map[0 := Finished(id, Gone), 1 := UndoingParamGroup(id, spec)])
  {
    assert w.tasks[0 := Finished(id, Gone)] == map[0 := Finished(id, Gone), 1 := UndoingParamGroup(id, spec)];
    assert w.stores.paramGroups - {w.names.group(id)} == map[];
  }

  /**
   * Such a drop is all it takes, from empty stores and for any instance: the clean-up of a failed
   * provision then deletes the parameter group that a second provision has just created, and that one
   * fails as well.
   */
  lemma CleanUpMayDeleteAnothers(w: World, id: GoString, spec: ProvisionSpec, again: ProvisionSpec)
    requires Start(w) && id in w.ids
    ensures var es := DroppedBetween(id, spec, again);
      var now, name := Run(w, es), w.names.group(id);
      && Track(w, es).world == now
      && now.tasks == map[0 := Finished(id, Gone), 1 := UndoingParamGroup(id, spec), 2 := SettingParams(id, again)]
      && Made(Track(w, es), 2, id) && name in now.stores.paramGroups
      && name !in Exec(now, Step(1, false)).stores.paramGroups
      && Exec(Exec(now, Step(1, false)), Step(2, false)).tasks[2] == Finished(id, Failed)
      && !NeverDropped(w, es, id)
  {
    var before := StalePoll(id) + FailingProvision(id, spec) + [Step(0, false)];
    var es := DroppedBetween(id, spec, again);
    DropRun(w, id, spec);
    SecondProvisionRun(Run(w, before), id, again);
    RunConcat(w, before, SecondProvision(id, again));
    FollowAllRuns(History(w, map[]), before);
    FollowAllRuns(History(w, map[]), es);
    LastMakes(Track(w, before), id, again);
    FollowAllConcat(History(w, map[]), before, SecondProvision(id, again));
    TheirsUnlessDropped(w, es, id);
    assert Holds(Run(w, es), 1, id);
    UndoDrops(Run(w, es), id, spec, again);
  }

  lemma UndoDrops(w: World, id: GoString, spec: ProvisionSpec, again: ProvisionSpec)
    requires 1 in w.tasks && w.tasks[1] == UndoingParamGroup(id, spec)
    requires 2 in w.tasks && w.tasks[2] == SettingParams(id, again)
    ensures w.names.group(id) !in Exec(w, Step(1, false)).stores.paramGroups
    ensures Exec(Exec(w, Step(1, false)), Step(2, false)).tasks[2] == Finished(id, Failed)
  {
  }
}
