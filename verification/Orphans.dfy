/** Secrets that nobody answers for any more: how they come about, and what they block. */
module Orphans {
  import opened GoTypes
  import opened Aws
  import opened Requests
  import opened Lifecycle
  import opened Binding

  /** A live secret without a group in service and without a request that owns it. */
  ghost predicate Orphan(w: World, id: GoString) {
    IsLive(w.stores, w.names.secret(id)) && !InService(w, id) && forall p :: !Owns(w, p, id)
  }

  /** The one call that deletes the secret fails, in a clean-up or in a deprovision. */
  predicate LosesSecret(w: World, e: Event, id: GoString) {
    && e.Step? && e.fault && e.pid in w.tasks && w.tasks[e.pid].id == id
    && (w.tasks[e.pid].UndoingSecret? || w.tasks[e.pid].DeletingSecret?)
  }

  /** Steps of the owner before the one that deletes the secret, or that one when it goes through. */
  lemma OwnerPassesItOn(w: World, p: nat, fault: bool, id: GoString)
    requires Ownership(w) && id in w.ids && Owns(w, p, id) && !LosesSecret(w, Step(p, fault), id)
    ensures !Orphan(Exec(w, Step(p, fault)), id)
  {
    var t := w.tasks[p];
    var (s', reply) := Apply(w.stores, NextCall(w.names, t), fault);
    OwnerStep(w.names, t, w.stores, fault);
    assert Exec(w, Step(p, fault)) == Put(w, p, s', Resume(w.names, t, reply));
    assert OwnsSecret(Resume(w.names, t, reply)) ==> Owns(Put(w, p, s', Resume(w.names, t, reply)), p, id);
  }

  lemma OwnerStep(names: Names, t: Task, s: Stores, fault: bool)
    requires OwnsSecret(t) && !(fault && (t.UndoingSecret? || t.DeletingSecret?))
    ensures var (s', reply) := Apply(s, NextCall(names, t), fault);
      || OwnsSecret(Resume(names, t, reply))
      || (names.group(t.id) in s'.groups && !BeingDeleted(s'.groups[names.group(t.id)]))
      || !IsLive(s', names.secret(t.id))
  {
  }

  lemma OwnerLoses(w: World, e: Event, id: GoString)
    requires Ownership(w) && id in w.ids && LosesSecret(w, e, id)
    ensures Orphan(Exec(w, e), id)
  {
    assert OneOwner(w, id) && Owns(w, e.pid, id) && OwnerIsSound(w, w.tasks[e.pid]);
    OnlyOwnerLeaves(w, e.pid, id);
    assert Exec(w, e) == Put(w, e.pid, w.stores, Finished(id, Failed));
  }

  lemma OnlyOwnerLeaves(w: World, p: nat, id: GoString)
    requires forall q :: Owns(w, q, id) ==> q == p
    ensures forall q :: !Owns(Put(w, p, w.stores, Finished(id, Failed)), q, id)
  {
    forall q ensures !Owns(Put(w, p, w.stores, Finished(id, Failed)), q, id) {
      assert Owns(w, q, id) ==> q == p;
    }
  }

  /** A group in service owns its secret until a deprovision retires the group, and takes the secret over. */
  lemma ServicePassesItOn(w: World, e: Event, id: GoString)
    requires Ownership(w) && id in w.ids && InService(w, id)
    ensures !Orphan(Exec(w, e), id)
  {
    if e.Step? && e.pid in w.tasks && !w.tasks[e.pid].Finished? {
      var t := w.tasks[e.pid];
      var (s', reply) := Apply(w.stores, NextCall(w.names, t), e.fault);
      StepEffect(w.names, t, w.stores, e.fault);
      NoCallRemovesGroups(w.stores, NextCall(w.names, t), e.fault);
      RetiredOrInService(w, e.pid, s', Resume(w.names, t, reply), id);
    }
  }

  lemma NoCallRemovesGroups(s: Stores, call: Call, fault: bool)
    ensures s.groups.Keys <= Apply(s, call, fault).0.groups.Keys
  {
  }

  lemma RetiredOrInService(w: World, p: nat, s': Stores, t': Task, id: GoString)
    requires NonColliding(w) && id in w.ids && InService(w, id) && p in w.tasks && w.tasks[p].id in w.ids
    requires AllowedStep(w.names, w.tasks[p], w.stores, s', t') && w.stores.groups.Keys <= s'.groups.Keys
    ensures InService(Put(w, p, s', t'), id) || Owns(Put(w, p, s', t'), p, id)
  {
  }

  /** Nobody's live secret comes from nowhere. */
  lemma NotFromNothing(w: World, e: Event, id: GoString)
    requires Ownership(w) && id in w.ids && !IsLive(w.stores, w.names.secret(id))
    ensures !Orphan(Exec(w, e), id)
  {
    var w' := Exec(w, e);
    if e.Step? && e.pid in w.tasks && !w.tasks[e.pid].Finished? {
      var t := w.tasks[e.pid];
      StepEffect(w.names, t, w.stores, e.fault);
      if IsLive(w'.stores, w.names.secret(id)) {
        assert MintsSecret(w.names, t, w.stores, w'.stores, w'.tasks[e.pid]);
        assert Owns(w', e.pid, id);
      }
    }
  }

  lemma OthersLeaveTheOwner(w: World, e: Event, p: nat, id: GoString)
    requires Owns(w, p, id) && (e.Step? ==> e.pid != p)
    ensures Owns(Exec(w, e), p, id)
  {
  }

  /** Exactly when a live secret loses its owner. */
  lemma OnlyAFailedDeleteLoses(w: World, e: Event, id: GoString)
    requires Ownership(w) && id in w.ids && !Orphan(w, id)
    ensures Orphan(Exec(w, e), id) <==> LosesSecret(w, e, id)
  {
    if LosesSecret(w, e, id) {
      OwnerLoses(w, e, id);
    } else if p :| Owns(w, p, id) {
      if e.Step? && e.pid == p {
        OwnerPassesItOn(w, p, e.fault, id);
      } else {
        OthersLeaveTheOwner(w, e, p, id);
      }
    } else if InService(w, id) {
      ServicePassesItOn(w, e, id);
    } else {
      NotFromNothing(w, e, id);
    }
  }

  // ---- an orphan stays one ----

  lemma OrphanKeptOutsideSteps(w: World, e: Event, id: GoString)
    requires Orphan(w, id)
    requires e.Step? ==> e.pid !in w.tasks || w.tasks[e.pid].Finished?
    ensures Orphan(Exec(w, e), id)
  {
    forall p ensures !Owns(Exec(w, e), p, id) {
      assert !Owns(w, p, id);
    }
  }

  predicate ServesUnder(s: Stores, name: GoString) {
    name in s.groups && !BeingDeleted(s.groups[name])
  }

  /** Beside a live secret that is not its own, a request of the same instance can neither use nor own anything. */
  lemma NonOwnerStep(names: Names, t: Task, s: Stores, fault: bool)
    requires !t.Finished? && !OwnsSecret(t)
    requires IsLive(s, names.secret(t.id)) && !ServesUnder(s, names.group(t.id))
    ensures var (s', reply) := Apply(s, NextCall(names, t), fault);
      && IsLive(s', names.secret(t.id)) && !ServesUnder(s', names.group(t.id))
      && !OwnsSecret(Resume(names, t, reply))
  {
  }

  lemma StepElsewhere(names: Names, t: Task, s: Stores, fault: bool, name: GoString, path: GoString)
    requires !t.Finished? && names.group(t.id) != name && names.secret(t.id) != path
    ensures var s' := Apply(s, NextCall(names, t), fault).0;
      && (ServesUnder(s', name) <==> ServesUnder(s, name))
      && (IsLive(s', path) <==> IsLive(s, path))
  {
  }

  lemma OrphanKept(w: World, e: Event, id: GoString)
    requires Ownership(w) && id in w.ids && Orphan(w, id)
    ensures Orphan(Exec(w, e), id)
  {
    if e.Step? && e.pid in w.tasks && !w.tasks[e.pid].Finished? {
      OrphanKeptByStep(w, e.pid, e.fault, id);
    } else {
      OrphanKeptOutsideSteps(w, e, id);
    }
  }

  lemma OrphanKeptByStep(w: World, p: nat, fault: bool, id: GoString)
    requires NonColliding(w) && id in w.ids && Orphan(w, id)
    requires p in w.tasks && !w.tasks[p].Finished? && w.tasks[p].id in w.ids
    ensures Orphan(Exec(w, Step(p, fault)), id)
  {
    var t := w.tasks[p];
    var (s', reply) := Apply(w.stores, NextCall(w.names, t), fault);
    var t' := Resume(w.names, t, reply);
    assert !Owns(w, p, id);
    if t.id == id {
      NonOwnerStep(w.names, t, w.stores, fault);
    } else {
      StepElsewhere(w.names, t, w.stores, fault, w.names.group(id), w.names.secret(id));
    }
    NobodyOwns(w, p, s', t', id);
    assert Exec(w, Step(p, fault)) == Put(w, p, s', t');
  }

  lemma NobodyOwns(w: World, p: nat, s': Stores, t': Task, id: GoString)
    requires (forall q :: !Owns(w, q, id)) && !(OwnsSecret(t') && t'.id == id)
    ensures forall q :: !Owns(Put(w, p, s', t'), q, id)
  {
    forall q ensures !Owns(Put(w, p, s', t'), q, id) {
      assert !Owns(w, q, id);
    }
  }

  /** No provision or deprovision of the instance gets through any more. */
  lemma OrphanBlocks(w: World, p: nat, fault: bool, id: GoString)
    requires Ownership(w) && id in w.ids && Orphan(w, id) && p in w.tasks
    requires w.tasks[p].id == id && (IsProvision(w.tasks[p]) || w.tasks[p].DeletingGroup? || w.tasks[p].DeletingSecret?)
    ensures Exec(w, Step(p, fault)).tasks[p] != Finished(id, Success)
    ensures !Exec(w, Step(p, fault)).tasks[p].CreatingGroup?
  {
    assert !Owns(w, p, id);
  }

  /**
   * An orphan is one for good, in every run; and no step of a provision or deprovision of its instance
   * ends in success from then on.
   */
  lemma {:induction false} OrphanForGood(w: World, es: seq<Event>, id: GoString, p: nat, fault: bool)
    requires Ownership(w) && id in w.ids && Orphan(w, id)
    ensures Orphan(Run(w, es), id)
    ensures var now := Run(w, es);
      p in now.tasks && now.tasks[p].id == id
      && (IsProvision(now.tasks[p]) || now.tasks[p].DeletingGroup? || now.tasks[p].DeletingSecret?)
      ==> Exec(now, Step(p, fault)).tasks[p] != Finished(id, Success)
    decreases |es|
  {
    if es == [] {
      if p in w.tasks && w.tasks[p].id == id
         && (IsProvision(w.tasks[p]) || w.tasks[p].DeletingGroup? || w.tasks[p].DeletingSecret?) {
        OrphanBlocks(w, p, fault, id);
      }
    } else {
      OwnershipKept(w, es[0]);
      OrphanKept(w, es[0], id);
      OrphanForGood(Exec(w, es[0]), es[1..], id, p, fault);
    }
  }

  // ---- over whole runs ----

  predicate EverLoses(w: World, es: seq<Event>, id: GoString)
    decreases |es|
  {
    es != [] && (LosesSecret(w, es[0], id) || EverLoses(Exec(w, es[0]), es[1..], id))
  }

  lemma {:induction false} OrphanedFrom(w: World, es: seq<Event>, id: GoString)
    requires Ownership(w) && id in w.ids && !Orphan(w, id)
    ensures Orphan(Run(w, es), id) <==> EverLoses(w, es, id)
    decreases |es|
  {
    if es != [] {
      OnlyAFailedDeleteLoses(w, es[0], id);
      OwnershipKept(w, es[0]);
      if Orphan(Exec(w, es[0]), id) {
        OrphanForGood(Exec(w, es[0]), es[1..], id, 0, false);
      } else {
        OrphanedFrom(Exec(w, es[0]), es[1..], id);
      }
    }
  }

  /**
   * In every run, a live secret is without an owner if and only if the call that was to delete it failed
   * at some point, in a clean-up or in a deprovision. Any other live secret has exactly one owner: the
   * group in service, or one request.
   */
  lemma OrphanedExactlyByAFailedDelete(w: World, es: seq<Event>, id: GoString)
    requires Start(w) && id in w.ids
    ensures var now := Run(w, es);
      && (Orphan(now, id) <==> EverLoses(w, es, id))
      && (IsLive(now.stores, now.names.secret(id)) && !EverLoses(w, es, id) ==>
            || (InService(now, id) && forall p :: !Owns(now, p, id))
            || (!InService(now, id) && exists p :: Owns(now, p, id) && forall q :: Owns(now, q, id) ==> q == p))
  {
    var now := Run(w, es);
    OrphanedFrom(w, es, id);
    OwnershipAlways(w, es);
    NamesAndIdsFixed(w, es);
    assert OneOwner(now, id);
  }

  // ---- the run ----

  /** A deprovision is taken for its group and fails at the secret. */
  lemma DeprovisionMayOrphan(w: World, id: GoString, spec: ProvisionSpec) returns (es: seq<Event>)
    requires Start(w) && id in w.ids
    ensures var now := Run(w, es);
      && Orphan(now, id) && 1 in now.tasks && now.tasks[1] == Finished(id, Failed)
  {
    var up := BroughtUp(w, 0, id, spec, Endpoint("", 0));
    var last := [Arrive(1, DeletingGroup(id))] + [Step(1, false), Step(1, true)];
    es := up + last;
    RunConcat(w, up, last);
    FailedDeprovision(Run(w, up), id);
  }

  lemma FailedDeprovision(w: World, id: GoString)
    requires id in w.ids && 1 !in w.tasks && InService(w, id) && IsLive(w.stores, w.names.secret(id))
    requires forall p :: !Owns(w, p, id)
    ensures var now := Run(w, [Arrive(1, DeletingGroup(id))] + [Step(1, false), Step(1, true)]);
      Orphan(now, id) && 1 in now.tasks && now.tasks[1] == Finished(id, Failed)
  {
    var t := DeletingGroup(id);
    var (retired, reply) := Apply(w.stores, NextCall(w.names, t), false);
    RunConcat(w, [Arrive(1, t)], [Step(1, false), Step(1, true)]);
    RunOne(w, Arrive(1, t));
    RunTwo(Exec(w, Arrive(1, t)), Step(1, false), Step(1, true));
    StepPuts(w, 1, w.stores, t, false);
    StepPuts(w, 1, retired, DeletingSecret(id), true);
    NobodyOwns(w, 1, retired, Finished(id, Failed), id);
  }
}
