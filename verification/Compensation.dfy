/** What a provision that runs undisturbed leaves behind, on every path. */
module Compensation {
  import opened GoTypes
  import opened Aws
  import opened Requests

  /** Everything that was there before is there after, unchanged. */
  ghost predicate Preserves(s: Stores, s': Stores) {
    && (forall n :: n in s.paramGroups ==> n in s'.paramGroups && s'.paramGroups[n] == s.paramGroups[n])
    && (forall p :: p in s.secrets ==> p in s'.secrets && s'.secrets[p] == s.secrets[p])
    && (forall n :: n in s.groups ==> n in s'.groups && s'.groups[n] == s.groups[n])
  }

  /** Nothing new outside the names of this instance. */
  ghost predicate AddsOnlyFor(names: Names, id: GoString, s: Stores, s': Stores) {
    && (forall n :: n in s'.paramGroups && n !in s.paramGroups ==> n == names.group(id))
    && (forall p :: p in s'.secrets && p !in s.secrets ==> p == names.secret(id))
    && (forall n :: n in s'.groups && n !in s.groups ==> n == names.group(id))
  }

  function Provisioned(names: Names, id: GoString, spec: ProvisionSpec, s: Stores, faults: nat -> bool, n: nat): Ran {
    RunAlone(names, CreatingParamGroup(id, spec), s, faults, n)
  }

  /** Calls n, n+1, ... of a provision: does it get as far as creating the group? */
  predicate ReachesCreate(names: Names, id: GoString, s: Stores, faults: nat -> bool, n: nat) {
    && !faults(n) && names.group(id) !in s.paramGroups
    && !faults(n + 1)
    && !faults(n + 2) && names.secret(id) !in s.secrets
  }

  predicate CreateSucceeds(names: Names, id: GoString, s: Stores, faults: nat -> bool, n: nat) {
    ReachesCreate(names, id, s, faults, n) && !faults(n + 3) && names.group(id) !in s.groups
  }

  /** The stores just before the group is created. */
  function Prepared(names: Names, id: GoString, spec: ProvisionSpec, s: Stores): Stores {
    s.(paramGroups := s.paramGroups[names.group(id) := WithClusterDefault(spec.parameters)],
       secrets := s.secrets[names.secret(id) := Live(spec.token)])
  }

  /** Setting the parameters of a group that has just been created. */
  lemma ParamsAreSet(names: Names, id: GoString, spec: ProvisionSpec, s: Stores, faults: nat -> bool, n: nat)
    requires !faults(n) && names.group(id) !in s.paramGroups
    ensures var name := names.group(id);
      var s1 := s.(paramGroups := s.paramGroups[name := map[]]);
      var s2 := s.(paramGroups := s.paramGroups[name := WithClusterDefault(spec.parameters)]);
      && RunAlone(names, CreatingParamGroup(id, spec), s, faults, n)
         == RunAlone(names, SettingParams(id, spec), s1, faults, n + 1)
      && Apply(s1, NextCall(names, SettingParams(id, spec)), faults(n + 1)) ==
         (if faults(n + 1) then (s1, Refused(Fault)) else (s2, Accepted))
      && (!faults(n + 1) ==>
            RunAlone(names, SettingParams(id, spec), s1, faults, n + 1)
            == RunAlone(names, CreatingSecret(id, spec), s2, faults, n + 2))
  {
    var name := names.group(id);
    var s1 := s.(paramGroups := s.paramGroups[name := map[]]);
    var s2 := s.(paramGroups := s.paramGroups[name := WithClusterDefault(spec.parameters)]);
    assert Apply(s, NextCall(names, CreatingParamGroup(id, spec)), faults(n)) == (s1, Accepted);
    assert map[] + WithClusterDefault(spec.parameters) == WithClusterDefault(spec.parameters);
    assert s1.paramGroups[name := WithClusterDefault(spec.parameters)] == s2.paramGroups;
  }

  lemma RunsToCreate(names: Names, id: GoString, spec: ProvisionSpec, s: Stores, faults: nat -> bool, n: nat)
    requires ReachesCreate(names, id, s, faults, n)
    ensures Provisioned(names, id, spec, s, faults, n)
         == RunAlone(names, CreatingGroup(id, spec), Prepared(names, id, spec, s), faults, n + 3)
  {
    var s2 := s.(paramGroups := s.paramGroups[names.group(id) := WithClusterDefault(spec.parameters)]);
    ParamsAreSet(names, id, spec, s, faults, n);
    assert Apply(s2, NextCall(names, CreatingSecret(id, spec)), faults(n + 2))
        == (Prepared(names, id, spec, s), Accepted);
  }

  /** The clean-up: two calls, whose errors are only logged. */
  lemma UndoRuns(names: Names, id: GoString, spec: ProvisionSpec, s: Stores, faults: nat -> bool, n: nat)
    ensures var (s1, _) := Apply(s, DeleteParamGroup(names.group(id)), faults(n));
      var (s2, _) := Apply(s1, DeleteSecret(names.secret(id), 7), faults(n + 1));
      RunAlone(names, UndoingParamGroup(id, spec), s, faults, n) == Ran(Finished(id, Failed), s2, n + 2)
  {
    var (s1, reply) := Apply(s, NextCall(names, UndoingParamGroup(id, spec)), faults(n));
    assert RunAlone(names, UndoingParamGroup(id, spec), s, faults, n)
        == RunAlone(names, UndoingSecret(id, spec), s1, faults, n + 1);
    var (s2, last) := Apply(s1, NextCall(names, UndoingSecret(id, spec)), faults(n + 1));
    assert Resume(names, UndoingSecret(id, spec), last) == Finished(id, Failed);
    assert RunAlone(names, UndoingSecret(id, spec), s1, faults, n + 1) == Ran(Finished(id, Failed), s2, n + 2);
  }

  /** How the clean-up leaves the stores, from the refused group creation on. */
  lemma UndoneFromCreate(names: Names, id: GoString, spec: ProvisionSpec, s: Stores, faults: nat -> bool, n: nat)
    requires names.group(id) !in s.paramGroups && names.secret(id) !in s.secrets
    requires faults(n) || names.group(id) in s.groups
    ensures var prepared := Prepared(names, id, spec, s);
      RunAlone(names, CreatingGroup(id, spec), prepared, faults, n) ==
      Ran(Finished(id, Failed), Undone(names, id, spec, s, faults(n + 1), faults(n + 2)), n + 3)
  {
    var prepared := Prepared(names, id, spec, s);
    var (s1, reply) := Apply(prepared, NextCall(names, CreatingGroup(id, spec)), faults(n));
    assert s1 == prepared && Resume(names, CreatingGroup(id, spec), reply) == UndoingParamGroup(id, spec);
    UndoRuns(names, id, spec, prepared, faults, n + 1);
    assert prepared.paramGroups - {names.group(id)} == s.paramGroups;
    assert prepared.secrets[names.secret(id) := Scheduled(spec.token, 7)]
        == s.secrets[names.secret(id) := Scheduled(spec.token, 7)];
  }

  function Undone(
      names: Names, id: GoString, spec: ProvisionSpec, s: Stores, keptGroup: bool, keptSecret: bool): Stores
  {
    var prepared := Prepared(names, id, spec, s);
    s.(paramGroups := if keptGroup then prepared.paramGroups else s.paramGroups,
       secrets := if keptSecret then prepared.secrets else s.secrets[names.secret(id) := Scheduled(spec.token, 7)])
  }

  /** The failing path: each clean-up call that fails leaves its resource behind. */
  lemma UndoLeaves(names: Names, id: GoString, spec: ProvisionSpec, s: Stores, faults: nat -> bool, n: nat)
    requires ReachesCreate(names, id, s, faults, n) && !CreateSucceeds(names, id, s, faults, n)
    ensures Provisioned(names, id, spec, s, faults, n)
         == Ran(Finished(id, Failed), Undone(names, id, spec, s, faults(n + 4), faults(n + 5)), n + 6)
  {
    RunsToCreate(names, id, spec, s, faults, n);
    UndoneFromCreate(names, id, spec, s, faults, n + 3);
  }

  /** A first call that is refused ends the request there. */
  lemma RefusedAtOnce(names: Names, t: Task, s: Stores, faults: nat -> bool, n: nat)
    requires t.CreatingParamGroup? || t.SettingParams? || t.CreatingSecret?
    requires !Apply(s, NextCall(names, t), faults(n)).1.Accepted?
    ensures RunAlone(names, t, s, faults, n) == Ran(Finished(t.id, Failed), s, n + 1)
  {
    var (s', reply) := Apply(s, NextCall(names, t), faults(n));
    assert s' == s && Resume(names, t, reply) == Finished(t.id, Failed);
  }

  /** The early failures: nothing is cleaned up there, and a parameter group may stay behind. */
  lemma EarlyFailureLeaves(names: Names, id: GoString, spec: ProvisionSpec, s: Stores, faults: nat -> bool, n: nat)
    requires !ReachesCreate(names, id, s, faults, n)
    ensures var r := Provisioned(names, id, spec, s, faults, n);
      var created := !faults(n) && names.group(id) !in s.paramGroups;
      && r.task == Finished(id, Failed)
      && r.stores == s.(paramGroups :=
           if !created then s.paramGroups
           else if faults(n + 1) then s.paramGroups[names.group(id) := map[]]
           else s.paramGroups[names.group(id) := WithClusterDefault(spec.parameters)])
  {
    var name := names.group(id);
    if faults(n) || name in s.paramGroups {
      RefusedAtOnce(names, CreatingParamGroup(id, spec), s, faults, n);
    } else {
      ParamsAreSet(names, id, spec, s, faults, n);
      if faults(n + 1) {
        RefusedAtOnce(names, SettingParams(id, spec), s.(paramGroups := s.paramGroups[name := map[]]), faults, n + 1);
      } else {
        var s2 := s.(paramGroups := s.paramGroups[name := WithClusterDefault(spec.parameters)]);
        RefusedAtOnce(names, CreatingSecret(id, spec), s2, faults, n + 2);
      }
    }
  }

  lemma SuccessLeaves(names: Names, id: GoString, spec: ProvisionSpec, s: Stores, faults: nat -> bool, n: nat)
    requires CreateSucceeds(names, id, s, faults, n)
    ensures var r := Provisioned(names, id, spec, s, faults, n);
      && r.task == Finished(id, Success)
      && r.stores == Prepared(names, id, spec, s).(
           groups := s.groups[names.group(id) := NewGroup(spec.token, spec.tags, spec.restoreFrom)])
  {
    RunsToCreate(names, id, spec, s, faults, n);
  }

  /**
   * On every path, whichever calls fail: nothing that existed before is touched, even under a name
   * that another instance's id also hashes to, and nothing is added but this call's own resources.
   */
  lemma ProvisionTouchesOnlyItsOwn(
      names: Names, id: GoString, spec: ProvisionSpec, s: Stores, faults: nat -> bool, n: nat)
    ensures var r := Provisioned(names, id, spec, s, faults, n);
      && Preserves(s, r.stores) && AddsOnlyFor(names, id, s, r.stores)
      && (r.task.outcome == Success <==> CreateSucceeds(names, id, s, faults, n))
      && (r.task.outcome != Success ==> r.stores.groups == s.groups)
  {
    if !ReachesCreate(names, id, s, faults, n) {
      EarlyFailureLeaves(names, id, spec, s, faults, n);
    } else if CreateSucceeds(names, id, s, faults, n) {
      SuccessLeaves(names, id, spec, s, faults, n);
    } else {
      UndoLeaves(names, id, spec, s, faults, n);
    }
  }

  /**
   * A failed provision leaves none of its own parameter groups behind exactly when it never created
   * one, or it got as far as creating the group and the clean-up call went through. So the clean-up
   * is complete only for a failed group creation.
   */
  lemma WhenAParamGroupStaysBehind(
      names: Names, id: GoString, spec: ProvisionSpec, s: Stores, faults: nat -> bool, n: nat)
    requires !CreateSucceeds(names, id, s, faults, n)
    ensures Provisioned(names, id, spec, s, faults, n).stores.paramGroups == s.paramGroups
       <==> (faults(n) || names.group(id) in s.paramGroups)
            || (ReachesCreate(names, id, s, faults, n) && !faults(n + 4))
  {
    var r := Provisioned(names, id, spec, s, faults, n);
    var name := names.group(id);
    if ReachesCreate(names, id, s, faults, n) {
      UndoLeaves(names, id, spec, s, faults, n);
      assert name !in s.paramGroups;
    } else {
      EarlyFailureLeaves(names, id, spec, s, faults, n);
    }
  }

  /** A failed provision leaves a live secret of its own exactly when the clean-up of it failed. */
  lemma WhenASecretStaysLive(
      names: Names, id: GoString, spec: ProvisionSpec, s: Stores, faults: nat -> bool, n: nat)
    requires !CreateSucceeds(names, id, s, faults, n)
    ensures (&& names.secret(id) !in s.secrets
             && IsLive(Provisioned(names, id, spec, s, faults, n).stores, names.secret(id)))
       <==> (ReachesCreate(names, id, s, faults, n) && faults(n + 5))
  {
    if ReachesCreate(names, id, s, faults, n) {
      UndoLeaves(names, id, spec, s, faults, n);
    } else {
      EarlyFailureLeaves(names, id, spec, s, faults, n);
    }
  }

  // ---- provisioning the same instance again ----

  /** Unless its first call failed, a failed provision leaves something that stands in the way of the next. */
  lemma LeavesNoWayIn(
      names: Names, id: GoString, spec: ProvisionSpec, s: Stores, faults: nat -> bool, n: nat)
    requires !CreateSucceeds(names, id, s, faults, n)
    ensures var left := Provisioned(names, id, spec, s, faults, n).stores;
      && left.groups == s.groups
      && (faults(n) ==> left == s)
      && (!faults(n) ==> names.group(id) in left.paramGroups || names.secret(id) in left.secrets)
  {
    if ReachesCreate(names, id, s, faults, n) {
      UndoLeaves(names, id, spec, s, faults, n);
    } else {
      EarlyFailureLeaves(names, id, spec, s, faults, n);
    }
  }

  /**
   * Exactly when a failed provision can be repeated at once: its very first call had failed, and
   * nothing else stands in the way. Whatever else went wrong, or was cleaned up, blocks the next one.
   */
  lemma RetrySucceedsOnlyIfNothingWasMade(
      names: Names, id: GoString, spec: ProvisionSpec, again: ProvisionSpec,
      s: Stores, faults: nat -> bool, n: nat, later: nat -> bool, m: nat)
    requires !CreateSucceeds(names, id, s, faults, n)
    ensures var left := Provisioned(names, id, spec, s, faults, n).stores;
      Provisioned(names, id, again, left, later, m).task.outcome == Success
      <==> faults(n) && CreateSucceeds(names, id, s, later, m)
  {
    var left := Provisioned(names, id, spec, s, faults, n).stores;
    LeavesNoWayIn(names, id, spec, s, faults, n);
    ProvisionTouchesOnlyItsOwn(names, id, again, left, later, m);
  }

  /** The provision failed at the group and cleaned up after itself completely. */
  predicate CleanedUp(names: Names, id: GoString, s: Stores, faults: nat -> bool, n: nat) {
    ReachesCreate(names, id, s, faults, n) && !faults(n + 4) && !faults(n + 5)
  }

  /** What the recovery window frees: everything after a complete clean-up, and nothing of the provision's otherwise. */
  lemma WhatTheWindowFrees(
      names: Names, id: GoString, spec: ProvisionSpec, s: Stores, faults: nat -> bool, n: nat)
    requires !CreateSucceeds(names, id, s, faults, n)
    ensures var freed := Purged(Provisioned(names, id, spec, s, faults, n).stores, names.secret(id));
      && (faults(n) || CleanedUp(names, id, s, faults, n) ==> freed == Purged(s, names.secret(id)))
      && (!faults(n) && !CleanedUp(names, id, s, faults, n) ==>
            names.group(id) in freed.paramGroups || IsLive(freed, names.secret(id)))
  {
    if ReachesCreate(names, id, s, faults, n) {
      UndoLeaves(names, id, spec, s, faults, n);
      assert s.secrets[names.secret(id) := Scheduled(spec.token, 7)] - {names.secret(id)} == s.secrets;
    } else {
      EarlyFailureLeaves(names, id, spec, s, faults, n);
    }
  }

  /**
   * Exactly when it can be repeated once the recovery window has passed: the first call had failed, or
   * the group's creation had and both clean-up calls went through. After any other failure a parameter
   * group or a live secret is in the way, which no window frees.
   */
  lemma RetryAfterTheWindow(
      names: Names, id: GoString, spec: ProvisionSpec, again: ProvisionSpec,
      s: Stores, faults: nat -> bool, n: nat, later: nat -> bool, m: nat)
    requires !CreateSucceeds(names, id, s, faults, n)
    ensures var path := names.secret(id);
      var freed := Purged(Provisioned(names, id, spec, s, faults, n).stores, path);
      Provisioned(names, id, again, freed, later, m).task.outcome == Success
      <==> (faults(n) || CleanedUp(names, id, s, faults, n)) && CreateSucceeds(names, id, Purged(s, path), later, m)
  {
    var freed := Purged(Provisioned(names, id, spec, s, faults, n).stores, names.secret(id));
    WhatTheWindowFrees(names, id, spec, s, faults, n);
    ProvisionTouchesOnlyItsOwn(names, id, again, freed, later, m);
  }

  /**
   * Trying too early spoils it: after a cleaned-up failure, a second provision within the window leaves
   * its parameter group behind, and no window frees that for a third.
   */
  lemma RetryWithinTheWindowSpoilsTheNext(
      names: Names, id: GoString, spec: ProvisionSpec, again: ProvisionSpec, third: ProvisionSpec,
      s: Stores, faults: nat -> bool, n: nat, early: nat -> bool, m: nat, later: nat -> bool, l: nat)
    requires CleanedUp(names, id, s, faults, n) && !CreateSucceeds(names, id, s, faults, n)
    requires !early(m)
    ensures var left := Provisioned(names, id, spec, s, faults, n).stores;
      var spoilt := Provisioned(names, id, again, left, early, m).stores;
      && names.group(id) in spoilt.paramGroups
      && Provisioned(names, id, third, Purged(spoilt, names.secret(id)), later, l).task == Finished(id, Failed)
  {
    var left := Provisioned(names, id, spec, s, faults, n).stores;
    var spoilt := Provisioned(names, id, again, left, early, m).stores;
    UndoLeaves(names, id, spec, s, faults, n);
    EarlyFailureLeaves(names, id, again, left, early, m);
    EarlyFailureLeaves(names, id, third, Purged(spoilt, names.secret(id)), later, l);
  }
}
