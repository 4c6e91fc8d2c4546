/** What is stored in a parameter group after a provision and any sequence of updates. */
module Parameters {
  import opened GoTypes
  import opened Aws
  import opened Requests
  import opened Compensation
  import Lifecycle
  import Deprovisioning

  const POLICY: string := "maxmemory-policy"

  function WithPolicy(m: map<string, string>, policy: Option<string>): map<string, string> {
    if policy.Some? then m[POLICY := policy.value] else m
  }

  /** An update of the maintenance window, of the memory policy, or of both; never of nothing. */
  datatype Change = Change(window: string, policy: Option<string>)

  predicate ChangesSomething(c: Change) { c.window != "" || c.policy.Some? }

  /** The window goes first; without a window the code sends no call for it. */
  function UpdateTask(id: GoString, c: Change): Task
    requires ChangesSomething(c)
  {
    if c.window != "" then UpdatingWindow(id, c.window, c.policy) else UpdatingPolicy(id, c.policy.value)
  }

  /** One undisturbed update changes one entry of one parameter group, and only when it succeeds. */
  lemma UpdateEffect(names: Names, id: GoString, c: Change, s: Stores, faults: nat -> bool, n: nat)
    requires ChangesSomething(c)
    ensures var r := RunAlone(names, UpdateTask(id, c), s, faults, n);
      var name := names.group(id);
      && r.stores.secrets == s.secrets && r.stores.groups.Keys == s.groups.Keys
      && r.task.outcome in {Success, Failed}
      && (r.task.outcome == Success && c.policy.Some? ==> name in s.paramGroups)
      && r.stores.paramGroups ==
         if r.task.outcome == Success && c.policy.Some?
         then s.paramGroups[name := WithPolicy(s.paramGroups[name], c.policy)] else s.paramGroups
  {
    if c.window != "" {
      var t := UpdatingWindow(id, c.window, c.policy);
      var (s', reply) := Apply(s, NextCall(names, t), faults(n));
      assert s'.paramGroups == s.paramGroups && s'.secrets == s.secrets && s'.groups.Keys == s.groups.Keys;
      assert RunAlone(names, t, s, faults, n) == RunAlone(names, Resume(names, t, reply), s', faults, n + 1);
      if reply.Accepted? && c.policy.Some? {
        PolicyStep(names, id, c.policy.value, s', faults, n + 1);
      }
    } else {
      PolicyStep(names, id, c.policy.value, s, faults, n);
    }
  }

  lemma PolicyStep(names: Names, id: GoString, policy: string, s: Stores, faults: nat -> bool, n: nat)
    ensures var r := RunAlone(names, UpdatingPolicy(id, policy), s, faults, n);
      var name := names.group(id);
      && r.stores.secrets == s.secrets && r.stores.groups == s.groups
      && r.task.outcome in {Success, Failed}
      && (r.task.outcome == Success ==> name in s.paramGroups)
      && r.stores.paramGroups ==
         if r.task.outcome == Success
         then s.paramGroups[name := s.paramGroups[name][POLICY := policy]] else s.paramGroups
  {
    var t := UpdatingPolicy(id, policy);
    var (s', reply) := Apply(s, NextCall(names, t), faults(n));
    assert RunAlone(names, t, s, faults, n) == Ran(Resume(names, t, reply), s', n + 1);
    var name := names.group(id);
    if reply.Accepted? {
      assert s.paramGroups[name] + map["maxmemory-policy" := policy] == s.paramGroups[name][POLICY := policy];
    }
  }

  /** If the window step fails, the parameters are untouched. */
  lemma FailedWindowStopsTheUpdate(names: Names, id: GoString, c: Change, s: Stores, faults: nat -> bool, n: nat)
    requires c.window != ""
    requires !Apply(s, ModifyGroup(names.group(id), SetWindow(c.window)), faults(n)).1.Accepted?
    ensures RunAlone(names, UpdateTask(id, c), s, faults, n) == Ran(Finished(id, Failed), s, n + 1)
  {
    var t := UpdatingWindow(id, c.window, c.policy);
    var (s', reply) := Apply(s, NextCall(names, t), faults(n));
    assert s' == s && Resume(names, t, reply) == Finished(id, Failed);
  }

  datatype Replayed = Replayed(stores: Stores, last: Option<string>)

  /** Updates one after the other; `last` is the policy of the last one that succeeded with one. */
  function Replay(
      names: Names, id: GoString, changes: seq<Change>,
      s: Stores, faults: nat -> bool, n: nat, last: Option<string>): Replayed
    requires forall i :: 0 <= i < |changes| ==> ChangesSomething(changes[i])
    decreases |changes|
  {
    if changes == [] then Replayed(s, last)
    else
      var c := changes[0];
      var r := RunAlone(names, UpdateTask(id, c), s, faults, n);
      Replay(names, id, changes[1..], r.stores, faults, r.calls,
        if r.task.outcome == Success && c.policy.Some? then c.policy else last)
  }

  lemma {:induction false} UpdatesAreLastWriter(
      names: Names, id: GoString, changes: seq<Change>, s: Stores, faults: nat -> bool, n: nat,
      base: map<string, string>, last: Option<string>)
    requires forall i :: 0 <= i < |changes| ==> ChangesSomething(changes[i])
    requires names.group(id) in s.paramGroups && s.paramGroups[names.group(id)] == WithPolicy(base, last)
    ensures var r := Replay(names, id, changes, s, faults, n, last);
      && r.stores.paramGroups == s.paramGroups[names.group(id) := WithPolicy(base, r.last)]
      && r.stores.secrets == s.secrets
    decreases |changes|
  {
    var name := names.group(id);
    if changes == [] {
      assert s.paramGroups == s.paramGroups[name := WithPolicy(base, last)];
    } else {
      var c := changes[0];
      var r := RunAlone(names, UpdateTask(id, c), s, faults, n);
      UpdateEffect(names, id, c, s, faults, n);
      var next := if r.task.outcome == Success && c.policy.Some? then c.policy else last;
      if next.Some? {
        PolicyReplaced(base, last, next);
      }
      UpdatesAreLastWriter(names, id, changes[1..], r.stores, faults, r.calls, base, next);
      OverwrittenOnce(s.paramGroups, r.stores.paramGroups, name,
        WithPolicy(base, Replay(names, id, changes, s, faults, n, last).last));
    }
  }

  lemma PolicyReplaced(base: map<string, string>, last: Option<string>, next: Option<string>)
    requires next.Some?
    ensures WithPolicy(WithPolicy(base, last), next) == WithPolicy(base, next)
  {
  }

  lemma OverwrittenOnce<V>(m: map<GoString, V>, m': map<GoString, V>, k: GoString, v: V)
    requires k in m && m'.Keys == m.Keys && forall other :: other in m && other != k ==> m'[other] == m[other]
    ensures m'[k := v] == m[k := v]
  {
  }

  function FirstSome(a: Option<string>, b: Option<string>): Option<string> {
    if a.Some? then a else b
  }

  function ValueAt(m: map<string, string>, k: string): Option<string> {
    if k in m then Some(m[k]) else None
  }

  /** What is stored under a name that is new since s: the plan's parameters with their defaults and policy. */
  ghost predicate HoldsParameters(
      end: Replayed, s: Stores, name: GoString, plan: map<string, string>, policy: Option<string>) {
    && end.stores.paramGroups.Keys == s.paramGroups.Keys + {name}
    && (forall other :: other in s.paramGroups ==> end.stores.paramGroups[other] == s.paramGroups[other])
    && var stored := end.stores.paramGroups[name];
    && ValueAt(stored, POLICY) == FirstSome(end.last, FirstSome(policy, ValueAt(plan, POLICY)))
    && ValueAt(stored, "cluster-enabled") == FirstSome(ValueAt(plan, "cluster-enabled"), Some("no"))
    && (forall k :: k != POLICY && k != "cluster-enabled" ==> ValueAt(stored, k) == ValueAt(plan, k))
  }

  lemma EntriesHold(
      end: Replayed, s: Stores, name: GoString, plan: map<string, string>, policy: Option<string>)
    requires name !in s.paramGroups
    requires end.stores.paramGroups
          == s.paramGroups[name := WithPolicy(WithClusterDefault(WithPolicy(plan, policy)), end.last)]
    ensures HoldsParameters(end, s, name, plan, policy)
  {
    assert |POLICY| == 16 && |"cluster-enabled"| == 15;
  }

  lemma UpdatesFrom(
      names: Names, id: GoString, plan: map<string, string>, policy: Option<string>,
      s: Stores, provisioned: Stores, faults: nat -> bool, n: nat, changes: seq<Change>)
    requires names.group(id) !in s.paramGroups
    requires provisioned.paramGroups
          == s.paramGroups[names.group(id) := WithClusterDefault(WithPolicy(plan, policy))]
    requires forall i :: 0 <= i < |changes| ==> ChangesSomething(changes[i])
    ensures HoldsParameters(
      Replay(names, id, changes, provisioned, faults, n, None), s, names.group(id), plan, policy)
  {
    var base := WithClusterDefault(WithPolicy(plan, policy));
    UpdatesAreLastWriter(names, id, changes, provisioned, faults, n, base, None);
    EntriesHold(Replay(names, id, changes, provisioned, faults, n, None), s, names.group(id), plan, policy);
  }

  /**
   * After a successful provision and any sequence of successful or failed updates, the stored
   * parameters are the plan's, with cluster-enabled defaulting to no and the memory policy the last one
   * accepted; no other parameter group has changed since the provision began.
   */
  lemma LastAcceptedPolicyWins(
      names: Names, id: GoString, plan: map<string, string>, policy: Option<string>, spec: ProvisionSpec,
      s: Stores, faults: nat -> bool, n: nat, changes: seq<Change>)
    requires spec.parameters == if policy.Some? then plan["maxmemory-policy" := policy.value] else plan
    requires CreateSucceeds(names, id, s, faults, n)
    requires forall i :: 0 <= i < |changes| ==> ChangesSomething(changes[i])
    ensures var provisioned, name := Provisioned(names, id, spec, s, faults, n), names.group(id);
      var end := Replay(names, id, changes, provisioned.stores, faults, provisioned.calls, None);
      && end.stores.paramGroups.Keys == s.paramGroups.Keys + {name}
      && (forall other :: other in s.paramGroups ==> end.stores.paramGroups[other] == s.paramGroups[other])
      && var stored := end.stores.paramGroups[name];
      && (forall k :: k != "maxmemory-policy" && k != "cluster-enabled" ==>
            (k in stored <==> k in plan) && (k in plan ==> stored[k] == plan[k]))
      && "cluster-enabled" in stored
      && stored["cluster-enabled"] == (if "cluster-enabled" in plan then plan["cluster-enabled"] else "no")
      && ("maxmemory-policy" in stored <==> end.last.Some? || policy.Some? || "maxmemory-policy" in plan)
      && ("maxmemory-policy" in stored ==>
            stored["maxmemory-policy"] == (
              if end.last.Some? then end.last.value
              else if policy.Some? then policy.value
              else plan["maxmemory-policy"]))
  {
    var provisioned := Provisioned(names, id, spec, s, faults, n);
    SuccessLeaves(names, id, spec, s, faults, n);
    UpdatesFrom(names, id, plan, policy, s, provisioned.stores, faults, provisioned.calls, changes);
    var end := Replay(names, id, changes, provisioned.stores, faults, provisioned.calls, None);
    ParametersHeld(end, s, names.group(id), plan, policy);
  }

  lemma ParametersHeld(
      end: Replayed, s: Stores, name: GoString, plan: map<string, string>, policy: Option<string>)
    requires HoldsParameters(end, s, name, plan, policy)
    ensures name in end.stores.paramGroups
    ensures var stored := end.stores.paramGroups[name];
      && (forall k :: k != "maxmemory-policy" && k != "cluster-enabled" ==>
            (k in stored <==> k in plan) && (k in plan ==> stored[k] == plan[k]))
      && "cluster-enabled" in stored
      && stored["cluster-enabled"] == (if "cluster-enabled" in plan then plan["cluster-enabled"] else "no")
      && ("maxmemory-policy" in stored <==> end.last.Some? || policy.Some? || "maxmemory-policy" in plan)
      && ("maxmemory-policy" in stored ==>
            stored["maxmemory-policy"] == (
              if end.last.Some? then end.last.value
              else if policy.Some? then policy.value
              else plan["maxmemory-policy"]))
  {
    var stored := end.stores.paramGroups[name];
    assert ValueAt(stored, "cluster-enabled") == FirstSome(ValueAt(plan, "cluster-enabled"), Some("no"));
    assert ValueAt(stored, POLICY) == FirstSome(end.last, FirstSome(policy, ValueAt(plan, POLICY)));
    forall k | k != "maxmemory-policy" && k != "cluster-enabled"
      ensures (k in stored <==> k in plan) && (k in plan ==> stored[k] == plan[k])
    {
      assert ValueAt(stored, k) == ValueAt(plan, k);
    }
  }

  // ---- updates side by side ----

  /** AWS accepts the policy step of an update of this instance. */
  predicate SetsPolicy(w: Lifecycle.World, e: Lifecycle.Event, id: GoString) {
    && e.Step? && !e.fault && e.pid in w.tasks && w.tasks[e.pid].UpdatingPolicy? && w.tasks[e.pid].id == id
    && w.names.group(id) in w.stores.paramGroups
  }

  /** The policy of the last such step of a run, if there was one. */
  function LastPolicy(w: Lifecycle.World, es: seq<Lifecycle.Event>, id: GoString, last: Option<string>): Option<string>
    decreases |es|
  {
    if es == [] then last
    else
      LastPolicy(Lifecycle.Exec(w, es[0]), es[1..], id,
        if SetsPolicy(w, es[0], id) then Some(w.tasks[es[0].pid].value) else last)
  }

  ghost predicate NoProvisionOf(w: Lifecycle.World, id: GoString) {
    && Lifecycle.NonColliding(w) && id in w.ids
    && forall p :: p in w.tasks ==> w.tasks[p].id in w.ids && !Deprovisioning.ProvisionsOf(w.tasks[p], id)
  }

  /** What one call can do to the parameters stored under a name, unless it is part of a provision. */
  lemma ParamStep(names: Names, t: Task, s: Stores, fault: bool, name: GoString)
    requires !t.Finished? && (names.group(t.id) == name ==> !Lifecycle.IsProvision(t))
    ensures var (s', reply) := Apply(s, NextCall(names, t), fault);
      && (!Lifecycle.IsProvision(t) ==> !Lifecycle.IsProvision(Resume(names, t, reply)))
      && (name in s'.paramGroups ==> name in s.paramGroups)
      && (name in s'.paramGroups ==>
            s'.paramGroups[name] == (
              if t.UpdatingPolicy? && !fault && names.group(t.id) == name
              then s.paramGroups[name][POLICY := t.value] else s.paramGroups[name]))
  {
  }

  lemma PolicyStepInRun(w: Lifecycle.World, e: Lifecycle.Event, id: GoString)
    requires NoProvisionOf(w, id) && (e.Arrive? ==> !Deprovisioning.ProvisionsOf(e.request, id))
    ensures var name, w' := w.names.group(id), Lifecycle.Exec(w, e);
      && NoProvisionOf(w', id) && w'.names == w.names
      && (name in w'.stores.paramGroups ==>
            && name in w.stores.paramGroups
            && w'.stores.paramGroups[name] ==
               if SetsPolicy(w, e, id) then w.stores.paramGroups[name][POLICY := w.tasks[e.pid].value]
               else w.stores.paramGroups[name])
  {
    if e.Step? && e.pid in w.tasks && !w.tasks[e.pid].Finished? {
      var t := w.tasks[e.pid];
      assert w.names.group(t.id) == w.names.group(id) ==> t.id == id;
      ParamStep(w.names, t, w.stores, e.fault, w.names.group(id));
    }
  }

  lemma {:induction false} LastWriterFrom(
      w: Lifecycle.World, es: seq<Lifecycle.Event>, id: GoString, base: map<string, string>, last: Option<string>)
    requires NoProvisionOf(w, id)
    requires forall k :: 0 <= k < |es| && es[k].Arrive? ==> !Deprovisioning.ProvisionsOf(es[k].request, id)
    requires w.names.group(id) in w.stores.paramGroups ==>
      w.stores.paramGroups[w.names.group(id)] == WithPolicy(base, last)
    ensures var name, now := w.names.group(id), Lifecycle.Run(w, es);
      name in now.stores.paramGroups ==>
      && name in w.stores.paramGroups
      && now.stores.paramGroups[name] == WithPolicy(base, LastPolicy(w, es, id, last))
    decreases |es|
  {
    if es != [] {
      PolicyStepInRun(w, es[0], id);
      var next := if SetsPolicy(w, es[0], id) then Some(w.tasks[es[0].pid].value) else last;
      if next.Some? {
        PolicyReplaced(base, last, next);
      }
      LastWriterFrom(Lifecycle.Exec(w, es[0]), es[1..], id, base, next);
    }
  }

  /**
   * However updates, polls and other requests interleave: while no provision of an instance is under way,
   * its parameters, for as long as they are stored, are what they were, with the memory policy of the last
   * policy step that AWS accepted.
   */
  lemma LastAcceptedPolicyWinsInterleaved(w: Lifecycle.World, before: seq<Lifecycle.Event>,
      during: seq<Lifecycle.Event>, id: GoString)
    requires Lifecycle.Start(w) && id in w.ids
    requires forall p :: p in Lifecycle.Run(w, before).tasks ==>
      !Deprovisioning.ProvisionsOf(Lifecycle.Run(w, before).tasks[p], id)
    requires forall k :: 0 <= k < |during| && during[k].Arrive? ==>
      !Deprovisioning.ProvisionsOf(during[k].request, id)
    ensures var first := Lifecycle.Run(w, before);
      var name, now := w.names.group(id), Lifecycle.Run(first, during);
      name in now.stores.paramGroups ==>
      && name in first.stores.paramGroups
      && var was, last := first.stores.paramGroups[name], LastPolicy(first, during, id, None);
         now.stores.paramGroups[name] == if last.Some? then was["maxmemory-policy" := last.value] else was
  {
    var first := Lifecycle.Run(w, before);
    Lifecycle.OwnershipAlways(w, before);
    Lifecycle.NamesAndIdsFixed(w, before);
    var name := w.names.group(id);
    var base := if name in first.stores.paramGroups then first.stores.paramGroups[name] else map[];
    LastWriterFrom(first, during, id, base, None);
  }
}
