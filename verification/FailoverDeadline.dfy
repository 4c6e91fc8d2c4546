/** A failover test that has timed out: whether HA can still come on again, and a run in which it cannot. */
module FailoverDeadline {
  import opened GoTypes
  import opened Aws
  import opened Requests
  import opened Roles
  import opened Operations
  import opened FailoverTestRun
  import opened FailoverOverlap

  predicate HAIsOn(w: World) {
    w.group.failover == Some(Enabled)
  }

  predicate IsOnAfter(w: World, es: seq<Event>) {
    HAIsOn(Run(w, es))
  }

  lemma OnMeansDone(w: World, initial: seq<NodeGroup>)
    requires Invariant(w, initial) && w.stage.Running?
    ensures HAIsOn(w) <==> Phase(w.group, initial) == 6
  {
  }

  /**
   * HA is on or coming on, or a request for it is under way, or there are polls past their deadline check
   * for each modification that is still due, and the last one is yet to describe the group.
   */
  predicate CanStill(w: World, initial: seq<NodeGroup>) {
    || Phase(w.group, initial) >= 5
    || EnableHA in w.inFlight
    || (w.checked >= 1 && Due(w, initial) + UnderWay(w) >= 3)
  }

  // ---- where it cannot, it never does ----

  lemma DescribeCannot(w: World, fault: bool, initial: seq<NodeGroup>)
    requires Invariant(w, initial) && IsLate(w) && !CanStill(w, initial)
    ensures !CanStill(Exec(w, PollDescribe(fault)), initial)
  {
    PollDecision(w, initial);
  }

  lemma ModifyCannot(w: World, change: Modification, fault: bool, initial: seq<NodeGroup>)
    requires Invariant(w, initial) && IsLate(w) && !CanStill(w, initial)
    ensures !CanStill(Exec(w, PollModify(change, fault)), initial)
  {
    if change in w.inFlight {
      assert |w.inFlight - multiset{change}| == |w.inFlight| - 1;
      if Takes(w, change, fault) {
        AcceptedPhase(w.group, initial, change);
      }
    }
  }

  lemma CannotKept(w: World, e: Event, initial: seq<NodeGroup>)
    requires Invariant(w, initial) && IsLate(w) && !CanStill(w, initial)
    ensures IsLate(Exec(w, e)) && !CanStill(Exec(w, e), initial)
  {
    if e.PollDescribe? {
      DescribeCannot(w, e.fault, initial);
    } else if e.PollModify? {
      ModifyCannot(w, e.change, e.fault, initial);
    } else if e.AwsCompletes? && w.group.pending.Some? {
      CompletedPhase(w.group, initial);
    } else if e.AwsBusy? || e.AwsSettles? {
      BusyKeepsPhase(w, e, initial);
    }
  }

  lemma {:induction false} NeverComesOn(w: World, es: seq<Event>, initial: seq<NodeGroup>)
    requires Invariant(w, initial) && IsLate(w) && !CanStill(w, initial)
    ensures !IsOnAfter(w, es)
    decreases |es|
  {
    if es == [] {
      OnMeansDone(w, initial);
    } else {
      CannotKept(w, es[0], initial);
      InvariantKept(w, es[0], initial);
      NeverComesOn(Exec(w, es[0]), es[1..], initial);
    }
  }

  // ---- where it can, there is a run ----

  /** What is pending completes, or AWS is done with other work. */
  function Calm(w: World): Event {
    if w.group.pending.Some? then AwsCompletes else AwsSettles
  }

  /** Available and settled in a phase, whatever is under way. */
  ghost predicate Stands(w: World, initial: seq<NodeGroup>, phase: nat) {
    && Invariant(w, initial) && w.stage.Running? && w.group.status == Some(Available) && w.group.pending.None?
    && Phase(w.group, initial) == phase
  }

  function Calmed(phase: nat): nat {
    if phase <= 2 then 2 else if phase <= 4 then 4 else 6
  }

  lemma CalmsDown(w: World, initial: seq<NodeGroup>)
    requires Invariant(w, initial) && w.stage.Running?
    ensures var next := Exec(w, Calm(w));
      Stands(next, initial, Calmed(Phase(w.group, initial))) && next == w.(group := next.group)
  {
    InvariantKept(w, Calm(w), initial);
    if w.group.pending.Some? {
      CompletedPhase(w.group, initial);
    } else {
      BusyKeepsPhase(w, AwsSettles, initial);
    }
  }

  /** A request under way is sent, and completes. */
  lemma Sends(w: World, initial: seq<NodeGroup>, change: Modification)
    requires Stands(w, initial, 2) || Stands(w, initial, 4)
    requires change in w.inFlight && (change == EnableHA ==> Phase(w.group, initial) == 4)
    ensures var next := Run(w, Send(change));
      && Stands(next, initial, if change == EnableHA then 6 else 4) && next.checked == w.checked
  {
    var sent := Exec(w, PollModify(change, false));
    RunTwo(w, PollModify(change, false), AwsCompletes);
    TakesCutover(w.group, initial);
    AcceptedPhase(w.group, initial, change);
    InvariantKept(w, PollModify(change, false), initial);
    assert sent.group == Accept(w.group, change) && sent.group.pending == Some(change);
    CalmsDown(sent, initial);
  }

  /** A poll past its deadline check describes the group, and decides. */
  lemma Describes(w: World, initial: seq<NodeGroup>, phase: nat)
    requires Stands(w, initial, phase) && phase in {2, 4} && w.checked >= 1
    ensures var next := Exec(w, PollDescribe(false));
      && Stands(next, initial, phase) && next.checked == w.checked - 1
      && (if phase == 2 then Cutover(ReplicaIn(initial)) else EnableHA) in next.inFlight
  {
    PollDecision(w, initial);
    InvariantKept(w, PollDescribe(false), initial);
  }

  lemma FromNewPrimary(w: World, initial: seq<NodeGroup>) returns (es: seq<Event>)
    requires Stands(w, initial, 4) && (EnableHA in w.inFlight || w.checked >= 1)
    ensures HAIsOn(Run(w, es))
    decreases w.checked
  {
    if EnableHA in w.inFlight {
      es := Send(EnableHA);
      Sends(w, initial, EnableHA);
      OnMeansDone(Run(w, es), initial);
    } else {
      Describes(w, initial, 4);
      var next := Exec(w, PollDescribe(false));
      var rest := FromNewPrimary(next, initial);
      es := [PollDescribe(false)] + rest;
      assert es[1..] == rest;
    }
  }

  lemma FromOldPrimary(w: World, initial: seq<NodeGroup>) returns (es: seq<Event>)
    requires Stands(w, initial, 2) && w.checked >= 1 && UnderWay(w) >= 2
    ensures HAIsOn(Run(w, es))
    decreases w.checked
  {
    var cutover := Cutover(ReplicaIn(initial));
    if cutover in w.inFlight {
      Sends(w, initial, cutover);
      var rest := FromNewPrimary(Run(w, Send(cutover)), initial);
      RunConcat(w, Send(cutover), rest);
      es := Send(cutover) + rest;
    } else {
      NothingElseUnderWay(w, initial);
      Describes(w, initial, 2);
      var next := Exec(w, PollDescribe(false));
      var rest := FromOldPrimary(next, initial);
      es := [PollDescribe(false)] + rest;
      assert es[1..] == rest;
    }
  }

  lemma NothingElseUnderWay(w: World, initial: seq<NodeGroup>)
    requires Stands(w, initial, 2) && Cutover(ReplicaIn(initial)) !in w.inFlight
    ensures w.inFlight == multiset{}
  {
  }

  lemma ComesOn(w: World, initial: seq<NodeGroup>) returns (es: seq<Event>)
    requires Invariant(w, initial) && IsLate(w) && CanStill(w, initial)
    ensures IsOnAfter(w, es)
  {
    var next := Exec(w, Calm(w));
    CalmsDown(w, initial);
    var rest := [];
    if Phase(next.group, initial) == 6 {
      OnMeansDone(next, initial);
    } else if Phase(next.group, initial) == 4 {
      rest := FromNewPrimary(next, initial);
    } else {
      rest := FromOldPrimary(next, initial);
    }
    es := [Calm(w)] + rest;
    assert es[1..] == rest;
  }

  lemma ComesOnExactlyIf(w: World, initial: seq<NodeGroup>)
    requires Invariant(w, initial) && IsLate(w)
    ensures (exists more :: IsOnAfter(w, more)) <==> CanStill(w, initial)
  {
    if CanStill(w, initial) {
      var more := ComesOn(w, initial);
      assert IsOnAfter(w, more);
    } else if more :| IsOnAfter(w, more) {
      NeverComesOn(w, more, initial);
    }
  }

  /**
   * In every run that has timed out: this test can still get HA on again if and only if it is on or coming
   * on, a request for it is under way, or enough polls were past their deadline check.
   */
  lemma HAComesOnExactlyIf(w: World, es: seq<Event>)
    requires Start(w) && IsLate(Run(w, es))
    ensures var now := Run(w, es);
      (exists more :: IsOnAfter(now, more)) <==> CanStill(now, w.group.nodeGroups)
  {
    InvariantAlways(w, es, w.group.nodeGroups);
    ComesOnExactlyIf(Run(w, es), w.group.nodeGroups);
  }

  // ---- the run in which it cannot ----

  /** HA goes off, and no poll comes before the deadline has passed. */
  lemma TimesOutWithHAOff(w: World) returns (es: seq<Event>)
    requires Start(w) && w.group.status == Some(Available)
    ensures var now := Run(w, es);
      && IsLate(now) && UnderWay(now) == 0 && now.group.status == Some(Available) && now.group.pending.None?
      && now.group.failover == Some(Disabled)
      && !CanStill(now, w.group.nodeGroups)
  {
    var off := Run(w, StartRun());
    StartRests(w);
    var late := Tick(off.stage.deadline + 1);
    es := StartRun() + [late];
    RunConcat(w, StartRun(), [late]);
    assert [late][1..] == [];
    assert Run(off, [late]) == Exec(off, late);
  }
}
