/**
 * The failover test of one group. A poll's look at the clock, its describe and its modify are separate
 * steps, so polls may overlap and act on what they saw earlier; AWS completes what is pending, and is
 * busy with other work, whenever it likes.
 */
module FailoverTestRun {
  import opened GoTypes
  import opened Aws
  import opened Requests
  import opened Roles
  import opened Operations

  datatype Stage = Idle | Starting(oldPrimary: string) | Running(oldPrimary: string, deadline: nat)

  /**
   * `checked` counts the polls that have passed the deadline check and not yet described the group;
   * `inFlight` holds the modifications that polls have decided on and not yet sent.
   */
  datatype World = World(
    names: Names, id: GoString, group: Group, stage: Stage,
    checked: nat, inFlight: multiset<Modification>, now: nat, accepted: nat)

  datatype Event =
    | StartDescribe
    | StartModify(fault: bool)
    | PollArrives
    | PollDescribe(fault: bool)
    | PollModify(change: Modification, fault: bool)
    | AwsCompletes
    | AwsBusy(status: Status)
    | AwsSettles
    | Tick(elapsed: nat)

  predicate Takes(w: World, change: Modification, fault: bool) {
    !fault && Accepts(w.group, change)
  }

  function Modify(w: World, change: Modification, fault: bool): World {
    if Takes(w, change, fault)
    then w.(group := Accept(w.group, change), accepted := w.accepted + 1)
    else w
  }

  /** What a poll that describes the group now goes on to do. */
  function Polled(w: World): Task
    requires w.stage.Running?
  {
    Resume(w.names, Polling(w.id, FailoverTest, w.stage.oldPrimary), Described(w.group))
  }

  predicate InTime(w: World) {
    w.stage.Running? && !IsPast(w.now, w.stage.deadline)
  }

  predicate IsLate(w: World) {
    w.stage.Running? && IsPast(w.now, w.stage.deadline)
  }

  function Exec(w: World, e: Event): World {
    match e
    case StartDescribe =>
      if !w.stage.Idle? then w
      else
        var t := Resume(w.names, InspectingRoles(w.id), Described(w.group));
        if t.DisablingHA? then w.(stage := Starting(t.oldPrimary)) else w
    case StartModify(fault) =>
      if !w.stage.Starting? then w
      else if Takes(w, DisableHA, fault)
      then Modify(w, DisableHA, fault).(stage := Running(w.stage.oldPrimary, Deadline(w.now)))
      else w.(stage := Idle)
    case PollArrives =>
      if InTime(w) then w.(checked := w.checked + 1) else w
    case PollDescribe(fault) =>
      if !w.stage.Running? || w.checked == 0 then w
      else if !fault && Polled(w).Advancing?
      then w.(checked := w.checked - 1, inFlight := w.inFlight + multiset{Polled(w).change})
      else w.(checked := w.checked - 1)
    case PollModify(change, fault) =>
      if change in w.inFlight
      then Modify(w, change, fault).(inFlight := w.inFlight - multiset{change}) else w
    case AwsCompletes =>
      if w.group.pending.Some? then w.(group := Complete(w.group)) else w
    case AwsBusy(status) =>
      if w.group.status == Some(Available) then w.(group := w.group.(status := Some(status))) else w
    case AwsSettles =>
      if w.group.pending.None? then w.(group := w.group.(status := Some(Available))) else w
    case Tick(elapsed) => w.(now := w.now + elapsed)
  }

  function Run(w: World, es: seq<Event>): World
    decreases |es|
  {
    if es == [] then w else Run(Exec(w, es[0]), es[1..])
  }

  datatype Answer = Reports(state: LastOperationState) | NotYet

  /**
   * What a poll answers that has passed the deadline check and describes the group now; not yet
   * anything if it has a modification to send first. A poll that arrives late times out.
   */
  function AnswerNow(w: World): Answer {
    if !w.stage.Running? || w.checked == 0 then NotYet
    else
      match Polled(w)
      case Finished(_, InState(state)) => Reports(ProviderStatesMapping(state).0)
      case _ => NotYet
  }

  /** The environment: a settled group whose HA is on or off and whose roles are sound. */
  ghost predicate Start(w: World) {
    && w.stage == Idle && w.checked == 0 && w.inFlight == multiset{} && w.accepted == 0
    && w.group.pending.None? && w.group.status.Some?
    && w.group.failover in {Some(Enabled), Some(Disabled)}
    && SoundRoles(Members(w.group.nodeGroups))
  }

  // ---- the phases ----

  function Cut(initial: seq<NodeGroup>): seq<NodeGroup> {
    PromoteIn(initial, ReplicaIn(initial))
  }

  predicate PendingIs(g: Group, change: Modification) {
    g.pending == Some(change) && g.status == Some(Modifying)
  }

  predicate Settled(g: Group, initial: seq<NodeGroup>) {
    // nothing pending, or a cutover to the same target sent once more
    g.status.Some? && (g.pending.None? || PendingIs(g, Cutover(ReplicaIn(initial))))
  }

  /** 1 disabling, 2 disabled, 3 cutting over, 4 disabled on the new primary, 5 enabling, 6 done; 0 none of these. */
  function Phase(g: Group, initial: seq<NodeGroup>): nat {
    if g.nodeGroups == initial then
      if PendingIs(g, DisableHA) && g.failover == Some(Disabling) then 1
      else if g.failover != Some(Disabled) then 0
      else if g.pending.None? && g.status.Some? then 2
      else if PendingIs(g, Cutover(ReplicaIn(initial))) then 3
      else 0
    else if g.nodeGroups == Cut(initial) then
      if PendingIs(g, EnableHA) && g.failover == Some(Enabling) then 5
      else if !Settled(g, initial) then 0
      else if g.failover == Some(Disabled) then 4
      else if g.failover == Some(Enabled) then 6
      else 0
    else 0
  }

  ghost predicate Invariant(w: World, initial: seq<NodeGroup>) {
    && SoundRoles(Members(initial))
    && (match w.stage
        case Running(oldPrimary, _) => oldPrimary == PrimaryIn(initial) && Phase(w.group, initial) >= 1
        case _ =>
          && w.group.nodeGroups == initial && w.checked == 0 && w.inFlight == multiset{} && w.accepted == 0
          && w.group.pending.None? && w.group.status.Some?
          && (w.stage.Starting? ==> w.stage.oldPrimary == PrimaryIn(initial)))
    && (forall change :: change in w.inFlight ==>
          || (change == Cutover(ReplicaIn(initial)) && Phase(w.group, initial) >= 2)
          || (change == EnableHA && Phase(w.group, initial) >= 4))
  }

  /** What the two configurations of roles look like to a scan. */
  lemma Configurations(initial: seq<NodeGroup>)
    requires SoundRoles(Members(initial))
    ensures PrimaryIn(initial) != "" && ReplicaIn(initial) != "" && PrimaryIn(initial) != ReplicaIn(initial)
    ensures PrimaryIn(Cut(initial)) == ReplicaIn(initial) && ReplicaIn(Cut(initial)) != ""
    ensures Cut(initial) != initial && PromoteIn(Cut(initial), ReplicaIn(initial)) == Cut(initial)
  {
    BeforeCutover(initial);
    AfterCutover(initial);
  }

  lemma AcceptedPhase(g: Group, initial: seq<NodeGroup>, change: Modification)
    requires SoundRoles(Members(initial)) && Phase(g, initial) >= 1 && g.status == Some(Available)
    requires (change == Cutover(ReplicaIn(initial)) && Phase(g, initial) >= 2)
          || (change == EnableHA && Phase(g, initial) >= 4)
    ensures Phase(Accept(g, change), initial)
         == if change == EnableHA then 5 else if Phase(g, initial) == 2 then 3 else Phase(g, initial)
  {
    Configurations(initial);
  }

  lemma CompletedPhase(g: Group, initial: seq<NodeGroup>)
    requires SoundRoles(Members(initial)) && Phase(g, initial) >= 1 && g.pending.Some?
    ensures Phase(Complete(g), initial)
         == if Phase(g, initial) in {1, 3, 5} then Phase(g, initial) + 1 else Phase(g, initial)
  {
    Configurations(initial);
  }

  /** What a poll does in each phase: cut over in 2, enable HA in 4, report success in 6, wait otherwise. */
  lemma PollDecision(w: World, initial: seq<NodeGroup>)
    requires Invariant(w, initial) && w.stage.Running?
    ensures var available, phase := w.group.status == Some(Available), Phase(w.group, initial);
      && (Polled(w) == Advancing(w.id, Cutover(ReplicaIn(initial))) <==> available && phase == 2)
      && (Polled(w) == Advancing(w.id, EnableHA) <==> available && phase == 4)
      && (Polled(w) == Finished(w.id, InState(Available)) <==> available && phase == 6)
      && (!available ==> Polled(w) == Finished(w.id, InState(w.group.status.value)))
      && (available ==> phase in {2, 4, 6})
  {
    Configurations(initial);
  }

  lemma InvariantKeptByModify(w: World, change: Modification, fault: bool, initial: seq<NodeGroup>)
    requires Invariant(w, initial)
    ensures Invariant(Exec(w, PollModify(change, fault)), initial)
  {
    if change in w.inFlight && Takes(w, change, fault) {
      AcceptedPhase(w.group, initial, change);
    }
  }

  lemma InvariantKeptByDescribe(w: World, fault: bool, initial: seq<NodeGroup>)
    requires Invariant(w, initial)
    ensures Invariant(Exec(w, PollDescribe(fault)), initial)
  {
    if w.stage.Running? && Polled(w).Advancing? {
      PollDecision(w, initial);
    }
  }

  lemma InvariantKeptByStart(w: World, e: Event, initial: seq<NodeGroup>)
    requires Invariant(w, initial) && (e.StartDescribe? || e.StartModify?)
    ensures Invariant(Exec(w, e), initial)
  {
    Configurations(initial);
  }

  lemma InvariantKeptByAws(w: World, e: Event, initial: seq<NodeGroup>)
    requires Invariant(w, initial) && (e.AwsCompletes? || e.AwsBusy? || e.AwsSettles? || e.Tick?)
    ensures Invariant(Exec(w, e), initial)
  {
    if e.AwsCompletes? && w.stage.Running? && w.group.pending.Some? {
      CompletedPhase(w.group, initial);
    }
  }

  lemma InvariantKept(w: World, e: Event, initial: seq<NodeGroup>)
    requires Invariant(w, initial)
    ensures Invariant(Exec(w, e), initial)
  {
    if e.StartDescribe? || e.StartModify? {
      InvariantKeptByStart(w, e, initial);
    } else if e.PollArrives? {
    } else if e.PollDescribe? {
      InvariantKeptByDescribe(w, e.fault, initial);
    } else if e.PollModify? {
      InvariantKeptByModify(w, e.change, e.fault, initial);
    } else {
      InvariantKeptByAws(w, e, initial);
    }
  }

  lemma {:induction false} InvariantAlways(w: World, es: seq<Event>, initial: seq<NodeGroup>)
    requires Invariant(w, initial)
    ensures Invariant(Run(w, es), initial)
    decreases |es|
  {
    if es != [] {
      InvariantKept(w, es[0], initial);
      InvariantAlways(Exec(w, es[0]), es[1..], initial);
    }
  }

  // ---- safety over whole runs ----

  /** What a finished failover test promises. */
  ghost predicate FailedOver(g: Group, initial: seq<NodeGroup>) {
    var nodes := Members(g.nodeGroups);
    && g.status == Some(Available) && g.failover == Some(Enabled)
    && PrimaryIn(g.nodeGroups) != PrimaryIn(initial)
    && HasNode(nodes, PrimaryIn(g.nodeGroups), Primary) && OnePrimary(nodes)
    && HasNode(nodes, PrimaryIn(initial), Replica)
    && Ids(nodes) == Ids(Members(initial))
  }

  lemma DoneIsFailedOver(g: Group, initial: seq<NodeGroup>)
    requires SoundRoles(Members(initial)) && Phase(g, initial) >= 1
    ensures g.status == Some(Available) && Phase(g, initial) == 6 <==> FailedOver(g, initial)
  {
    BeforeCutover(initial);
    AfterCutover(initial);
    if g.nodeGroups == Cut(initial) {
      LastHasRole(Members(Cut(initial)), Primary);
    }
  }

  /**
   * For every interleaving of polls, overlapping or not, with failed calls, retries and whatever AWS
   * does in between: a poll that was in time answers succeeded exactly when it sees the group failed
   * over, away from the primary that the operation data records.
   */
  lemma SuccessMeansFailedOver(w: World, es: seq<Event>)
    requires Start(w)
    ensures var now, initial := Run(w, es), w.group.nodeGroups;
      && (AnswerNow(now) == Reports(Succeeded) <==> now.checked > 0 && FailedOver(now.group, initial))
      && (now.checked > 0 ==> now.stage.Running? && now.stage.oldPrimary == PrimaryIn(initial))
  {
    var now, initial := Run(w, es), w.group.nodeGroups;
    InvariantAlways(w, es, initial);
    if now.stage.Running? {
      PollDecision(now, initial);
      DoneIsFailedOver(now.group, initial);
    }
  }

  /**
   * Whatever polls saw earlier: every cutover request of a run names the same target, a replica other
   * than the recorded old primary, and no request to enable HA is sent before a cutover has completed.
   */
  lemma RequestsAreOrdered(w: World, es: seq<Event>, change: Modification)
    requires Start(w) && change in Run(w, es).inFlight
    ensures var now, initial := Run(w, es), w.group.nodeGroups;
      && now.stage.Running? && now.stage.oldPrimary == PrimaryIn(initial)
      && (change.Cutover? ==>
            && change.target == ReplicaIn(initial) && change.target != now.stage.oldPrimary
            && HasNode(Members(initial), change.target, Replica))
      && (!change.Cutover? ==> change == EnableHA && PrimaryIn(now.group.nodeGroups) == ReplicaIn(initial))
  {
    var initial := w.group.nodeGroups;
    InvariantAlways(w, es, initial);
    BeforeCutover(initial);
    Configurations(initial);
  }

  // ---- which way the phases go ----

  /** A poll saw HA off on the new primary, and its request is taken when another one's has already completed. */
  predicate IsLateEnable(w: World, e: Event, initial: seq<NodeGroup>) {
    && e == PollModify(EnableHA, false) && EnableHA in w.inFlight
    && w.group.status == Some(Available) && Phase(w.group, initial) == 6
  }

  /** The one step that takes a test back is a late request to enable HA: from done to enabling. */
  lemma PhaseGoesBackOnlyFromDone(w: World, e: Event, initial: seq<NodeGroup>)
    requires Invariant(w, initial) && w.stage.Running?
    ensures var phase, next := Phase(w.group, initial), Phase(Exec(w, e).group, initial);
      && Exec(w, e).stage == w.stage
      && next <= phase + 1
      && (next < phase <==> IsLateEnable(w, e, initial))
      && (next < phase ==> next == 5)
  {
    if e.PollModify? && e.change in w.inFlight && Takes(w, e.change, e.fault) {
      AcceptedPhase(w.group, initial, e.change);
    } else if e.AwsCompletes? && w.group.pending.Some? {
      CompletedPhase(w.group, initial);
    } else if e.AwsBusy? || e.AwsSettles? {
      BusyKeepsPhase(w, e, initial);
    } else {
      assert Exec(w, e).group == w.group;
    }
  }

  lemma BusyKeepsPhase(w: World, e: Event, initial: seq<NodeGroup>)
    requires Invariant(w, initial) && w.stage.Running? && (e.AwsBusy? || e.AwsSettles?)
    ensures Phase(Exec(w, e).group, initial) == Phase(w.group, initial)
  {
  }

  // ---- the deadline ----

  /** Polls past their deadline check that may still send something. */
  function UnderWay(w: World): nat {
    w.checked + |w.inFlight|
  }

  lemma LateStep(w: World, e: Event)
    requires IsLate(w)
    ensures IsLate(Exec(w, e)) && Exec(w, PollArrives) == w
    ensures Exec(w, e).checked <= w.checked
    ensures Exec(w, e).accepted + UnderWay(Exec(w, e)) <= w.accepted + UnderWay(w)
  {
    if e.PollModify? && e.change in w.inFlight {
      assert |w.inFlight - multiset{e.change}| == |w.inFlight| - 1;
    }
  }

  /**
   * Once one poll has timed out every later one does and touches nothing, and AWS takes no more
   * modifications than there were polls past their deadline check at that moment.
   */
  lemma {:induction false} TimedOutForGood(w: World, es: seq<Event>)
    requires IsLate(w)
    ensures var now := Run(w, es);
      && IsLate(now) && Exec(now, PollArrives) == now
      && now.checked <= w.checked
      && now.accepted + UnderWay(now) <= w.accepted + UnderWay(w)
    decreases |es|
  {
    if es == [] {
      LateStep(w, PollArrives);
    } else {
      LateStep(w, es[0]);
      TimedOutForGood(Exec(w, es[0]), es[1..]);
    }
  }

  lemma LateAndQuiet(w: World, e: Event)
    requires IsLate(w) && UnderWay(w) == 0 && w.group.pending.None?
    ensures var w' := Exec(w, e);
      && IsLate(w') && UnderWay(w') == 0 && w'.group.pending.None?
      && w'.group.failover == w.group.failover && w'.group.nodeGroups == w.group.nodeGroups
      && w'.accepted == w.accepted
  {
    assert w.inFlight == multiset{};
  }

  /**
   * So when no poll is still under way once one has timed out, this test modifies nothing any more: if HA
   * is off, it leaves it off.
   */
  lemma {:induction false} NobodyRepairsAfterTheDeadline(w: World, es: seq<Event>)
    requires IsLate(w) && UnderWay(w) == 0 && w.group.pending.None?
    ensures var now := Run(w, es);
      && now.accepted == w.accepted && now.group.pending.None?
      && now.group.failover == w.group.failover && now.group.nodeGroups == w.group.nodeGroups
    decreases |es|
  {
    if es != [] {
      LateAndQuiet(w, es[0]);
      NobodyRepairsAfterTheDeadline(Exec(w, es[0]), es[1..]);
    }
  }
}
