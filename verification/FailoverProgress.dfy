/** The failover test with one poll at a time: how many polls it takes, and how many modifications. */
module FailoverProgress {
  import opened GoTypes
  import opened Aws
  import opened Requests
  import opened Roles
  import opened Operations
  import opened FailoverTestRun

  /**
   * A poll whose check, describe and modify follow each other at once, one whose describe fails, or
   * something AWS or the clock does.
   */
  datatype Turn = Poll(fault: bool) | BlindPoll | Meanwhile(event: Event)

  predicate IsMeanwhile(e: Event) {
    e.AwsCompletes? || e.AwsBusy? || e.AwsSettles? || e.Tick?
  }

  function Take(w: World, turn: Turn): World {
    match turn
    case Poll(fault) =>
      var described := Exec(Exec(w, PollArrives), PollDescribe(false));
      if InTime(w) && Polled(w).Advancing? then Exec(described, PollModify(Polled(w).change, fault)) else described
    case BlindPoll => Exec(Exec(w, PollArrives), PollDescribe(true))
    case Meanwhile(e) => if IsMeanwhile(e) then Exec(w, e) else w
  }

  /** Polls that saw the group available, those whose modify failed, and those that answered succeeded. */
  datatype Tally = Tally(seen: nat, failed: nat, succeeded: nat)

  function Count(w: World, turn: Turn, c: Tally): Tally {
    if turn.Poll? && InTime(w) && w.group.status == Some(Available) then
      Tally(
        c.seen + 1,
        if Polled(w).Advancing? && !Takes(w, Polled(w).change, turn.fault) then c.failed + 1 else c.failed,
        if AnswerNow(Exec(w, PollArrives)) == Reports(Succeeded) then c.succeeded + 1 else c.succeeded)
    else c
  }

  datatype Played = Played(world: World, tally: Tally)

  function Play(w: World, c: Tally, turns: seq<Turn>): Played
    decreases |turns|
  {
    if turns == [] then Played(w, c) else Play(Take(w, turns[0]), Count(w, turns[0], c), turns[1..])
  }

  ghost predicate InStep(w: World, c: Tally, initial: seq<NodeGroup>) {
    && Invariant(w, initial) && w.stage.Running? && UnderWay(w) == 0
    && match Phase(w.group, initial)
       case 1 => w.accepted == 1 && c.seen == c.failed && c.succeeded == 0
       case 2 => w.accepted == 1 && c.seen == c.failed && c.succeeded == 0
       case 3 => w.accepted == 2 && c.seen == c.failed + 1 && c.succeeded == 0
       case 4 => w.accepted == 2 && c.seen == c.failed + 1 && c.succeeded == 0
       case 5 => w.accepted == 3 && c.seen == c.failed + 2 && c.succeeded == 0
       case _ => w.accepted == 3 && c.seen == c.failed + 2 + c.succeeded
  }

  /** AWS takes what a poll that sees the group available asks for, unless the call faults. */
  lemma PollIsTaken(w: World, initial: seq<NodeGroup>, fault: bool)
    requires Invariant(w, initial) && InTime(w) && Polled(w).Advancing?
    ensures w.group.status == Some(Available)
    ensures Takes(w, Polled(w).change, fault) <==> !fault
    ensures Phase(w.group, initial) in {2, 4}
    ensures !fault ==> Phase(Accept(w.group, Polled(w).change), initial) == Phase(w.group, initial) + 1
  {
    PollDecision(w, initial);
    BeforeCutover(initial);
    if Phase(w.group, initial) == 2 {
      var i :| 0 <= i < |Members(initial)| && Members(initial)[i] == Node(ReplicaIn(initial), Replica);
    }
    AcceptedPhase(w.group, initial, Polled(w).change);
  }

  /** Nothing is left under way between turns. */
  lemma PollAtOnce(w: World, fault: bool)
    requires UnderWay(w) == 0 && w.stage.Running?
    ensures Take(w, Poll(fault)) == if InTime(w) && Polled(w).Advancing? then Modify(w, Polled(w).change, fault) else w
  {
    assert w.inFlight == multiset{};
    if InTime(w) && Polled(w).Advancing? {
      assert multiset{} + multiset{Polled(w).change} - multiset{Polled(w).change} == multiset{};
    }
  }

  lemma InStepKeptByPoll(w: World, c: Tally, fault: bool, initial: seq<NodeGroup>)
    requires InStep(w, c, initial)
    ensures InStep(Take(w, Poll(fault)), Count(w, Poll(fault), c), initial)
  {
    PollDecision(w, initial);
    PollAtOnce(w, fault);
    if InTime(w) && Polled(w).Advancing? {
      PollIsTaken(w, initial, fault);
    }
  }

  lemma InStepKeptMeanwhile(w: World, c: Tally, e: Event, initial: seq<NodeGroup>)
    requires InStep(w, c, initial) && IsMeanwhile(e)
    ensures InStep(Exec(w, e), c, initial)
  {
    InvariantKeptByAws(w, e, initial);
    if e.AwsCompletes? && w.group.pending.Some? {
      CompletedPhase(w.group, initial);
    }
  }

  lemma InStepKept(w: World, c: Tally, turn: Turn, initial: seq<NodeGroup>)
    requires InStep(w, c, initial)
    ensures InStep(Take(w, turn), Count(w, turn, c), initial)
  {
    match turn
    case Poll(fault) => InStepKeptByPoll(w, c, fault, initial);
    case BlindPoll =>
      assert Take(w, turn).group == w.group && Take(w, turn).inFlight == w.inFlight;
    case Meanwhile(e) =>
      if IsMeanwhile(e) {
        InStepKeptMeanwhile(w, c, e, initial);
      }
  }

  /** Without overlap no turn takes the test back, not even from done. */
  lemma PhaseOnlyRises(w: World, c: Tally, turn: Turn, initial: seq<NodeGroup>)
    requires InStep(w, c, initial)
    ensures Phase(w.group, initial) <= Phase(Take(w, turn).group, initial) <= Phase(w.group, initial) + 1
  {
    if turn.Poll? {
      PollAtOnce(w, turn.fault);
      if InTime(w) && Polled(w).Advancing? {
        PollIsTaken(w, initial, turn.fault);
      }
    } else if turn.Meanwhile? && IsMeanwhile(turn.event) {
      PhaseMeanwhile(w, turn.event, initial);
    }
  }

  lemma PhaseMeanwhile(w: World, e: Event, initial: seq<NodeGroup>)
    requires Invariant(w, initial) && w.stage.Running? && IsMeanwhile(e)
    ensures Phase(w.group, initial) <= Phase(Exec(w, e).group, initial) <= Phase(w.group, initial) + 1
  {
    if e.AwsCompletes? && w.group.pending.Some? {
      CompletedPhase(w.group, initial);
    }
  }

  lemma {:induction false} InStepAlways(w: World, c: Tally, turns: seq<Turn>, initial: seq<NodeGroup>)
    requires InStep(w, c, initial)
    ensures var p := Play(w, c, turns); InStep(p.world, p.tally, initial)
    decreases |turns|
  {
    if turns != [] {
      InStepKept(w, c, turns[0], initial);
      InStepAlways(Take(w, turns[0]), Count(w, turns[0], c), turns[1..], initial);
    }
  }

  /** An accepted start of a failover test. */
  function Started(w: World): World {
    Exec(Exec(w, StartDescribe), StartModify(false))
  }

  lemma StartIsAccepted(w: World)
    requires Start(w) && w.group.status == Some(Available)
    ensures InStep(Started(w), Tally(0, 0, 0), w.group.nodeGroups)
    ensures Started(w).stage == Running(PrimaryIn(w.group.nodeGroups), Deadline(w.now))
  {
    Configurations(w.group.nodeGroups);
  }

  /**
   * With one poll at a time and k modify calls of polls failing, exactly the polls from the (k+3)th
   * that see the group available answer succeeded; by then three modifications have been accepted, the
   * start included, and there is never a fourth.
   */
  lemma ThreePollsAndThreeModifications(w: World, turns: seq<Turn>)
    requires Start(w) && w.group.status == Some(Available)
    ensures var p := Play(Started(w), Tally(0, 0, 0), turns);
      var effective := p.tally.seen - p.tally.failed;
      && p.world.accepted == 1 + (if effective < 2 then effective else 2)
      && p.tally.succeeded == (if effective < 2 then 0 else effective - 2)
      && (InTime(p.world) && p.world.group.status == Some(Available) ==>
            (AnswerNow(Exec(p.world, PollArrives)) == Reports(Succeeded) <==> effective >= 2))
  {
    var initial := w.group.nodeGroups;
    StartIsAccepted(w);
    InStepAlways(Started(w), Tally(0, 0, 0), turns, initial);
    PollDecision(Play(Started(w), Tally(0, 0, 0), turns).world, initial);
  }
}
