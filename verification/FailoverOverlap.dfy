/** The failover test with polls that overlap: how many modifications it takes then, and leaving done again. */
module FailoverOverlap {
  import opened GoTypes
  import opened Aws
  import opened Requests
  import opened Roles
  import opened Operations
  import opened FailoverTestRun

  // ---- counting modifications ----

  /** The modifications it takes to get to a phase: the start, the cutover, and enabling HA. */
  function Due(w: World, initial: seq<NodeGroup>): nat {
    if !w.stage.Running? then 0
    else 1 + (if Phase(w.group, initial) >= 3 then 1 else 0) + (if Phase(w.group, initial) >= 5 then 1 else 0)
  }

  /** The phase in which polls decide on a modification. */
  function DecidedIn(change: Modification): nat {
    if change.Cutover? then 2 else 4
  }

  /** AWS takes a request of a poll after the test has left the phase in which the poll decided on it. */
  predicate IsStale(w: World, e: Event, initial: seq<NodeGroup>) {
    && e.PollModify? && e.change in w.inFlight && Takes(w, e.change, e.fault)
    && Phase(w.group, initial) != DecidedIn(e.change)
  }

  function StaleIn(w: World, es: seq<Event>, initial: seq<NodeGroup>): nat
    decreases |es|
  {
    if es == [] then 0
    else (if IsStale(w, es[0], initial) then 1 else 0) + StaleIn(Exec(w, es[0]), es[1..], initial)
  }

  lemma CountStep(w: World, e: Event, initial: seq<NodeGroup>)
    requires Invariant(w, initial)
    ensures Exec(w, e).accepted + Due(w, initial)
         == w.accepted + Due(Exec(w, e), initial) + (if IsStale(w, e, initial) then 1 else 0)
  {
    if e.StartDescribe? || e.StartModify? {
      Configurations(initial);
    } else if w.stage.Running? {
      CountRunning(w, e, initial);
    }
  }

  lemma CountRunning(w: World, e: Event, initial: seq<NodeGroup>)
    requires Invariant(w, initial) && w.stage.Running? && !e.StartDescribe? && !e.StartModify?
    ensures Exec(w, e).accepted + Due(w, initial)
         == w.accepted + Due(Exec(w, e), initial) + (if IsStale(w, e, initial) then 1 else 0)
  {
    if e.PollModify? && e.change in w.inFlight && Takes(w, e.change, e.fault) {
      AcceptedPhase(w.group, initial, e.change);
    } else if e.AwsCompletes? && w.group.pending.Some? {
      CompletedPhase(w.group, initial);
    } else if e.AwsBusy? || e.AwsSettles? {
      BusyKeepsPhase(w, e, initial);
    } else {
      assert Exec(w, e).group == w.group && Exec(w, e).accepted == w.accepted;
    }
  }

  lemma {:induction false} CountRun(w: World, es: seq<Event>, initial: seq<NodeGroup>)
    requires Invariant(w, initial)
    ensures Run(w, es).accepted + Due(w, initial)
         == w.accepted + Due(Run(w, es), initial) + StaleIn(w, es, initial)
    decreases |es|
  {
    if es != [] {
      CountStep(w, es[0], initial);
      InvariantKept(w, es[0], initial);
      CountRun(Exec(w, es[0]), es[1..], initial);
    }
  }

  /**
   * In every run AWS has accepted what the phase takes and, beyond that, exactly the stale requests.
   * So a test that is done has taken three modifications if and only if no stale request was taken.
   */
  lemma ModificationsAreCounted(w: World, es: seq<Event>)
    requires Start(w)
    ensures var now, initial := Run(w, es), w.group.nodeGroups;
      && now.accepted == Due(now, initial) + StaleIn(w, es, initial)
      && (now.stage.Running? && Phase(now.group, initial) == 6 ==>
            (now.accepted == 3 <==> StaleIn(w, es, initial) == 0))
  {
    CountRun(w, es, w.group.nodeGroups);
  }

  // ---- runs with overlapping polls ----

  lemma {:induction false} RunConcat(w: World, a: seq<Event>, b: seq<Event>)
    ensures Run(w, a + b) == Run(Run(w, a), b)
    decreases |a|
  {
    if a == [] {
      assert a + b == b;
    } else {
      assert (a + b)[1..] == a[1..] + b;
      RunConcat(Exec(w, a[0]), a[1..], b);
    }
  }

  lemma RunTwo(w: World, a: Event, b: Event)
    ensures Run(w, [a, b]) == Exec(Exec(w, a), b)
  {
    assert [a, b][1..] == [b] && [b][1..] == [];
    assert Run(w, [a, b]) == Run(Exec(w, a), [b]);
  }

  /** Settled in a phase, in time. */
  ghost predicate Rests(w: World, initial: seq<NodeGroup>, phase: nat) {
    && Invariant(w, initial) && InTime(w) && w.checked == 0
    && w.group.status == Some(Available) && w.group.pending.None? && Phase(w.group, initial) == phase
  }

  /** n polls that get as far as describing the group. */
  function Gather(n: nat): seq<Event> {
    if n == 0 then [] else [PollArrives, PollDescribe(false)] + Gather(n - 1)
  }

  function Ready(w: World, change: Modification, n: nat): World {
    w.(inFlight := w.inFlight[change := w.inFlight[change] + n])
  }

  /** What the next poll is going to do. */
  predicate Decides(w: World, change: Modification) {
    InTime(w) && w.checked == 0 && Polled(w) == Advancing(w.id, change)
  }

  lemma OneDecides(w: World, change: Modification)
    requires Decides(w, change)
    ensures Exec(Exec(w, PollArrives), PollDescribe(false)) == Ready(w, change, 1)
    ensures Decides(Ready(w, change, 1), change)
  {
    assert Polled(Exec(w, PollArrives)) == Polled(w) == Polled(Ready(w, change, 1));
    assert w.inFlight + multiset{change} == w.inFlight[change := w.inFlight[change] + 1];
  }

  lemma GatherOneMore(w: World, n: nat)
    requires n > 0
    ensures Run(w, Gather(n)) == Run(Exec(Exec(w, PollArrives), PollDescribe(false)), Gather(n - 1))
  {
    RunTwo(w, PollArrives, PollDescribe(false));
    RunConcat(w, [PollArrives, PollDescribe(false)], Gather(n - 1));
  }

  lemma GatherStep(w: World, change: Modification, n: nat)
    requires Decides(w, change) && n > 0
    ensures Run(w, Gather(n)) == Run(Ready(w, change, 1), Gather(n - 1))
    ensures Decides(Ready(w, change, 1), change)
  {
    OneDecides(w, change);
    GatherOneMore(w, n);
  }

  lemma ReadyOneMore(w: World, change: Modification, n: nat)
    requires n > 0
    ensures Ready(Ready(w, change, 1), change, n - 1) == Ready(w, change, n)
  {
    var one := w.inFlight[change := w.inFlight[change] + 1];
    assert one[change := one[change] + (n - 1)] == w.inFlight[change := w.inFlight[change] + n];
  }

  lemma {:induction false} GatherDecides(w: World, change: Modification, n: nat)
    requires Decides(w, change)
    ensures Run(w, Gather(n)) == Ready(w, change, n)
    decreases n
  {
    if n == 0 {
      assert w.inFlight[change := w.inFlight[change] + 0] == w.inFlight;
    } else {
      GatherStep(w, change, n);
      GatherDecides(Ready(w, change, 1), change, n - 1);
      ReadyOneMore(w, change, n);
    }
  }

  lemma GatherRests(w: World, initial: seq<NodeGroup>, change: Modification, n: nat)
    requires Rests(w, initial, DecidedIn(change)) && change in {Cutover(ReplicaIn(initial)), EnableHA}
    ensures Run(w, Gather(n)) == Ready(w, change, n)
    ensures Rests(Ready(w, change, n), initial, DecidedIn(change))
  {
    PollDecision(w, initial);
    GatherDecides(w, change, n);
    InvariantAlways(w, Gather(n), initial);
  }

  /** A request is sent, and what it asks for completes. */
  function Send(change: Modification): seq<Event> {
    [PollModify(change, false), AwsCompletes]
  }

  lemma SentAndCompleted(w: World, initial: seq<NodeGroup>, change: Modification)
    requires Rests(w, initial, 2) || Rests(w, initial, 4)
    requires change in w.inFlight && (change == EnableHA ==> Phase(w.group, initial) == 4)
    ensures var next := Run(w, Send(change));
      && Rests(next, initial, if change == EnableHA then 6 else 4)
      && next.inFlight == w.inFlight - multiset{change} && next.accepted == w.accepted + 1
  {
    RunTwo(w, PollModify(change, false), AwsCompletes);
    Sent(w, initial, change);
    InvariantKept(w, PollModify(change, false), initial);
    Completed(Exec(w, PollModify(change, false)), initial);
  }

  lemma Sent(w: World, initial: seq<NodeGroup>, change: Modification)
    requires Rests(w, initial, 2) || Rests(w, initial, 4)
    requires change in w.inFlight && (change == EnableHA ==> Phase(w.group, initial) == 4)
    ensures var sent := Exec(w, PollModify(change, false));
      && sent == w.(group := Accept(w.group, change), accepted := w.accepted + 1,
                    inFlight := w.inFlight - multiset{change})
      && sent.group.pending == Some(change)
      && Phase(sent.group, initial) == if change == EnableHA then 5 else Phase(w.group, initial) / 2 + 2
  {
    TakesCutover(w.group, initial);
    AcceptedPhase(w.group, initial, change);
  }

  lemma Completed(w: World, initial: seq<NodeGroup>)
    requires Invariant(w, initial) && InTime(w) && w.checked == 0 && w.group.pending.Some?
    requires Phase(w.group, initial) in {3, 4, 5}
    ensures var next := Exec(w, AwsCompletes);
      && Rests(next, initial, if Phase(w.group, initial) == 5 then 6 else 4)
      && next == w.(group := Complete(w.group))
  {
    CompletedPhase(w.group, initial);
    InvariantKept(w, AwsCompletes, initial);
  }

  lemma TakesCutover(g: Group, initial: seq<NodeGroup>)
    requires SoundRoles(Members(initial)) && g.status == Some(Available) && Phase(g, initial) >= 1
    ensures Accepts(g, Cutover(ReplicaIn(initial)))
  {
    BeforeCutover(initial);
    AfterCutover(initial);
    if g.nodeGroups != initial {
      LastHasRole(Members(g.nodeGroups), Primary);
    }
  }

  function SendAll(change: Modification, n: nat): seq<Event> {
    if n == 0 then [] else Send(change) + SendAll(change, n - 1)
  }

  lemma CutoverTaken(w: World, initial: seq<NodeGroup>, cutover: Modification, n: nat) returns (next: World)
    requires Rests(w, initial, 2) || Rests(w, initial, 4)
    requires cutover == Cutover(ReplicaIn(initial)) && n >= 1 && w.inFlight[cutover] == n
    ensures Rests(next, initial, 4) && next.accepted == w.accepted + 1
    ensures next.inFlight[cutover] == n - 1 && next.inFlight[cutover := 0] == w.inFlight[cutover := 0]
    ensures Run(w, SendAll(cutover, n)) == Run(next, SendAll(cutover, n - 1))
  {
    next := Run(w, Send(cutover));
    SentAndCompleted(w, initial, cutover);
    RunConcat(w, Send(cutover), SendAll(cutover, n - 1));
    assert (w.inFlight - multiset{cutover})[cutover := 0] == w.inFlight[cutover := 0];
  }

  /** The run leads to a world settled in phase 4, where the n cutovers are no longer under way but accepted. */
  ghost predicate TakesAll(w: World, initial: seq<NodeGroup>, cutover: Modification, n: nat, next: World) {
    Rests(next, initial, 4) && next.inFlight == w.inFlight[cutover := 0] && next.accepted == w.accepted + n
  }

  lemma NoneLeft(w: World, initial: seq<NodeGroup>, cutover: Modification)
    requires Rests(w, initial, 4) && w.inFlight[cutover] == 0
    ensures TakesAll(w, initial, cutover, 0, Run(w, SendAll(cutover, 0)))
  {
    assert w.inFlight[cutover := 0] == w.inFlight;
  }

  lemma TakesOneMore(
      w: World, initial: seq<NodeGroup>, cutover: Modification, n: nat, next: World, last: World)
    requires n >= 1 && next.inFlight[cutover := 0] == w.inFlight[cutover := 0] && next.accepted == w.accepted + 1
    requires TakesAll(next, initial, cutover, n - 1, last)
    ensures TakesAll(w, initial, cutover, n, last)
  {
  }

  /** Every cutover that was decided on gets its turn, the stale ones included. */
  lemma {:induction false} AllCutoversTaken(w: World, initial: seq<NodeGroup>, cutover: Modification, n: nat)
    requires Rests(w, initial, 4) || (Rests(w, initial, 2) && n >= 1)
    requires cutover == Cutover(ReplicaIn(initial)) && w.inFlight[cutover] == n
    ensures TakesAll(w, initial, cutover, n, Run(w, SendAll(cutover, n)))
    decreases n
  {
    if n == 0 {
      NoneLeft(w, initial, cutover);
    } else {
      var next := CutoverTaken(w, initial, cutover, n);
      AllCutoversTaken(next, initial, cutover, n - 1);
      TakesOneMore(w, initial, cutover, n, next, Run(next, SendAll(cutover, n - 1)));
    }
  }

  /** From the start to HA switched off. */
  function StartRun(): seq<Event> {
    [StartDescribe, StartModify(false), AwsCompletes]
  }

  lemma StartAccepted(w: World)
    requires Start(w) && w.group.status == Some(Available)
    ensures var initial := w.group.nodeGroups;
      Run(w, [StartDescribe, StartModify(false)]) == w.(
        stage := Running(PrimaryIn(initial), Deadline(w.now)), group := Accept(w.group, DisableHA), accepted := 1)
  {
    Configurations(w.group.nodeGroups);
    RunTwo(w, StartDescribe, StartModify(false));
  }

  lemma StartRests(w: World)
    requires Start(w) && w.group.status == Some(Available)
    ensures var off := Run(w, StartRun());
      Rests(off, w.group.nodeGroups, 2) && off.inFlight == multiset{} && off.accepted == 1
  {
    StartAccepted(w);
    InvariantAlways(w, [StartDescribe, StartModify(false)], w.group.nodeGroups);
    var asked := Run(w, [StartDescribe, StartModify(false)]);
    RunConcat(w, [StartDescribe, StartModify(false)], [AwsCompletes]);
    assert [StartDescribe, StartModify(false)] + [AwsCompletes] == StartRun();
    assert [AwsCompletes][1..] == [];
    StartCompleted(asked, w.group.nodeGroups);
  }

  lemma StartCompleted(w: World, initial: seq<NodeGroup>)
    requires Invariant(w, initial) && InTime(w) && w.checked == 0 && Phase(w.group, initial) == 1
    ensures var off := Exec(w, AwsCompletes);
      Rests(off, initial, 2) && off == w.(group := Complete(w.group))
  {
    CompletedPhase(w.group, initial);
    InvariantKept(w, AwsCompletes, initial);
  }

  lemma EmptyAgain(m: multiset<Modification>, change: Modification, n: nat)
    requires m == multiset{}
    ensures m[change := m[change] + n][change] == n
    ensures m[change := m[change] + n][change := 0] == multiset{}
  {
  }

  lemma CutTogether(w: World, initial: seq<NodeGroup>, cutover: Modification, n: nat)
    requires Rests(w, initial, 2) && w.inFlight == multiset{} && cutover == Cutover(ReplicaIn(initial))
    ensures var cut := Run(w, Gather(n + 1) + SendAll(cutover, n + 1));
      Rests(cut, initial, 4) && cut.inFlight == multiset{} && cut.accepted == w.accepted + n + 1
  {
    GatherRests(w, initial, cutover, n + 1);
    EmptyAgain(w.inFlight, cutover, n + 1);
    AllCutoversTaken(Ready(w, cutover, n + 1), initial, cutover, n + 1);
    RunConcat(w, Gather(n + 1), SendAll(cutover, n + 1));
  }

  /** n + 1 polls describe the group together, and all of them get their cutover taken. */
  lemma CutOver(w: World, n: nat) returns (es: seq<Event>)
    requires Start(w) && w.group.status == Some(Available)
    ensures var cut := Run(w, es);
      Rests(cut, w.group.nodeGroups, 4) && cut.inFlight == multiset{} && cut.accepted == n + 2
  {
    var cutover := Cutover(ReplicaIn(w.group.nodeGroups));
    var together := Gather(n + 1) + SendAll(cutover, n + 1);
    es := StartRun() + together;
    StartRests(w);
    CutTogether(Run(w, StartRun()), w.group.nodeGroups, cutover, n);
    RunConcat(w, StartRun(), together);
  }

  /** n + 1 polls describe the group together and decide to enable HA, and one of them gets it done. */
  lemma EnableAgain(w: World, initial: seq<NodeGroup>, n: nat) returns (es: seq<Event>)
    requires Rests(w, initial, 4) && w.inFlight == multiset{}
    ensures var done := Run(w, es);
      && Rests(done, initial, 6) && done.accepted == w.accepted + 1
      && done.inFlight == multiset{}[EnableHA := n]
  {
    GatherRests(w, initial, EnableHA, n + 1);
    EnableSent(Ready(w, EnableHA, n + 1), initial, n);
    RunConcat(w, Gather(n + 1), Send(EnableHA));
    es := Gather(n + 1) + Send(EnableHA);
  }

  lemma EnableSent(w: World, initial: seq<NodeGroup>, n: nat)
    requires Rests(w, initial, 4) && w.inFlight == multiset{}[EnableHA := n + 1]
    ensures var done := Run(w, Send(EnableHA));
      && Rests(done, initial, 6) && done.accepted == w.accepted + 1
      && done.inFlight == multiset{}[EnableHA := n]
  {
    SentAndCompleted(w, initial, EnableHA);
    OneLess(n);
  }

  lemma OneLess(n: nat)
    ensures multiset{}[EnableHA := n + 1] - multiset{EnableHA} == multiset{}[EnableHA := n]
  {
  }

  lemma DoneAnswers(w: World, initial: seq<NodeGroup>)
    requires Rests(w, initial, 6)
    ensures AnswerNow(Exec(w, PollArrives)) == Reports(Succeeded)
  {
    InvariantKept(w, PollArrives, initial);
    PollDecision(Exec(w, PollArrives), initial);
  }

  /**
   * Overlapping polls break the bound of three, and any other one: every group that is available has,
   * for each n, a run that ends in success with n stale cutovers taken, 3 + n modifications in all.
   */
  lemma OverlapHasNoBound(w: World, n: nat) returns (es: seq<Event>)
    requires Start(w) && w.group.status == Some(Available)
    ensures var done := Run(w, es);
      && Phase(done.group, w.group.nodeGroups) == 6 && done.accepted == 3 + n
      && StaleIn(w, es, w.group.nodeGroups) == n
      && AnswerNow(Exec(done, PollArrives)) == Reports(Succeeded)
  {
    var initial := w.group.nodeGroups;
    var cutting := CutOver(w, n);
    var enabling := EnableAgain(Run(w, cutting), initial, 0);
    RunConcat(w, cutting, enabling);
    es := cutting + enabling;
    DoneAnswers(Run(w, es), initial);
    ModificationsAreCounted(w, es);
  }

  /**
   * A test already reported succeeded can leave `available` again: two polls decide to enable HA, the
   * second one's request is taken after the first has completed, and the next poll reports in progress.
   */
  lemma DoneCanBeLeft(w: World) returns (es: seq<Event>)
    requires Start(w) && w.group.status == Some(Available)
    ensures var done, initial := Run(w, es), w.group.nodeGroups;
      var left := Exec(done, PollModify(EnableHA, false));
      && AnswerNow(Exec(done, PollArrives)) == Reports(Succeeded)
      && IsLateEnable(done, PollModify(EnableHA, false), initial)
      && Phase(left.group, initial) == 5 && AnswerNow(Exec(left, PollArrives)) == Reports(InProgress)
  {
    var initial := w.group.nodeGroups;
    var cutting := CutOver(w, 0);
    var enabling := EnableAgain(Run(w, cutting), initial, 1);
    RunConcat(w, cutting, enabling);
    es := cutting + enabling;
    LateEnable(Run(w, es), initial);
  }

  lemma LateEnable(done: World, initial: seq<NodeGroup>)
    requires Rests(done, initial, 6) && EnableHA in done.inFlight
    ensures var left := Exec(done, PollModify(EnableHA, false));
      && AnswerNow(Exec(done, PollArrives)) == Reports(Succeeded)
      && Phase(left.group, initial) == 5 && AnswerNow(Exec(left, PollArrives)) == Reports(InProgress)
  {
    var left := Exec(done, PollModify(EnableHA, false));
    DoneAnswers(done, initial);
    AcceptedPhase(done.group, initial, EnableHA);
    assert left.group == Accept(done.group, EnableHA) && InTime(left);
    EnablingAnswers(Exec(left, PollArrives));
  }

  lemma EnablingAnswers(w: World)
    requires w.stage.Running? && w.checked > 0 && w.group.status == Some(Modifying)
    ensures AnswerNow(w) == Reports(InProgress)
  {
  }
}
