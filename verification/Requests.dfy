/**
 * Each broker request as the sequence of AWS calls it makes. A `Task` is a request stopped just
 * before a call: `NextCall` is that call and `Resume` is what the code does with the reply. Requests
 * that run side by side interleave at these points (Lifecycle); `RunAlone` is one running undisturbed.
 */
module Requests {
  import opened GoTypes
  import opened Aws
  import opened Naming

  /** Action strings in the operation data. */
  datatype Action = Provisioning | Deprovisioning | Updating | FailoverTest | OtherAction(text: string)

  /** What a provision hands to AWS. `token` is the generated password. */
  datatype ProvisionSpec = ProvisionSpec(
    parameters: map<string, string>,
    tags: map<string, string>,
    restoreFrom: Option<string>,
    token: GoString)

  datatype Credentials = Credentials(host: GoString, port: nat, name: GoString, password: GoString)

  datatype Outcome =
    | Success
    | Failed
    | Panicked                          // a nil pointer is dereferenced
    | InState(state: Status)            // LastOperation found the group in this state
    | Gone                              // ErrInstanceDoesNotExist
    | FailoverStarted(oldPrimary: string)
    | Bound(credentials: Credentials)

  datatype Task =
    // Provision
    | CreatingParamGroup(id: GoString, spec: ProvisionSpec)
    | SettingParams(id: GoString, spec: ProvisionSpec)
    | CreatingSecret(id: GoString, spec: ProvisionSpec)
    | CreatingGroup(id: GoString, spec: ProvisionSpec)
    | UndoingParamGroup(id: GoString, spec: ProvisionSpec)
    | UndoingSecret(id: GoString, spec: ProvisionSpec)
    // Deprovision
    | DeletingGroup(id: GoString)
    | DeletingSecret(id: GoString)
    // Update
    | UpdatingWindow(id: GoString, window: string, policy: Option<string>)
    | UpdatingPolicy(id: GoString, value: string)
    | InspectingRoles(id: GoString)
    | DisablingHA(id: GoString, oldPrimary: string)
    // LastOperation
    | Polling(id: GoString, action: Action, oldPrimary: string)
    | Advancing(id: GoString, change: Modification)
    | DroppingParamGroup(id: GoString)
    // Bind
    | LocatingGroup(id: GoString)
    | ReadingSecret(id: GoString, endpoint: Endpoint)
    | Finished(id: GoString, outcome: Outcome)

  // ---- decisions ----

  function LastOrEmpty(ids: seq<string>): string {
    if ids == [] then "" else ids[|ids| - 1]
  }

  /** The node a scan settles on: the last one in the role. */
  function PrimaryIn(nodeGroups: seq<NodeGroup>): string {
    LastOrEmpty(IdsWithRole(Members(nodeGroups), Primary))
  }

  function ReplicaIn(nodeGroups: seq<NodeGroup>): string {
    LastOrEmpty(IdsWithRole(Members(nodeGroups), Replica))
  }

  datatype Verdict = Report(state: Status) | Ask(change: Modification) | Reject | NilPointer

  /** ProgressState on the group it has described. */
  function Progress(g: Group, action: Action, oldPrimary: string): Verdict {
    if g.status.None? then Reject
    else if g.status.value == Available && action == FailoverTest then
      if PrimaryIn(g.nodeGroups) == "" || ReplicaIn(g.nodeGroups) == "" then Reject
      else if g.failover.None? then NilPointer
      else if g.failover.value == Disabled then
        if oldPrimary != "" && PrimaryIn(g.nodeGroups) == oldPrimary
        then Ask(Cutover(ReplicaIn(g.nodeGroups)))
        else Ask(EnableHA)
      else Report(Available)
    else Report(g.status.value)
  }

  function EndpointOf(g: Group): Option<Endpoint> {
    if g.configurationEndpoint.Some? then g.configurationEndpoint
    else if g.nodeGroups == [] then None
    else Some(g.nodeGroups[0].primaryEndpoint)
  }

  function WithClusterDefault(parameters: map<string, string>): map<string, string> {
    if "cluster-enabled" in parameters then parameters else parameters["cluster-enabled" := "no"]
  }

  /** How instance ids become names in AWS. */
  datatype Names = Names(group: GoString -> GoString, secret: GoString -> GoString)

  function BrokerNames(prefix: GoString): Names {
    Names(GenerateReplicationGroupName, (id: GoString) => AuthTokenPath(prefix, id))
  }

  function AuthTokenPath(prefix: GoString, id: GoString): GoString {
    prefix + "/" + id + "/auth-token"
  }

  lemma PathsAreDistinct(prefix: GoString, a: GoString, b: GoString)
    ensures AuthTokenPath(prefix, a) == AuthTokenPath(prefix, b) <==> a == b
  {
    if AuthTokenPath(prefix, a) == AuthTokenPath(prefix, b) {
      var start := |prefix| + 1;
      assert |a| == |b|;
      assert AuthTokenPath(prefix, a)[start..start + |a|] == a;
      assert AuthTokenPath(prefix, b)[start..start + |a|] == b;
    }
  }

  // ---- steps ----

  function NextCall(names: Names, t: Task): Call
    requires !t.Finished?
  {
    var name, path := names.group(t.id), names.secret(t.id);
    match t
    case CreatingParamGroup(_, _) => CreateParamGroup(name)
    case SettingParams(_, spec) => ModifyParamGroup(name, WithClusterDefault(spec.parameters))
    case CreatingSecret(_, spec) => CreateSecret(path, spec.token)
    case CreatingGroup(_, spec) => CreateGroup(name, spec.token, spec.tags, spec.restoreFrom)
    case UndoingParamGroup(_, _) => DeleteParamGroup(name)
    case UndoingSecret(_, _) => DeleteSecret(path, 7)
    case DeletingGroup(_) => DeleteGroup(name)
    case DeletingSecret(_) => DeleteSecret(path, 30)
    case UpdatingWindow(_, window, _) => ModifyGroup(name, SetWindow(window))
    case UpdatingPolicy(_, value) => ModifyParamGroup(name, map["maxmemory-policy" := value])
    case InspectingRoles(_) => DescribeGroup(name)
    case DisablingHA(_, _) => ModifyGroup(name, DisableHA)
    case Polling(_, _, _) => DescribeGroup(name)
    case Advancing(_, change) => ModifyGroup(name, change)
    case DroppingParamGroup(_) => DeleteParamGroup(name)
    case LocatingGroup(_) => DescribeGroup(name)
    case ReadingSecret(_, _) => GetSecret(path)
  }

  /** How many calls a task can still make. */
  function CallsLeft(t: Task): nat {
    match t
    case CreatingParamGroup(_, _) => 6
    case SettingParams(_, _) => 5
    case CreatingSecret(_, _) => 4
    case CreatingGroup(_, _) => 3
    case UndoingParamGroup(_, _) => 2
    case DeletingGroup(_) => 2
    case UpdatingWindow(_, _, _) => 2
    case InspectingRoles(_) => 2
    case Polling(_, _, _) => 2
    case LocatingGroup(_) => 2
    case Finished(_, _) => 0
    case _ => 1
  }

  function Resume(names: Names, t: Task, reply: Reply): (r: Task)
    requires !t.Finished?
    ensures r.id == t.id && CallsLeft(r) < CallsLeft(t)
  {
    var failed := Finished(t.id, Failed);
    match t
    case CreatingParamGroup(id, spec) => if reply.Accepted? then SettingParams(id, spec) else failed
    case SettingParams(id, spec) => if reply.Accepted? then CreatingSecret(id, spec) else failed
    case CreatingSecret(id, spec) => if reply.Accepted? then CreatingGroup(id, spec) else failed
    case CreatingGroup(id, spec) =>
      if reply.Accepted? then Finished(id, Success) else UndoingParamGroup(id, spec)
    case UndoingParamGroup(id, spec) => UndoingSecret(id, spec)
    case UndoingSecret(_, _) => failed
    case DeletingGroup(id) => if reply.Accepted? then DeletingSecret(id) else failed
    case DeletingSecret(id) => if reply.Accepted? then Finished(id, Success) else failed
    case UpdatingWindow(id, _, policy) =>
      if !reply.Accepted? then failed
      else if policy.Some? then UpdatingPolicy(id, policy.value)
      else Finished(id, Success)
    case UpdatingPolicy(id, _) => if reply.Accepted? then Finished(id, Success) else failed
    case InspectingRoles(id) =>
      if !reply.Described? then Finished(id, Panicked)
      else if PrimaryIn(reply.group.nodeGroups) == "" || ReplicaIn(reply.group.nodeGroups) == "" then failed
      else DisablingHA(id, PrimaryIn(reply.group.nodeGroups))
    case DisablingHA(id, oldPrimary) =>
      if reply.Accepted? then Finished(id, FailoverStarted(oldPrimary)) else failed
    case Polling(id, action, oldPrimary) =>
      if reply == Refused(NotFound) then
        if action == Deprovisioning then DroppingParamGroup(id) else Finished(id, Gone)
      else if !reply.Described? then failed
      else
        (match Progress(reply.group, action, oldPrimary)
         case Report(state) => Finished(id, InState(state))
         case Ask(change) => Advancing(id, change)
         case Reject => failed
         case NilPointer => Finished(id, Panicked))
    case Advancing(id, _) => if reply.Accepted? then Finished(id, InState(Modifying)) else failed
    case DroppingParamGroup(id) =>
      if reply.Accepted? || reply == Refused(NotFound) then Finished(id, Gone) else failed
    case LocatingGroup(id) =>
      if !reply.Described? || EndpointOf(reply.group).None? then failed
      else ReadingSecret(id, EndpointOf(reply.group).value)
    case ReadingSecret(id, endpoint) =>
      if !reply.SecretIs? then failed
      else
        Finished(id, Bound(Credentials(endpoint.address, endpoint.port, names.group(id), reply.value)))
  }

  datatype Ran = Ran(task: Task, stores: Stores, calls: nat)

  /** The task run to its end with nobody else at work; call number `n` faults when `faults(n)`. */
  function RunAlone(names: Names, t: Task, s: Stores, faults: nat -> bool, n: nat): (r: Ran)
    ensures r.task.Finished? && r.task.id == t.id
    decreases CallsLeft(t)
  {
    if t.Finished? then Ran(t, s, n)
    else
      var (s', reply) := Apply(s, NextCall(names, t), faults(n));
      RunAlone(names, Resume(names, t, reply), s', faults, n + 1)
  }

  /** How a task ends, and every exchange by then: those in `made`, and its own after them. */
  datatype Course = Course(end: Ran, made: seq<Exchange>)

  /** The task run to its end, whatever others do to the stores between its calls. */
  function CourseOf(
      names: Names, t: Task, s: Stores, env: Environment, n: nat, made: seq<Exchange>): Course
    decreases CallsLeft(t)
  {
    if t.Finished? then Course(Ran(t, s, n), made)
    else
      var call := NextCall(names, t);
      var (s', reply) := Serve(env, s, call, n);
      CourseOf(names, Resume(names, t, reply), s', env, n + 1, made + [Exchange(call, reply)])
  }

  /** One call of a running task. */
  lemma Unroll(names: Names, t: Task, s: Stores, env: Environment, n: nat, made: seq<Exchange>)
    requires !t.Finished?
    ensures var call := NextCall(names, t);
      var (s', reply) := Serve(env, s, call, n);
      CourseOf(names, t, s, env, n, made)
      == CourseOf(names, Resume(names, t, reply), s', env, n + 1, made + [Exchange(call, reply)])
  {
  }

  /** With nobody else at work it is the task running alone, with one call for each number. */
  lemma {:induction false} CourseIsRunAlone(
      names: Names, t: Task, s: Stores, faults: nat -> bool, n: nat, made: seq<Exchange>)
    ensures var course := CourseOf(names, t, s, Undisturbed(faults), n, made);
      && course.end == RunAlone(names, t, s, faults, n)
      && made <= course.made && |course.made| - |made| == course.end.calls - n
    decreases CallsLeft(t)
  {
    if !t.Finished? {
      var call := NextCall(names, t);
      var (s', reply) := Apply(s, call, faults(n));
      CourseIsRunAlone(names, Resume(names, t, reply), s', faults, n + 1, made + [Exchange(call, reply)]);
    }
  }
}
