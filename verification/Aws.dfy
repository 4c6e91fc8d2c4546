/** AWS as the broker sees it: three stores, and the calls that read and change them. */
module Aws {
  import opened GoTypes

  // ---- replication groups ----

  datatype Role = Primary | Replica | OtherRole(text: string)

  /** A node group member: its CacheClusterId and its CurrentRole. */
  datatype Node = Node(id: string, role: Role)

  datatype Endpoint = Endpoint(address: GoString, port: nat)

  datatype NodeGroup = NodeGroup(primaryEndpoint: Endpoint, members: seq<Node>)

  datatype Status =
    | Creating | Available | Modifying | Deleting | CreateFailed | Snapshotting
    | OtherStatus(text: string)

  datatype Failover = Enabled | Disabled | Enabling | Disabling

  /** The modifications the broker asks for. */
  datatype Modification =
    | DisableHA
    | EnableHA
    | Cutover(target: string)
    | SetWindow(window: string)

  /** Optional fields are the pointers the AWS SDK may leave nil. */
  datatype Group = Group(
    status: Option<Status>,
    failover: Option<Failover>,
    nodeGroups: seq<NodeGroup>,
    configurationEndpoint: Option<Endpoint>,
    pending: Option<Modification>,
    window: string,
    authToken: GoString,
    tags: map<string, string>,
    restoredFrom: Option<string>)

  function Members(nodeGroups: seq<NodeGroup>): seq<Node> {
    if nodeGroups == [] then [] else nodeGroups[0].members + Members(nodeGroups[1..])
  }

  function IdsWithRole(nodes: seq<Node>, role: Role): seq<string> {
    if nodes == [] then []
    else (if nodes[0].role == role then [nodes[0].id] else []) + IdsWithRole(nodes[1..], role)
  }

  predicate BeingDeleted(g: Group) {
    g.status == Some(Deleting)
  }

  /** AWS takes a modification of a group that is available, and a cutover only to one of its nodes. */
  predicate Accepts(g: Group, m: Modification) {
    && g.status == Some(Available)
    && (m.Cutover? ==> exists i :: 0 <= i < |Members(g.nodeGroups)| && Members(g.nodeGroups)[i].id == m.target)
  }

  /** An accepted modification makes the group leave `available` until it completes. */
  function Accept(g: Group, m: Modification): Group {
    match m
    case DisableHA => g.(status := Some(Modifying), failover := Some(Disabling), pending := Some(m))
    case EnableHA => g.(status := Some(Modifying), failover := Some(Enabling), pending := Some(m))
    case Cutover(_) => g.(status := Some(Modifying), pending := Some(m))
    case SetWindow(window) => g.(window := window)
  }

  /** A cutover makes its target the primary and the former primary a replica. */
  function PromoteNode(n: Node, target: string): Node {
    if n.id == target then n.(role := Primary)
    else if n.role == Primary then n.(role := Replica)
    else n
  }

  function Promote(nodes: seq<Node>, target: string): (r: seq<Node>)
    ensures |r| == |nodes|
    ensures forall i :: 0 <= i < |nodes| ==> r[i] == PromoteNode(nodes[i], target)
  {
    seq(|nodes|, i requires 0 <= i < |nodes| => PromoteNode(nodes[i], target))
  }

  function PromoteIn(nodeGroups: seq<NodeGroup>, target: string): seq<NodeGroup> {
    if nodeGroups == [] then []
    else
      [nodeGroups[0].(members := Promote(nodeGroups[0].members, target))] + PromoteIn(nodeGroups[1..], target)
  }

  /** AWS finishes what is pending. */
  function Complete(g: Group): Group
    requires g.pending.Some?
  {
    var settled := g.(status := Some(Available), pending := None);
    match g.pending.value
    case DisableHA => settled.(failover := Some(Disabled))
    case EnableHA => settled.(failover := Some(Enabled))
    case Cutover(target) => settled.(nodeGroups := PromoteIn(g.nodeGroups, target))
    case SetWindow(_) => settled
  }

  // ---- the stores ----

  /** A deleted secret keeps its name until its recovery window has passed. */
  datatype Secret = Live(value: GoString) | Scheduled(value: GoString, recoveryDays: nat)

  datatype Stores = Stores(
    paramGroups: map<GoString, map<string, string>>,
    secrets: map<GoString, Secret>,
    groups: map<GoString, Group>)

  datatype AwsError = NotFound | AlreadyExists | InvalidState | Fault

  datatype Call =
    | CreateParamGroup(name: GoString)
    | ModifyParamGroup(name: GoString, values: map<string, string>)
    | DeleteParamGroup(name: GoString)
    | CreateSecret(path: GoString, value: GoString)
    | DeleteSecret(path: GoString, days: nat)
    | GetSecret(path: GoString)
    | CreateGroup(name: GoString, authToken: GoString, tags: map<string, string>, snapshot: Option<string>)
    | DeleteGroup(name: GoString)
    | ModifyGroup(name: GoString, change: Modification)
    | DescribeGroup(name: GoString)

  datatype Reply =
    | Accepted
    | Described(group: Group)
    | SecretIs(value: GoString)
    | Refused(error: AwsError)

  function NewGroup(authToken: GoString, tags: map<string, string>, snapshot: Option<string>): Group {
    Group(Some(Creating), None, [], None, None, "", authToken, tags, snapshot)
  }

  predicate IsLive(s: Stores, path: GoString) {
    path in s.secrets && s.secrets[path].Live?
  }

  /** The stores once the recovery window of a deleted secret has passed. */
  function Purged(s: Stores, path: GoString): Stores {
    if path in s.secrets && s.secrets[path].Scheduled? then s.(secrets := s.secrets - {path}) else s
  }

  /** What one call does. A call that faults, or that AWS refuses, changes nothing. */
  function Apply(s: Stores, call: Call, fault: bool): (Stores, Reply) {
    if fault then (s, Refused(Fault))
    else
      match call
      case CreateParamGroup(name) =>
        if name in s.paramGroups then (s, Refused(AlreadyExists))
        else (s.(paramGroups := s.paramGroups[name := map[]]), Accepted)
      case ModifyParamGroup(name, values) =>
        if name !in s.paramGroups then (s, Refused(NotFound))
        else (s.(paramGroups := s.paramGroups[name := s.paramGroups[name] + values]), Accepted)
      case DeleteParamGroup(name) =>
        if name !in s.paramGroups then (s, Refused(NotFound))
        else (s.(paramGroups := s.paramGroups - {name}), Accepted)
      case CreateSecret(path, value) =>
        if path in s.secrets then (s, Refused(AlreadyExists))
        else (s.(secrets := s.secrets[path := Live(value)]), Accepted)
      case DeleteSecret(path, days) =>
        if path !in s.secrets then (s, Refused(NotFound))
        else if s.secrets[path].Scheduled? then (s, Refused(InvalidState))
        else (s.(secrets := s.secrets[path := Scheduled(s.secrets[path].value, days)]), Accepted)
      case GetSecret(path) =>
        if path !in s.secrets then (s, Refused(NotFound))
        else if s.secrets[path].Scheduled? then (s, Refused(InvalidState))
        else (s, SecretIs(s.secrets[path].value))
      case CreateGroup(name, authToken, tags, snapshot) =>
        if name in s.groups then (s, Refused(AlreadyExists))
        else (s.(groups := s.groups[name := NewGroup(authToken, tags, snapshot)]), Accepted)
      case DeleteGroup(name) =>
        if name !in s.groups then (s, Refused(NotFound))
        else if BeingDeleted(s.groups[name]) then (s, Refused(InvalidState))
        else (s.(groups := s.groups[name := s.groups[name].(status := Some(Deleting), pending := None)]), Accepted)
      case ModifyGroup(name, change) =>
        if name !in s.groups then (s, Refused(NotFound))
        else if !Accepts(s.groups[name], change) then (s, Refused(InvalidState))
        else (s.(groups := s.groups[name := Accept(s.groups[name], change)]), Accepted)
      case DescribeGroup(name) =>
        if name !in s.groups then (s, Refused(NotFound)) else (s, Described(s.groups[name]))
  }

  /** Which calls fail, by number, and what others have done to the stores when a call gets there. */
  datatype Environment = Environment(faults: nat -> bool, meanwhile: nat -> Stores -> Stores)

  /** Nobody else is at work. */
  function Undisturbed(faults: nat -> bool): Environment {
    Environment(faults, (n: nat) => (s: Stores) => s)
  }

  /** Call number n, from the stores as the last call has left them. */
  function Serve(env: Environment, s: Stores, call: Call, n: nat): (Stores, Reply) {
    Apply(env.meanwhile(n)(s), call, env.faults(n))
  }

  /** A call that was made, and what AWS answered. */
  datatype Exchange = Exchange(call: Call, reply: Reply)

  /** From one list of exchanges to a later one, exactly these calls were made, in this order. */
  ghost predicate Adds(before: seq<Exchange>, after: seq<Exchange>, calls: seq<Call>) {
    && before <= after && |after| == |before| + |calls|
    && forall i :: 0 <= i < |calls| ==> after[|before| + i].call == calls[i]
  }

  /** The reply to the i-th call made between the two. */
  ghost function ReplyTo(before: seq<Exchange>, after: seq<Exchange>, i: nat): Reply
    requires |before| + i < |after|
  {
    after[|before| + i].reply
  }

  /** The AWS clients the provider holds; `made` lists the calls so far. Others may be at work between two calls. */
  class Cloud {
    var stores: Stores
    var calls: nat
    const env: Environment
    ghost var made: seq<Exchange>

    constructor (stores: Stores, env: Environment)
      ensures this.stores == stores && this.calls == 0 && this.env == env && made == []
    {
      this.stores := stores;
      this.calls := 0;
      this.env := env;
      this.made := [];
    }

    /** What the next call finds. */
    ghost function Found(): Stores
      reads this
    {
      env.meanwhile(calls)(stores)
    }

    method Invoke(call: Call) returns (reply: Reply)
      modifies this
      ensures (stores, reply) == Serve(env, old(stores), call, old(calls))
      ensures calls == old(calls) + 1 && made == old(made) + [Exchange(call, reply)]
    {
      var outcome := Serve(env, stores, call, calls);
      stores := outcome.0;
      reply := outcome.1;
      calls := calls + 1;
      made := made + [Exchange(call, reply)];
    }
  }
}
