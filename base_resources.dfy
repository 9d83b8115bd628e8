/**
 * The shared resources every deployment gets, whatever its tasks: the ECS
 * cluster, the execution role the container tasks run under, and the role
 * the state machines assume. They depend on the naming prefix and suffix only.
 */
module BaseResources {
  import opened Wrappers
  import opened Json

  const ECS_CLUSTER_KEY: string := "ServerlessFlowEcsCluster"
  const ECS_EXECUTION_ROLE_KEY: string := "ServerlessFlowEcsExecutionRole"
  const STATE_MACHINE_ROLE_KEY: string := "ServerlessFlowStateMachineRole"

  function EcsCluster(prefix: string, suffix: string): Value {
    Obj([
      Member("Type", Str("AWS::ECS::Cluster")),
      Member("Properties", Obj([
        Member("ClusterName", Str(prefix + "EcsCluster" + suffix))]))])
  }

  /** Allows writing to the log groups whose names start with the prefix. */
  function LogManagementStatement(prefix: string): Value {
    Obj([
      Member("Sid", Str("AllowLogManagement")),
      Member("Effect", Str("Allow")),
      Member("Action", Arr([Str("logs:CreateLogGroup"), Str("logs:CreateLogStream"), Str("logs:PutLogEvents")])),
      Member("Resource", Arr([
        Join(":", [Str("arn:aws:logs"), Ref("AWS::Region"), Ref("AWS::AccountId"), Str("log-group"), Str(prefix + "*")])]))])
  }

  function EcsExecutionRole(prefix: string, suffix: string): Value {
    Obj([
      Member("Type", Str("AWS::IAM::Role")),
      Member("Properties", Obj([
        Member("RoleName", Str(prefix + "EcsExecutionRole" + suffix)),
        Member("AssumeRolePolicyDocument", Obj([
          Member("Version", Str("2012-10-17")),
          Member("Statement", Arr([Obj([
            Member("Effect", Str("Allow")),
            Member("Principal", Obj([Member("Service", Arr([Str("ecs-tasks.amazonaws.com")]))])),
            Member("Action", Arr([Str("sts:AssumeRole")]))])]))])),
        Member("ManagedPolicyArns", Arr([Str("arn:aws:iam::aws:policy/service-role/AmazonECSTaskExecutionRolePolicy")])),
        Member("Policies", Arr([ExecutionRolePolicy(prefix)]))]))])
  }

  function ExecutionRolePolicy(prefix: string): Value {
    Obj([
      Member("PolicyName", Str("inline")),
      Member("PolicyDocument", Obj([
        Member("Version", Str("2012-10-17")),
        Member("Statement", Arr([LogManagementStatement(prefix)]))]))])
  }

  /** Lets the state machines pass the shared execution role, and any role
      whose name starts with the prefix, to the tasks they start. The account
      placeholder is kept verbatim for CloudFormation to substitute. */
  function PassRoleStatement(prefix: string): Value {
    Obj([
      Member("Effect", Str("Allow")),
      Member("Action", Arr([Str("iam:PassRole")])),
      Member("Resource", Arr([
        GetAtt(ECS_EXECUTION_ROLE_KEY, "Arn"),
        Str("arn:aws:iam::${aws:accountId}:role/" + prefix + "*")]))])
  }

  function StateMachinePolicy(prefix: string, suffix: string): Value {
    Obj([
      Member("PolicyName", Str(prefix + "StateMachinePolicy" + suffix)),
      Member("PolicyDocument", Obj([
        Member("Version", Str("2012-10-17")),
        Member("Statement", Arr([
          Obj([
            Member("Effect", Str("Allow")),
            Member("Action", Arr([Str("sts:AssumeRole"), Str("lambda:InvokeFunction"), Str("ecs:RunTask")])),
            Member("Resource", Arr([Str("*")]))]),
          PassRoleStatement(prefix)]))]))])
  }

  function StateMachineRole(prefix: string, suffix: string): Value {
    Obj([
      Member("Type", Str("AWS::IAM::Role")),
      Member("Properties", Obj([
        Member("RoleName", Str(prefix + "StateMachineRole" + suffix)),
        Member("Path", Str("/")),
        Member("AssumeRolePolicyDocument", Obj([
          Member("Statement", Arr([Obj([
            Member("Effect", Str("Allow")),
            Member("Principal", Obj([Member("Service", Arr([
              Str("states.amazonaws.com"), Str("events.amazonaws.com"), Str("lambda.amazonaws.com")]))])),
            Member("Action", Arr([Str("sts:AssumeRole")]))])]))])),
        Member("Policies", Arr([StateMachinePolicy(prefix, suffix)]))]))])
  }

  /** `getBaseResources(prefix, suffix)`. */
  function BaseResources(prefix: string, suffix: string): (r: Value)
    ensures r.Obj? && DistinctKeys(r.members)
    ensures Keys(r.members) == {ECS_CLUSTER_KEY, ECS_EXECUTION_ROLE_KEY, STATE_MACHINE_ROLE_KEY}
  {
    var ms := [
      Member(ECS_CLUSTER_KEY, EcsCluster(prefix, suffix)),
      Member(ECS_EXECUTION_ROLE_KEY, EcsExecutionRole(prefix, suffix)),
      Member(STATE_MACHINE_ROLE_KEY, StateMachineRole(prefix, suffix))];
    UniqueKeysDistinct(ms);
    MemberKey(ms, ms[0]);
    MemberKey(ms, ms[1]);
    MemberKey(ms, ms[2]);
    assert forall k | k in Keys(ms) :: k in {ECS_CLUSTER_KEY, ECS_EXECUTION_ROLE_KEY, STATE_MACHINE_ROLE_KEY} by {
      forall k | k in Keys(ms) ensures k in {ECS_CLUSTER_KEY, ECS_EXECUTION_ROLE_KEY, STATE_MACHINE_ROLE_KEY} {
        KeyHasMember(ms, k);
      }
    }
    Obj(ms)
  }

  /** The physical names are the prefix and the suffix around a fixed word. */
  lemma BaseResourceNames(prefix: string, suffix: string)
    ensures var r := BaseResources(prefix, suffix);
      && At(r, [Key(ECS_CLUSTER_KEY), Key("Properties"), Key("ClusterName")])
           == Some(Str(prefix + "EcsCluster" + suffix))
      && At(r, [Key(ECS_EXECUTION_ROLE_KEY), Key("Properties"), Key("RoleName")])
           == Some(Str(prefix + "EcsExecutionRole" + suffix))
      && At(r, [Key(STATE_MACHINE_ROLE_KEY), Key("Properties"), Key("RoleName")])
           == Some(Str(prefix + "StateMachineRole" + suffix))
      && At(r, [Key(STATE_MACHINE_ROLE_KEY), Key("Properties"), Key("Policies"), Index(0), Key("PolicyName")])
           == Some(Str(prefix + "StateMachinePolicy" + suffix))
  {
    ClusterNameAt(prefix, suffix);
    ExecutionRoleNameAt(prefix, suffix);
    StateMachineRoleNameAt(prefix, suffix);
    StateMachinePolicyNameAt(prefix, suffix);
  }

  lemma ClusterNameAt(prefix: string, suffix: string)
    ensures At(BaseResources(prefix, suffix), [Key(ECS_CLUSTER_KEY), Key("Properties"), Key("ClusterName")])
      == Some(Str(prefix + "EcsCluster" + suffix))
  {
    var path := [Key(ECS_CLUSTER_KEY), Key("Properties"), Key("ClusterName")];
    AtMemberIndex(BaseResources(prefix, suffix), 0, path);
    NameAt(EcsCluster(prefix, suffix), "ClusterName", path[1..]);
  }

  lemma ExecutionRoleNameAt(prefix: string, suffix: string)
    ensures At(BaseResources(prefix, suffix), [Key(ECS_EXECUTION_ROLE_KEY), Key("Properties"), Key("RoleName")])
      == Some(Str(prefix + "EcsExecutionRole" + suffix))
  {
    var path := [Key(ECS_EXECUTION_ROLE_KEY), Key("Properties"), Key("RoleName")];
    AtMemberIndex(BaseResources(prefix, suffix), 1, path);
    NameAt(EcsExecutionRole(prefix, suffix), "RoleName", path[1..]);
  }

  lemma StateMachineRoleNameAt(prefix: string, suffix: string)
    ensures At(BaseResources(prefix, suffix), [Key(STATE_MACHINE_ROLE_KEY), Key("Properties"), Key("RoleName")])
      == Some(Str(prefix + "StateMachineRole" + suffix))
  {
    var path := [Key(STATE_MACHINE_ROLE_KEY), Key("Properties"), Key("RoleName")];
    AtMemberIndex(BaseResources(prefix, suffix), 2, path);
    NameAt(StateMachineRole(prefix, suffix), "RoleName", path[1..]);
  }

  lemma StateMachinePolicyNameAt(prefix: string, suffix: string)
    ensures At(BaseResources(prefix, suffix), [Key(STATE_MACHINE_ROLE_KEY), Key("Properties"), Key("Policies"), Index(0), Key("PolicyName")])
      == Some(Str(prefix + "StateMachinePolicy" + suffix))
  {
    var path := [Key(STATE_MACHINE_ROLE_KEY), Key("Properties"), Key("Policies"), Index(0), Key("PolicyName")];
    AtMemberIndex(BaseResources(prefix, suffix), 2, path);
    StateMachinePolicyAt(prefix, suffix, path[1..][3..]);
    assert [Key("Properties"), Key("Policies"), Index(0)] + path[1..][3..] == path[1..];
    AtMemberIndex(StateMachinePolicy(prefix, suffix), 0, path[1..][3..]);
  }

  /** The name a resource document puts first in its properties. */
  lemma NameAt(resource: Value, name: string, path: seq<Step>)
    requires resource.Obj? && |resource.members| >= 2 && resource.members[1].key == "Properties"
    requires resource.members[0].key != "Properties"
    requires var properties := resource.members[1].val;
      properties.Obj? && |properties.members| > 0 && properties.members[0].key == name
    requires path == [Key("Properties"), Key(name)]
    ensures At(resource, path) == Some(resource.members[1].val.members[0].val)
  {
    AtMemberIndex(resource, 1, path);
    AtMemberIndex(resource.members[1].val, 0, path[1..]);
  }

  /** The path from the state-machine role to its first (and only) policy. */
  lemma StateMachinePolicyAt(prefix: string, suffix: string, rest: seq<Step>)
    ensures At(StateMachineRole(prefix, suffix), [Key("Properties"), Key("Policies"), Index(0)] + rest) == At(StateMachinePolicy(prefix, suffix), rest)
  {
    var path := [Key("Properties"), Key("Policies"), Index(0)] + rest;
    var role := StateMachineRole(prefix, suffix);
    var properties := role.members[1].val;
    AtMemberIndex(role, 1, path);
    AtMemberIndex(properties, 3, path[1..]);
    AtIndex(properties.members[3].val, 0, path[1..][1..]);
    assert path[1..][1..][1..] == rest;
  }

  /** The path from the execution role to its inline policy. */
  lemma ExecutionRolePolicyAt(prefix: string, suffix: string, rest: seq<Step>)
    ensures At(EcsExecutionRole(prefix, suffix), [Key("Properties"), Key("Policies"), Index(0)] + rest) == At(ExecutionRolePolicy(prefix), rest)
  {
    var path := [Key("Properties"), Key("Policies"), Index(0)] + rest;
    var role := EcsExecutionRole(prefix, suffix);
    var properties := role.members[1].val;
    AtMemberIndex(role, 1, path);
    AtMemberIndex(properties, 3, path[1..]);
    AtIndex(properties.members[3].val, 0, path[1..][1..]);
    assert path[1..][1..][1..] == rest;
  }

  /** The roles the state machines may pass: the execution role of this same
      bundle, and every role named with the prefix. */
  lemma PassRoleResources(prefix: string, suffix: string)
    ensures var r := BaseResources(prefix, suffix);
      var resources := At(r, [Key(STATE_MACHINE_ROLE_KEY), Key("Properties"), Key("Policies"), Index(0),
                              Key("PolicyDocument"), Key("Statement"), Index(1), Key("Resource")]);
      && resources.Some? && resources.value.Arr? && |resources.value.items| == 2
      && Target(resources.value.items[0]) == Some(ECS_EXECUTION_ROLE_KEY)
      && ECS_EXECUTION_ROLE_KEY in Keys(r.members)
      && resources.value.items[1] == Str("arn:aws:iam::${aws:accountId}:role/" + prefix + "*")
  {
    PassRoleAt(prefix, suffix);
  }

  lemma PassRoleAt(prefix: string, suffix: string)
    ensures At(BaseResources(prefix, suffix), [Key(STATE_MACHINE_ROLE_KEY), Key("Properties"), Key("Policies"), Index(0),
                                              Key("PolicyDocument"), Key("Statement"), Index(1), Key("Resource")])
      == Some(Arr([GetAtt(ECS_EXECUTION_ROLE_KEY, "Arn"), Str("arn:aws:iam::${aws:accountId}:role/" + prefix + "*")]))
  {
    var path := [Key(STATE_MACHINE_ROLE_KEY), Key("Properties"), Key("Policies"), Index(0),
                 Key("PolicyDocument"), Key("Statement"), Index(1), Key("Resource")];
    AtMemberIndex(BaseResources(prefix, suffix), 2, path);
    StateMachinePolicyAt(prefix, suffix, path[1..][3..]);
    assert [Key("Properties"), Key("Policies"), Index(0)] + path[1..][3..] == path[1..];
    PassRoleStatementAt(prefix, suffix, path[1..][3..]);
  }

  lemma PassRoleStatementAt(prefix: string, suffix: string, path: seq<Step>)
    requires path == [Key("PolicyDocument"), Key("Statement"), Index(1), Key("Resource")]
    ensures At(StateMachinePolicy(prefix, suffix), path)
      == Some(Arr([GetAtt(ECS_EXECUTION_ROLE_KEY, "Arn"), Str("arn:aws:iam::${aws:accountId}:role/" + prefix + "*")]))
  {
    var policy := StateMachinePolicy(prefix, suffix);
    var document := policy.members[1].val;
    AtMemberIndex(policy, 1, path);
    AtMemberIndex(document, 1, path[1..]);
    AtIndex(document.members[1].val, 1, path[1..][1..]);
    AtMemberIndex(PassRoleStatement(prefix), 2, path[1..][1..][1..]);
  }

  /** The execution role may write only to log groups named with the prefix:
      the last part of the log-group ARN is the prefix followed by a wildcard. */
  lemma LogResourcePattern(prefix: string, suffix: string)
    ensures var r := BaseResources(prefix, suffix);
      var parts := At(r, [Key(ECS_EXECUTION_ROLE_KEY), Key("Properties"), Key("Policies"), Index(0),
                          Key("PolicyDocument"), Key("Statement"), Index(0), Key("Resource"), Index(0),
                          Key("Fn::Join"), Index(1)]);
      && parts.Some? && parts.value.Arr? && |parts.value.items| > 0
      && parts.value.items[|parts.value.items| - 1] == Str(prefix + "*")
  {
    LogResourceAt(prefix, suffix);
  }

  lemma LogResourceAt(prefix: string, suffix: string)
    ensures At(BaseResources(prefix, suffix), [Key(ECS_EXECUTION_ROLE_KEY), Key("Properties"), Key("Policies"), Index(0),
                                              Key("PolicyDocument"), Key("Statement"), Index(0), Key("Resource"), Index(0),
                                              Key("Fn::Join"), Index(1)])
      == Some(Arr([Str("arn:aws:logs"), Ref("AWS::Region"), Ref("AWS::AccountId"), Str("log-group"), Str(prefix + "*")]))
  {
    var path := [Key(ECS_EXECUTION_ROLE_KEY), Key("Properties"), Key("Policies"), Index(0),
                 Key("PolicyDocument"), Key("Statement"), Index(0), Key("Resource"), Index(0),
                 Key("Fn::Join"), Index(1)];
    AtMemberIndex(BaseResources(prefix, suffix), 1, path);
    ExecutionRolePolicyAt(prefix, suffix, path[1..][3..]);
    assert [Key("Properties"), Key("Policies"), Index(0)] + path[1..][3..] == path[1..];
    LogStatementAt(prefix, path[1..][3..]);
  }

  lemma LogStatementAt(prefix: string, path: seq<Step>)
    requires path == [Key("PolicyDocument"), Key("Statement"), Index(0), Key("Resource"), Index(0),
                      Key("Fn::Join"), Index(1)]
    ensures At(ExecutionRolePolicy(prefix), path)
      == Some(Arr([Str("arn:aws:logs"), Ref("AWS::Region"), Ref("AWS::AccountId"), Str("log-group"), Str(prefix + "*")]))
  {
    var policy := ExecutionRolePolicy(prefix);
    var document := policy.members[1].val;
    var statement := LogManagementStatement(prefix);
    var join := statement.members[3].val.items[0];
    AtMemberIndex(policy, 1, path);
    AtMemberIndex(document, 1, path[1..]);
    AtIndex(document.members[1].val, 0, path[1..][1..]);
    var rest := path[1..][1..][1..];
    AtMemberIndex(statement, 3, rest);
    AtIndex(statement.members[3].val, 0, rest[1..]);
    AtMemberIndex(join, 0, rest[1..][1..]);
    AtIndex(join.members[0].val, 1, rest[1..][1..][1..]);
  }
}
