/**
 * The resources of one container task: its Fargate task definition, the IAM
 * role the container runs as, and the ECR repository its image lives in.
 * Every physical name is built from the naming prefix, the task name and the
 * naming suffix; the stage only reaches the container's environment.
 */
module EcsTaskResources {
  import opened Wrappers
  import opened Json
  import opened Types
  import Strings
  import BaseResources

  function TaskDefinitionKey(taskName: string): string {
    taskName + "TaskDefinition"
  }

  function TaskRoleKey(taskName: string): string {
    taskName + "TaskRole"
  }

  function RepositoryKey(taskName: string): string {
    taskName + "TaskEcrRepository"
  }

  // ---------------------------------------------------------------------
  // The task definition
  // ---------------------------------------------------------------------

  /** The container's only environment variable: the deployment stage. */
  function StageEnvironment(stage: string): Value {
    Arr([Obj([Member("Name", Str("STAGE")), Member("Value", Str(stage))])])
  }

  function LogOptions(prefix: string, suffix: string, taskName: string): Value {
    Obj([
      Member("awslogs-create-group", Bool(true)),
      Member("awslogs-region", Ref("AWS::Region")),
      Member("awslogs-group", Str(prefix + taskName + suffix)),
      Member("awslogs-stream-prefix", Str(taskName))])
  }

  /** The image is the repository's URI tagged `latest`. */
  function ContainerImage(taskName: string): Value {
    Join("", [GetAtt(RepositoryKey(taskName), "RepositoryUri"), Str(":latest")])
  }

  function ContainerDefinition(stage: string, prefix: string, suffix: string, taskName: string): Value {
    Obj([
      Member("Name", Str("main")),
      Member("Image", ContainerImage(taskName)),
      Member("Essential", Bool(true)),
      Member("LogConfiguration", Obj([
        Member("LogDriver", Str("awslogs")),
        Member("Options", LogOptions(prefix, suffix, taskName))])),
      Member("Environment", StageEnvironment(stage))])
  }

  function TaskDefinitionProperties(stage: string, prefix: string, suffix: string, p: EcsTaskParams): Value {
    Obj([
      Member("RequiresCompatibilities", Arr([Str("FARGATE")])),
      Member("Family", Str(prefix + p.taskName + suffix)),
      Member("Cpu", Num(p.cpu)),
      Member("Memory", Num(p.memory)),
      Member("EphemeralStorage", Obj([Member("SizeInGiB", Num(p.ephemeralStorage))])),
      Member("NetworkMode", Str("awsvpc")),
      Member("ExecutionRoleArn", GetAtt(prefix + "EcsExecutionRole", "Arn")),
      Member("TaskRoleArn", GetAtt(TaskRoleKey(p.taskName), "Arn")),
      Member("ContainerDefinitions", Arr([ContainerDefinition(stage, prefix, suffix, p.taskName)]))])
  }

  function TaskDefinition(stage: string, prefix: string, suffix: string, p: EcsTaskParams): Value {
    Obj([
      Member("Type", Str("AWS::ECS::TaskDefinition")),
      Member("Properties", TaskDefinitionProperties(stage, prefix, suffix, p))])
  }

  // ---------------------------------------------------------------------
  // The task role
  // ---------------------------------------------------------------------

  /** One inline policy holding the descriptor's statements, or none at all
      when the descriptor has no statements. */
  function TaskRolePolicies(prefix: string, suffix: string, taskName: string, statements: seq<Value>): seq<Value> {
    if |statements| > 0 then
      [Obj([
        Member("PolicyName", Str(prefix + taskName + "TaskPolicy" + suffix)),
        Member("PolicyDocument", Obj([
          Member("Version", Str("2012-10-17")),
          Member("Statement", Arr(statements))]))])]
    else []
  }

  function TaskRoleProperties(prefix: string, suffix: string, taskName: string, statements: seq<Value>): Value {
    Obj([
      Member("RoleName", Str(prefix + taskName + "TaskRole" + suffix)),
      Member("AssumeRolePolicyDocument", Obj([
        Member("Version", Str("2012-10-17")),
        Member("Statement", Arr([Obj([
          Member("Effect", Str("Allow")),
          Member("Principal", Obj([Member("Service", Arr([
            Str("cloudformation.amazonaws.com"), Str("ecs.amazonaws.com"), Str("ecs-tasks.amazonaws.com")]))])),
          Member("Action", Arr([Str("sts:AssumeRole")]))])]))])),
      Member("Policies", Arr(TaskRolePolicies(prefix, suffix, taskName, statements)))])
  }

  function TaskRole(prefix: string, suffix: string, taskName: string, statements: seq<Value>): Value {
    Obj([
      Member("Type", Str("AWS::IAM::Role")),
      Member("Properties", TaskRoleProperties(prefix, suffix, taskName, statements))])
  }

  // ---------------------------------------------------------------------
  // The image repository
  // ---------------------------------------------------------------------

  /** Lower-cased `prefix_taskName_suffix` with its first hyphen dropped
      (a string pattern makes `replace` stop at the first match). */
  function RepositoryName(prefix: string, taskName: string, suffix: string): (r: string)
    ensures var full := prefix + "_" + taskName + "_" + suffix;
      && |r| == |full| - (if '-' in full then 1 else 0)
      && (forall i :: 0 <= i < |r| ==> !Strings.IsUpper(r[i]))
  {
    var full := Strings.Lower(prefix + "_" + taskName + "_" + suffix);
    Strings.LowerKeeps(prefix + "_" + taskName + "_" + suffix, '-');
    Strings.RemoveFirst(full, '-')
  }

  /** The expiry rule, as the structure that is serialised into the repository. */
  function LifecycleRules(keep: int): Value {
    Obj([Member("rules", Arr([Obj([
      Member("rulePriority", Num(1)),
      Member("description", Str("Keep only last " + Strings.IntToString(keep) + " images")),
      Member("selection", Obj([
        Member("tagStatus", Str("untagged")),
        Member("countType", Str("imageCountMoreThan")),
        Member("countNumber", Num(keep))])),
      Member("action", Obj([Member("type", Str("expire"))]))])]))])
  }

  /** The pull and push rights granted to the execution role. */
  function AccessStatement(prefix: string): Value {
    Obj([
      Member("Sid", Str("AllowPushPull")),
      Member("Effect", Str("Allow")),
      Member("Principal", Obj([Member("AWS", GetAtt(prefix + "EcsExecutionRole", "Arn"))])),
      Member("Action", Arr([
        Str("ecr:GetDownloadUrlForLayer"), Str("ecr:BatchGetImage"), Str("ecr:BatchCheckLayerAvailability"),
        Str("ecr:PutImage"), Str("ecr:InitiateLayerUpload"), Str("ecr:UploadLayerPart"),
        Str("ecr:CompleteLayerUpload"), Str("ecr:GetAuthorizationToken")]))])
  }

  function RepositoryPolicyText(prefix: string): Value {
    Obj([
      Member("Version", Str("2008-10-17")),
      Member("Statement", Arr([AccessStatement(prefix)]))])
  }

  function RepositoryProperties(prefix: string, suffix: string, taskName: string, keep: int): Value {
    Obj([
      Member("RepositoryName", Str(RepositoryName(prefix, taskName, suffix))),
      Member("LifecyclePolicy", Obj([
        Member("LifecyclePolicyText", Str(Stringify(LifecycleRules(keep)))),
        Member("RegistryId", Ref("AWS::AccountId"))])),
      Member("RepositoryPolicyText", RepositoryPolicyText(prefix))])
  }

  function Repository(prefix: string, suffix: string, taskName: string, keep: int): Value {
    Obj([
      Member("Type", Str("AWS::ECR::Repository")),
      Member("Properties", RepositoryProperties(prefix, suffix, taskName, keep))])
  }

  // ---------------------------------------------------------------------
  // The bundle
  // ---------------------------------------------------------------------

  /** `getEcsTaskResources(stage, prefix, suffix, taskParams)`. */
  function EcsTaskResources(stage: string, prefix: string, suffix: string, p: EcsTaskParams): (r: Value)
    ensures r.Obj? && DistinctKeys(r.members)
    ensures Keys(r.members) == {TaskDefinitionKey(p.taskName), TaskRoleKey(p.taskName), RepositoryKey(p.taskName)}
  {
    var ms := [
      Member(TaskDefinitionKey(p.taskName), TaskDefinition(stage, prefix, suffix, p)),
      Member(TaskRoleKey(p.taskName), TaskRole(prefix, suffix, p.taskName, p.iamRolePolicyStatements)),
      Member(RepositoryKey(p.taskName), Repository(prefix, suffix, p.taskName, p.ecrRepositoryKeepMaxImages))];
    UniqueKeysDistinct(ms);
    MemberKey(ms, ms[0]);
    MemberKey(ms, ms[1]);
    MemberKey(ms, ms[2]);
    assert forall k | k in Keys(ms) :: k in {ms[0].key, ms[1].key, ms[2].key} by {
      forall k | k in Keys(ms) ensures k in {ms[0].key, ms[1].key, ms[2].key} {
        KeyHasMember(ms, k);
      }
    }
    Obj(ms)
  }

  // ---------------------------------------------------------------------
  // The bundle's entries
  // ---------------------------------------------------------------------

  lemma DefinitionEntry(stage: string, prefix: string, suffix: string, p: EcsTaskParams)
    ensures Lookup(EcsTaskResources(stage, prefix, suffix, p).members, TaskDefinitionKey(p.taskName))
      == Some(TaskDefinition(stage, prefix, suffix, p))
  {
    LookupFirst(EcsTaskResources(stage, prefix, suffix, p).members, 0);
  }

  lemma RoleEntry(stage: string, prefix: string, suffix: string, p: EcsTaskParams)
    ensures Lookup(EcsTaskResources(stage, prefix, suffix, p).members, TaskRoleKey(p.taskName))
      == Some(TaskRole(prefix, suffix, p.taskName, p.iamRolePolicyStatements))
  {
    LookupFirst(EcsTaskResources(stage, prefix, suffix, p).members, 1);
  }

  lemma RepositoryEntry(stage: string, prefix: string, suffix: string, p: EcsTaskParams)
    ensures Lookup(EcsTaskResources(stage, prefix, suffix, p).members, RepositoryKey(p.taskName))
      == Some(Repository(prefix, suffix, p.taskName, p.ecrRepositoryKeepMaxImages))
  {
    LookupFirst(EcsTaskResources(stage, prefix, suffix, p).members, 2);
  }

  // ---------------------------------------------------------------------
  // The task definition's contents
  // ---------------------------------------------------------------------

  /** The task definition is sized exactly as the descriptor says. */
  lemma TaskDefinitionCpu(stage: string, prefix: string, suffix: string, p: EcsTaskParams)
    ensures At(TaskDefinitionProperties(stage, prefix, suffix, p), [Key("Cpu")]) == Some(Num(p.cpu))
  {
    AtMemberIndex(TaskDefinitionProperties(stage, prefix, suffix, p), 2, [Key("Cpu")]);
  }

  lemma TaskDefinitionMemory(stage: string, prefix: string, suffix: string, p: EcsTaskParams)
    ensures At(TaskDefinitionProperties(stage, prefix, suffix, p), [Key("Memory")]) == Some(Num(p.memory))
  {
    AtMemberIndex(TaskDefinitionProperties(stage, prefix, suffix, p), 3, [Key("Memory")]);
  }

  lemma TaskDefinitionStorage(stage: string, prefix: string, suffix: string, p: EcsTaskParams)
    ensures At(TaskDefinitionProperties(stage, prefix, suffix, p), [Key("EphemeralStorage"), Key("SizeInGiB")])
      == Some(Num(p.ephemeralStorage))
  {
    var properties := TaskDefinitionProperties(stage, prefix, suffix, p);
    var storage := [Key("EphemeralStorage"), Key("SizeInGiB")];
    AtMemberIndex(properties, 4, storage);
    AtMemberIndex(properties.members[4].val, 0, storage[1..]);
  }

  /** A task definition's properties are its `Properties` member. */
  lemma DefinitionProperties(stage: string, prefix: string, suffix: string, p: EcsTaskParams)
    ensures At(TaskDefinition(stage, prefix, suffix, p), [Key("Properties")])
      == Some(TaskDefinitionProperties(stage, prefix, suffix, p))
  {
    AtMemberIndex(TaskDefinition(stage, prefix, suffix, p), 1, [Key("Properties")]);
  }

  /** The family is `prefix + taskName + suffix`. */
  lemma TaskDefinitionFamily(stage: string, prefix: string, suffix: string, p: EcsTaskParams)
    ensures At(TaskDefinitionProperties(stage, prefix, suffix, p), [Key("Family")])
      == Some(Str(prefix + p.taskName + suffix))
  {
    AtMemberIndex(TaskDefinitionProperties(stage, prefix, suffix, p), 1, [Key("Family")]);
  }

  /** The task definition runs exactly one container. */
  lemma OneContainer(stage: string, prefix: string, suffix: string, p: EcsTaskParams)
    ensures At(TaskDefinitionProperties(stage, prefix, suffix, p), [Key("ContainerDefinitions")])
      == Some(Arr([ContainerDefinition(stage, prefix, suffix, p.taskName)]))
  {
    AtMemberIndex(TaskDefinitionProperties(stage, prefix, suffix, p), 8, [Key("ContainerDefinitions")]);
  }

  /** The container logs to the group `prefix + taskName + suffix`, the same
      name as the family. */
  lemma LogGroup(stage: string, prefix: string, suffix: string, taskName: string)
    ensures At(ContainerDefinition(stage, prefix, suffix, taskName),
               [Key("LogConfiguration"), Key("Options"), Key("awslogs-group")])
      == Some(Str(prefix + taskName + suffix))
  {
    var container := ContainerDefinition(stage, prefix, suffix, taskName);
    var path := [Key("LogConfiguration"), Key("Options"), Key("awslogs-group")];
    AtMemberIndex(container, 3, path);
    AtMemberIndex(container.members[3].val, 1, path[1..]);
    AtMemberIndex(LogOptions(prefix, suffix, taskName), 2, path[1..][1..]);
  }

  /** The container's environment is the stage and nothing else. */
  lemma ContainerEnvironment(stage: string, prefix: string, suffix: string, taskName: string)
    ensures var env := At(ContainerDefinition(stage, prefix, suffix, taskName), [Key("Environment")]);
      && env.Some? && env.value.Arr? && |env.value.items| == 1
      && At(env.value, [Index(0), Key("Name")]) == Some(Str("STAGE"))
      && At(env.value, [Index(0), Key("Value")]) == Some(Str(stage))
  {
    var container := ContainerDefinition(stage, prefix, suffix, taskName);
    AtMemberIndex(container, 4, [Key("Environment")]);
    var variable := StageEnvironment(stage).items[0];
    AtMemberIndex(variable, 0, [Key("Name")]);
    AtMemberIndex(variable, 1, [Key("Value")]);
  }

  /** The stage reaches nothing in the container but its environment. */
  lemma StageOnlyInEnvironment(stage1: string, stage2: string, prefix: string, suffix: string, taskName: string, k: string)
    requires k != "Environment"
    ensures Lookup(ContainerDefinition(stage1, prefix, suffix, taskName).members, k)
      == Lookup(ContainerDefinition(stage2, prefix, suffix, taskName).members, k)
  {
    LookupAgrees(ContainerDefinition(stage1, prefix, suffix, taskName).members,
                 ContainerDefinition(stage2, prefix, suffix, taskName).members, "Environment", k);
  }

  /** ... and nothing in the task definition's properties but its container. */
  lemma StageOnlyInContainer(stage1: string, stage2: string, prefix: string, suffix: string, p: EcsTaskParams, k: string)
    requires k != "ContainerDefinitions"
    ensures Lookup(TaskDefinitionProperties(stage1, prefix, suffix, p).members, k)
      == Lookup(TaskDefinitionProperties(stage2, prefix, suffix, p).members, k)
  {
    LookupAgrees(TaskDefinitionProperties(stage1, prefix, suffix, p).members,
                 TaskDefinitionProperties(stage2, prefix, suffix, p).members, "ContainerDefinitions", k);
  }

  // ---------------------------------------------------------------------
  // References
  // ---------------------------------------------------------------------

  /** The task role reference names the role entry of the same bundle. */
  lemma TaskRoleReference(stage: string, prefix: string, suffix: string, p: EcsTaskParams)
    ensures var v := At(TaskDefinitionProperties(stage, prefix, suffix, p), [Key("TaskRoleArn")]);
      v.Some? && Target(v.value) == Some(TaskRoleKey(p.taskName))
  {
    AtMemberIndex(TaskDefinitionProperties(stage, prefix, suffix, p), 7, [Key("TaskRoleArn")]);
  }

  /** The image is the `latest` tag of the repository entry of the same bundle. */
  lemma ImageReference(stage: string, prefix: string, suffix: string, taskName: string)
    ensures var image := [Key("Fn::Join"), Index(1)];
      var v := At(ContainerImage(taskName), image + [Index(0)]);
      && At(ContainerDefinition(stage, prefix, suffix, taskName), [Key("Image")]) == Some(ContainerImage(taskName))
      && v.Some? && Target(v.value) == Some(RepositoryKey(taskName))
      && At(ContainerImage(taskName), image + [Index(1)]) == Some(Str(":latest"))
  {
    AtMemberIndex(ContainerDefinition(stage, prefix, suffix, taskName), 1, [Key("Image")]);
    var join := ContainerImage(taskName);
    var first, second := [Key("Fn::Join"), Index(1), Index(0)], [Key("Fn::Join"), Index(1), Index(1)];
    AtMemberIndex(join, 0, first);
    AtIndex(join.members[0].val, 1, first[1..]);
    AtMemberIndex(join, 0, second);
    AtIndex(join.members[0].val, 1, second[1..]);
  }

  /** The execution role is referred to as `prefix + "EcsExecutionRole"`,
      which is one of the shared bundle's keys only for the default prefix. */
  lemma ExecutionRoleName(prefix: string)
    ensures prefix + "EcsExecutionRole"
      in {BaseResources.ECS_CLUSTER_KEY, BaseResources.ECS_EXECUTION_ROLE_KEY, BaseResources.STATE_MACHINE_ROLE_KEY}
      <==> prefix == "ServerlessFlow"
  {
    var name := prefix + "EcsExecutionRole";
    OtherSharedKeys(prefix);
    assert "ServerlessFlow" + "EcsExecutionRole" == BaseResources.ECS_EXECUTION_ROLE_KEY;
    if name == BaseResources.ECS_EXECUTION_ROLE_KEY {
      assert prefix == name[..|prefix|];
    }
  }

  /** No prefix turns the execution-role reference into the cluster's or the
      state-machine role's key: the character after the prefix differs. */
  lemma OtherSharedKeys(prefix: string)
    ensures prefix + "EcsExecutionRole" != BaseResources.ECS_CLUSTER_KEY
    ensures prefix + "EcsExecutionRole" != BaseResources.STATE_MACHINE_ROLE_KEY
  {
    var name := prefix + "EcsExecutionRole";
    if |name| == |BaseResources.ECS_CLUSTER_KEY| {
      assert name[|prefix|] != BaseResources.ECS_CLUSTER_KEY[|prefix|];
    }
    if |name| == |BaseResources.STATE_MACHINE_ROLE_KEY| {
      assert name[|prefix|] != BaseResources.STATE_MACHINE_ROLE_KEY[|prefix|];
    }
  }

  lemma ExecutionRoleReference(stage: string, prefix: string, suffix: string, p: EcsTaskParams)
    ensures var v := At(TaskDefinitionProperties(stage, prefix, suffix, p), [Key("ExecutionRoleArn")]);
      v.Some? && Target(v.value) == Some(prefix + "EcsExecutionRole")
  {
    AtMemberIndex(TaskDefinitionProperties(stage, prefix, suffix, p), 6, [Key("ExecutionRoleArn")]);
  }

  /** The repository grants push and pull, in its only statement, to the
      same execution-role name. */
  lemma RepositoryPrincipal(prefix: string)
    ensures At(RepositoryPolicyText(prefix), [Key("Statement")]) == Some(Arr([AccessStatement(prefix)]))
    ensures var v := At(AccessStatement(prefix), [Key("Principal"), Key("AWS")]);
      v.Some? && Target(v.value) == Some(prefix + "EcsExecutionRole")
  {
    AtMemberIndex(RepositoryPolicyText(prefix), 1, [Key("Statement")]);
    var statement, path := AccessStatement(prefix), [Key("Principal"), Key("AWS")];
    AtMemberIndex(statement, 2, path);
    AtMemberIndex(statement.members[2].val, 0, path[1..]);
  }

  // ---------------------------------------------------------------------
  // The task role's contents
  // ---------------------------------------------------------------------

  lemma TaskRoleName(prefix: string, suffix: string, taskName: string, statements: seq<Value>)
    ensures At(TaskRole(prefix, suffix, taskName, statements), [Key("Properties"), Key("RoleName")])
      == Some(Str(prefix + taskName + "TaskRole" + suffix))
  {
    var path := [Key("Properties"), Key("RoleName")];
    AtMemberIndex(TaskRole(prefix, suffix, taskName, statements), 1, path);
    AtMemberIndex(TaskRoleProperties(prefix, suffix, taskName, statements), 0, path[1..]);
  }

  /** No statements, no policy; otherwise exactly one policy holding the
      descriptor's statements verbatim and in order, with nothing added. */
  lemma TaskRolePolicy(prefix: string, suffix: string, taskName: string, statements: seq<Value>)
    ensures var policies := At(TaskRole(prefix, suffix, taskName, statements), [Key("Properties"), Key("Policies")]);
      && policies.Some? && policies.value.Arr?
      && (|policies.value.items| == 0 <==> |statements| == 0)
      && (|statements| > 0 ==>
            && |policies.value.items| == 1
            && At(policies.value.items[0], [Key("PolicyName")]) == Some(Str(prefix + taskName + "TaskPolicy" + suffix))
            && At(policies.value.items[0], [Key("PolicyDocument"), Key("Statement")]) == Some(Arr(statements)))
  {
    var path := [Key("Properties"), Key("Policies")];
    AtMemberIndex(TaskRole(prefix, suffix, taskName, statements), 1, path);
    AtMemberIndex(TaskRoleProperties(prefix, suffix, taskName, statements), 2, path[1..]);
    if |statements| > 0 {
      var policy := TaskRolePolicies(prefix, suffix, taskName, statements)[0];
      AtMemberIndex(policy, 0, [Key("PolicyName")]);
      var document := [Key("PolicyDocument"), Key("Statement")];
      AtMemberIndex(policy, 1, document);
      AtMemberIndex(policy.members[1].val, 1, document[1..]);
    }
  }

  // ---------------------------------------------------------------------
  // The repository's contents
  // ---------------------------------------------------------------------

  /** Only the first hyphen is dropped: a later one survives. */
  lemma RepositoryNameFirstHyphenOnly()
    ensures RepositoryName("P", "t", "-a-b") == "p_t_a-b"
  {
    assert "P" + "_" + "t" + "_" + "-a-b" == "P_t_-a-b";
    LowerExample();
    RemoveExample();
  }

  lemma LowerExample()
    ensures Strings.Lower("P_t_-a-b") == "p_t_-a-b"
  {
    var full := "P_t_-a-b";
    var lower := Strings.Lower(full);
    assert lower[0] == Strings.LowerChar('P') == 'p';
    forall i | 1 <= i < 8 ensures lower[i] == full[i] {
      assert !Strings.IsUpper(full[i]);
    }
  }

  lemma RemoveExample()
    ensures Strings.RemoveFirst("p_t_-a-b", '-') == "p_t_a-b"
  {
    var lower := "p_t_-a-b";
    FirstHyphenExample();
    assert lower[..4] + lower[5..] == "p_t_a-b";
  }

  lemma FirstHyphenExample()
    ensures Strings.FirstIndex("p_t_-a-b", '-') == 4
  {
    var lower := "p_t_-a-b";
    assert lower[4..][0] == '-';
    assert lower[3..][1..] == lower[4..] && Strings.FirstIndex(lower[3..], '-') == 1;
    assert lower[2..][1..] == lower[3..] && Strings.FirstIndex(lower[2..], '-') == 2;
    assert lower[1..][1..] == lower[2..] && Strings.FirstIndex(lower[1..], '-') == 3;
  }

  /** The repository's properties: its name, lifecycle policy and access policy. */
  lemma RepositoryContents(prefix: string, suffix: string, taskName: string, keep: int)
    ensures var properties := RepositoryProperties(prefix, suffix, taskName, keep);
      && At(Repository(prefix, suffix, taskName, keep), [Key("Properties")]) == Some(properties)
      && At(properties, [Key("RepositoryName")]) == Some(Str(RepositoryName(prefix, taskName, suffix)))
      && At(properties, [Key("LifecyclePolicy"), Key("LifecyclePolicyText")]) == Some(Str(Stringify(LifecycleRules(keep))))
      && At(properties, [Key("RepositoryPolicyText")]) == Some(RepositoryPolicyText(prefix))
  {
    var properties := RepositoryProperties(prefix, suffix, taskName, keep);
    AtMemberIndex(Repository(prefix, suffix, taskName, keep), 1, [Key("Properties")]);
    AtMemberIndex(properties, 0, [Key("RepositoryName")]);
    var text := [Key("LifecyclePolicy"), Key("LifecyclePolicyText")];
    AtMemberIndex(properties, 1, text);
    AtMemberIndex(properties.members[1].val, 0, text[1..]);
    AtMemberIndex(properties, 2, [Key("RepositoryPolicyText")]);
  }

  /** The serialised rule keeps `keep` images and says so in its description. */
  lemma LifecycleRule(keep: int)
    ensures var rule := At(LifecycleRules(keep), [Key("rules"), Index(0)]);
      && rule.Some?
      && At(rule.value, [Key("selection"), Key("countNumber")]) == Some(Num(keep))
      && At(rule.value, [Key("description")]) == Some(Str("Keep only last " + Strings.IntToString(keep) + " images"))
  {
    var rules := LifecycleRules(keep);
    var first := [Key("rules"), Index(0)];
    AtMemberIndex(rules, 0, first);
    AtIndex(rules.members[0].val, 0, first[1..]);
    var rule := rules.members[0].val.items[0];
    var count := [Key("selection"), Key("countNumber")];
    AtMemberIndex(rule, 2, count);
    AtMemberIndex(rule.members[2].val, 2, count[1..]);
    AtMemberIndex(rule, 1, [Key("description")]);
  }
}
