/**
 * The resources of one function task: the caller's function definition, with
 * its execution role defaulted to the task's own role, and that IAM role.
 * The definition is the caller's object: a missing or empty `role` is filled
 * in on that object itself, and the bundle holds the object as updated.
 */
module LambdaTaskResources {
  import opened Wrappers
  import opened Json
  import opened Types
  import EcsTaskResources

  function FunctionDefinitionKey(taskName: string): string {
    taskName + "FunctionDefinition"
  }

  // ---------------------------------------------------------------------
  // The role default
  // ---------------------------------------------------------------------

  /** The definition after the role default: unchanged when its `role` is
      truthy, otherwise with `role` set to the task role's name. */
  function WithDefaultRole(definition: seq<Member>, taskName: string): (r: seq<Member>)
    ensures Truthy(Prop(Obj(definition), "role")) ==> r == definition
    ensures !Truthy(Prop(Obj(definition), "role")) ==>
              Lookup(r, "role") == Some(Str(EcsTaskResources.TaskRoleKey(taskName)))
    ensures forall k :: k != "role" ==> Lookup(r, k) == Lookup(definition, k)
    ensures Keys(r) == Keys(definition) + {"role"}
  {
    if Truthy(Prop(Obj(definition), "role")) then definition
    else Put(definition, "role", Str(EcsTaskResources.TaskRoleKey(taskName)))
  }

  /** After the default, the definition always names a role. */
  lemma RoleAlwaysSet(definition: seq<Member>, taskName: string)
    ensures Truthy(Prop(Obj(WithDefaultRole(definition, taskName)), "role"))
  {
    var r := WithDefaultRole(definition, taskName);
    if !Truthy(Prop(Obj(definition), "role")) {
      assert Prop(Obj(r), "role") == Str(EcsTaskResources.TaskRoleKey(taskName));
    }
  }

  /** Applying the default a second time, for any task, changes nothing. */
  lemma DefaultRoleIdempotent(definition: seq<Member>, taskName: string, otherName: string)
    ensures WithDefaultRole(WithDefaultRole(definition, taskName), otherName) == WithDefaultRole(definition, taskName)
  {
    RoleAlwaysSet(definition, taskName);
  }

  /** The in-place default on the caller's definition object. */
  method DefaultRole(p: LambdaTaskParams)
    modifies p.functionDefinition
    ensures p.functionDefinition.members == WithDefaultRole(old(p.functionDefinition.members), p.taskName)
  {
    if !Truthy(Prop(p.functionDefinition.Value(), "role")) {
      p.functionDefinition.Set("role", Str(EcsTaskResources.TaskRoleKey(p.taskName)));
    }
  }

  // ---------------------------------------------------------------------
  // The task role
  // ---------------------------------------------------------------------

  /** The fixed statement that lets the function write its logs. */
  function LogWriteStatement(): Value {
    Obj([
      Member("Effect", Str("Allow")),
      Member("Action", Arr([
        Str("logs:CreateLogGroup"), Str("logs:CreateLogStream"), Str("logs:PutLogEvents"), Str("logs:TagResource")])),
      Member("Resource", Join("", [
        Str("arn:aws:logs:"), Ref("AWS::Region"), Str(":"), Ref("AWS::AccountId"),
        Str(":log-group:/aws/lambda/*:*:*")]))])
  }

  /** The log statement followed by the descriptor's statements, in order. */
  function PolicyStatements(statements: seq<Value>): (r: seq<Value>)
    ensures |r| == 1 + |statements|
    ensures r[0] == LogWriteStatement()
    ensures forall i :: 0 <= i < |statements| ==> r[i + 1] == statements[i]
  {
    [LogWriteStatement()] + statements
  }

  /** The source keeps an empty-list branch for a statement list that is
      never empty. */
  function LambdaRolePolicies(prefix: string, suffix: string, taskName: string, statements: seq<Value>): seq<Value> {
    var all := PolicyStatements(statements);
    if |all| > 0 then
      [Obj([
        Member("PolicyName", Str(prefix + taskName + "TaskPolicy" + suffix)),
        Member("PolicyDocument", Obj([
          Member("Version", Str("2012-10-17")),
          Member("Statement", Arr(all))]))])]
    else []
  }

  function LambdaRoleProperties(prefix: string, suffix: string, taskName: string, statements: seq<Value>): Value {
    Obj([
      Member("RoleName", Str(prefix + taskName + "TaskRole" + suffix)),
      Member("AssumeRolePolicyDocument", Obj([
        Member("Version", Str("2012-10-17")),
        Member("Statement", Arr([Obj([
          Member("Effect", Str("Allow")),
          Member("Principal", Obj([Member("Service", Arr([Str("lambda.amazonaws.com")]))])),
          Member("Action", Arr([Str("sts:AssumeRole")]))])]))])),
      Member("Policies", Arr(LambdaRolePolicies(prefix, suffix, taskName, statements)))])
  }

  function LambdaTaskRole(prefix: string, suffix: string, taskName: string, statements: seq<Value>): Value {
    Obj([
      Member("Type", Str("AWS::IAM::Role")),
      Member("Properties", LambdaRoleProperties(prefix, suffix, taskName, statements))])
  }

  // ---------------------------------------------------------------------
  // The bundle
  // ---------------------------------------------------------------------

  /** The bundle built around a definition that already carries its role. */
  function LambdaTaskResources(prefix: string, suffix: string, taskName: string, definition: seq<Member>,
                               statements: seq<Value>): (r: Value)
    ensures r.Obj? && DistinctKeys(r.members)
    ensures Keys(r.members) == {FunctionDefinitionKey(taskName), EcsTaskResources.TaskRoleKey(taskName)}
  {
    var ms := [
      Member(FunctionDefinitionKey(taskName), Obj(definition)),
      Member(EcsTaskResources.TaskRoleKey(taskName), LambdaTaskRole(prefix, suffix, taskName, statements))];
    UniqueKeysDistinct(ms);
    MemberKey(ms, ms[0]);
    MemberKey(ms, ms[1]);
    assert forall k | k in Keys(ms) :: k in {ms[0].key, ms[1].key} by {
      forall k | k in Keys(ms) ensures k in {ms[0].key, ms[1].key} {
        KeyHasMember(ms, k);
      }
    }
    Obj(ms)
  }

  /** `getLambdaTaskResources(stage, prefix, suffix, taskParams)`: defaults the
      caller's role in place, then builds the bundle around the updated
      definition. The stage is not used. */
  method GetLambdaTaskResources(stage: string, prefix: string, suffix: string, p: LambdaTaskParams) returns (r: Value)
    modifies p.functionDefinition
    ensures p.functionDefinition.members == WithDefaultRole(old(p.functionDefinition.members), p.taskName)
    ensures r == LambdaTaskResources(prefix, suffix, p.taskName, p.functionDefinition.members, p.iamRolePolicyStatements)
  {
    DefaultRole(p);
    r := LambdaTaskResources(prefix, suffix, p.taskName, p.functionDefinition.members, p.iamRolePolicyStatements);
  }

  // ---------------------------------------------------------------------
  // Properties of the bundle
  // ---------------------------------------------------------------------

  /** The definition entry is the definition itself, every field included. */
  lemma DefinitionEntry(prefix: string, suffix: string, taskName: string, definition: seq<Member>, statements: seq<Value>)
    ensures Lookup(LambdaTaskResources(prefix, suffix, taskName, definition, statements).members, FunctionDefinitionKey(taskName))
      == Some(Obj(definition))
  {
    LookupFirst(LambdaTaskResources(prefix, suffix, taskName, definition, statements).members, 0);
  }

  lemma RoleEntry(prefix: string, suffix: string, taskName: string, definition: seq<Member>, statements: seq<Value>)
    ensures Lookup(LambdaTaskResources(prefix, suffix, taskName, definition, statements).members, EcsTaskResources.TaskRoleKey(taskName))
      == Some(LambdaTaskRole(prefix, suffix, taskName, statements))
  {
    LookupFirst(LambdaTaskResources(prefix, suffix, taskName, definition, statements).members, 1);
  }

  /** A defaulted role names the role entry of the same bundle. */
  lemma DefaultRoleReference(prefix: string, suffix: string, taskName: string, definition: seq<Member>, statements: seq<Value>)
    requires !Truthy(Prop(Obj(definition), "role"))
    ensures var updated := WithDefaultRole(definition, taskName);
      && Lookup(updated, "role") == Some(Str(EcsTaskResources.TaskRoleKey(taskName)))
      && EcsTaskResources.TaskRoleKey(taskName) in Keys(LambdaTaskResources(prefix, suffix, taskName, updated, statements).members)
  {
  }

  lemma LambdaRoleName(prefix: string, suffix: string, taskName: string, statements: seq<Value>)
    ensures At(LambdaTaskRole(prefix, suffix, taskName, statements), [Key("Properties"), Key("RoleName")])
      == Some(Str(prefix + taskName + "TaskRole" + suffix))
  {
    var path := [Key("Properties"), Key("RoleName")];
    AtMemberIndex(LambdaTaskRole(prefix, suffix, taskName, statements), 1, path);
    AtMemberIndex(LambdaRoleProperties(prefix, suffix, taskName, statements), 0, path[1..]);
  }

  /** Always exactly one policy, named after the task, holding the log
      statement and then the descriptor's statements in order. */
  lemma LambdaRolePolicy(prefix: string, suffix: string, taskName: string, statements: seq<Value>)
    ensures var policies := At(LambdaTaskRole(prefix, suffix, taskName, statements), [Key("Properties"), Key("Policies")]);
      && policies.Some? && policies.value.Arr? && |policies.value.items| == 1
      && At(policies.value.items[0], [Key("PolicyName")]) == Some(Str(prefix + taskName + "TaskPolicy" + suffix))
      && At(policies.value.items[0], [Key("PolicyDocument"), Key("Statement")])
           == Some(Arr([LogWriteStatement()] + statements))
  {
    var path := [Key("Properties"), Key("Policies")];
    AtMemberIndex(LambdaTaskRole(prefix, suffix, taskName, statements), 1, path);
    AtMemberIndex(LambdaRoleProperties(prefix, suffix, taskName, statements), 2, path[1..]);
    var policy := LambdaRolePolicies(prefix, suffix, taskName, statements)[0];
    AtMemberIndex(policy, 0, [Key("PolicyName")]);
    var document := [Key("PolicyDocument"), Key("Statement")];
    AtMemberIndex(policy, 1, document);
    AtMemberIndex(policy.members[1].val, 1, document[1..]);
  }
}
