/**
 * The workflow state of a container task. The user's raw state override
 * supplies an environment map and a network block; the builder reads both,
 * deletes them (and `Name`) from the caller's override object, projects the
 * environment into the container's `{Name, Value}` list, and deep-merges
 * what is left of the override into a `runTask.sync` skeleton.
 */
module EcsTaskStateConfig {
  import opened Wrappers
  import opened Json
  import opened Types
  import Strings
  import Merge
  import BaseResources
  import EcsTaskResources

  const RUN_TASK_RESOURCE: string := "arn:aws:states:::ecs:runTask.sync"

  /** Reading `value.includes` on a value that has no such method throws a
      `TypeError`; the key is that of the offending environment entry. */
  datatype Error = IncludesNotAFunction(key: string)

  // ---------------------------------------------------------------------
  // Reserved keys
  // ---------------------------------------------------------------------

  /** The override once `Name`, `Environment` and `Network` are deleted. */
  function Strip(raw: seq<Member>): (r: seq<Member>)
    ensures Keys(r) == Keys(raw) - {"Name", "Environment", "Network"}
    ensures forall k :: k != "Name" && k != "Environment" && k != "Network" ==> Lookup(r, k) == Lookup(raw, k)
    ensures DistinctKeys(raw) ==> DistinctKeys(r)
  {
    Remove(Remove(Remove(raw, "Name"), "Environment"), "Network")
  }

  // ---------------------------------------------------------------------
  // The environment projection
  // ---------------------------------------------------------------------

  /** `Object.entries(v)`: an object's members in order; an array's or a
      string's positions, keyed by their decimal index; nothing for any
      other value. */
  function Entries(v: Value): (r: seq<Member>)
    ensures v.Obj? ==> r == v.members
    ensures v.Arr? ==> |r| == |v.items| && forall i :: 0 <= i < |r| ==> r[i].val == v.items[i]
    ensures v.Str? ==> |r| == |v.s| && forall i :: 0 <= i < |r| ==> r[i].val == Str([v.s[i]])
    ensures v.Arr? || v.Str? ==> DistinctKeys(r)
    ensures !(v.Obj? || v.Arr? || v.Str?) ==> r == []
  {
    match v
    case Obj(ms) => ms
    case Arr(items) =>
      var r := seq(|items|, i requires 0 <= i < |items| => Member(Strings.IntToString(i), items[i]));
      IndexKeysDistinct(r);
      r
    case Str(s) =>
      var r := seq(|s|, i requires 0 <= i < |s| => Member(Strings.IntToString(i), Str([s[i]])));
      IndexKeysDistinct(r);
      r
    case _ => []
  }

  /** Positions rendered in decimal are distinct keys. */
  lemma IndexKeysDistinct(ms: seq<Member>)
    requires forall i :: 0 <= i < |ms| ==> ms[i].key == Strings.IntToString(i)
    ensures DistinctKeys(ms)
  {
    forall i, j | 0 <= i < j < |ms| ensures ms[i].key != ms[j].key {
      if ms[i].key == ms[j].key {
        Strings.NatToStringInjective(i, j);
      }
    }
    UniqueKeysDistinct(ms);
  }

  /** Strings and arrays are the values with an `includes` method. */
  predicate HasIncludes(v: Value) {
    v.Str? || v.Arr?
  }

  /** `value.includes('$.')`: a substring test on a string, an element test
      on an array. */
  predicate IsDynamic(v: Value)
    requires HasIncludes(v)
  {
    if v.Str? then Strings.Includes(v.s, "$.") else Str("$.") in v.items
  }

  function EnvName(key: string, value: Value): string
    requires HasIncludes(value)
  {
    Strings.Upper(key) + (if IsDynamic(value) then ".$" else "")
  }

  /** The variable name is the upper-cased key, marked with `.$` exactly
      when the value is dynamic. */
  lemma EnvNameMarksDynamic(key: string, value: Value)
    requires HasIncludes(value)
    ensures var name := EnvName(key, value);
      && |name| >= |key| && name[..|key|] == Strings.Upper(key)
      && (|name| == |key| + 2 <==> IsDynamic(value))
      && (IsDynamic(value) ==> name[|key|..] == ".$")
      && (!IsDynamic(value) ==> name == Strings.Upper(key))
  {
    var name := EnvName(key, value);
    assert name[..|key|] == Strings.Upper(key);
    if IsDynamic(value) {
      assert name[|key|..] == ".$";
    }
  }

  function EnvVariable(key: string, value: Value): Value
    requires HasIncludes(value)
  {
    Obj([Member("Name", Str(EnvName(key, value))), Member("Value", value)])
  }

  /** The `map` over the entries: each becomes its `{Name, Value}` pair, in
      order, unless some value lacks `includes`, where the first such entry
      throws. */
  function EnvVariables(entries: seq<Member>): (r: Result<seq<Value>, Error>)
    ensures r.Ok? <==> forall i :: 0 <= i < |entries| ==> HasIncludes(entries[i].val)
    ensures r.Ok? ==> |r.value| == |entries|
    ensures r.Ok? ==> forall i :: 0 <= i < |entries| ==> r.value[i] == EnvVariable(entries[i].key, entries[i].val)
    ensures r.Err? ==> (exists i :: 0 <= i < |entries| && !HasIncludes(entries[i].val)
                                 && r.error == IncludesNotAFunction(entries[i].key)
                                 && forall j :: 0 <= j < i ==> HasIncludes(entries[j].val))
  {
    if entries == [] then Ok([])
    else if !HasIncludes(entries[0].val) then Err(IncludesNotAFunction(entries[0].key))
    else
      var rest := EnvVariables(entries[1..]);
      assert forall i :: 0 <= i < |entries[1..]| ==> entries[1..][i] == entries[i + 1];
      if rest.Err? then
        var i :| 0 <= i < |entries[1..]| && !HasIncludes(entries[1..][i].val)
          && rest.error == IncludesNotAFunction(entries[1..][i].key)
          && forall j :: 0 <= j < i ==> HasIncludes(entries[1..][j].val);
        assert forall j :: 0 <= j < i + 1 ==> HasIncludes(entries[j].val) by {
          forall j | 0 <= j < i + 1 ensures HasIncludes(entries[j].val) {
            if j > 0 {
              assert entries[j] == entries[1..][j - 1];
            }
          }
        }
        Err(rest.error)
      else
        Ok([EnvVariable(entries[0].key, entries[0].val)] + rest.value)
  }

  /** `Object.entries(rawConfig.Environment || []).map(...)`. */
  function Environment(raw: seq<Member>): (r: Result<seq<Value>, Error>)
    ensures var env := Prop(Obj(raw), "Environment");
      && (!Truthy(env) ==> r == Ok([]))
      && (env.Num? || env.Bool? ==> r == Ok([]))
      && (env.Obj? ==> (r.Ok? <==> forall i :: 0 <= i < |env.members| ==> HasIncludes(env.members[i].val)))
      && (r.Ok? && Truthy(env) ==> |r.value| == |Entries(env)|)
  {
    EnvVariables(Entries(Or(Prop(Obj(raw), "Environment"), Arr([]))))
  }

  /** An override without an environment yields an empty list. */
  lemma NoEnvironment(raw: seq<Member>)
    requires "Environment" !in Keys(raw)
    ensures Environment(raw) == Ok([])
  {
  }

  /** An environment map of strings becomes one variable per entry, in order. */
  lemma EnvironmentMap(raw: seq<Member>, env: seq<Member>)
    requires Lookup(raw, "Environment") == Some(Obj(env))
    requires forall i :: 0 <= i < |env| ==> env[i].val.Str?
    ensures Environment(raw).Ok?
    ensures |Environment(raw).value| == |env|
    ensures forall i :: 0 <= i < |env| ==>
              Environment(raw).value[i] == Obj([
                Member("Name", Str(Strings.Upper(env[i].key) + (if Strings.Includes(env[i].val.s, "$.") then ".$" else ""))),
                Member("Value", env[i].val)])
  {
  }

  // ---------------------------------------------------------------------
  // The network block
  // ---------------------------------------------------------------------

  /** `rawConfig.Network || {}`. */
  function Network(raw: seq<Member>): (r: Value)
    ensures Truthy(r)
    ensures r == Obj([]) || Lookup(raw, "Network") == Some(r)
    ensures Truthy(Prop(Obj(raw), "Network")) ==> r == Prop(Obj(raw), "Network")
    ensures !Truthy(Prop(Obj(raw), "Network")) ==> r == Obj([])
  {
    Or(Prop(Obj(raw), "Network"), Obj([]))
  }

  function NetworkConfiguration(network: Value): (r: Value)
    ensures r.Obj? && Keys(r.members) == {"AwsvpcConfiguration"}
  {
    Obj([Member("AwsvpcConfiguration", Obj([
      Member("AssignPublicIp", Str(if Truthy(Prop(network, "PublicIp")) then "ENABLED" else "DISABLED")),
      Member("Subnets", Or(Prop(network, "Subnets"), Arr([]))),
      Member("SecurityGroups", Or(Prop(network, "SecurityGroups"), Arr([])))]))])
  }

  /** The public IP is enabled exactly when `PublicIp` is truthy; subnets and
      security groups are the network's own when truthy and `[]` otherwise. */
  lemma NetworkBlock(network: Value)
    ensures var vpc := At(NetworkConfiguration(network), [Key("AwsvpcConfiguration")]);
      && vpc.Some?
      && (At(vpc.value, [Key("AssignPublicIp")]) == Some(Str("ENABLED")) <==> Truthy(Prop(network, "PublicIp")))
      && (At(vpc.value, [Key("AssignPublicIp")]) == Some(Str("DISABLED")) <==> !Truthy(Prop(network, "PublicIp")))
      && (Truthy(Prop(network, "Subnets")) ==> At(vpc.value, [Key("Subnets")]) == Some(Prop(network, "Subnets")))
      && (!Truthy(Prop(network, "Subnets")) ==> At(vpc.value, [Key("Subnets")]) == Some(Arr([])))
      && (Truthy(Prop(network, "SecurityGroups")) ==> At(vpc.value, [Key("SecurityGroups")]) == Some(Prop(network, "SecurityGroups")))
      && (!Truthy(Prop(network, "SecurityGroups")) ==> At(vpc.value, [Key("SecurityGroups")]) == Some(Arr([])))
  {
    var block := NetworkConfiguration(network);
    AtMemberIndex(block, 0, [Key("AwsvpcConfiguration")]);
    var vpc := block.members[0].val;
    AtMemberIndex(vpc, 0, [Key("AssignPublicIp")]);
    AtMemberIndex(vpc, 1, [Key("Subnets")]);
    AtMemberIndex(vpc, 2, [Key("SecurityGroups")]);
  }

  // ---------------------------------------------------------------------
  // The skeleton and the merge
  // ---------------------------------------------------------------------

  function ContainerOverrides(environment: seq<Value>): Value {
    Obj([Member("ContainerOverrides", Arr([Obj([
      Member("Name", Str("main")),
      Member("Environment", Arr(environment))])]))])
  }

  function Parameters(taskName: string, environment: seq<Value>, network: Value): Value {
    Obj([
      Member("Cluster", Ref(BaseResources.ECS_CLUSTER_KEY)),
      Member("TaskDefinition", Ref(EcsTaskResources.TaskDefinitionKey(taskName))),
      Member("LaunchType", Str("FARGATE")),
      Member("Overrides", ContainerOverrides(environment)),
      Member("NetworkConfiguration", NetworkConfiguration(network))])
  }

  function Skeleton(taskName: string, environment: seq<Value>, network: Value): (r: Value)
    ensures r.Obj? && DistinctKeys(r.members) && Keys(r.members) == {"Type", "Resource", "Parameters"}
  {
    var ms := [
      Member("Type", Str("Task")),
      Member("Resource", Str(RUN_TASK_RESOURCE)),
      Member("Parameters", Parameters(taskName, environment, network))];
    assert Keys(ms[1..][1..]) == {"Parameters"};
    assert Keys(ms[1..]) == {"Resource", "Parameters"};
    UniqueKeysDistinct(ms);
    Obj(ms)
  }

  /** `getEcsTaskStateConfig(taskParams, rawConfig)` as a value: the stripped
      override merged into the skeleton, or the error the projection throws. */
  function EcsTaskStateConfig(p: TaskParams, raw: seq<Member>): (r: Result<Value, Error>)
    ensures r.Ok? <==> Environment(raw).Ok?
    ensures r.Ok? ==> r.value.Obj?
  {
    var environment := Environment(raw);
    if environment.Err? then Err(environment.error)
    else Ok(Merge.Merge(Skeleton(p.taskName, environment.value, Network(raw)), Obj(Strip(raw))))
  }

  /** The builder on the caller's override object: reads the environment and
      the network, deletes the three reserved keys (before the projection
      can throw), then merges. */
  method GetEcsTaskStateConfig(p: TaskParams, raw: JsObject) returns (r: Result<Value, Error>)
    modifies raw
    ensures raw.members == Strip(old(raw.members))
    ensures r == EcsTaskStateConfig(p, old(raw.members))
  {
    var environment := Environment(raw.members);
    var network := Network(raw.members);
    raw.Delete("Name");
    raw.Delete("Environment");
    raw.Delete("Network");
    if environment.Err? {
      return Err(environment.error);
    }
    r := Ok(Merge.Merge(Skeleton(p.taskName, environment.value, network), raw.Value()));
  }

  // ---------------------------------------------------------------------
  // Properties
  // ---------------------------------------------------------------------

  /** The skeleton refers to the shared cluster and to the task's own task
      definition, under the keys the resource bundles use. */
  lemma SkeletonReferences(taskName: string, environment: seq<Value>, network: Value)
    ensures var parameters := At(Skeleton(taskName, environment, network), [Key("Parameters")]);
      && parameters == Some(Parameters(taskName, environment, network))
      && Target(Lookup(parameters.value.members, "Cluster").value) == Some(BaseResources.ECS_CLUSTER_KEY)
      && Target(Lookup(parameters.value.members, "TaskDefinition").value) == Some(EcsTaskResources.TaskDefinitionKey(taskName))
  {
    AtMemberIndex(Skeleton(taskName, environment, network), 2, [Key("Parameters")]);
    var ms := Parameters(taskName, environment, network).members;
    LookupFirst(ms, 0);
    LookupFirst(ms, 1);
  }

  /** The override's keys all reach the result; a scalar override value wins;
      a skeleton key the override lacks keeps the skeleton's value. */
  lemma EcsConfigMergeLaw(p: TaskParams, raw: seq<Member>, k: string)
    requires DistinctKeys(raw) && Environment(raw).Ok?
    ensures var skeleton := Skeleton(p.taskName, Environment(raw).value, Network(raw));
      var overrides := Strip(raw);
      var r := EcsTaskStateConfig(p, raw).value;
      && Keys(r.members) == Keys(skeleton.members) + Keys(overrides)
      && (k in Keys(overrides) && Merge.IsScalar(Lookup(overrides, k).value) ==> Lookup(r.members, k) == Lookup(overrides, k))
      && (k !in Keys(overrides) ==> Lookup(r.members, k) == Lookup(skeleton.members, k))
  {
    var skeleton := Skeleton(p.taskName, Environment(raw).value, Network(raw));
    Merge.ObjectMergeLaw(skeleton.members, Strip(raw), k);
  }

  /** With nothing but reserved keys in the override, the result is the
      skeleton itself. */
  lemma OnlyReservedKeys(p: TaskParams, raw: seq<Member>)
    requires Keys(raw) <= {"Name", "Environment", "Network"} && Environment(raw).Ok?
    ensures EcsTaskStateConfig(p, raw) == Ok(Skeleton(p.taskName, Environment(raw).value, Network(raw)))
  {
    NoKeysEmpty(Strip(raw));
  }
}
