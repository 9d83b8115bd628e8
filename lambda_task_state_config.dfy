/**
 * The workflow state of a function task: `Name` is deleted from the caller's
 * override object, and the rest of the override is deep-merged into a
 * `Task` skeleton that invokes the task's function.
 */
module LambdaTaskStateConfig {
  import opened Wrappers
  import opened Json
  import opened Types
  import Merge
  import LambdaTaskResources

  /** The name the skeleton's `Fn::GetAtt` refers to. */
  function FunctionReference(taskName: string): string {
    taskName + "LambdaFunction"
  }

  function Skeleton(taskName: string): (r: Value)
    ensures r.Obj? && DistinctKeys(r.members) && Keys(r.members) == {"Type", "Resource"}
  {
    var ms := [
      Member("Type", Str("Task")),
      Member("Resource", GetAtt(FunctionReference(taskName), "Arn"))];
    assert Keys(ms[1..][1..]) == {};
    assert Keys(ms[1..]) == {"Resource"};
    UniqueKeysDistinct(ms);
    Obj(ms)
  }

  /** `getLambdaTaskStateConfig(taskParams, rawConfig)` as a value. */
  function LambdaTaskStateConfig(p: TaskParams, raw: seq<Member>): (r: Value)
    ensures r.Obj? && Keys(r.members) == {"Type", "Resource"} + (Keys(raw) - {"Name"})
  {
    Merge.Merge(Skeleton(p.taskName), Obj(Remove(raw, "Name")))
  }

  /** The builder on the caller's override object. */
  method GetLambdaTaskStateConfig(p: TaskParams, raw: JsObject) returns (r: Value)
    modifies raw
    ensures raw.members == Remove(old(raw.members), "Name")
    ensures r == LambdaTaskStateConfig(p, old(raw.members))
  {
    raw.Delete("Name");
    r := Merge.Merge(Skeleton(p.taskName), raw.Value());
  }

  /** With no override beyond `Name`, the result is the skeleton. */
  lemma NoOverrides(p: TaskParams, raw: seq<Member>)
    requires Keys(raw) <= {"Name"}
    ensures LambdaTaskStateConfig(p, raw) == Obj([
      Member("Type", Str("Task")),
      Member("Resource", Obj([Member("Fn::GetAtt", Arr([Str(p.taskName + "LambdaFunction"), Str("Arn")]))]))])
  {
    NoKeysEmpty(Remove(raw, "Name"));
    assert Merge.MergeMembers(Skeleton(p.taskName).members, []) == Skeleton(p.taskName).members;
  }

  /** The skeleton refers to `taskName + "LambdaFunction"`, which is neither
      key of the task's own function bundle. */
  lemma FunctionReferenceNotInBundle(prefix: string, suffix: string, taskName: string, definition: seq<Member>,
                                     statements: seq<Value>)
    ensures Target(Lookup(Skeleton(taskName).members, "Resource").value) == Some(taskName + "LambdaFunction")
    ensures FunctionReference(taskName)
      !in Keys(LambdaTaskResources.LambdaTaskResources(prefix, suffix, taskName, definition, statements).members)
  {
    LookupFirst(Skeleton(taskName).members, 1);
  }

  /** Override keys all reach the result; a scalar override value wins; a
      skeleton key the override lacks keeps its value. */
  lemma LambdaConfigMergeLaw(p: TaskParams, raw: seq<Member>, k: string)
    requires DistinctKeys(raw)
    ensures var overrides := Remove(raw, "Name");
      var r := LambdaTaskStateConfig(p, raw);
      && (k in Keys(overrides) && Merge.IsScalar(Lookup(overrides, k).value) ==> Lookup(r.members, k) == Lookup(overrides, k))
      && (k !in Keys(overrides) ==> Lookup(r.members, k) == Lookup(Skeleton(p.taskName).members, k))
  {
    Merge.ObjectMergeLaw(Skeleton(p.taskName).members, Remove(raw, "Name"), k);
  }

  /** The result depends on the descriptor only through its name, and on the
      override not at all through its `Name`. */
  lemma NameIndependence(p: TaskParams, q: TaskParams, raw: seq<Member>, name: Value)
    requires p.taskName == q.taskName
    ensures LambdaTaskStateConfig(p, Put(raw, "Name", name)) == LambdaTaskStateConfig(q, raw)
  {
    RemovePut(raw, "Name", name);
  }
}
