/**
 * The validation rules of the plugin parameters, the ECS task descriptor and
 * the `deploy-images` options (zod object schemas): required and optional
 * fields, their types, defaults for absent fields, length bounds, the
 * alphanumeric rule and the closed task-type set. Each schema is a total
 * function from a raw value to a typed record or to the first violation, in
 * the order the schema declares its fields.
 */
module Schemas {
  import opened Wrappers
  import opened Json
  import opened Types
  import Strings

  /** What a field got wrong (zod's issue codes). */
  datatype Issue =
    | InvalidType(expected: string)   // wrong type, or a required field that is missing
    | TooSmall(minimum: nat)          // string shorter than the minimum
    | TooBig(maximum: nat)            // string longer than the maximum
    | NotAlphaNumeric                 // the alphanumeric refinement failed
    | InvalidUnion                    // none of the allowed literals

  datatype ValidationError = ValidationError(path: seq<Step>, issue: Issue)

  type Parsed<T> = Result<T, ValidationError>

  const DEFAULT_RESOURCES_PREFIX: string := "ServerlessFlow"
  const MAX_RESOURCES_PREFIX_LENGTH: nat := 17
  const DEFAULT_RESOURCES_SUFFIX: string := ""
  const DEFAULT_STATE_MACHINES_DIRECTORY: string := "./src/stepFunctions"
  const DEFAULT_TASKS_DIRECTORY: string := "./src/tasks"
  const MIN_TASK_NAME_LENGTH: nat := 1
  const MAX_TASK_NAME_LENGTH: nat := 32
  const DEFAULT_EPHEMERAL_STORAGE: int := 21
  const DEFAULT_ECR_REPOSITORY_KEEP_MAX_IMAGES: int := 3
  const DEFAULT_PROFILE: string := ""

  // ---------------------------------------------------------------------
  // alphaNumeric: /^[a-zA-Z0-9]+$/
  // ---------------------------------------------------------------------

  predicate IsAlphaNumChar(c: char) {
    Strings.IsUpper(c) || Strings.IsLower(c) || Strings.IsDigit(c)
  }

  /** The regular expression's scan: one character of the class, then the rest. */
  function AlphaNumeric(s: string): (r: bool)
    ensures r <==> |s| > 0 && forall i :: 0 <= i < |s| ==> IsAlphaNumChar(s[i])
  {
    |s| > 0 && IsAlphaNumChar(s[0]) && (|s| == 1 || AlphaNumeric(s[1..]))
  }

  // ---------------------------------------------------------------------
  // Field rules, stated declaratively
  // ---------------------------------------------------------------------

  /** `raw[field]`, with an absent field read as `Null`. */
  function FieldValue(ms: seq<Member>, field: string): Value {
    Lookup(ms, field).GetOr(Null)
  }

  predicate OptionalStringOk(ms: seq<Member>, field: string) {
    field !in Keys(ms) || FieldValue(ms, field).Str?
  }

  function StringOr(ms: seq<Member>, field: string, default: string): string {
    if field in Keys(ms) && FieldValue(ms, field).Str? then FieldValue(ms, field).s else default
  }

  predicate OptionalNumberOk(ms: seq<Member>, field: string) {
    field !in Keys(ms) || FieldValue(ms, field).Num?
  }

  function NumberOr(ms: seq<Member>, field: string, default: int): int {
    if field in Keys(ms) && FieldValue(ms, field).Num? then FieldValue(ms, field).n else default
  }

  predicate ResourcesPrefixOk(ms: seq<Member>) {
    "resourcesPrefix" !in Keys(ms) ||
    (FieldValue(ms, "resourcesPrefix").Str? &&
     |FieldValue(ms, "resourcesPrefix").s| <= MAX_RESOURCES_PREFIX_LENGTH &&
     AlphaNumeric(FieldValue(ms, "resourcesPrefix").s))
  }

  predicate ValidTaskName(s: string) {
    MIN_TASK_NAME_LENGTH <= |s| <= MAX_TASK_NAME_LENGTH &&
    forall i :: 0 <= i < |s| ==> IsAlphaNumChar(s[i])
  }

  predicate TaskNameOk(ms: seq<Member>) {
    FieldValue(ms, "taskName").Str? && ValidTaskName(FieldValue(ms, "taskName").s)
  }

  predicate TaskTypeOk(ms: seq<Member>) {
    FieldValue(ms, "taskType") in {Str(TaskTypeLiteral(ECS)), Str(TaskTypeLiteral(LAMBDA))}
  }

  predicate StatementsOk(ms: seq<Member>) {
    "iamRolePolicyStatements" !in Keys(ms) ||
    (FieldValue(ms, "iamRolePolicyStatements").Arr? &&
     forall i :: 0 <= i < |FieldValue(ms, "iamRolePolicyStatements").items| ==>
       FieldValue(ms, "iamRolePolicyStatements").items[i].Obj?)
  }

  function StatementsOr(ms: seq<Member>): seq<Value> {
    if "iamRolePolicyStatements" in Keys(ms) && FieldValue(ms, "iamRolePolicyStatements").Arr? then
      FieldValue(ms, "iamRolePolicyStatements").items
    else []
  }

  // ---------------------------------------------------------------------
  // zod primitives, each reporting the first issue it finds
  // ---------------------------------------------------------------------

  function Fail<T>(field: string, issue: Issue): Parsed<T> {
    Err(ValidationError([Key(field)], issue))
  }

  /** `z.string()` on a required field. */
  function RequiredString(ms: seq<Member>, field: string): (r: Parsed<string>)
    ensures r.Ok? <==> FieldValue(ms, field).Str?
    ensures r.Ok? ==> r.value == FieldValue(ms, field).s
    ensures r.Err? ==> r.error.path == [Key(field)]
  {
    match Lookup(ms, field)
    case Some(Str(s)) => Ok(s)
    case _ => Fail(field, InvalidType("string"))
  }

  /** `z.string().optional().default(default)`. */
  function OptionalString(ms: seq<Member>, field: string, default: string): (r: Parsed<string>)
    ensures r.Ok? <==> OptionalStringOk(ms, field)
    ensures r.Ok? ==> r.value == StringOr(ms, field, default)
    ensures r.Err? ==> r.error.path == [Key(field)]
  {
    match Lookup(ms, field)
    case None => Ok(default)
    case Some(Str(s)) => Ok(s)
    case Some(_) => Fail(field, InvalidType("string"))
  }

  /** `z.number().int()` on a required field (every modelled number is an integer). */
  function RequiredInt(ms: seq<Member>, field: string): (r: Parsed<int>)
    ensures r.Ok? <==> FieldValue(ms, field).Num?
    ensures r.Ok? ==> r.value == FieldValue(ms, field).n
    ensures r.Err? ==> r.error.path == [Key(field)]
  {
    match Lookup(ms, field)
    case Some(Num(n)) => Ok(n)
    case _ => Fail(field, InvalidType("number"))
  }

  /** `z.number().optional().default(default)`. */
  function OptionalNumber(ms: seq<Member>, field: string, default: int): (r: Parsed<int>)
    ensures r.Ok? <==> OptionalNumberOk(ms, field)
    ensures r.Ok? ==> r.value == NumberOr(ms, field, default)
    ensures r.Err? ==> r.error.path == [Key(field)]
  {
    match Lookup(ms, field)
    case None => Ok(default)
    case Some(Num(n)) => Ok(n)
    case Some(_) => Fail(field, InvalidType("number"))
  }

  // ---------------------------------------------------------------------
  // ServerlessFlowParamsSchema
  // ---------------------------------------------------------------------

  /** `z.string().max(17).optional().default('ServerlessFlow').refine(alphaNumeric)`:
      the refinement also runs on the default, which passes it. */
  function ParseResourcesPrefix(ms: seq<Member>): (r: Parsed<string>)
    ensures r.Ok? <==> ResourcesPrefixOk(ms)
    ensures r.Ok? ==> r.value == StringOr(ms, "resourcesPrefix", DEFAULT_RESOURCES_PREFIX)
    ensures r.Ok? ==> |r.value| <= MAX_RESOURCES_PREFIX_LENGTH && AlphaNumeric(r.value)
  {
    DefaultPrefixIsAlphaNumeric();
    var s :- OptionalString(ms, "resourcesPrefix", DEFAULT_RESOURCES_PREFIX);
    if |s| > MAX_RESOURCES_PREFIX_LENGTH then Fail("resourcesPrefix", TooBig(MAX_RESOURCES_PREFIX_LENGTH))
    else if AlphaNumeric(s) then Ok(s)
    else Fail("resourcesPrefix", NotAlphaNumeric)
  }

  lemma DefaultPrefixIsAlphaNumeric()
    ensures AlphaNumeric(DEFAULT_RESOURCES_PREFIX)
  {
    var d := DEFAULT_RESOURCES_PREFIX;
    assert forall i :: 0 <= i < |d| ==> IsAlphaNumChar(d[i]);
  }

  function ParseServerlessFlowParams(raw: Value): (r: Parsed<ServerlessFlowParams>)
    ensures r.Ok? <==>
      raw.Obj? && ResourcesPrefixOk(raw.members) &&
      OptionalStringOk(raw.members, "resourcesSuffix") &&
      OptionalStringOk(raw.members, "stateMachinesDirectory") &&
      OptionalStringOk(raw.members, "tasksDirectory")
    ensures r.Ok? ==> r.value == ServerlessFlowParams(
      StringOr(raw.members, "resourcesPrefix", DEFAULT_RESOURCES_PREFIX),
      StringOr(raw.members, "resourcesSuffix", DEFAULT_RESOURCES_SUFFIX),
      StringOr(raw.members, "stateMachinesDirectory", DEFAULT_STATE_MACHINES_DIRECTORY),
      StringOr(raw.members, "tasksDirectory", DEFAULT_TASKS_DIRECTORY))
  {
    if !raw.Obj? then Err(ValidationError([], InvalidType("object")))
    else
      var ms := raw.members;
      var prefix :- ParseResourcesPrefix(ms);
      var suffix :- OptionalString(ms, "resourcesSuffix", DEFAULT_RESOURCES_SUFFIX);
      var stateMachinesDirectory :- OptionalString(ms, "stateMachinesDirectory", DEFAULT_STATE_MACHINES_DIRECTORY);
      var tasksDirectory :- OptionalString(ms, "tasksDirectory", DEFAULT_TASKS_DIRECTORY);
      Ok(ServerlessFlowParams(prefix, suffix, stateMachinesDirectory, tasksDirectory))
  }

  /** Every accepted parameter set has a usable prefix, whether given or defaulted. */
  lemma ServerlessFlowParamsSound(raw: Value)
    requires ParseServerlessFlowParams(raw).Ok?
    ensures var p := ParseServerlessFlowParams(raw).value;
      |p.resourcesPrefix| <= MAX_RESOURCES_PREFIX_LENGTH && AlphaNumeric(p.resourcesPrefix) &&
      p.resourcesPrefix != ""
  {
    var r := ParseResourcesPrefix(raw.members);
  }

  /** An empty parameter object yields every default. */
  lemma ServerlessFlowParamsDefaults()
    ensures ParseServerlessFlowParams(Obj([])) == Ok(ServerlessFlowParams(
      "ServerlessFlow", "", "./src/stepFunctions", "./src/tasks"))
  {
  }

  // ---------------------------------------------------------------------
  // EcsTaskParamsSchema
  // ---------------------------------------------------------------------

  /** `z.string().min(1).max(32).refine(alphaNumeric)`. */
  function ParseTaskName(ms: seq<Member>): (r: Parsed<string>)
    ensures r.Ok? <==> TaskNameOk(ms)
    ensures r.Ok? ==> r.value == FieldValue(ms, "taskName").s
    ensures r.Err? ==> r.error.path == [Key("taskName")]
  {
    var s :- RequiredString(ms, "taskName");
    if |s| < MIN_TASK_NAME_LENGTH then Fail("taskName", TooSmall(MIN_TASK_NAME_LENGTH))
    else if |s| > MAX_TASK_NAME_LENGTH then Fail("taskName", TooBig(MAX_TASK_NAME_LENGTH))
    else if !AlphaNumeric(s) then Fail("taskName", NotAlphaNumeric)
    else Ok(s)
  }

  /** `z.union([z.literal(TaskType.ECS), z.literal(TaskType.LAMBDA)])`. */
  function ParseTaskType(ms: seq<Member>): (r: Parsed<TaskType>)
    ensures r.Ok? <==> TaskTypeOk(ms)
    ensures r.Ok? ==> FieldValue(ms, "taskType") == Str(TaskTypeLiteral(r.value))
  {
    var v := FieldValue(ms, "taskType");
    if v == Str(TaskTypeLiteral(ECS)) then Ok(ECS)
    else if v == Str(TaskTypeLiteral(LAMBDA)) then Ok(LAMBDA)
    else Fail("taskType", InvalidUnion)
  }

  /** Every element must be a plain object; the elements are kept as given. */
  function ParsePolicyStatements(ms: seq<Member>): (r: Parsed<seq<Value>>)
    ensures r.Ok? <==> StatementsOk(ms)
    ensures r.Ok? ==> r.value == StatementsOr(ms)
  {
    match Lookup(ms, "iamRolePolicyStatements")
    case None => Ok([])
    case Some(Arr(items)) =>
      var bad := FirstNonObject(items, 0);
      if bad == |items| then Ok(items)
      else Err(ValidationError([Key("iamRolePolicyStatements"), Index(bad)], InvalidType("object")))
    case Some(_) => Fail("iamRolePolicyStatements", InvalidType("array"))
  }

  /** The index of the first element from `from` on that is not a plain object, or `|items|`. */
  function FirstNonObject(items: seq<Value>, from: nat): (i: nat)
    requires from <= |items|
    ensures from <= i <= |items|
    ensures forall j :: from <= j < i ==> items[j].Obj?
    ensures i < |items| ==> !items[i].Obj?
    decreases |items| - from
  {
    if from == |items| || !items[from].Obj? then from else FirstNonObject(items, from + 1)
  }

  /** `z.array(z.object({}))` as written: zod's object schema strips every key
      its shape does not list, and the shape `{}` lists none. */
  function ParsePolicyStatementsAsWritten(ms: seq<Member>): (r: Parsed<seq<Value>>)
    ensures r.Ok? <==> StatementsOk(ms)
    ensures r.Ok? ==> |r.value| == |StatementsOr(ms)| &&
                      forall i :: 0 <= i < |r.value| ==> r.value[i] == Obj([])
  {
    var statements :- ParsePolicyStatements(ms);
    Ok(seq(|statements|, _ => Obj([])))
  }

  /** The discrepancy: a real policy statement comes out of the as-written
      schema with its keys gone, while the intended schema keeps it. */
  lemma PolicyStatementStripped()
    ensures var statement := Obj([Member("Effect", Str("Allow")), Member("Action", Arr([Str("s3:GetObject")]))]);
      var raw := [Member("iamRolePolicyStatements", Arr([statement]))];
      ParsePolicyStatementsAsWritten(raw) == Ok([Obj([])]) &&
      ParsePolicyStatements(raw) == Ok([statement])
  {
    var statement := Obj([Member("Effect", Str("Allow")), Member("Action", Arr([Str("s3:GetObject")]))]);
    var raw := [Member("iamRolePolicyStatements", Arr([statement]))];
    assert Lookup(raw, "iamRolePolicyStatements") == Some(Arr([statement]));
    assert ParsePolicyStatements(raw) == Ok([statement]);
    assert seq(1, _ => Obj([])) == [Obj([])];
  }

  /** `EcsTaskParamsSchema.parse(raw)` as written: the statements come out
      stripped to `{}`. */
  function ParseEcsTaskParams(raw: Value): (r: Parsed<EcsTaskParams>)
    ensures r.Ok? <==>
      raw.Obj? && TaskNameOk(raw.members) && TaskTypeOk(raw.members) &&
      StatementsOk(raw.members) &&
      FieldValue(raw.members, "cpu").Num? && FieldValue(raw.members, "memory").Num? &&
      OptionalNumberOk(raw.members, "ephemeralStorage") &&
      OptionalNumberOk(raw.members, "ecrRepositoryKeepMaxImages")
    ensures r.Ok? ==>
      var ms := raw.members;
      && r.value.taskName == FieldValue(ms, "taskName").s
      && FieldValue(ms, "taskType") == Str(TaskTypeLiteral(r.value.taskType))
      && |r.value.iamRolePolicyStatements| == |StatementsOr(ms)|
      && (forall i :: 0 <= i < |r.value.iamRolePolicyStatements| ==> r.value.iamRolePolicyStatements[i] == Obj([]))
      && r.value.cpu == FieldValue(ms, "cpu").n
      && r.value.memory == FieldValue(ms, "memory").n
      && r.value.ephemeralStorage == NumberOr(ms, "ephemeralStorage", DEFAULT_EPHEMERAL_STORAGE)
      && r.value.ecrRepositoryKeepMaxImages ==
           NumberOr(ms, "ecrRepositoryKeepMaxImages", DEFAULT_ECR_REPOSITORY_KEEP_MAX_IMAGES)
    ensures raw.Obj? && !TaskNameOk(raw.members) ==>
      r.Err? && r.error.path == [Key("taskName")]
  {
    if !raw.Obj? then Err(ValidationError([], InvalidType("object")))
    else
      var ms := raw.members;
      var taskName :- ParseTaskName(ms);
      var taskType :- ParseTaskType(ms);
      var statements :- ParsePolicyStatementsAsWritten(ms);
      var cpu :- RequiredInt(ms, "cpu");
      var memory :- RequiredInt(ms, "memory");
      var ephemeralStorage :- OptionalNumber(ms, "ephemeralStorage", DEFAULT_EPHEMERAL_STORAGE);
      var keepMaxImages :- OptionalNumber(ms, "ecrRepositoryKeepMaxImages", DEFAULT_ECR_REPOSITORY_KEEP_MAX_IMAGES);
      Ok(EcsTaskParams(taskName, taskType, statements, cpu, memory, ephemeralStorage, keepMaxImages))
  }

  /** The schema with its statements rule corrected: the same verdict and the
      same fields, but every statement kept whole. */
  function ParseEcsTaskParamsCorrected(raw: Value): (r: Parsed<EcsTaskParams>)
    ensures r.Ok? <==>
      raw.Obj? && TaskNameOk(raw.members) && TaskTypeOk(raw.members) &&
      StatementsOk(raw.members) &&
      FieldValue(raw.members, "cpu").Num? && FieldValue(raw.members, "memory").Num? &&
      OptionalNumberOk(raw.members, "ephemeralStorage") &&
      OptionalNumberOk(raw.members, "ecrRepositoryKeepMaxImages")
    ensures r.Ok? ==>
      var ms := raw.members;
      && r.value.taskName == FieldValue(ms, "taskName").s
      && FieldValue(ms, "taskType") == Str(TaskTypeLiteral(r.value.taskType))
      && r.value.iamRolePolicyStatements == StatementsOr(ms)
      && r.value.cpu == FieldValue(ms, "cpu").n
      && r.value.memory == FieldValue(ms, "memory").n
      && r.value.ephemeralStorage == NumberOr(ms, "ephemeralStorage", DEFAULT_EPHEMERAL_STORAGE)
      && r.value.ecrRepositoryKeepMaxImages ==
           NumberOr(ms, "ecrRepositoryKeepMaxImages", DEFAULT_ECR_REPOSITORY_KEEP_MAX_IMAGES)
    ensures raw.Obj? && !TaskNameOk(raw.members) ==>
      r.Err? && r.error.path == [Key("taskName")]
  {
    match ParseEcsTaskParams(raw)
    case Err(e) => Err(e)
    case Ok(p) => Ok(p.(iamRolePolicyStatements := StatementsOr(raw.members)))
  }

  /** Any descriptor the validator returns has a name the templates can splice
      into resource names, a known kind, and object-valued policy statements. */
  lemma EcsTaskParamsSound(raw: Value)
    requires ParseEcsTaskParams(raw).Ok?
    ensures var p := ParseEcsTaskParams(raw).value;
      && 1 <= |p.taskName| <= 32
      && AlphaNumeric(p.taskName)
      && (forall i :: 0 <= i < |p.iamRolePolicyStatements| ==> p.iamRolePolicyStatements[i].Obj?)
  {
    var ms := raw.members;
    var s := FieldValue(ms, "taskName").s;
    assert ValidTaskName(s);
  }

  /** Absent optional fields take their defaults. */
  lemma EcsTaskParamsDefaults(name: string, cpu: int, memory: int)
    requires ValidTaskName(name)
    ensures ParseEcsTaskParams(Obj([
        Member("taskName", Str(name)), Member("taskType", Str("ECS")),
        Member("cpu", Num(cpu)), Member("memory", Num(memory))]))
      == Ok(EcsTaskParams(name, ECS, [], cpu, memory, 21, 3))
  {
    var ms := [Member("taskName", Str(name)), Member("taskType", Str("ECS")),
               Member("cpu", Num(cpu)), Member("memory", Num(memory))];
    MinimalDescriptorFields(name, cpu, memory, ms);
    assert TaskNameOk(ms) && TaskTypeOk(ms) && StatementsOk(ms);
    assert OptionalNumberOk(ms, "ephemeralStorage") && OptionalNumberOk(ms, "ecrRepositoryKeepMaxImages");
    var r := ParseEcsTaskParams(Obj(ms));
    assert r.Ok?;
    assert r.value.iamRolePolicyStatements == [];
  }

  /** The fields of a descriptor that gives only name, type, cpu and memory. */
  lemma MinimalDescriptorFields(name: string, cpu: int, memory: int, ms: seq<Member>)
    requires ms == [Member("taskName", Str(name)), Member("taskType", Str("ECS")),
                    Member("cpu", Num(cpu)), Member("memory", Num(memory))]
    ensures Lookup(ms, "taskName") == Some(Str(name))
    ensures Lookup(ms, "taskType") == Some(Str("ECS"))
    ensures Lookup(ms, "cpu") == Some(Num(cpu))
    ensures Lookup(ms, "memory") == Some(Num(memory))
    ensures Lookup(ms, "iamRolePolicyStatements") == None
    ensures Lookup(ms, "ephemeralStorage") == None
    ensures Lookup(ms, "ecrRepositoryKeepMaxImages") == None
  {
    assert ms[1..][1..][1..] == [Member("memory", Num(memory))];
    assert Lookup(ms[1..][1..], "memory") == Some(Num(memory));
  }

  /** A name with a character outside [a-zA-Z0-9] is rejected for that rule. */
  lemma TaskNameWithSpaceRejected()
    ensures ParseEcsTaskParams(Obj([Member("taskName", Str("bad name!"))]))
      == Err(ValidationError([Key("taskName")], NotAlphaNumeric))
  {
    assert !IsAlphaNumChar("bad name!"[3]);
  }

  // ---------------------------------------------------------------------
  // DeployImagesCommandParams
  // ---------------------------------------------------------------------

  function ParseDeployImagesParams(raw: Value): (r: Parsed<DeployImagesParams>)
    ensures r.Ok? <==>
      raw.Obj? && FieldValue(raw.members, "stage").Str? && FieldValue(raw.members, "region").Str? &&
      OptionalStringOk(raw.members, "profile")
    ensures r.Ok? ==> r.value == DeployImagesParams(
      FieldValue(raw.members, "stage").s, FieldValue(raw.members, "region").s,
      StringOr(raw.members, "profile", DEFAULT_PROFILE))
  {
    if !raw.Obj? then Err(ValidationError([], InvalidType("object")))
    else
      var ms := raw.members;
      var stage :- RequiredString(ms, "stage");
      var region :- RequiredString(ms, "region");
      var profile :- OptionalString(ms, "profile", DEFAULT_PROFILE);
      Ok(DeployImagesParams(stage, region, profile))
  }
}
