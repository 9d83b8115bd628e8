# serverless-flow-plugin: CloudFormation templates and parameter validation

This project models the part of the Serverless Flow plugin that decides
what gets deployed. It covers three things:

- the CloudFormation resource bundles the plugin adds to a service:
  - the shared base resources: the ECS cluster, the ECS execution role and the
    state-machine role;
  - per container task: the task definition, the task role and the ECR repository;
  - per function task: the caller's function definition with its role defaulted,
    and the task role;
- the workflow `Task` states the plugin builds from a user's raw state override,
  by deep-merging that override into a fixed skeleton;
- the validation rules for the plugin parameters, the container-task descriptor
  and the `deploy-images` options, with their defaults.

Templates are JSON values (`Json.Value`). An object is an ordered member list,
because key order decides what `Object.entries` yields and where lodash `merge`
puts new keys. CloudFormation intrinsics (`Ref`, `Fn::GetAtt`, `Fn::Join`) are
ordinary values, and `Json.Target` reads the resource name such a value points
at. The builders that change the caller's objects work on a `Json.JsObject`
class:

- `delete rawConfig.Name` and the other two deletes;
- `functionDefinition.role = ...`.

Each of these methods is specified by a pure function of the old state.

`BaseResources.BaseResources` takes only the prefix and the suffix, so the base
bundle depends on nothing else: not the stage, and not any task descriptor.

Modules, in dependency order:

- `Wrappers`: `Option` and `Result`.
- `Strings`: ASCII case mapping, `replace` with a one-character pattern,
  `includes`, and decimal rendering.
- `Json`: values, lookup, put/delete, truthiness, `||`, paths, intrinsics,
  `JSON.stringify`, and the `JsObject` class.
- `Types`: the records that validation produces.
- `Merge`: lodash `merge`.
- `Schemas`: the zod schemas.
- `BaseResources`, `EcsTaskResources`, `LambdaTaskResources`: the three resource
  builders.
- `EcsTaskStateConfig`, `LambdaTaskStateConfig`: the two state builders.

## Model

| member | source | states |
|---|---|---|
| Strings.Lower | src/templates/ecsTaskResources.ts:113 | `toLowerCase` keeps the length, maps every upper-case letter to its lower-case counterpart (code point + 32) and leaves every other character unchanged |
| Strings.Upper | src/templates/ecsTaskStateConfig.ts:34 | `toUpperCase` keeps the length, maps every lower-case letter to its upper-case counterpart (code point - 32) and leaves every other character unchanged |
| Strings.LowerKeeps | src/templates/ecsTaskResources.ts:112-114 | lower-casing neither adds nor removes a character that is not a letter, such as `-` or `_` |
| Strings.LowerAppend | src/templates/ecsTaskResources.ts:112-113 | lower-casing a concatenation equals concatenating the lower-cased parts |
| Strings.FirstIndex | src/templates/ecsTaskResources.ts:114 | the index found holds the character, and no earlier index does |
| Strings.RemoveFirst | src/templates/ecsTaskResources.ts:114 | `replace('-', '')` removes exactly the first occurrence, and returns the string unchanged when there is none |
| Strings.Includes | src/templates/ecsTaskStateConfig.ts:32 | `includes` on a string is true iff the pattern occurs at some position |
| Strings.NatToString | src/templates/ecsTaskResources.ts:120 | `String(n)` is a non-empty string of digits with no leading zero |
| Strings.NatToStringRoundTrip | src/templates/ecsTaskResources.ts:120 | reading back the digits of `String(n)` gives `n` |
| Strings.NatToStringInjective | src/templates/ecsTaskResources.ts:120 | different image counts give different descriptions |
| Strings.IntToString | src/templates/ecsTaskResources.ts:120 | the rendering starts with `-` exactly for negative numbers |
| Json.Lookup | src/templates/ecsTaskStateConfig.ts:11-12 | `o[k]` is present iff `k` is a key, and it is the value of a member named `k` |
| Json.LookupMember | src/templates/ecsTaskStateConfig.ts:11-12 | with distinct keys, a member's key finds that member's value |
| Json.Put | src/templates/lambdaTaskResources.ts:13 | `o[k] = v`: `k` now maps to `v`, every other key is unchanged, a new key is appended at the end; when the key exists, the length and every position's key stay as they were |
| Json.PutExisting | src/templates/lambdaTaskResources.ts:13 | writing back the value a key already holds changes nothing |
| Json.Remove | src/templates/ecsTaskStateConfig.ts:13-15 | `delete o[k]`: `k` is gone, every other key keeps its value, and an absent key changes nothing |
| Json.RemovePut | src/templates/lambdaTaskStateConfig.ts:11 | deleting a key undoes any earlier write to it |
| Json.NoKeysEmpty | src/templates/lambdaTaskStateConfig.ts:11-13 | an object with no keys is the empty object |
| Json.Prop | src/templates/ecsTaskStateConfig.ts:11-12 | reading a property gives a member's value, or `undefined` when the key is absent or the value is not an object |
| Json.Or | src/templates/ecsTaskStateConfig.ts:11-12 | `a \|\| b` is one of its operands, and it is truthy iff either operand is |
| Json.Truthy | src/templates/ecsTaskStateConfig.ts:11-12 | a value is falsy exactly when it is `null`, `false`, `0` or `""`; every object and every array, empty or not, is truthy |
| Json.Stringify | src/templates/ecsTaskResources.ts:116 | `JSON.stringify` gives a non-empty text whose first character tells an object (`{`), an array (`[`) or a string (`"`), and an object or array text ends with its closing bracket |
| Json.LookupAgrees | src/templates/ecsTaskResources.ts:65-70 | two objects that differ only at one key agree on every other key |
| Json.JsObject.Delete | src/templates/ecsTaskStateConfig.ts:13-15 | the object's members become `Remove` of the old members |
| Json.JsObject.Set | src/templates/lambdaTaskResources.ts:13 | the object's members become `Put` of the old members |
| Merge.Merge | src/templates/ecsTaskStateConfig.ts:18-51 | an object source yields an object whose keys are the union of both sides' keys; an array source yields an array as long as the longer side; a scalar source wins |
| Merge.MergeMembers | src/templates/lambdaTaskStateConfig.ts:13-21 | the merged keys are the destination's keys plus the source's, and distinct keys stay distinct |
| Merge.MergeItems | src/templates/ecsTaskStateConfig.ts:18-51 | arrays are merged index by index, and the result is as long as the longer array |
| Merge.MergeMembersKeep | src/templates/ecsTaskStateConfig.ts:18-51 | a key the override does not mention keeps the skeleton's value |
| Merge.MergeMembersOverride | src/templates/ecsTaskStateConfig.ts:18-51 | a key the override mentions holds the merge of the skeleton's value and the override's value |
| Merge.ObjectMergeLaw | src/templates/lambdaTaskStateConfig.ts:13-21 | merging an override object into a skeleton object: the keys are the union, a scalar override wins, and a key the override lacks keeps the skeleton's value |
| Merge.MergeItemsAt | src/templates/ecsTaskStateConfig.ts:18-51 | index `i` of a merged array is the merge of both items at `i`, or the destination's item past the source's end |
| Merge.ScalarArrayOverride | src/templates/ecsTaskStateConfig.ts:44-45 | a list of scalars overrides a skeleton list position by position, and the skeleton's tail survives when the override is shorter |
| Merge.MergeIntoNothing | src/templates/ecsTaskStateConfig.ts:18-51 | merging a well-formed value into nothing copies it |
| Merge.MergeMembersFresh | src/templates/ecsTaskStateConfig.ts:18-51 | override members with new keys are appended in order |
| Merge.MergeItemsFresh | src/templates/ecsTaskStateConfig.ts:18-51 | merging an array into an empty array copies it |
| Merge.MergeIdempotent | src/templates/ecsTaskStateConfig.ts:18-51 | merging the same override a second time changes nothing |
| Merge.MergeMembersIdempotent | src/templates/lambdaTaskStateConfig.ts:13-21 | the object case of idempotence |
| Merge.MergeItemsIdempotent | src/templates/ecsTaskStateConfig.ts:18-51 | the array case of idempotence |
| Schemas.AlphaNumeric | src/schemas.ts:4-7 | `/^[a-zA-Z0-9]+$/` accepts exactly the non-empty strings of ASCII letters and digits |
| Schemas.RequiredString | src/schemas.ts:38-39 | `z.string()` accepts exactly a string value; otherwise it reports an error at that field |
| Schemas.OptionalString | src/schemas.ts:19-21 | `z.string().optional().default(d)` accepts an absent field as `d` and a string as itself, and rejects anything else at that field |
| Schemas.RequiredInt | src/schemas.ts:31-32 | `z.number().int()` accepts exactly an integer value |
| Schemas.OptionalNumber | src/schemas.ts:33-34 | `z.number().optional().default(d)` accepts an absent field as `d` and a number as itself |
| Schemas.ParseResourcesPrefix | src/schemas.ts:10-18 | the prefix is accepted iff it is absent or a string of at most 17 characters, and the value (the default `ServerlessFlow` if absent) is alphanumeric; an accepted prefix is at most 17 alphanumeric characters |
| Schemas.DefaultPrefixIsAlphaNumeric | src/schemas.ts:14-15 | the default prefix passes the prefix's own refinement |
| Schemas.ParseServerlessFlowParams | src/schemas.ts:9-22 | plugin parameters are accepted iff the input is an object and each of the four fields passes its rule; accepted fields take their values or their defaults |
| Schemas.ServerlessFlowParamsSound | src/schemas.ts:10-18 | every accepted parameter set has an alphanumeric prefix of at most 17 characters |
| Schemas.ServerlessFlowParamsDefaults | src/schemas.ts:14-21 | `{}` is accepted with the defaults `ServerlessFlow`, `""`, `./src/stepFunctions` and `./src/tasks` |
| Schemas.ParseTaskName | src/schemas.ts:25-28 | a task name is accepted iff it is a string of 1 to 32 alphanumeric characters |
| Schemas.ParseTaskType | src/schemas.ts:29 | the task type is accepted iff it is one of the two literals, and the result is the type that literal names |
| Schemas.ParsePolicyStatements | src/schemas.ts:30 | the statements are accepted iff they are absent or an array of objects; accepted statements are kept whole, or `[]` when absent |
| Schemas.FirstNonObject | src/schemas.ts:30 | finds the first array item that is not an object; every earlier item is one |
| Schemas.ParsePolicyStatementsAsWritten | src/schemas.ts:30 | `z.array(z.object({}))` accepts the same inputs, but returns each statement with every key removed |
| Schemas.PolicyStatementStripped | src/schemas.ts:30 | as written, an `Allow s3:GetObject` statement comes out as `{}` |
| Schemas.ParseEcsTaskParams | src/schemas.ts:24-35 | a container-task descriptor is accepted iff it is an object and every field passes its rule; a bad task name is reported at `taskName`; as written, the accepted statements are as many as given, each stripped to `{}` |
| Schemas.ParseEcsTaskParamsCorrected | src/schemas.ts:24-35 | accepts exactly the descriptors `ParseEcsTaskParams` accepts, with the same fields, but keeps each policy statement whole |
| Schemas.EcsTaskParamsSound | src/schemas.ts:24-35 | every accepted descriptor has a task name of 1 to 32 alphanumeric characters, and every policy statement is an object |
| Schemas.EcsTaskParamsDefaults | src/schemas.ts:30-34 | a descriptor with only name, type, cpu and memory gets no statements, 21 GiB of ephemeral storage and a limit of 3 kept images |
| Schemas.TaskNameWithSpaceRejected | src/schemas.ts:25-28 | the name `bad name!` is rejected at `taskName` |
| Schemas.ParseDeployImagesParams | src/schemas.ts:37-41 | `deploy-images` options are accepted iff `stage` and `region` are strings and `profile` is absent or a string (default `""`) |
| BaseResources.BaseResources | src/templates/baseResources.ts:1-122 | the base bundle has exactly the three keys `ServerlessFlowEcsCluster`, `ServerlessFlowEcsExecutionRole` and `ServerlessFlowStateMachineRole`, all distinct, whatever the prefix |
| BaseResources.BaseResourceNames | src/templates/baseResources.ts:9-92 | the cluster, execution role, state-machine role and its policy are named by the prefix and the suffix around a fixed word |
| BaseResources.ClusterNameAt | src/templates/baseResources.ts:9 | the cluster is named `prefix + "EcsCluster" + suffix` |
| BaseResources.ExecutionRoleNameAt | src/templates/baseResources.ts:15 | the execution role is named `prefix + "EcsExecutionRole" + suffix` |
| BaseResources.StateMachineRoleNameAt | src/templates/baseResources.ts:73 | the state-machine role is named `prefix + "StateMachineRole" + suffix` |
| BaseResources.StateMachinePolicyNameAt | src/templates/baseResources.ts:92 | the state-machine policy is named `prefix + "StateMachinePolicy" + suffix` |
| BaseResources.NameAt | src/templates/baseResources.ts:8-15 | helper: a resource's name is the first member of its properties |
| BaseResources.StateMachinePolicyAt | src/templates/baseResources.ts:90-92 | the state-machine role's only policy is the state-machine policy |
| BaseResources.ExecutionRolePolicyAt | src/templates/baseResources.ts:31-34 | the execution role's inline policy is the log-management policy |
| BaseResources.PassRoleResources | src/templates/baseResources.ts:105-114 | the state machines may pass the bundle's own execution role, and any role whose name starts with the prefix |
| BaseResources.PassRoleAt | src/templates/baseResources.ts:105-114 | helper: the `iam:PassRole` resources, read from the whole bundle |
| BaseResources.PassRoleStatementAt | src/templates/baseResources.ts:105-114 | helper: the `iam:PassRole` resources, read from the state-machine policy |
| BaseResources.LogResourcePattern | src/templates/baseResources.ts:37-63 | the execution role may write only to log groups whose names start with the prefix |
| BaseResources.LogResourceAt | src/templates/baseResources.ts:45-60 | helper: the log-group pattern, read from the whole bundle, is `prefix + "*"` |
| BaseResources.LogStatementAt | src/templates/baseResources.ts:45-60 | helper: the log-group pattern, read from the execution-role policy |
| EcsTaskResources.RepositoryName | src/templates/ecsTaskResources.ts:112-114 | the repository name is `prefix_taskName_suffix` lower-cased with its first hyphen removed: one character shorter when there is a hyphen, the same length otherwise, and never with an upper-case letter |
| EcsTaskResources.EcsTaskResources | src/templates/ecsTaskResources.ts:6-161 | the bundle has exactly the three distinct keys `taskName + "TaskDefinition"`, `+ "TaskRole"` and `+ "TaskEcrRepository"` |
| EcsTaskResources.DefinitionEntry | src/templates/ecsTaskResources.ts:21-22 | helper: the task-definition key holds the task definition |
| EcsTaskResources.RoleEntry | src/templates/ecsTaskResources.ts:75-76 | helper: the task-role key holds the task role |
| EcsTaskResources.RepositoryEntry | src/templates/ecsTaskResources.ts:109-110 | helper: the repository key holds the repository |
| EcsTaskResources.DefinitionProperties | src/templates/ecsTaskResources.ts:23 | helper: the task definition's `Properties` are the properties document |
| EcsTaskResources.TaskDefinitionCpu | src/templates/ecsTaskResources.ts:26 | `Cpu` is the descriptor's cpu |
| EcsTaskResources.TaskDefinitionMemory | src/templates/ecsTaskResources.ts:27 | `Memory` is the descriptor's memory |
| EcsTaskResources.TaskDefinitionStorage | src/templates/ecsTaskResources.ts:28-30 | `EphemeralStorage.SizeInGiB` is the descriptor's ephemeral storage |
| EcsTaskResources.TaskDefinitionFamily | src/templates/ecsTaskResources.ts:25 | the family is `prefix + taskName + suffix` |
| EcsTaskResources.OneContainer | src/templates/ecsTaskResources.ts:38-72 | the task definition runs exactly one container |
| EcsTaskResources.LogGroup | src/templates/ecsTaskResources.ts:56-64 | the container logs to the group `prefix + taskName + suffix`, the same name as the family |
| EcsTaskResources.ContainerEnvironment | src/templates/ecsTaskResources.ts:65-70 | the container's environment is one variable, `STAGE`, set to the stage |
| EcsTaskResources.StageOnlyInEnvironment | src/templates/ecsTaskResources.ts:39-71 | the stage affects nothing in the container except its environment |
| EcsTaskResources.StageOnlyInContainer | src/templates/ecsTaskResources.ts:23-73 | the stage affects nothing in the task definition's properties except the container list |
| EcsTaskResources.TaskRoleReference | src/templates/ecsTaskResources.ts:35-37 | `TaskRoleArn` points at the task-role key of the same bundle |
| EcsTaskResources.ImageReference | src/templates/ecsTaskResources.ts:41-54 | the image is the `RepositoryUri` of the repository key of the same bundle, followed by `:latest` |
| EcsTaskResources.ExecutionRoleReference | src/templates/ecsTaskResources.ts:32-34 | `ExecutionRoleArn` points at `prefix + "EcsExecutionRole"` |
| EcsTaskResources.ExecutionRoleName | src/templates/ecsTaskResources.ts:32-34 | that name is a key of the base bundle iff the prefix is `ServerlessFlow` |
| EcsTaskResources.OtherSharedKeys | src/templates/ecsTaskResources.ts:33 | for no prefix is that name the cluster's key or the state-machine role's key |
| EcsTaskResources.RepositoryPrincipal | src/templates/ecsTaskResources.ts:134-157 | the repository policy has one statement, which grants push and pull to `prefix + "EcsExecutionRole"` |
| EcsTaskResources.TaskRoleName | src/templates/ecsTaskResources.ts:78 | the task role is named `prefix + taskName + "TaskRole" + suffix` |
| EcsTaskResources.TaskRolePolicy | src/templates/ecsTaskResources.ts:95-106 | no statements means no policy; otherwise exactly one policy, named after the task, holding exactly the descriptor's statements |
| EcsTaskResources.RepositoryNameFirstHyphenOnly | src/templates/ecsTaskResources.ts:112-114 | with prefix `P`, task `t` and suffix `-a-b`, the name is `p_t_a-b`: the later hyphen survives |
| EcsTaskResources.LowerExample | src/templates/ecsTaskResources.ts:113 | helper: a worked step of that example: lower-casing `P_t_-a-b` |
| EcsTaskResources.RemoveExample | src/templates/ecsTaskResources.ts:114 | helper: a worked step of that example: removing the first hyphen |
| EcsTaskResources.FirstHyphenExample | src/templates/ecsTaskResources.ts:114 | helper: a worked step of that example: the first hyphen is at index 4 |
| EcsTaskResources.RepositoryContents | src/templates/ecsTaskResources.ts:111-157 | the repository's name, its lifecycle policy as the `JSON.stringify` text of the rule, and its access policy |
| EcsTaskResources.LifecycleRule | src/templates/ecsTaskResources.ts:116-129 | the rule expires images beyond `ecrRepositoryKeepMaxImages`, and its description names that number |
| LambdaTaskResources.WithDefaultRole | src/templates/lambdaTaskResources.ts:13 | a truthy `role` is kept as is; otherwise `role` becomes `taskName + "TaskRole"`; nothing else changes |
| LambdaTaskResources.RoleAlwaysSet | src/templates/lambdaTaskResources.ts:13 | after the default, the definition always has a truthy role |
| LambdaTaskResources.DefaultRoleIdempotent | src/templates/lambdaTaskResources.ts:13 | applying the default again, for any task, changes nothing |
| LambdaTaskResources.DefaultRole | src/templates/lambdaTaskResources.ts:13 | the caller's definition object is updated in place to `WithDefaultRole` of its old members |
| LambdaTaskResources.PolicyStatements | src/templates/lambdaTaskResources.ts:14-37 | the log-write statement comes first, then the descriptor's statements in order |
| LambdaTaskResources.LambdaTaskResources | src/templates/lambdaTaskResources.ts:38-70 | the bundle has exactly the two distinct keys `taskName + "FunctionDefinition"` and `taskName + "TaskRole"` |
| LambdaTaskResources.GetLambdaTaskResources | src/templates/lambdaTaskResources.ts:6-71 | defaults the caller's role in place, then builds the bundle around the updated definition; the stage has no effect |
| LambdaTaskResources.DefinitionEntry | src/templates/lambdaTaskResources.ts:39 | the definition entry is the definition, with every field |
| LambdaTaskResources.RoleEntry | src/templates/lambdaTaskResources.ts:40 | the role key holds the task role |
| LambdaTaskResources.DefaultRoleReference | src/templates/lambdaTaskResources.ts:13-40 | a defaulted role names the role entry of the same bundle |
| LambdaTaskResources.LambdaRoleName | src/templates/lambdaTaskResources.ts:43 | the role is named `prefix + taskName + "TaskRole" + suffix` |
| LambdaTaskResources.LambdaRolePolicy | src/templates/lambdaTaskResources.ts:56-67 | always exactly one policy, named after the task, holding the log statement followed by the descriptor's statements |
| EcsTaskStateConfig.Entries | src/templates/ecsTaskStateConfig.ts:30 | `Object.entries` gives an object's own members, an array's or a string's items under their distinct index keys, and nothing for any other value |
| EcsTaskStateConfig.Environment | src/templates/ecsTaskStateConfig.ts:11-36 | a falsy, numeric or boolean `Environment` gives no variables; an object map succeeds iff every value supports `includes`; on success there is one variable per entry |
| EcsTaskStateConfig.Network | src/templates/ecsTaskStateConfig.ts:12 | the network block is always truthy: the override's own `Network` when it is truthy, else `{}` |
| EcsTaskStateConfig.NetworkConfiguration | src/templates/ecsTaskStateConfig.ts:41-47 | the network configuration is an object whose only key is `AwsvpcConfiguration` |
| EcsTaskStateConfig.Skeleton | src/templates/ecsTaskStateConfig.ts:19-49 | the merge destination is an object with the distinct keys `Type`, `Resource` and `Parameters` |
| EcsTaskStateConfig.Strip | src/templates/ecsTaskStateConfig.ts:13-15 | the override loses `Name`, `Environment` and `Network` and keeps every other key and value |
| EcsTaskStateConfig.EnvNameMarksDynamic | src/templates/ecsTaskStateConfig.ts:32-34 | a variable's name is the upper-cased key, followed by `.$` exactly when the value contains `$.` |
| EcsTaskStateConfig.EnvVariables | src/templates/ecsTaskStateConfig.ts:30-36 | the projection succeeds iff every value is a string or an array, and then gives one `{Name, Value}` per entry, in order; otherwise it fails at the first other entry, as the `TypeError` from `includes` does |
| EcsTaskStateConfig.NoEnvironment | src/templates/ecsTaskStateConfig.ts:11 | an override without `Environment` gives an empty list |
| EcsTaskStateConfig.EnvironmentMap | src/templates/ecsTaskStateConfig.ts:30-36 | an environment map of strings becomes one variable per entry, in order |
| EcsTaskStateConfig.NetworkBlock | src/templates/ecsTaskStateConfig.ts:41-47 | `AssignPublicIp` is `ENABLED` iff `PublicIp` is truthy, and `DISABLED` iff not; subnets and security groups are the network's own when truthy, else `[]` |
| EcsTaskStateConfig.EcsTaskStateConfig | src/templates/ecsTaskStateConfig.ts:7-53 | the state is built iff the environment projection succeeds, and it is then an object |
| EcsTaskStateConfig.GetEcsTaskStateConfig | src/templates/ecsTaskStateConfig.ts:7-53 | the three keys are deleted from the caller's object even when the projection throws; the result is the function's value on the old override |
| EcsTaskStateConfig.SkeletonReferences | src/templates/ecsTaskStateConfig.ts:22-24 | the state runs on the shared cluster's key and on the task-definition key of the task's bundle |
| EcsTaskStateConfig.EcsConfigMergeLaw | src/templates/ecsTaskStateConfig.ts:18-51 | the result's keys are the skeleton's plus the override's; a scalar override wins; a key the override lacks keeps the skeleton's value |
| EcsTaskStateConfig.OnlyReservedKeys | src/templates/ecsTaskStateConfig.ts:13-51 | an override with only reserved keys yields the skeleton itself |
| LambdaTaskStateConfig.Skeleton | src/templates/lambdaTaskStateConfig.ts:14-19 | the merge destination is an object with the distinct keys `Type` and `Resource` |
| LambdaTaskStateConfig.LambdaTaskStateConfig | src/templates/lambdaTaskStateConfig.ts:13-21 | the state's keys are `Type`, `Resource` and every override key except `Name` |
| LambdaTaskStateConfig.GetLambdaTaskStateConfig | src/templates/lambdaTaskStateConfig.ts:7-23 | `Name` is deleted from the caller's object, and the result is the function's value on the old override |
| LambdaTaskStateConfig.NoOverrides | src/templates/lambdaTaskStateConfig.ts:14-19 | with nothing beyond `Name`, the state is the skeleton, invoking `taskName + "LambdaFunction"` |
| LambdaTaskStateConfig.FunctionReferenceNotInBundle | src/templates/lambdaTaskStateConfig.ts:17 | the state invokes `taskName + "LambdaFunction"`, which is not a key of the task's own bundle |
| LambdaTaskStateConfig.LambdaConfigMergeLaw | src/templates/lambdaTaskStateConfig.ts:13-21 | a scalar override wins; a key the override lacks keeps the skeleton's value |
| LambdaTaskStateConfig.NameIndependence | src/templates/lambdaTaskStateConfig.ts:7-11 | the state does not depend on the override's `Name` or on the descriptor's statements |

## Left out

Files and code outside the model:

- src/wrapper.ts is not part of this model. It reads YAML files from the
  filesystem and splices the bundles into the service with object spread.
  The per-task dispatch on the task type is left out with it.
- src/commands/deployImages.ts is not part of this model, because it runs
  shell commands and reaches the network. Only its options schema is modelled
  (`Schemas.ParseDeployImagesParams`).
- src/index.ts, src/utils.ts and src/templates/index.ts are not part of this
  model; they are registration, file helpers and re-exports.
- src/config.ts is not part of this model; the templates and schemas do not
  use its constants. Its ephemeral-storage default is 20, where the schema's
  is 21; the model follows the schema.
- The declaration of the `TaskType` enum is not part of this model. Its two
  literals are taken to be `"ECS"` and `"LAMBDA"` (`Types.TaskTypeLiteral`).

Value limits:

- Numbers are integers only. Fractional numbers, `NaN`, infinities and the
  exponent form of `String(n)` are not represented.
- `Schemas.RequiredInt` and `Schemas.OptionalNumber` therefore cannot show the
  difference between `z.number().int()` and `z.number()`.
- Case mapping covers ASCII letters only. Strings are sequences of Unicode
  characters, not UTF-16 code units, so `Object.entries` on a string with
  surrogate pairs is not modelled.
- JavaScript `undefined` is represented as `Null` in the templates. Because
  of that, a merge source holding `undefined` (which lodash skips) is not
  distinguished from one holding `null`.
- The Schemas parsers read `Null` as JSON `null`, which `.optional()`
  rejects; the `undefined` case of an optional field is an absent key. So
  `Schemas.OptionalString` and `Schemas.OptionalNumber` reject a field that
  is present and `Null`.
- Object key order follows insertion order. JavaScript puts integer-like keys
  first for `Object.entries` and in the merged object; this is not modelled.

Behaviour of libraries:

- Merge.Merge: an object merged over an array yields a copy of the object;
  lodash keeps the array and assigns the object's keys onto it. Functions,
  class instances and other non-plain values are not modelled.
- Schemas.ParseEcsTaskParams, Schemas.ParseServerlessFlowParams and
  Schemas.ParseDeployImagesParams: zod collects every issue, but the model
  reports only the first, in the order the schema declares its fields.
- The Schemas parsers model zod's default stripping of unknown keys by
  building the typed record only from the declared fields. This includes the
  policy statements: `Schemas.ParseEcsTaskParams` returns each one as `{}`,
  as `z.object({})` does (see Findings); `Schemas.ParseEcsTaskParamsCorrected`
  keeps them whole.

Inputs of the generators:

- EcsTaskResources.EcsTaskResources and LambdaTaskResources.LambdaTaskResources
  take a descriptor record whose fields are all present, the shape
  `Schemas.ParseEcsTaskParams` produces. The source's callers
  (src/wrapper.ts:100-106, src/commands/deployImages.ts:50-66) pass parsed
  YAML without calling the schema, so `ephemeralStorage` and
  `ecrRepositoryKeepMaxImages` may be missing there. What that gives in the
  source is not modelled: a `SizeInGiB` of `undefined`, a lifecycle rule
  described as "Keep only last undefined images" with no `countNumber`, and
  the `TypeError` from spreading a missing `iamRolePolicyStatements`
  (src/templates/ecsTaskResources.ts:96, src/templates/lambdaTaskResources.ts:36).

Rendering:

- Json.Stringify: only the shape of the text is stated (its first and last
  characters). The exact layout is an unspecified rendering, and there is no
  parser, so no round trip is proved.

Aliasing:

- LambdaTaskResources.GetLambdaTaskResources: the bundle holds a snapshot of
  the definition's members, not a reference to the caller's object. A later
  change to that object would show through the source's bundle but not the
  model's.

Behaviour worth noting:

- the default directories are `./src/stepFunctions` and `./src/tasks`;
- the default suffix is `""`; src/commands/deployImages.ts:38-39 replaces
  an empty suffix with `-` followed by the stage, which is not modelled;
- numbers are not coerced from strings;
- arrays are merged index by index, not replaced;
- only the function-task role adds a fixed log statement to the descriptor's
  statements; the container-task role holds exactly the descriptor's
  statements;
- the stage reaches only the container's environment, and nothing in the
  function-task bundle.

## Findings

| source | as written | input that shows it | evidently intended | confidence | as-written member | corrected member |
|---|---|---|---|---|---|---|
| src/schemas.ts:30 | `iamRolePolicyStatements: z.array(z.object({}))` uses a zod object schema with no declared keys. zod strips undeclared keys by default, so every statement comes out as `{}` | `{"taskName":"t","taskType":"ECS","cpu":256,"memory":512,"iamRolePolicyStatements":[{"Effect":"Allow","Action":["s3:GetObject"]}]}`: the schema's output holds the statements `[{}]`. No caller of `EcsTaskParamsSchema` appears in the files modelled, so whether a deployed role is affected is not shown | each statement is kept whole (a passthrough or record schema), so the task role's policy grants what the descriptor lists | medium, not executed | Schemas.ParsePolicyStatementsAsWritten, Schemas.PolicyStatementStripped, Schemas.ParseEcsTaskParams | Schemas.ParsePolicyStatements, Schemas.ParseEcsTaskParamsCorrected |
