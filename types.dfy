/**
 * The plugin's typed records: the validated plugin parameters and the task
 * descriptors the templates consume.
 */
module Types {
  import opened Json

  /** The closed set of task kinds. */
  datatype TaskType = ECS | LAMBDA

  /** The string each kind is written as in a task file. The `TaskType` enum is
      imported by the schemas but its declaration is not part of this model;
      its members are taken to be the strings "ECS" and "LAMBDA". */
  function TaskTypeLiteral(t: TaskType): string {
    match t
    case ECS => "ECS"
    case LAMBDA => "LAMBDA"
  }

  /** Plugin-wide naming and location parameters, after defaults. */
  datatype ServerlessFlowParams = ServerlessFlowParams(
    resourcesPrefix: string,
    resourcesSuffix: string,
    stateMachinesDirectory: string,
    tasksDirectory: string)

  /** What every task descriptor has; the state-config templates read only the name. */
  datatype TaskParams = TaskParams(taskName: string, iamRoleStatements: seq<Value>)

  /** A validated container-task descriptor, with its defaults filled in. */
  datatype EcsTaskParams = EcsTaskParams(
    taskName: string,
    taskType: TaskType,
    iamRolePolicyStatements: seq<Value>,
    cpu: int,
    memory: int,
    ephemeralStorage: int,
    ecrRepositoryKeepMaxImages: int)

  /** A function-task descriptor. Its function definition is an object the
      caller owns and the Lambda template updates in place. */
  datatype LambdaTaskParams = LambdaTaskParams(
    taskName: string,
    functionDefinition: JsObject,
    iamRolePolicyStatements: seq<Value>)

  /** Options of the `deploy-images` command, after defaults. */
  datatype DeployImagesParams = DeployImagesParams(stage: string, region: string, profile: string)
}
