/** The enums and the environment record shared by the CDK code. */
module Types {
  import opened Wrappers

  datatype AwsRegion = NorthVirginia | Ohio

  /** The string value of each `AWSRegion` member. */
  function RegionCode(r: AwsRegion): string
  {
    match r
    case NorthVirginia => "us-east-1"
    case Ohio => "us-east-2"
  }

  /** The three Textract query aliases. */
  datatype Alias = Amount | Date | Concept

  function AliasName(a: Alias): string
  {
    match a
    case Amount => "amount"
    case Date => "date"
    case Concept => "concept"
  }

  datatype EnvironmentName = Dev | Qa | Stage | Prod

  function EnvironmentNameValue(e: EnvironmentName): string
  {
    match e
    case Dev => "dev"
    case Qa => "qa"
    case Stage => "stage"
    case Prod => "prod"
  }

  /** `Object.values(EnvironmentName)`, in declaration order. */
  const EnvironmentNameValues: seq<string> := ["dev", "qa", "stage", "prod"]

  /** The `events.CronOptions` fields an environment may set for its schedule. */
  datatype CronOptions = CronOptions(
    minute: Option<string>,
    hour: Option<string>,
    day: Option<string>,
    month: Option<string>,
    weekDay: Option<string>,
    year: Option<string>)

  /**
   * A deployment environment. `bucketName` is optional because the dev record leaves it
   * out; `scheduleOptions` is read by the state-machine construct and set by the qa record.
   */
  datatype Environment = Environment(
    envName: EnvironmentName,
    project: string,
    appName: string,
    region: AwsRegion,
    team: string,
    bucketName: Option<string>,
    scheduleOptions: Option<CronOptions>)

  /** The dev environment record. */
  const DevEnvironment: Environment :=
    Environment(Dev, "step-functions-101", "state-machine-demo", NorthVirginia, "wizeline", None, None)
}
