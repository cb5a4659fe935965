/**
 * `getEnvironment`: look the environment name up in the registry of known environments.
 * `ENV_NAME` is read once, when the module loads, so it is a parameter here: every call with
 * the same loaded value gives the same result.
 */
module Config {
  import opened Wrappers
  import opened Types

  /** The environments registered by name: only dev. */
  const Registry: map<string, Environment> := map["dev" := DevEnvironment]

  /** `values.join(sep)`. */
  function Join(values: seq<string>, sep: string): string
  {
    if |values| == 0 then ""
    else if |values| == 1 then values[0]
    else values[0] + sep + Join(values[1..], sep)
  }

  /** The message thrown for a name that is not registered. */
  function UnknownEnvironmentMessage(received: string): string
  {
    "Expected a valid environment name among: " + Join(EnvironmentNameValues, " , ") +
    ", but received " + received
  }

  /** `envName` is `ENV_NAME` as loaded, `None` when it is not a string. */
  function GetEnvironment(envName: Option<string>): (r: Result<Environment, string>)
    ensures envName.None? <==> r == Err("Missing ENV_NAME")
    ensures r.Ok? <==> envName == Some("dev")
    ensures r.Ok? ==> r.value == DevEnvironment
    ensures envName.Some? && envName.value != "dev" ==> r == Err(UnknownEnvironmentMessage(envName.value))
  {
    match envName
    case None => Err("Missing ENV_NAME")
    case Some(name) =>
      if name in Registry then Ok(Registry[name]) else Err(UnknownEnvironmentMessage(name))
  }

  /** qa, stage and prod are names of the enum but are not registered, so they are refused. */
  lemma OnlyDevIsRegistered(e: EnvironmentName)
    ensures GetEnvironment(Some(EnvironmentNameValue(e))).Ok? <==> e == Dev
  {
  }

  /** The refusal lists the enum's values in declaration order, separated by " , ". */
  lemma EnvironmentNamesJoined()
    ensures Join(EnvironmentNameValues, " , ") == "dev , qa , stage , prod"
  {
    var sep := " , ";
    assert EnvironmentNameValues[1..][1..][1..] == ["prod"];
    assert Join(["stage", "prod"], sep) == "stage" + sep + "prod";
    assert Join(["qa", "stage", "prod"], sep) == "qa" + sep + ("stage" + sep + "prod");
  }
}
