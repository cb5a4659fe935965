/**
 * Resource and stack naming: template strings passed through `toLowerCase`. Lower-casing is
 * modelled on ASCII: 'A'..'Z' map to 'a'..'z' and every other character is kept.
 */
module ResourceNames {
  import opened Types

  predicate IsUpper(c: char) { 'A' <= c <= 'Z' }

  function LowerChar(c: char): (r: char)
    ensures !IsUpper(r)
    ensures IsUpper(c) ==> r as int == c as int + 32
    ensures !IsUpper(c) ==> r == c
  {
    if IsUpper(c) then (c as int + 32) as char else c
  }

  function ToLower(s: string): (r: string)
    ensures |r| == |s|
    ensures forall i :: 0 <= i < |r| ==> r[i] == LowerChar(s[i])
  {
    if s == [] then [] else [LowerChar(s[0])] + ToLower(s[1..])
  }

  /** Lower-casing works character by character, so it distributes over concatenation. */
  lemma ToLowerAppend(a: string, b: string)
    ensures ToLower(a + b) == ToLower(a) + ToLower(b)
  {
  }

  /** Lower-casing a lower-case string changes nothing. */
  lemma ToLowerIdempotent(s: string)
    ensures ToLower(ToLower(s)) == ToLower(s)
  {
  }

  function GetResourcePrefix(env: Environment): (r: string)
    ensures forall i :: 0 <= i < |r| ==> !IsUpper(r[i])
  {
    ToLower(env.project + "-" + EnvironmentNameValue(env.envName) + "-" + env.appName)
  }

  function GetStackName(env: Environment): (r: string)
    ensures forall i :: 0 <= i < |r| ==> !IsUpper(r[i])
  {
    ToLower(GetResourcePrefix(env) + "-cdk-" + RegionCode(env.region))
  }

  /** The prefix is the three lower-cased fields joined by '-', so its length is theirs plus 2. */
  lemma ResourcePrefixShape(env: Environment)
    ensures GetResourcePrefix(env) ==
      ToLower(env.project) + "-" + ToLower(EnvironmentNameValue(env.envName)) + "-" + ToLower(env.appName)
    ensures |GetResourcePrefix(env)| == |env.project| + |EnvironmentNameValue(env.envName)| + |env.appName| + 2
  {
    var p, e, a := env.project, EnvironmentNameValue(env.envName), env.appName;
    assert ToLower("-") == "-";
    ToLowerAppend(p, "-");
    ToLowerAppend(p + "-", e);
    ToLowerAppend(p + "-" + e, "-");
    ToLowerAppend(p + "-" + e + "-", a);
  }

  /** The stack name starts with the resource prefix and ends with "-cdk-" and the region. */
  lemma StackNameShape(env: Environment)
    ensures GetStackName(env) == GetResourcePrefix(env) + "-cdk-" + RegionCode(env.region)
  {
    var p := GetResourcePrefix(env);
    ToLowerAppend(p + "-cdk-", RegionCode(env.region));
    ToLowerAppend(p, "-cdk-");
    ToLowerIdempotent(env.project + "-" + EnvironmentNameValue(env.envName) + "-" + env.appName);
    assert ToLower(RegionCode(env.region)) == RegionCode(env.region);
  }
}
