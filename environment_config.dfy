/** The backend's start-up configuration: every required variable is read
    from the environment into a field of the same name, the blob container
    name is fixed, and start-up fails with the list of the required variables
    that are unset or empty. */
module EnvironmentConfig {
  import opened Common

  const RequiredVars: seq<string> := [
    "AZ_SPEECH_KEY", "AZ_SPEECH_ENDPOINT", "AZ_OPENAI_KEY",
    "AZ_OPENAI_ENDPOINT", "AZ_BLOB_CONNECTION", "CLIENT_ID",
    "CLIENT_SECRET", "TENANT_ID"]

  const ContainerName: string := "container-vr-dev"
  const MissingPrefix: string := "Missing required environment variables: "

  /** The value read for `name` is None or "" (Python falsiness). */
  predicate Unset(values: map<string, Option<string>>, name: string)
  {
    name !in values || values[name].None? || values[name].value == ""
  }

  /** `missing`: the required names whose value is falsy, in declared order. */
  function Missing(values: map<string, Option<string>>): (r: seq<string>)
    ensures IsSubsequence(r, RequiredVars)
    ensures forall i :: 0 <= i < |r| ==> Unset(values, r[i])
    ensures forall i :: 0 <= i < |RequiredVars| && Unset(values, RequiredVars[i]) ==> RequiredVars[i] in r
  {
    Filter(RequiredVars, name => Unset(values, name))
  }

  /** `_validate_environment_variables`. */
  function Validate(values: map<string, Option<string>>): (r: Result<()>)
    ensures r.Err? <==> Missing(values) != []
    ensures r.Err? ==> r.error == ValueError(MissingPrefix + Join(", ", Missing(values)))
  {
    var missing := Missing(values);
    if missing != [] then Err(ValueError(MissingPrefix + Join(", ", missing))) else Ok(())
  }

  class Config {
    /** The fields `setattr` creates, by name. */
    var values: map<string, Option<string>>
    var containerName: string

    /** `_load_environment_variables`: one field per required name, holding
        what `getenv` returns for it, and the fixed container name. */
    constructor (getenv: string -> Option<string>)
      ensures values.Keys == set i | 0 <= i < |RequiredVars| :: RequiredVars[i]
      ensures forall i :: 0 <= i < |RequiredVars| ==> values[RequiredVars[i]] == getenv(RequiredVars[i])
      ensures containerName == ContainerName
    {
      var loaded: map<string, Option<string>> := map[];
      var i := 0;
      while i < |RequiredVars|
        invariant 0 <= i <= |RequiredVars|
        invariant loaded.Keys == set j | 0 <= j < i :: RequiredVars[j]
        invariant forall j :: 0 <= j < i ==> loaded[RequiredVars[j]] == getenv(RequiredVars[j])
      {
        loaded := loaded[RequiredVars[i] := getenv(RequiredVars[i])];
        i := i + 1;
      }
      values := loaded;
      containerName := ContainerName;
    }

    /** `_validate_environment_variables` on the loaded fields. */
    method ValidateLoaded() returns (r: Result<()>)
      ensures r == Validate(values)
    {
      var loaded := values;
      var missing: seq<string> := [];
      var i := 0;
      while i < |RequiredVars|
        invariant 0 <= i <= |RequiredVars|
        invariant missing == Filter(RequiredVars[..i], name => Unset(loaded, name))
      {
        FilterSnoc(RequiredVars[..i], RequiredVars[i], name => Unset(loaded, name));
        assert RequiredVars[..i + 1] == RequiredVars[..i] + [RequiredVars[i]];
        if Unset(loaded, RequiredVars[i]) {
          missing := missing + [RequiredVars[i]];
        }
        i := i + 1;
      }
      assert RequiredVars[..i] == RequiredVars;
      if missing != [] {
        return Err(ValueError(MissingPrefix + Join(", ", missing)));
      }
      return Ok(());
    }
  }

  /** Filtering a list with one more element at the end. */
  lemma {:induction false} FilterSnoc(s: seq<string>, x: string, p: string -> bool)
    ensures Filter(s + [x], p) == Filter(s, p) + (if p(x) then [x] else [])
    decreases |s|
  {
    if s == [] {
      assert [x][1..] == [];
    } else {
      assert (s + [x])[1..] == s[1..] + [x];
      FilterSnoc(s[1..], x, p);
    }
  }

  /** Start-up succeeds exactly when every required variable has a non-empty
      value; when all eight are unset the message names them all, in order. */
  lemma ValidateIffAllSet(values: map<string, Option<string>>)
    ensures Validate(values).Ok? <==> forall i :: 0 <= i < |RequiredVars| ==> !Unset(values, RequiredVars[i])
    ensures (forall i :: 0 <= i < |RequiredVars| ==> Unset(values, RequiredVars[i])) ==>
      Validate(values) == Err(ValueError(MissingPrefix + Join(", ", RequiredVars)))
  {
    FilterEmpty(RequiredVars, name => Unset(values, name));
    if forall i :: 0 <= i < |RequiredVars| ==> Unset(values, RequiredVars[i]) {
      FilterKeepsPassing(RequiredVars, name => Unset(values, name));
    }
  }
}
