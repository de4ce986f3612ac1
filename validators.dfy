/** `quam/config/validators.py`: the check that the `quam` section of a
    qualibrate config carries the config version this release supports. */
module Validators {
  import opened Wrappers
  import opened JsonValue

  /** `QuamConfig.version`. */
  const SupportedVersion: int := 3
  const QuamKey: Key := KStr("quam")
  const VersionKey: Key := KStr("version")

  /** `InvalidQuamConfigVersion`: both specific version errors derive from
      it (and from `RuntimeError`). */
  predicate InvalidQuamConfigVersion(e: Error) {
    e == InvalidQuamConfigVersionError || e == GreaterThanSupportedQuamConfigVersionError
  }

  /** Python's ordering of a version value against an int: numbers and
      booleans compare by value; anything else raises `TypeError`. */
  function CompareToInt(v: Json, n: int): (r: Result<int>)
    ensures r.Ok? ==> -1 <= r.value <= 1
    ensures r.Ok? <==> v.JInt? || v.JFloat? || v.JBool?
    ensures v.JInt? ==> r == Ok(if v.i < n then -1 else if v.i > n then 1 else 0)
  {
    match v
    case JInt(i) => Ok(if i < n then -1 else if i > n then 1 else 0)
    case JFloat(f) => Ok(if f < n as real then -1 else if f > n as real then 1 else 0)
    case JBool(b) =>
      var i := if b then 1 else 0;
      Ok(if i < n then -1 else if i > n then 1 else 0)
    case _ => Err(TypeError)
  }

  /** `quam_version_validator(config, skip_if_none)`. */
  function QuamVersionValidator(config: Obj, skipIfNone: bool): (r: Result<()>)
    ensures !skipIfNone && QuamKey !in config ==> r == Err(InvalidQuamConfigVersionError)
    ensures skipIfNone && QuamKey !in config ==> r == Err(KeyError)
    ensures QuamKey in config && !config[QuamKey].JObj? ==> r == Err(AttributeError)
    ensures r.Ok? <==>
              (QuamKey in config && config[QuamKey].JObj?
               && VersionKey in config[QuamKey].fields
               && CompareToInt(config[QuamKey].fields[VersionKey], SupportedVersion) == Ok(0))
  {
    if !skipIfNone && QuamKey !in config then Err(InvalidQuamConfigVersionError)
    else if QuamKey !in config then Err(KeyError)
    else if !config[QuamKey].JObj? then Err(AttributeError)
    else
      var section := config[QuamKey].fields;
      var version := if VersionKey in section then section[VersionKey] else JNull;
      if version == JNull then Err(InvalidQuamConfigVersionError)
      else
        var c :- CompareToInt(version, SupportedVersion);
        if c < 0 then Err(InvalidQuamConfigVersionError)
        else if c > 0 then Err(GreaterThanSupportedQuamConfigVersionError)
        else Ok(())
  }

  /** An int version is accepted exactly when it is the supported one; an
      older one and a newer one are told apart, and both are caught as
      `InvalidQuamConfigVersion`. */
  lemma IntVersionVerdict(config: Obj, skipIfNone: bool, v: int)
    requires QuamKey in config && config[QuamKey].JObj?
    requires VersionKey in config[QuamKey].fields && config[QuamKey].fields[VersionKey] == JInt(v)
    ensures v == SupportedVersion ==> QuamVersionValidator(config, skipIfNone).Ok?
    ensures v < SupportedVersion ==> QuamVersionValidator(config, skipIfNone) == Err(InvalidQuamConfigVersionError)
    ensures v > SupportedVersion ==>
      QuamVersionValidator(config, skipIfNone) == Err(GreaterThanSupportedQuamConfigVersionError)
    ensures QuamVersionValidator(config, skipIfNone).Err? ==>
      InvalidQuamConfigVersion(QuamVersionValidator(config, skipIfNone).error)
  {
  }

  /** A section without a version, or with `version = None`, is rejected as
      too old, whatever `skip_if_none` says. */
  lemma MissingVersionRejected(config: Obj, skipIfNone: bool)
    requires QuamKey in config && config[QuamKey].JObj?
    requires VersionKey !in config[QuamKey].fields || config[QuamKey].fields[VersionKey] == JNull
    ensures QuamVersionValidator(config, skipIfNone) == Err(InvalidQuamConfigVersionError)
  {
  }
}
