/**
 * `no.sysco.middleware.kafka.interceptor.zipkin.TracingConfiguration`, the older
 * copy of the configuration accessor. Its scalar lookups match the current
 * ones; its `getStringList` casts any non-null value to a list without checking,
 * so a value that is not a list makes it throw.
 */
module LegacyConfiguration {
  import opened Wrappers
  import opened Configuration

  /** The exception the unchecked `(AbstractList)` cast throws. */
  datatype CastError = ClassCastException(key: string)

  datatype TracingConfiguration = TracingConfiguration(configs: map<string, ConfigValue>) {

    /**
     * `getStringList`: `None` (`null`) for a missing key, a list value joined with
     * commas, and a `ClassCastException` for any other value.
     */
    function GetStringList(key: string): (r: Result<Option<string>, CastError>)
      ensures key !in configs ==> r == Success(None)
      ensures key in configs && configs[key].List? ==> r == Success(Some(Join(configs[key].xs)))
      ensures key in configs && !configs[key].List? ==> r == Failure(ClassCastException(key))
    {
      if key in configs then
        match configs[key]
        case List(xs) => Success(Some(Join(xs)))
        case _ => Failure(ClassCastException(key))
      else
        Success(None)
    }

    /** `getStringOrDefault`: a `String` value as it is stored, else `default`. */
    function GetStringOrDefault(key: string, default: Option<string>): (r: Option<string>)
      ensures key in configs && configs[key].Str? ==> r == Some(configs[key].s)
      ensures !(key in configs && configs[key].Str?) ==> r == default
      ensures default.Some? ==> r.Some?
    {
      if key in configs && configs[key].Str? then Some(configs[key].s) else default
    }

    /** `getString`: `getStringOrDefault(key, null)`. */
    function GetString(key: string): (r: Option<string>)
      ensures r == GetStringOrDefault(key, None)
      ensures r.Some? <==> key in configs && configs[key].Str?
    {
      GetStringOrDefault(key, None)
    }

    /** The same map seen through the current accessor. */
    function Current(): Configuration.TracingConfiguration {
      Configuration.TracingConfiguration(configs)
    }
  }

  /** Both versions answer every scalar lookup alike. */
  lemma ScalarLookupsAgree(c: TracingConfiguration, key: string, default: Option<string>)
    ensures c.GetStringOrDefault(key, default) == c.Current().GetStringOrDefault(key, default)
    ensures c.GetString(key) == c.Current().GetString(key)
  {
  }

  /**
   * Both versions agree on lists and missing keys; where the current version
   * answers `null` for a present non-list value, the older one throws.
   */
  lemma StringListAgreesUnlessCastFails(c: TracingConfiguration, key: string)
    ensures c.GetStringList(key).Success? ==> c.GetStringList(key).value == c.Current().GetStringList(key)
    ensures c.GetStringList(key).Failure? <==> key in c.configs && c.Current().GetStringList(key).None?
  {
  }
}
