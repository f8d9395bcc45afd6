/**
 * Configuration constants and the typed lookup of their values in a
 * bundle's Info.plist dictionary.
 */
module Configuration {
  import opened Wrappers

  /** The configurable constants of the application. */
  datatype ConfigurationConstant = ApiBaseURL | ContentPath | EmptyContentPath | MalformedContentPath

  /** The Info.plist key of a constant; `ConstantFor` maps it back. */
  function Key(c: ConfigurationConstant): (r: string)
    ensures ConstantFor(r) == Some(c)
  {
    match c
    case ApiBaseURL => "API_BASE_URL"
    case ContentPath => "CONTENT_PATH"
    case EmptyContentPath => "EMPTY_CONTENT_PATH"
    case MalformedContentPath => "MALFORMED_CONTENT_PATH"
  }

  /** The constant whose Info.plist key is `key`, if any: the partial inverse of `Key`. */
  function ConstantFor(key: string): (r: Option<ConfigurationConstant>)
    ensures r.Some? <==> key in {"API_BASE_URL", "CONTENT_PATH", "EMPTY_CONTENT_PATH", "MALFORMED_CONTENT_PATH"}
    ensures r == Some(ApiBaseURL) <==> key == "API_BASE_URL"
    ensures r == Some(ContentPath) <==> key == "CONTENT_PATH"
    ensures r == Some(EmptyContentPath) <==> key == "EMPTY_CONTENT_PATH"
    ensures r == Some(MalformedContentPath) <==> key == "MALFORMED_CONTENT_PATH"
  {
    if key == "API_BASE_URL" then Some(ApiBaseURL)
    else if key == "CONTENT_PATH" then Some(ContentPath)
    else if key == "EMPTY_CONTENT_PATH" then Some(EmptyContentPath)
    else if key == "MALFORMED_CONTENT_PATH" then Some(MalformedContentPath)
    else None
  }

  /** Distinct constants have distinct keys, and a recognised key names the constant that has it. */
  lemma KeyInjective(a: ConfigurationConstant, b: ConfigurationConstant, key: string)
    ensures Key(a) == Key(b) <==> a == b
    ensures ConstantFor(key) == Some(a) ==> Key(a) == key
  {
  }

  /** The errors of a configuration lookup. */
  datatype ConfigError = MissingKey | InvalidValue

  /** An object stored in Info.plist: a string, a number, or anything else. */
  datatype PlistValue = Str(s: string) | IntV(i: int) | Other

  /** A bundle's Info.plist dictionary. */
  type Bundle = map<string, PlistValue>

  /**
   * The value stored under `key`, as a `T`. `cast` says whether a stored
   * object already is a `T`; `parse` is the conversion of a string to `T`.
   */
  function Value<T>(bundle: Bundle, key: string, cast: PlistValue -> Option<T>, parse: string -> Option<T>): (r: Result<T, ConfigError>)
    ensures key !in bundle <==> r == Err(MissingKey)
    // an object that already is a T is returned unchanged
    ensures key in bundle && cast(bundle[key]).Some? ==> r == Ok(cast(bundle[key]).value)
    // otherwise a string is converted, and a string that does not convert is invalid
    ensures key in bundle && cast(bundle[key]).None? && bundle[key].Str? ==>
              r == if parse(bundle[key].s).Some? then Ok(parse(bundle[key].s).value) else Err(InvalidValue)
    // a present key never reports a missing key
    ensures key in bundle && r.Err? ==> r.error == InvalidValue
    ensures r.Ok? ==>
              key in bundle &&
              (cast(bundle[key]) == Some(r.value) || (bundle[key].Str? && parse(bundle[key].s) == Some(r.value)))
  {
    if key !in bundle then Err(MissingKey)
    else
      var stored := bundle[key];
      match cast(stored)
      case Some(value) => Ok(value)
      case None =>
        match stored
        case Str(text) =>
          (match parse(text)
           case Some(value) => Ok(value)
           case None => Err(InvalidValue))
        case _ => Err(InvalidValue)
  }

  function AsString(v: PlistValue): (r: Option<string>)
    ensures r.Some? <==> v.Str?
  {
    if v.Str? then Some(v.s) else None
  }

  function AsInt(v: PlistValue): (r: Option<int>)
    ensures r.Some? <==> v.IntV?
  {
    if v.IntV? then Some(v.i) else None
  }

  /** `Value` with `String` as the requested type: a string converts to itself. */
  function StringValue(bundle: Bundle, key: string): (r: Result<string, ConfigError>)
    ensures r == if key !in bundle then Err(MissingKey)
                 else if bundle[key].Str? then Ok(bundle[key].s)
                 else Err(InvalidValue)
  {
    Value(bundle, key, AsString, (s: string) => Some(s))
  }

  /** `Value` with `Int` as the requested type; `parse` is the conversion of a string to an integer. */
  function IntValue(bundle: Bundle, key: string, parse: string -> Option<int>): (r: Result<int, ConfigError>)
    ensures key !in bundle ==> r == Err(MissingKey)
    ensures key in bundle && bundle[key].IntV? ==> r == Ok(bundle[key].i)
    ensures key in bundle && bundle[key].Str? ==>
              r == if parse(bundle[key].s).Some? then Ok(parse(bundle[key].s).value) else Err(InvalidValue)
    ensures key in bundle && bundle[key].Other? ==> r == Err(InvalidValue)
  {
    Value(bundle, key, AsInt, parse)
  }

  /** A constant's value as a release build reads it: the string stored under its key, or "" on any failure. */
  function ConstantValue(c: ConfigurationConstant, bundle: Bundle): (r: string)
    ensures Key(c) in bundle && bundle[Key(c)].Str? ==> r == bundle[Key(c)].s
    ensures Key(c) !in bundle || !bundle[Key(c)].Str? ==> r == ""
  {
    match StringValue(bundle, Key(c))
    case Ok(value) => value
    case Err(_) => ""
  }
}
