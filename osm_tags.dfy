/**
 * The tag helpers of the import handlers: `get_tag`, `get_maxspeed`, `is_oneway`
 * and `is_tunnel`. Two variants of `get_tag` exist: the one of the highway import
 * treats the literal value "none" like a missing key, the one of the motorway
 * database script does not.
 */
module OsmTags {
  import opened Wrappers
  import opened Osm

  /**
   * Python's `int()` on a string. Its grammar (signs, underscores, surrounding
   * white space) is not modelled: the handlers receive it as a partial function.
   */
  type IntParser = string -> Option<int>

  /** The exception a failing `int()` conversion raises. */
  datatype TagError = ValueError(key: string, value: string)

  /**
   * The raw value `get_tag` converts, or None when it returns its default: the key
   * is missing or, with the "none" check, its value is the literal "none".
   */
  function TagValue(tags: Tags, key: string, noneMeansMissing: bool): (r: Option<string>)
    ensures r.None? <==> key !in tags || (noneMeansMissing && tags[key] == "none")
    ensures r.Some? ==> key in tags && r.value == tags[key]
  {
    if key in tags && !(noneMeansMissing && tags[key] == "none") then Some(tags[key]) else None
  }

  /** `get_tag(tags, key, None, int)`: the parsed value, None, or the ValueError of `int()`. */
  function IntTag(tags: Tags, key: string, noneMeansMissing: bool, parseInt: IntParser): (r: Result<Option<int>, TagError>)
    ensures r.Err? <==> TagValue(tags, key, noneMeansMissing).Some? && parseInt(tags[key]).None?
    ensures r == Ok(None) <==> TagValue(tags, key, noneMeansMissing).None?
    ensures r.Ok? && r.value.Some? ==> key in tags && parseInt(tags[key]) == r.value
    ensures r.Err? ==> r.error == ValueError(key, tags[key])
  {
    match TagValue(tags, key, noneMeansMissing)
    case None => Ok(None)
    case Some(v) =>
      match parseInt(v)
      case None => Err(ValueError(key, v))
      case Some(n) => Ok(Some(n))
  }

  /**
   * `get_maxspeed`: `int(tags["maxspeed"])`, with every exception (a missing key
   * included) turned into None.
   */
  function Maxspeed(tags: Tags, parseInt: IntParser): (r: Option<int>)
    ensures r.Some? <==> "maxspeed" in tags && parseInt(tags["maxspeed"]).Some?
    ensures r.Some? ==> r == parseInt(tags["maxspeed"])
  {
    if "maxspeed" in tags then parseInt(tags["maxspeed"]) else None
  }

  /** `is_oneway` and `is_tunnel`: the tag is present and its value is exactly "yes". */
  predicate IsYes(tags: Tags, key: string)
  {
    key in tags && tags[key] == "yes"
  }

  predicate IsOneway(tags: Tags)
  {
    IsYes(tags, "oneway")
  }

  predicate IsTunnel(tags: Tags)
  {
    IsYes(tags, "tunnel")
  }

  /** A flag is set exactly when the tag's value, read without the "none" check, is "yes". */
  lemma FlagIsYesValue(tags: Tags, key: string)
    ensures IsYes(tags, key) <==> TagValue(tags, key, false) == Some("yes")
  {
  }

  /**
   * The two variants of `get_tag` disagree exactly on the literal value "none":
   * there the highway import returns the default and the motorway script returns
   * the string (or tries to convert it).
   */
  lemma TagVariantsDifferOnlyOnNone(tags: Tags, key: string)
    ensures TagValue(tags, key, true) != TagValue(tags, key, false) <==> key in tags && tags[key] == "none"
    ensures TagValue(tags, key, true).Some? ==> TagValue(tags, key, true) == TagValue(tags, key, false)
  {
  }

  /**
   * `get_maxspeed` never raises, where reading the same tag with
   * `get_tag(..., int)` raises whenever the value is present and does not parse:
   * both agree on every value that parses.
   */
  lemma MaxspeedAgreesWithIntTag(tags: Tags, parseInt: IntParser)
    ensures IntTag(tags, "maxspeed", false, parseInt).Ok? ==> IntTag(tags, "maxspeed", false, parseInt).value == Maxspeed(tags, parseInt)
    ensures IntTag(tags, "maxspeed", false, parseInt).Err? <==> "maxspeed" in tags && Maxspeed(tags, parseInt).None?
  {
  }
}
