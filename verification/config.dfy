/** config.py: the global configuration and `configure`. */
module Config {
  import opened Base
  import opened Generators

  datatype PytestUUIDConfig = PytestUUIDConfig(
    defaultIgnoreList: seq<string>,
    extendIgnoreList: seq<string>,
    defaultExhaustionBehavior: ExhaustionBehavior)

  /** The dataclass defaults: no ignored packages, CYCLE. */
  const DefaultConfig := PytestUUIDConfig([], [], Cycle)

  /** `get_ignore_list`: the defaults followed by the extension. */
  function GetIgnoreList(c: PytestUUIDConfig): (r: seq<string>)
    ensures |r| == |c.defaultIgnoreList| + |c.extendIgnoreList|
    ensures r[..|c.defaultIgnoreList|] == c.defaultIgnoreList && r[|c.defaultIgnoreList|..] == c.extendIgnoreList
  {
    c.defaultIgnoreList + c.extendIgnoreList
  }

  /** The outcome of `configure`: the configuration afterwards, and the
      error it raised, if any. */
  datatype Configured = Configured(config: PytestUUIDConfig, error: Option<Error>)

  /** `configure`: each argument that is given replaces its field (the
      extension list is replaced, not appended to). The behaviour string is
      parsed last, so an unknown name raises ValueError after the lists
      have already been replaced and leaves the behaviour as it was. */
  function Configure(c: PytestUUIDConfig, defaultIgnoreList: Option<seq<string>>,
                     extendIgnoreList: Option<seq<string>>, behavior: Option<BehaviorArg>): (r: Configured)
    ensures r.config.defaultIgnoreList == (if defaultIgnoreList.Some? then defaultIgnoreList.value else c.defaultIgnoreList)
    ensures r.config.extendIgnoreList == (if extendIgnoreList.Some? then extendIgnoreList.value else c.extendIgnoreList)
    ensures r.error.Some? <==> behavior.Some? && ResolveBehavior(behavior.value).Err?
    ensures r.error.Some? ==> r.error.value.ValueError?
    ensures r.config.defaultExhaustionBehavior ==
      (if behavior.Some? && ResolveBehavior(behavior.value).Ok? then ResolveBehavior(behavior.value).value
       else c.defaultExhaustionBehavior)
  {
    var c1 := if defaultIgnoreList.Some? then c.(defaultIgnoreList := defaultIgnoreList.value) else c;
    var c2 := if extendIgnoreList.Some? then c1.(extendIgnoreList := extendIgnoreList.value) else c1;
    match behavior
    case None => Configured(c2, None)
    case Some(arg) =>
      match ResolveBehavior(arg)
      case Ok(b) => Configured(c2.(defaultExhaustionBehavior := b), None)
      case Err(e) => Configured(c2, Some(e))
  }

  /** Calling `configure` twice with the same arguments is the same as
      calling it once, and calling it with no arguments changes nothing. */
  lemma ConfigureIdempotent(c: PytestUUIDConfig, d: Option<seq<string>>, e: Option<seq<string>>, b: Option<BehaviorArg>)
    ensures Configure(Configure(c, d, e, b).config, d, e, b) == Configure(c, d, e, b)
    ensures Configure(c, None, None, None) == Configured(c, None)
  {
  }

  /** A failing behaviour string still replaces the lists. */
  lemma ConfigurePartialUpdate(c: PytestUUIDConfig, d: seq<string>, name: string)
    requires ParseBehavior(name).Err?
    ensures var r := Configure(c, Some(d), None, Some(BehaviorString(name)));
      r.error.Some? && r.config == c.(defaultIgnoreList := d)
  {
  }

  /** `reset_config`. */
  function ResetConfig(c: PytestUUIDConfig): (r: PytestUUIDConfig)
    ensures GetIgnoreList(r) == [] && r.defaultExhaustionBehavior == Cycle
  {
    DefaultConfig
  }
}
