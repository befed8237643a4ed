/** api.py: the ignore-list frame test and UUIDFreezer, the context manager
    that installs a patched function for one UUID function while active. */
module Api {
  import opened Base
  import opened UuidLayout
  import opened RandomSource
  import opened Generators
  import opened Proxy
  import opened Tracking
  import opened Config

  /** Some prefix of the list starts the module name. */
  function AnyPrefix(moduleName: string, prefixes: seq<string>): (r: bool)
    ensures r <==> exists i :: 0 <= i < |prefixes| && StartsWith(moduleName, prefixes[i])
  {
    if |prefixes| == 0 then false
    else StartsWith(moduleName, prefixes[0]) || AnyPrefix(moduleName, prefixes[1..])
  }

  /** `_should_ignore_frame` on the frame's module name ("" when the frame
      has none): never with an empty list or an empty name, otherwise when
      some prefix starts the name. The empty prefix matches every named
      module. */
  function ShouldIgnoreFrame(moduleName: string, ignoreList: seq<string>): (r: bool)
    ensures r <==> moduleName != "" && exists p :: p in ignoreList && StartsWith(moduleName, p)
  {
    if |ignoreList| == 0 then false
    else if moduleName == "" then false
    else
      var b := AnyPrefix(moduleName, ignoreList);
      assert b ==> exists p :: p in ignoreList && StartsWith(moduleName, p);
      assert (exists p :: p in ignoreList && StartsWith(moduleName, p)) ==> b by {
        if p :| p in ignoreList && StartsWith(moduleName, p) {
          var i :| 0 <= i < |ignoreList| && ignoreList[i] == p;
        }
      }
      b
  }

  /** Some frame of the stack (innermost first) belongs to an ignored
      module. */
  predicate StackIgnored(frames: seq<string>, ignoreList: seq<string>)
  {
    exists i :: 0 <= i < |frames| && ShouldIgnoreFrame(frames[i], ignoreList)
  }

  /** The `while frame is not None` walk up the stack. */
  method WalkFrames(frames: seq<string>, ignoreList: seq<string>) returns (ignored: bool)
    ensures ignored <==> StackIgnored(frames, ignoreList)
  {
    var i := 0;
    while i < |frames|
      invariant 0 <= i <= |frames|
      invariant forall j :: 0 <= j < i ==> !ShouldIgnoreFrame(frames[j], ignoreList)
    {
      if ShouldIgnoreFrame(frames[i], ignoreList) {
        return true;
      }
      i := i + 1;
    }
    return false;
  }

  /** The `seed=` argument: an int, a Random object, "node", or absent. */
  datatype SeedSpec = NoSeed | SeedInt(seed: int) | SeedRandom(rng: Rng) | SeedNode

  /** The `uuids=` argument: absent, one UUID, or a sequence of UUIDs. */
  datatype UuidsSpec = NoUuids | SingleUuid(uuid: Uuid) | UuidList(uuids: seq<Uuid>)

  /** An MD5 hexdigest. */
  type HexDigest = d: string | IsHexDigest(d) witness "00000000000000000000000000000000"

  /** A UUIDFreezer. `generator` and `token` are set while it is active;
      H is the type of the handle registered with the proxy. */
  datatype Freezer<H> = Freezer(
    uuids: UuidsSpec,
    uuidVersion: string,
    seed: SeedSpec,
    nodeId: Option<string>,
    node: Option<int>,
    clockSeq: Option<int>,
    ignoreExtra: seq<string>,
    onExhausted: ExhaustionBehavior,
    ignoreDefaults: bool,
    ignoreList: seq<string>,
    generator: Option<Generator>,
    token: Option<Token<H>>,
    tracker: Tracker)

  /** The ignore list a mocker or freezer starts with: the configured
      list followed by the extra prefixes, or only the extra prefixes when
      the defaults are not wanted. */
  function ComposeIgnoreList(config: PytestUUIDConfig, extra: seq<string>, ignoreDefaults: bool): (r: seq<string>)
    ensures ignoreDefaults ==> r == GetIgnoreList(config) + extra
    ensures !ignoreDefaults ==> r == extra
  {
    if ignoreDefaults then GetIgnoreList(config) + extra else extra
  }

  /** `UUIDFreezer.__init__`: the exhaustion policy defaults to the
      configured one, and a policy name that is not one of the three is a
      ValueError; nothing is active yet. */
  function NewFreezer<H>(config: PytestUUIDConfig, uuids: UuidsSpec, uuidVersion: string, seed: SeedSpec,
                         onExhausted: Option<BehaviorArg>, ignore: seq<string>, ignoreDefaults: bool,
                         nodeId: Option<string>, node: Option<int>, clockSeq: Option<int>): (r: Result<Freezer<H>>)
    ensures r.Err? <==> onExhausted.Some? && ResolveBehavior(onExhausted.value).Err?
    ensures r.Err? ==> r.error.ValueError?
    ensures r.Ok? ==> r.value.generator.None? && r.value.token.None? && r.value.tracker == EmptyTracker
    ensures r.Ok? ==>
      r.value.onExhausted == (if onExhausted.None? then config.defaultExhaustionBehavior else ResolveBehavior(onExhausted.value).value)
    ensures r.Ok? ==> r.value.ignoreList == ComposeIgnoreList(config, ignore, ignoreDefaults)
    ensures r.Ok? ==> r.value.uuids == uuids && r.value.uuidVersion == uuidVersion && r.value.seed == seed
    ensures r.Ok? ==> r.value.nodeId == nodeId && r.value.node == node && r.value.clockSeq == clockSeq
    ensures r.Ok? ==> r.value.ignoreExtra == ignore && r.value.ignoreDefaults == ignoreDefaults
  {
    var behavior := if onExhausted.None? then Ok(config.defaultExhaustionBehavior) else ResolveBehavior(onExhausted.value);
    match behavior
    case Err(e) => Err(e)
    case Ok(b) =>
      Ok(Freezer(uuids, uuidVersion, seed, nodeId, node, clockSeq, ignore, b, ignoreDefaults,
                 ComposeIgnoreList(config, ignore, ignoreDefaults), None, None, EmptyTracker))
  }

  /** `_create_random_generator`: a delegate to the original function of
      the frozen version, with node and clock_seq for uuid1 and uuid6. */
  function CreateRandomGenerator(uuidVersion: string, node: Option<int>, clockSeq: Option<int>): (r: Result<Generator>)
    ensures r.Ok? <==> IsSeededVersionName(uuidVersion)
    ensures r.Err? ==> r.error.ValueError?
    ensures r.Ok? ==> r.value.Delegating? && r.value.funcName == uuidVersion
    ensures r.Ok? && (uuidVersion == "uuid1" || uuidVersion == "uuid6") ==>
      r.value.node == node && r.value.clockSeq == clockSeq
    ensures r.Ok? && uuidVersion != "uuid1" && uuidVersion != "uuid6" ==>
      r.value.node.None? && r.value.clockSeq.None?
  {
    if uuidVersion == "uuid1" || uuidVersion == "uuid6" then Ok(Delegating(uuidVersion, node, clockSeq))
    else if uuidVersion == "uuid4" || uuidVersion == "uuid7" || uuidVersion == "uuid8" then Ok(Delegating(uuidVersion, None, None))
    else Err(ValueError("Unknown UUID version: " + uuidVersion))
  }

  /** `_create_generator`. A seed wins over presets: seed="node" needs a
      node id and uses the seed derived from its digest. Otherwise a
      single UUID, or a one-element list under CYCLE, gives a static
      generator, any other list a sequence (an empty one included), and no
      presets a delegate. `md5` stands for hashing the node id and
      `fallback` for the fresh Random a sequence gets. */
  function CreateGenerator<H>(f: Freezer<H>, md5: string -> HexDigest, fallback: Rng): (r: Result<Generator>)
    ensures f.seed.SeedNode? && f.nodeId.None? ==> r.Err? && r.error.ValueError?
    ensures f.seed.SeedNode? && f.nodeId.Some? ==>
      r == GetSeededGenerator(f.uuidVersion, IntSeed(NodeSeed(md5(f.nodeId.value))), f.node, f.clockSeq)
    ensures f.seed.SeedInt? ==> r == GetSeededGenerator(f.uuidVersion, IntSeed(f.seed.seed), f.node, f.clockSeq)
    ensures f.seed.SeedRandom? ==> r == GetSeededGenerator(f.uuidVersion, RandomObject(f.seed.rng), f.node, f.clockSeq)
    ensures !f.seed.NoSeed? && r.Ok? ==> r.value.Seeded?
    ensures f.seed.NoSeed? && f.uuids.SingleUuid? ==> r == Ok(Static(f.uuids.uuid))
    ensures f.seed.NoSeed? && f.uuids.UuidList? && |f.uuids.uuids| == 1 && f.onExhausted == Cycle ==>
      r == Ok(Static(f.uuids.uuids[0]))
    ensures f.seed.NoSeed? && f.uuids.UuidList? && !(|f.uuids.uuids| == 1 && f.onExhausted == Cycle) ==>
      r == Ok(NewSequence(f.uuids.uuids, f.onExhausted, fallback))
    ensures f.seed.NoSeed? && f.uuids.NoUuids? ==> r == CreateRandomGenerator(f.uuidVersion, f.node, f.clockSeq)
  {
    match f.seed
    case SeedNode =>
      if f.nodeId.None? then
        Err(ValueError("seed='node' requires node_id to be provided. Use @pytest.mark.freeze_" + f.uuidVersion + "(seed='node') or pass node_id explicitly."))
      else
        GetSeededGenerator(f.uuidVersion, IntSeed(NodeSeed(md5(f.nodeId.value))), f.node, f.clockSeq)
    case SeedInt(s) => GetSeededGenerator(f.uuidVersion, IntSeed(s), f.node, f.clockSeq)
    case SeedRandom(rng) => GetSeededGenerator(f.uuidVersion, RandomObject(rng), f.node, f.clockSeq)
    case NoSeed =>
      match f.uuids
      case SingleUuid(u) => Ok(Static(u))
      case UuidList(us) =>
        if |us| == 1 && f.onExhausted == Cycle then Ok(Static(us[0]))
        else Ok(NewSequence(us, f.onExhausted, fallback))
      case NoUuids => CreateRandomGenerator(f.uuidVersion, f.node, f.clockSeq)
  }

  /** The static shortcut for a single preset under CYCLE answers exactly
      like the one-element sequence it replaces. */
  lemma SingleCycleIsStatic(u: Uuid, fallback: Rng, i: nat, env: Env)
    ensures NthOutput(Static(u), i, env) == NthOutput(NewSequence([u], Cycle, fallback), i, env)
  {
    StaticRun(u, i, env);
    CycleOutput([u], fallback, i, env);
  }

  /** The outcome of one call of the patched function. */
  datatype Called<H> = Called(out: Result<Uuid>, freezer: Freezer<H>)

  /** The patched function `_create_patched_function` builds, recording
      `recordedVersion`. When a frame of the stack (starting at the proxy's
      own frame) is in an ignored module, the original function of the
      frozen version answers and the call is recorded as real; otherwise the
      generator answers and the call is recorded as mocked. A call that
      raises is not recorded, but the generator keeps the state it moved
      to. */
  function PatchedCallWith<H>(f: Freezer<H>, frames: seq<string>, caller: CallerInfo, env: Env, recordedVersion: int): (r: Called<H>)
    requires f.generator.Some?
    ensures r.freezer.generator.Some?
    ensures r.freezer == f.(generator := r.freezer.generator, tracker := r.freezer.tracker)
    ensures StackIgnored(frames, f.ignoreList) ==> r.out == env.original && r.freezer.generator == f.generator
    ensures !StackIgnored(frames, f.ignoreList) ==>
      var s := Call(f.generator.value, env);
      r.out == s.out && r.freezer.generator == Some(s.next)
    ensures r.out.Err? ==> r.freezer.tracker == f.tracker
    ensures r.out.Ok? ==>
      r.freezer.tracker == RecordCall(f.tracker, r.out.value, !StackIgnored(frames, f.ignoreList), caller, recordedVersion)
  {
    var ignored := |f.ignoreList| > 0 && StackIgnored(frames, f.ignoreList);
    assert |f.ignoreList| == 0 ==> !StackIgnored(frames, f.ignoreList);
    if ignored then
      match env.original
      case Err(e) => Called(Err(e), f)
      case Ok(u) => Called(Ok(u), f.(tracker := RecordCall(f.tracker, u, false, caller, recordedVersion)))
    else
      var s := Call(f.generator.value, env);
      var f1 := f.(generator := Some(s.next));
      match s.out
      case Err(e) => Called(Err(e), f1)
      case Ok(u) => Called(Ok(u), f1.(tracker := RecordCall(f.tracker, u, true, caller, recordedVersion)))
  }

  /** As written: `_record_call` is called without `uuid_version`, so
      every call is recorded with its default, 4. */
  function PatchedCallAsWritten<H>(f: Freezer<H>, frames: seq<string>, caller: CallerInfo, env: Env): (r: Called<H>)
    requires f.generator.Some?
    ensures r.out.Ok? ==>
      r.freezer.tracker.calls == f.tracker.calls + [UUIDCall(r.out.value, !StackIgnored(frames, f.ignoreList), 4, caller)]
  {
    PatchedCallWith(f, frames, caller, env, 4)
  }

  /** A freezer of uuid7 records its calls as version 4. */
  lemma FreezerRecordsWrongVersion<H>(f: Freezer<H>, u: Uuid, env: Env)
    requires f.uuidVersion == "uuid7" && f.generator == Some(Static(u))
    ensures var r := PatchedCallAsWritten(f, [], UnknownCaller, env);
      r.out == Ok(u) && r.freezer.tracker.calls[|r.freezer.tracker.calls| - 1].uuidVersion == 4
  {
  }

  /** The digit of a supported function name: "uuid7" is version 7. */
  function VersionNumber(funcName: string): (v: int)
    requires IsFuncName(funcName)
    ensures 1 <= v <= 8 && funcName == "uuid" + [('0' as int + v) as char]
  {
    (funcName[4] as int) - ('0' as int)
  }

  /** The patched function recording the version it stands for, as the
      version mockers do. */
  function PatchedCall<H>(f: Freezer<H>, frames: seq<string>, caller: CallerInfo, env: Env): (r: Called<H>)
    requires f.generator.Some? && IsFuncName(f.uuidVersion)
    ensures r.out.Ok? ==>
      r.freezer.tracker.calls == f.tracker.calls + [UUIDCall(r.out.value, !StackIgnored(frames, f.ignoreList), VersionNumber(f.uuidVersion), caller)]
    ensures r.out.Ok? ==> LastUuid(r.freezer.tracker) == Some(r.out.value)
  {
    PatchedCallWith(f, frames, caller, env, VersionNumber(f.uuidVersion))
  }

  /** The outcome of `__enter__`: the freezer and proxy state afterwards,
      and the error raised, if any. */
  datatype Entered<H> = Entered(freezer: Freezer<H>, reg: Registry<H>, error: Option<Error>)

  /** `__enter__` registering `handle` for the patched function. A failure
      to build the generator leaves everything as it was; a failure to
      register (an unsupported version name) leaves the generator built but
      no token. */
  function Enter<H>(f: Freezer<H>, reg: Registry<H>, handle: H, md5: string -> HexDigest, fallback: Rng): (r: Entered<H>)
    requires Valid(reg)
    ensures Valid(r.reg)
    ensures CreateGenerator(f, md5, fallback).Err? ==>
      r == Entered(f, reg, Some(CreateGenerator(f, md5, fallback).error))
    ensures CreateGenerator(f, md5, fallback).Ok? ==> r.freezer.generator == Some(CreateGenerator(f, md5, fallback).value)
    ensures CreateGenerator(f, md5, fallback).Ok? && !IsFuncName(f.uuidVersion) ==>
      r.reg == reg && r.freezer.token == f.token && r.error.Some? && r.error.value.ValueError?
    ensures r.error.None? <==> CreateGenerator(f, md5, fallback).Ok? && IsFuncName(f.uuidVersion)
    ensures r.error.None? ==>
      && r.freezer.token == Some(Token(handle, f.uuidVersion))
      && CurrentGenerator(r.reg, f.uuidVersion) == Some(handle)
      && r.reg == SetGenerator(reg, handle, f.uuidVersion).value.reg
    ensures r.freezer.tracker == f.tracker
  {
    match CreateGenerator(f, md5, fallback)
    case Err(e) => Entered(f, reg, Some(e))
    case Ok(g) =>
      var f1 := f.(generator := Some(g));
      match SetGenerator(reg, handle, f.uuidVersion)
      case Err(e) => Entered(f1, reg, Some(e))
      case Ok(p) =>
        assert p.reg.stacks[f.uuidVersion] == reg.stacks[f.uuidVersion] + [handle];
        Entered(f1.(token := Some(p.token)), p.reg, None)
  }

  /** `__exit__`: hand the token back, if any, and drop the generator. */
  function Exit<H(==)>(f: Freezer<H>, reg: Registry<H>): (r: (Freezer<H>, Registry<H>))
    requires Valid(reg)
    ensures Valid(r.1)
    ensures r.0 == f.(generator := None, token := None)
    ensures f.token.None? ==> r.1 == reg
    ensures f.token.Some? ==> r.1 == ResetGenerator(reg, f.token.value)
  {
    match f.token
    case None => (f.(generator := None), reg)
    case Some(t) => (f.(generator := None, token := None), ResetGenerator(reg, t))
  }

  /** Entering and then exiting restores the proxy state and deactivates
      the freezer, keeping what it tracked. */
  lemma EnterExitRoundTrip<H>(f: Freezer<H>, reg: Registry<H>, handle: H, md5: string -> HexDigest, fallback: Rng)
    requires Valid(reg) && f.token.None?
    requires CreateGenerator(f, md5, fallback).Ok? && IsFuncName(f.uuidVersion)
    ensures var e := Enter(f, reg, handle, md5, fallback);
      var x := Exit(e.freezer, e.reg);
      x.1 == reg && x.0.generator.None? && x.0.token.None? && x.0.tracker == f.tracker
  {
    SetResetRoundTrip(reg, handle, f.uuidVersion);
  }

  /** Nested freezers on one function: inside both, the inner one answers;
      after the inner exit the outer one is current again, and after the
      outer exit the proxy is as before both. */
  lemma NestedFreezersRestore<H>(outer: Freezer<H>, inner: Freezer<H>, reg: Registry<H>, ho: H, hi: H,
                                 md5: string -> HexDigest, fallback: Rng)
    requires Valid(reg) && outer.token.None? && inner.token.None?
    requires CreateGenerator(outer, md5, fallback).Ok? && CreateGenerator(inner, md5, fallback).Ok?
    requires IsFuncName(outer.uuidVersion) && inner.uuidVersion == outer.uuidVersion
    ensures var e1 := Enter(outer, reg, ho, md5, fallback);
      var e2 := Enter(inner, e1.reg, hi, md5, fallback);
      && CurrentGenerator(e2.reg, outer.uuidVersion) == Some(hi)
      && var x2 := Exit(e2.freezer, e2.reg);
      && x2.1 == e1.reg && CurrentGenerator(x2.1, outer.uuidVersion) == Some(ho)
      && Exit(e1.freezer, x2.1).1 == reg
  {
    NestedSetReset(reg, ho, hi, outer.uuidVersion);
  }

  /** The `seed` property: the seed of a seeded generator while active
      (only the seeded classes have a `seed` attribute). */
  function FreezerSeed<H>(f: Freezer<H>): (r: Option<int>)
    ensures f.generator.None? ==> r.None?
    ensures r.Some? ==> f.generator.value.Seeded? && f.generator.value.seed == r
    ensures f.generator.Some? && f.generator.value.Seeded? ==> r == f.generator.value.seed
    ensures f.generator.Some? && !f.generator.value.Seeded? ==> r.None?
  {
    if f.generator.Some? then SeedOf(f.generator.value) else None
  }

  /** With seed="node" the reported seed is the one derived from the node
      id, a 32-bit value. */
  lemma NodeSeedReported<H>(f: Freezer<H>, reg: Registry<H>, handle: H, md5: string -> HexDigest, fallback: Rng)
    requires Valid(reg) && f.seed.SeedNode? && f.nodeId.Some? && IsSeededVersionName(f.uuidVersion)
    ensures var e := Enter(f, reg, handle, md5, fallback);
      FreezerSeed(e.freezer) == Some(NodeSeed(md5(f.nodeId.value)) as int)
      && FreezerSeed(e.freezer).value < 0x1_0000_0000
  {
  }

  /** After entering, `seed` is the integer seed given (or derived from the
      node id), and None for a Random object, presets or no seed at all. */
  lemma FreezerSeedAfterEnter<H>(f: Freezer<H>, reg: Registry<H>, handle: H, md5: string -> HexDigest, fallback: Rng)
    requires Valid(reg) && f.generator.None? && IsSeededVersionName(f.uuidVersion)
    ensures var e := Enter(f, reg, handle, md5, fallback);
      && (f.seed.SeedInt? ==> FreezerSeed(e.freezer) == Some(f.seed.seed))
      && (f.seed.SeedNode? && f.nodeId.Some? ==> FreezerSeed(e.freezer) == Some(NodeSeed(md5(f.nodeId.value)) as int))
      && (f.seed.SeedNode? && f.nodeId.None? ==> FreezerSeed(e.freezer).None?)
      && (f.seed.SeedRandom? || f.seed.NoSeed? ==> FreezerSeed(e.freezer).None?)
  {
    var e := Enter(f, reg, handle, md5, fallback);
    var c := CreateGenerator(f, md5, fallback);
    if c.Ok? {
      assert e.freezer.generator == Some(c.value);
      match f.seed
      case SeedInt(s) => assert c.value.seed == Some(s);
      case SeedNode => assert c.value.seed == Some(NodeSeed(md5(f.nodeId.value)) as int);
      case SeedRandom(_) => assert c.value.seed.None?;
      case NoSeed =>
    } else {
      assert e.freezer == f;
    }
  }

  /** `reset()`: reset the generator, if any, and clear the tracking. */
  function ResetFreezer<H>(f: Freezer<H>): (r: Freezer<H>)
    ensures r.tracker == EmptyTracker && r.token == f.token
    ensures f.generator.None? ==> r.generator.None?
    ensures f.generator.Some? ==> r.generator == Some(Reset(f.generator.value))
    ensures r == f.(generator := r.generator, tracker := EmptyTracker)
  {
    f.(generator := if f.generator.Some? then Some(Reset(f.generator.value)) else None, tracker := EmptyTracker)
  }
}
