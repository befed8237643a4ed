/** plugin.py: the imperative mockers the fixtures hand out. UUIDMocker
    controls uuid4 and lazily registers sub-mockers for the other
    functions; UUIDSpy only records; UUID1/6/7/8Mocker control one other
    function each; NamespaceUUIDSpy records uuid3 or uuid5 calls. */
module Plugin {
  import opened Base
  import opened UuidLayout
  import opened RandomSource
  import opened Generators
  import opened Proxy
  import opened Tracking
  import opened Config
  import opened Api

  // ---------------------------------------------------------------------
  // What every mocker shares

  /** `set(*uuids)`: one UUID under CYCLE becomes a static generator, a
      non-empty list a sequence under the mocker's policy, and no UUIDs
      leave the current generator in place. */
  function SetUuids(current: Option<Generator>, onExhausted: ExhaustionBehavior, uuids: seq<Uuid>, fallback: Rng): (r: Option<Generator>)
    ensures |uuids| == 0 ==> r == current
    ensures |uuids| > 0 ==> r.Some? && (r.value.Static? || r.value.Sequence?)
    ensures |uuids| > 0 ==> (r.value.Static? <==> |uuids| == 1 && onExhausted == Cycle)
    ensures |uuids| > 0 && r.value.Static? ==> r.value.value == uuids[0]
    ensures |uuids| > 0 && r.value.Sequence? ==> r.value == NewSequence(uuids, onExhausted, fallback)
  {
    if |uuids| == 1 && onExhausted == Cycle then Some(Static(uuids[0]))
    else if |uuids| > 0 then Some(NewSequence(uuids, onExhausted, fallback))
    else current
  }

  /** Under CYCLE, call i of what `set` installs returns preset i mod n,
      whether it chose a static generator or a sequence. */
  lemma SetUuidsCycles(current: Option<Generator>, uuids: seq<Uuid>, fallback: Rng, i: nat, env: Env)
    requires |uuids| > 0
    ensures NthOutput(SetUuids(current, Cycle, uuids, fallback).value, i, env) == Ok(uuids[i % |uuids|])
  {
    if |uuids| == 1 {
      StaticRun(uuids[0], i, env);
    } else {
      CycleOutput(uuids, fallback, i, env);
    }
  }

  /** Under RAISE, what `set` installs returns the presets in order and
      then raises with their count; a single UUID is not made static. */
  lemma SetUuidsRaises(current: Option<Generator>, uuids: seq<Uuid>, fallback: Rng, i: nat, env: Env)
    requires |uuids| > 0
    ensures SetUuids(current, Raise, uuids, fallback).value.Sequence?
    ensures i < |uuids| ==> NthOutput(SetUuids(current, Raise, uuids, fallback).value, i, env) == Ok(uuids[i])
    ensures i >= |uuids| ==> NthOutput(SetUuids(current, Raise, uuids, fallback).value, i, env) == Err(Exhausted(|uuids|))
  {
    RaiseOutput(uuids, fallback, i, env);
  }

  /** Under RANDOM, what `set` installs returns the presets in order and
      then well-formed random v4 UUIDs; a single UUID is not made static. */
  lemma SetUuidsRandom(current: Option<Generator>, uuids: seq<Uuid>, fallback: Rng, i: nat, env: Env)
    requires |uuids| > 0
    ensures SetUuids(current, Random, uuids, fallback).value.Sequence?
    ensures i < |uuids| ==> NthOutput(SetUuids(current, Random, uuids, fallback).value, i, env) == Ok(uuids[i])
    ensures i >= |uuids| ==> NthOutput(SetUuids(current, Random, uuids, fallback).value, i, env).Ok?
    ensures i >= |uuids| ==> WellFormed(NthOutput(SetUuids(current, Random, uuids, fallback).value, i, env).value, 4)
  {
    if i < |uuids| {
      PresetsFirst(uuids, Random, fallback, i, env);
    } else {
      RandomFallbackOutput(uuids, Random, fallback, i, env);
    }
  }

  /** The generator-side half of `set_exhaustion_behavior`: a sequence
      takes the new policy, any other generator is left alone. */
  function RetargetBehavior(g: Option<Generator>, b: ExhaustionBehavior): (r: Option<Generator>)
    ensures g.Some? && g.value.Sequence? ==> r == Some(g.value.(onExhausted := b))
    ensures !(g.Some? && g.value.Sequence?) ==> r == g
  {
    if g.Some? && g.value.Sequence? then Some(g.value.(onExhausted := b)) else g
  }

  /** A sequence that has run past its end under CYCLE and is switched to
      RAISE raises on its next call. */
  lemma RetargetTakesEffect(uuids: seq<Uuid>, fallback: Rng, k: nat, env: Env)
    requires k >= |uuids| && |uuids| > 0
    ensures var g := After(NewSequence(uuids, Cycle, fallback), k);
      g.index >= 1 &&
      (g.index < |uuids| ==> Output(RetargetBehavior(Some(g), Raise).value, env) == Ok(uuids[g.index])) &&
      (g.index >= |uuids| ==> Output(RetargetBehavior(Some(g), Raise).value, env) == Err(Exhausted(|uuids|)))
  {
    SequenceRun(uuids, Cycle, fallback, k);
  }

  /** The `seed` property: the seed of a SeededUUIDGenerator (the v4 class
      only), None for anything else. */
  function SeedProperty(g: Option<Generator>): (r: Option<int>)
    ensures r.Some? ==> g.Some? && g.value.Seeded? && g.value.version == V4 && g.value.seed == r
    ensures g.Some? && g.value.Seeded? && g.value.version == V4 ==> r == g.value.seed
  {
    if g.Some? && g.value.Seeded? && g.value.version == V4 then g.value.seed else None
  }

  /** Where a call of a mocker is answered. */
  datatype Source = Ignored | Local | Delegated | Real

  /** The order `__call__` tries: an ignored frame on the stack first (only
      when the ignore list is non-empty), then the mocker's own generator,
      then the delegate, then the original function. */
  function ChooseSource(ignoreList: seq<string>, frames: seq<string>, hasGenerator: bool, hasDelegate: bool): (s: Source)
    ensures s == Ignored <==> StackIgnored(frames, ignoreList)
    ensures s == Local <==> !StackIgnored(frames, ignoreList) && hasGenerator
    ensures s == Delegated <==> !StackIgnored(frames, ignoreList) && !hasGenerator && hasDelegate
    ensures s == Real <==> !StackIgnored(frames, ignoreList) && !hasGenerator && !hasDelegate
  {
    assert |ignoreList| == 0 ==> !StackIgnored(frames, ignoreList);
    if |ignoreList| > 0 && StackIgnored(frames, ignoreList) then Ignored
    else if hasGenerator then Local
    else if hasDelegate then Delegated
    else Real
  }

  /** The outcome of one call: the answer and the generator and tracking
      state left behind. A call that raises is not recorded; a generator
      that raised keeps the state it moved to. */
  datatype Answered = Answered(out: Result<Uuid>, generator: Option<Generator>, tracker: Tracker)

  /** One call of a mocker of `version`, answered from `source`. `env`
      holds the original function's outcome in this slot and `delegated`
      the delegate's. A call is recorded as mocked exactly when a generator
      or the delegate answered it. */
  function Answer(source: Source, generator: Option<Generator>, tracker: Tracker, caller: CallerInfo,
                  env: Env, delegated: Result<Uuid>, version: int): (r: Answered)
    requires source == Local ==> generator.Some?
    ensures source == Local ==>
      r.out == Output(generator.value, env) && r.generator == Some(Advance(generator.value))
    ensures source == Delegated ==> r.out == delegated && r.generator == generator
    ensures (source == Ignored || source == Real) ==> r.out == env.original && r.generator == generator
    ensures r.out.Err? ==> r.tracker == tracker
    ensures r.out.Ok? ==>
      r.tracker == RecordCall(tracker, r.out.value, source == Local || source == Delegated, caller, version)
  {
    var (out, next) :=
      match source
      case Local =>
        var s := Call(generator.value, env);
        (s.out, Some(s.next))
      case Delegated => (delegated, generator)
      case _ => (env.original, generator);
    match out
    case Err(e) => Answered(Err(e), next, tracker)
    case Ok(u) => Answered(Ok(u), next, RecordCall(tracker, u, source == Local || source == Delegated, caller, version))
  }

  // ---------------------------------------------------------------------
  // The missing tracking lock

  /** The classes whose calls are tracked through CallTrackingMixin. */
  datatype TrackingOwner = FreezerOwner | MockerOwner | SpyOwner | VersionMockerOwner

  /** As written, only UUIDFreezer's `__init__` creates `_tracking_lock`. */
  predicate InitCreatesLockAsWritten(o: TrackingOwner)
  {
    o.FreezerOwner?
  }

  /** As written, recording a call of a UUIDMocker, a UUIDSpy or a version
      mocker raises AttributeError whatever it has tracked so far. */
  lemma MockerTrackingFailsAsWritten(o: TrackingOwner, t: Tracker, u: Uuid, wasMocked: bool, caller: CallerInfo, version: int)
    requires !o.FreezerOwner?
    ensures RecordCallAsWritten(t, InitCreatesLockAsWritten(o), u, wasMocked, caller, version) == Err(AttributeError("_tracking_lock"))
    ensures RecordCallAsWritten(t, InitCreatesLockAsWritten(FreezerOwner), u, wasMocked, caller, version)
      == Ok(RecordCall(t, u, wasMocked, caller, version))
  {
  }

  // ---------------------------------------------------------------------
  // UUIDMocker

  /** What a sub-mocker slot holds. */
  datatype Sub = VersionSub(mocker: VersionMocker) | NamespaceSub(spy: NamespaceSpy)

  /** A sub-mocker and the handle it was registered with in the proxy. */
  datatype Registered<H> = Registered(sub: Sub, handle: H)

  /** A UUIDMocker. `hasDelegate` says whether a marker's generator was
      given to delegate to; `subs` holds the sub-mockers created so far,
      keyed by the function they were registered for. */
  datatype Mocker<H> = Mocker(
    nodeId: Option<string>,
    generator: Option<Generator>,
    hasDelegate: bool,
    onExhausted: ExhaustionBehavior,
    ignoreExtra: seq<string>,
    ignoreDefaults: bool,
    ignoreList: seq<string>,
    tracker: Tracker,
    subs: map<string, Registered<H>>)

  /** `UUIDMocker.__init__`: no generator, the configured policy, the
      ignore list composed as the freezer composes it, nothing tracked and
      no sub-mockers. */
  function NewMocker<H>(config: PytestUUIDConfig, nodeId: Option<string>, ignore: seq<string>,
                        ignoreDefaults: bool, hasDelegate: bool): (m: Mocker<H>)
    ensures m.generator.None? && m.tracker == EmptyTracker && m.subs == map[]
    ensures m.onExhausted == config.defaultExhaustionBehavior
    ensures m.ignoreList == ComposeIgnoreList(config, ignore, ignoreDefaults)
    ensures m.nodeId == nodeId && m.ignoreExtra == ignore && m.ignoreDefaults == ignoreDefaults
    ensures m.hasDelegate == hasDelegate
  {
    Mocker(nodeId, None, hasDelegate, config.defaultExhaustionBehavior, ignore, ignoreDefaults,
           ComposeIgnoreList(config, ignore, ignoreDefaults), EmptyTracker, map[])
  }

  /** `set`. */
  function MockerSet<H>(m: Mocker<H>, uuids: seq<Uuid>, fallback: Rng): (r: Mocker<H>)
    ensures r == m.(generator := SetUuids(m.generator, m.onExhausted, uuids, fallback))
    ensures |uuids| == 0 ==> r == m
  {
    m.(generator := SetUuids(m.generator, m.onExhausted, uuids, fallback))
  }

  /** `set_default`: every later call returns the UUID. */
  function MockerSetDefault<H>(m: Mocker<H>, u: Uuid): (r: Mocker<H>)
    ensures r == m.(generator := r.generator)
    ensures r.generator.Some? && forall i: nat, env: Env :: NthOutput(r.generator.value, i, env) == Ok(u)
  {
    forall i: nat, env: Env ensures NthOutput(Static(u), i, env) == Ok(u) {
      StaticRun(u, i, env);
    }
    m.(generator := Some(Static(u)))
  }

  /** `set_seed`: a seeded v4 generator. */
  function MockerSetSeed<H>(m: Mocker<H>, seed: SeedArg): (r: Mocker<H>)
    ensures r == m.(generator := Some(NewSeeded(V4, seed, None, None)))
  {
    m.(generator := Some(NewSeeded(V4, seed, None, None)))
  }

  const NodeIdMissingMessage := "Node ID not available. This method requires the fixture to have access to the pytest request object."

  /** `set_seed_from_node`: without a node id a RuntimeError and no
      change; otherwise a seeded v4 generator on the seed derived from the
      node id's MD5 digest. */
  function MockerSetSeedFromNode<H>(m: Mocker<H>, md5: string -> HexDigest): (r: Result<Mocker<H>>)
    ensures r.Err? <==> m.nodeId.None?
    ensures r.Err? ==> r.error == RuntimeError(NodeIdMissingMessage)
    ensures r.Ok? ==> r.value == MockerSetSeed(m, IntSeed(NodeSeed(md5(m.nodeId.value))))
  {
    match m.nodeId
    case None => Err(RuntimeError(NodeIdMissingMessage))
    case Some(id) => Ok(MockerSetSeed(m, IntSeed(NodeSeed(md5(id)))))
  }

  /** `set_exhaustion_behavior`: an unknown name is a ValueError before
      anything changes; otherwise the policy is stored for later `set`
      calls and handed to the current generator if it is a sequence. */
  function MockerSetExhaustionBehavior<H>(m: Mocker<H>, arg: BehaviorArg): (r: Result<Mocker<H>>)
    ensures r.Err? <==> ResolveBehavior(arg).Err?
    ensures r.Err? ==> r.error.ValueError?
    ensures r.Ok? ==> var b := ResolveBehavior(arg).value;
      r.value == m.(onExhausted := b, generator := RetargetBehavior(m.generator, b))
  {
    match ResolveBehavior(arg)
    case Err(e) => Err(e)
    case Ok(b) => Ok(m.(onExhausted := b, generator := RetargetBehavior(m.generator, b)))
  }

  /** After `set_exhaustion_behavior("raise")`, `set(u)` installs a
      sequence: the first call returns u and the second raises. */
  lemma RaiseThenSetSingle<H>(m: Mocker<H>, u: Uuid, fallback: Rng, env: Env)
    ensures var m1 := MockerSetExhaustionBehavior(m, BehaviorString("raise"));
      m1.Ok? &&
      var g := MockerSet(m1.value, [u], fallback).generator.value;
      NthOutput(g, 0, env) == Ok(u) && NthOutput(g, 1, env) == Err(Exhausted(1))
  {
    var m1 := MockerSetExhaustionBehavior(m, BehaviorString("raise")).value;
    SetUuidsRaises(m1.generator, [u], fallback, 0, env);
    SetUuidsRaises(m1.generator, [u], fallback, 1, env);
  }

  /** `set_ignore` as written: the configured list is always put in front
      of the prefixes, even for a mocker created with
      `ignore_defaults=False`. */
  function SetIgnoreAsWritten<H>(m: Mocker<H>, config: PytestUUIDConfig, prefixes: seq<string>): (r: Mocker<H>)
    ensures r == m.(ignoreExtra := prefixes, ignoreList := GetIgnoreList(config) + prefixes)
  {
    m.(ignoreExtra := prefixes, ignoreList := GetIgnoreList(config) + prefixes)
  }

  /** `set_ignore` composing the list as `__init__` and `reset` do. */
  function SetIgnore<H>(m: Mocker<H>, config: PytestUUIDConfig, prefixes: seq<string>): (r: Mocker<H>)
    ensures r == m.(ignoreExtra := prefixes, ignoreList := ComposeIgnoreList(config, prefixes, m.ignoreDefaults))
  {
    m.(ignoreExtra := prefixes, ignoreList := ComposeIgnoreList(config, prefixes, m.ignoreDefaults))
  }

  /** `reset`: no generator, nothing tracked, the ignore list recomposed
      from the extra prefixes and `ignore_defaults`. */
  function ResetMocker<H>(m: Mocker<H>, config: PytestUUIDConfig): (r: Mocker<H>)
    ensures r.generator.None? && r.tracker == EmptyTracker
    ensures r.ignoreList == ComposeIgnoreList(config, m.ignoreExtra, m.ignoreDefaults)
    ensures r == m.(generator := None, tracker := EmptyTracker, ignoreList := r.ignoreList)
  {
    m.(generator := None, tracker := ResetTracking(m.tracker),
       ignoreList := ComposeIgnoreList(config, m.ignoreExtra, m.ignoreDefaults))
  }

  /** `reset` brings a mocker back to the state `__init__` gives it, but
      keeps its exhaustion policy and its sub-mockers. */
  lemma ResetMockerIsFresh<H>(m: Mocker<H>, config: PytestUUIDConfig)
    ensures ResetMocker(m, config) ==
      NewMocker<H>(config, m.nodeId, m.ignoreExtra, m.ignoreDefaults, m.hasDelegate).(onExhausted := m.onExhausted, subs := m.subs)
  {
  }

  /** With the corrected `set_ignore`, a later `reset` keeps the list it
      set. */
  lemma ResetKeepsSetIgnore<H>(m: Mocker<H>, config: PytestUUIDConfig, prefixes: seq<string>)
    ensures ResetMocker(SetIgnore(m, config, prefixes), config).ignoreList == SetIgnore(m, config, prefixes).ignoreList
  {
  }

  /** As written, on a mocker created with `ignore_defaults=False` under a
      configuration that ignores some package, `set_ignore` ignores that
      package and a later `reset` stops ignoring it. */
  lemma SetIgnoreAsWrittenUndoneByReset<H>(m: Mocker<H>, config: PytestUUIDConfig, prefixes: seq<string>)
    requires !m.ignoreDefaults && |GetIgnoreList(config)| > 0
    ensures var s := SetIgnoreAsWritten(m, config, prefixes);
      ResetMocker(s, config).ignoreList != s.ignoreList
  {
    var s := SetIgnoreAsWritten(m, config, prefixes);
    assert |s.ignoreList| > |prefixes|;
  }

  /** `seed`: reported only for an integer-seeded v4 generator (the
      SeededUUIDGenerator class). */
  function MockerSeed<H>(m: Mocker<H>): (r: Option<int>)
    ensures r.Some? <==> m.generator.Some? && m.generator.value.Seeded? && m.generator.value.version == V4 && m.generator.value.seed.Some?
    ensures r.Some? ==> r == m.generator.value.seed
  {
    SeedProperty(m.generator)
  }

  /** `spy`: drop the generator; calls go to the delegate or the original. */
  function MockerSpy<H>(m: Mocker<H>): (r: Mocker<H>)
    ensures r == m.(generator := None)
  {
    m.(generator := None)
  }

  /** The seed property follows the seeding calls: an integer seed is
      reported, a Random object is not, the node seed is a 32-bit value,
      and static values or spy mode report none. */
  lemma MockerSeedReported<H>(m: Mocker<H>, s: int, rng: Rng, md5: string -> HexDigest, u: Uuid)
    ensures MockerSeed(MockerSetSeed(m, IntSeed(s))) == Some(s)
    ensures MockerSeed(MockerSetSeed(m, RandomObject(rng))).None?
    ensures m.nodeId.Some? ==>
      MockerSeed(MockerSetSeedFromNode(m, md5).value) == Some(NodeSeed(md5(m.nodeId.value)) as int) &&
      MockerSeed(MockerSetSeedFromNode(m, md5).value).value < 0x1_0000_0000
    ensures MockerSeed(MockerSetDefault(m, u)).None? && MockerSeed(MockerSpy(m)).None?
  {
  }

  /** The outcome of a mocker call. */
  datatype MockerCalled<H> = MockerCalled(out: Result<Uuid>, mocker: Mocker<H>)

  /** `UUIDMocker.__call__`, recorded as a uuid4 call. `frames` are the
      module names of the stack from the proxy's frame outwards. */
  function MockerCall<H>(m: Mocker<H>, frames: seq<string>, caller: CallerInfo, env: Env, delegated: Result<Uuid>): (r: MockerCalled<H>)
    ensures r.mocker == m.(generator := r.mocker.generator, tracker := r.mocker.tracker)
    ensures var a := Answer(ChooseSource(m.ignoreList, frames, m.generator.Some?, m.hasDelegate),
                            m.generator, m.tracker, caller, env, delegated, 4);
      r.out == a.out && r.mocker.generator == a.generator && r.mocker.tracker == a.tracker
  {
    var a := Answer(ChooseSource(m.ignoreList, frames, m.generator.Some?, m.hasDelegate),
                    m.generator, m.tracker, caller, env, delegated, 4);
    MockerCalled(a.out, m.(generator := a.generator, tracker := a.tracker))
  }

  /** In spy mode a call is answered by the delegate when there is one
      (and counts as mocked), otherwise by the original function (and
      counts as real); an ignored caller always gets the original. */
  lemma SpyModeAnswers<H>(m: Mocker<H>, frames: seq<string>, caller: CallerInfo, env: Env, delegated: Result<Uuid>)
    ensures var r := MockerCall(MockerSpy(m), frames, caller, env, delegated);
      var direct := !StackIgnored(frames, m.ignoreList) && m.hasDelegate;
      && r.out == (if direct then delegated else env.original)
      && r.mocker.generator.None?
      && (r.out.Ok? ==> r.mocker.tracker == RecordCall(m.tracker, r.out.value, direct, caller, 4))
  {
  }

  /** The mocker after one call per slot, with the same stack each time. */
  function MockerAfter<H>(m: Mocker<H>, frames: seq<string>, caller: CallerInfo, envs: seq<Env>, delegated: Result<Uuid>): (r: Mocker<H>)
    ensures r.ignoreList == m.ignoreList && r.hasDelegate == m.hasDelegate
    decreases |envs|
  {
    if |envs| == 0 then m
    else MockerAfter(MockerCall(m, frames, caller, envs[0], delegated).mocker, frames, caller, envs[1..], delegated)
  }

  /** Calls from a stack that is not ignored step the mocker's generator
      once each, whatever they return. */
  lemma {:induction false} MockerRunAdvances<H>(m: Mocker<H>, frames: seq<string>, caller: CallerInfo, envs: seq<Env>, delegated: Result<Uuid>)
    requires m.generator.Some? && !StackIgnored(frames, m.ignoreList)
    ensures MockerAfter(m, frames, caller, envs, delegated).generator == Some(After(m.generator.value, |envs|))
    decreases |envs|
  {
    if |envs| > 0 {
      var g := m.generator.value;
      var m1 := MockerCall(m, frames, caller, envs[0], delegated).mocker;
      assert m1.generator == Some(Advance(g));
      MockerRunAdvances(m1, frames, caller, envs[1..], delegated);
      AfterAdvance(g, |envs| - 1);
    }
  }

  /** What call number k (0-based) of a run returns. */
  function MockerNthOutput<H>(m: Mocker<H>, frames: seq<string>, caller: CallerInfo, envs: seq<Env>, delegated: Result<Uuid>, k: nat): Result<Uuid>
    requires k < |envs|
  {
    MockerCall(MockerAfter(m, frames, caller, envs[..k], delegated), frames, caller, envs[k], delegated).out
  }

  /** After `set(*uuids)` under CYCLE, call k of any run from a stack that
      is not ignored returns preset k mod n. */
  lemma SetThenCallsCycle<H>(m: Mocker<H>, uuids: seq<Uuid>, fallback: Rng, frames: seq<string>,
                             caller: CallerInfo, envs: seq<Env>, delegated: Result<Uuid>, k: nat)
    requires m.onExhausted == Cycle && |uuids| > 0 && !StackIgnored(frames, m.ignoreList) && k < |envs|
    ensures MockerNthOutput(MockerSet(m, uuids, fallback), frames, caller, envs, delegated, k) == Ok(uuids[k % |uuids|])
  {
    var m1 := MockerSet(m, uuids, fallback);
    MockerRunAdvances(m1, frames, caller, envs[..k], delegated);
    SetUuidsCycles(m.generator, uuids, fallback, k, envs[k]);
  }

  // ---------------------------------------------------------------------
  // Sub-mockers

  /** A list of names without repeats. */
  type NameList = names: seq<string> | forall i, j :: 0 <= i < j < |names| ==> names[i] != names[j]

  /** The sub-mocker properties, in the order `_cleanup_sub_mockers`
      visits them. */
  const SubNames: NameList := ["uuid1", "uuid3", "uuid5", "uuid6", "uuid7", "uuid8"]

  /** The sub-mocker a first access creates: a version mocker sharing the
      node id and ignore settings, or a namespace spy. */
  function NewSub<H>(m: Mocker<H>, config: PytestUUIDConfig, hasExtended: bool, name: string): (r: Result<Sub>)
    requires name in SubNames
    ensures (name == "uuid3" || name == "uuid5") ==> r.Ok? && r.value.NamespaceSub?
    ensures name == "uuid1" ==> r.Ok?
    ensures r.Err? <==> (name == "uuid6" || name == "uuid7" || name == "uuid8") && !hasExtended
    ensures r.Ok? && r.value.VersionSub? ==>
      && MockedFuncName(r.value.mocker.version) == name
      && r.value.mocker.nodeId == m.nodeId
      && r.value.mocker.ignoreList == ComposeIgnoreList(config, m.ignoreExtra, m.ignoreDefaults)
  {
    if name == "uuid3" then Ok(NamespaceSub(NewNamespaceSpy(3).value))
    else if name == "uuid5" then Ok(NamespaceSub(NewNamespaceSpy(5).value))
    else
      var v := if name == "uuid1" then Mock1 else if name == "uuid6" then Mock6 else if name == "uuid7" then Mock7 else Mock8;
      match NewVersionMocker(config, v, hasExtended, m.nodeId, m.ignoreExtra, m.ignoreDefaults)
      case Err(e) => Err(e)
      case Ok(vm) => Ok(VersionSub(vm))
  }

  /** The outcome of reading a sub-mocker property. */
  datatype Accessed<H> = Accessed(mocker: Mocker<H>, reg: Registry<H>, sub: Result<Sub>)

  /** The `uuid1` … `uuid8` properties: the existing sub-mocker, or on
      first access a new one registered with the proxy under `handle`. A
      constructor that raises leaves mocker and proxy as they were. */
  function AccessSub<H>(m: Mocker<H>, reg: Registry<H>, config: PytestUUIDConfig, hasExtended: bool,
                        name: string, handle: H): (r: Accessed<H>)
    requires Valid(reg) && name in SubNames
    ensures Valid(r.reg)
    ensures name in m.subs ==> r == Accessed(m, reg, Ok(m.subs[name].sub))
    ensures name !in m.subs && NewSub(m, config, hasExtended, name).Err? ==>
      r == Accessed(m, reg, NewSub(m, config, hasExtended, name))
    ensures name !in m.subs && NewSub(m, config, hasExtended, name).Ok? ==>
      var s := NewSub(m, config, hasExtended, name).value;
      && r.sub == Ok(s)
      && r.mocker == m.(subs := m.subs[name := Registered(s, handle)])
      && r.reg == SetGenerator(reg, handle, name).value.reg
      && CurrentGenerator(r.reg, name) == Some(handle)
  {
    if name in m.subs then Accessed(m, reg, Ok(m.subs[name].sub))
    else
      match NewSub(m, config, hasExtended, name)
      case Err(e) => Accessed(m, reg, Err(e))
      case Ok(s) =>
        var p := SetGenerator(reg, handle, name).value;
        assert p.reg.stacks[name] == reg.stacks[name] + [handle];
        Accessed(m.(subs := m.subs[name := Registered(s, handle)]), p.reg, Ok(s))
  }

  /** Reset the token of each sub-mocker in `names` that was created. */
  function CleanupFrom<H(==)>(subs: map<string, Registered<H>>, names: NameList, reg: Registry<H>): (r: Registry<H>)
    requires Valid(reg)
    ensures Valid(r) && r.installed == reg.installed && r.originals == reg.originals
    ensures r.stacks.Keys == reg.stacks.Keys
    ensures forall n :: n in reg.stacks && (n !in names || n !in subs) ==> r.stacks[n] == reg.stacks[n]
    ensures forall n :: n in reg.stacks && n in names && n in subs ==>
      r.stacks[n] == ResetStack(reg.stacks[n], subs[n].handle)
    decreases |names|
  {
    if |names| == 0 then reg
    else
      var n0 := names[0];
      var reg1 := if n0 in subs then ResetGenerator(reg, Token(subs[n0].handle, n0)) else reg;
      assert forall n :: n in names[1..] ==> n != n0;
      assert forall n :: n in reg.stacks && n != n0 ==> reg1.stacks[n] == reg.stacks[n];
      CleanupFrom(subs, names[1..], reg1)
  }

  /** `_cleanup_sub_mockers`: hand back every sub-mocker's token and
      forget the sub-mockers. Stacks of other functions are untouched. */
  function CleanupSubs<H(==)>(m: Mocker<H>, reg: Registry<H>): (r: (Mocker<H>, Registry<H>))
    requires Valid(reg)
    ensures r.0 == m.(subs := map[])
    ensures Valid(r.1) && r.1.installed == reg.installed && r.1.originals == reg.originals
    ensures r.1.stacks.Keys == reg.stacks.Keys
    ensures forall n :: n in reg.stacks && (n !in SubNames || n !in m.subs) ==> r.1.stacks[n] == reg.stacks[n]
    ensures forall n :: n in reg.stacks && n in SubNames && n in m.subs ==>
      r.1.stacks[n] == ResetStack(reg.stacks[n], m.subs[n].handle)
  {
    (m.(subs := map[]), CleanupFrom(m.subs, SubNames, reg))
  }

  /** With a single sub-mocker, cleaning up is one reset with its handle
      when its name is in the list, and nothing otherwise. */
  lemma {:induction false} CleanupSingle<H>(names: NameList, reg: Registry<H>, name: string, r: Registered<H>)
    requires Valid(reg)
    ensures CleanupFrom(map[name := r], names, reg) ==
      if name in names then ResetGenerator(reg, Token(r.handle, name)) else reg
    decreases |names|
  {
    if |names| > 0 {
      var reg1 := if names[0] == name then ResetGenerator(reg, Token(r.handle, name)) else reg;
      assert CleanupFrom(map[name := r], names, reg) == CleanupFrom(map[name := r], names[1..], reg1);
      CleanupSingle(names[1..], reg1, name, r);
      if names[0] == name {
        assert name !in names[1..];
      } else {
        assert name in names <==> name in names[1..];
      }
    }
  }

  /** Cleaning up after one registration on a proxy that had none of
      the mocker's sub-mockers undoes that registration. */
  lemma PushThenCleanup<H>(reg: Registry<H>, name: string, s: Sub, handle: H)
    requires Valid(reg) && name in SubNames
    ensures CleanupFrom(map[name := Registered(s, handle)], SubNames, SetGenerator(reg, handle, name).value.reg) == reg
  {
    SetResetRoundTrip(reg, handle, name);
    CleanupSingle(SubNames, SetGenerator(reg, handle, name).value.reg, name, Registered(s, handle));
  }

  /** With no sub-mockers, cleaning up changes nothing. */
  lemma NothingToCleanup<H>(reg: Registry<H>)
    requires Valid(reg)
    ensures CleanupFrom(map[], SubNames, reg) == reg
  {
    var c := CleanupFrom(map[], SubNames, reg);
    assert c.stacks == reg.stacks;
  }

  /** Reading a sub-mocker property of a fresh mocker and cleaning up
      afterwards leaves the proxy as it was. */
  lemma AccessThenCleanup<H>(m: Mocker<H>, reg: Registry<H>, config: PytestUUIDConfig, hasExtended: bool,
                             name: string, handle: H)
    requires Valid(reg) && name in SubNames && m.subs == map[]
    ensures var a := AccessSub(m, reg, config, hasExtended, name, handle);
      CleanupSubs(a.mocker, a.reg).1 == reg && CleanupSubs(a.mocker, a.reg).0.subs == map[]
  {
    var a := AccessSub(m, reg, config, hasExtended, name, handle);
    var ns := NewSub(m, config, hasExtended, name);
    if ns.Ok? {
      var p := SetGenerator(reg, handle, name).value;
      assert a.mocker.subs == map[name := Registered(ns.value, handle)] && a.reg == p.reg;
      PushThenCleanup(reg, name, ns.value, handle);
    } else {
      assert a.mocker == m && a.reg == reg;
      NothingToCleanup(reg);
    }
  }

  // ---------------------------------------------------------------------
  // UUIDSpy

  /** A UUIDSpy: only its tracking. */
  datatype Spy = Spy(tracker: Tracker)

  /** `UUIDSpy.__call__`: the original uuid4 answers and the call is
      recorded as real. */
  function SpyCall(s: Spy, caller: CallerInfo, env: Env): (r: (Result<Uuid>, Spy))
    ensures r.0 == env.original
    ensures r.0.Err? ==> r.1 == s
    ensures r.0.Ok? ==> r.1.tracker == RecordCall(s.tracker, r.0.value, false, caller, 4)
  {
    match env.original
    case Err(e) => (Err(e), s)
    case Ok(u) => (Ok(u), Spy(RecordCall(s.tracker, u, false, caller, 4)))
  }

  /** A spy never records a mocked call: its real count is its call
      count. */
  lemma SpyOnlyReal(s: Spy, caller: CallerInfo, env: Env)
    requires Consistent(s.tracker) && MockedCount(s.tracker) == 0
    ensures var t := SpyCall(s, caller, env).1.tracker;
      Consistent(t) && MockedCount(t) == 0 && RealCount(t) == t.callCount
  {
    var t := SpyCall(s, caller, env).1.tracker;
    if env.original.Ok? {
      var c := UUIDCall(env.original.value, false, 4, caller);
      assert t.calls == s.tracker.calls + [c];
      assert t.calls[..|t.calls| - 1] == s.tracker.calls;
    }
    CountsSplitCalls(t);
  }

  /** `UUIDSpy.reset`. */
  function ResetSpy(s: Spy): (r: Spy)
    ensures r.tracker == EmptyTracker
  {
    Spy(ResetTracking(s.tracker))
  }

  // ---------------------------------------------------------------------
  // UUID1Mocker, UUID6Mocker, UUID7Mocker, UUID8Mocker

  datatype MockedVersion = Mock1 | Mock6 | Mock7 | Mock8

  function MockedFuncName(v: MockedVersion): string
  {
    match v
    case Mock1 => "uuid1"
    case Mock6 => "uuid6"
    case Mock7 => "uuid7"
    case Mock8 => "uuid8"
  }

  function MockedSeededVersion(v: MockedVersion): SeededVersion
  {
    match v
    case Mock1 => V1
    case Mock6 => V6
    case Mock7 => V7
    case Mock8 => V8
  }

  /** The digit recorded as `uuid_version`, the one in the function name. */
  function MockedNumber(v: MockedVersion): (n: int)
    ensures IsFuncName(MockedFuncName(v)) && n == VersionNumber(MockedFuncName(v))
    ensures n as bv128 == VersionBits(MockedSeededVersion(v))
  {
    match v
    case Mock1 => 1
    case Mock6 => 6
    case Mock7 => 7
    case Mock8 => 8
  }

  /** Only the uuid1 and uuid6 mockers have `set_node` and `set_clock_seq`. */
  predicate TakesNode(v: MockedVersion)
  {
    v == Mock1 || v == Mock6
  }

  /** A UUID1/6/7/8Mocker. The fixed node and clock sequence are passed to
      the original function; they stay None for uuid7 and uuid8. */
  datatype VersionMocker = VersionMocker(
    version: MockedVersion,
    nodeId: Option<string>,
    generator: Option<Generator>,
    onExhausted: ExhaustionBehavior,
    fixedNode: Option<int>,
    fixedClockSeq: Option<int>,
    ignoreExtra: seq<string>,
    ignoreDefaults: bool,
    ignoreList: seq<string>,
    tracker: Tracker)

  /** `require_uuid6_7_8`: a RuntimeError unless the platform has the
      extended functions. */
  function RequireExtended(funcName: string, hasExtended: bool): (r: Option<Error>)
    ensures r.None? <==> hasExtended
    ensures r.Some? ==> r.value == RuntimeError(funcName + " mocking requires Python 3.14+ or the 'uuid6' package. Install with: pip install uuid6")
  {
    if hasExtended then None
    else Some(RuntimeError(funcName + " mocking requires Python 3.14+ or the 'uuid6' package. Install with: pip install uuid6"))
  }

  /** The `__init__`s: the uuid6, uuid7 and uuid8 mockers first require
      the extended functions; then as UUIDMocker, with no fixed node or
      clock sequence. */
  function NewVersionMocker(config: PytestUUIDConfig, version: MockedVersion, hasExtended: bool, nodeId: Option<string>,
                            ignore: seq<string>, ignoreDefaults: bool): (r: Result<VersionMocker>)
    ensures r.Err? <==> version != Mock1 && !hasExtended
    ensures r.Err? ==> r == Err(RequireExtended(MockedFuncName(version), hasExtended).value)
    ensures r.Ok? ==>
      && r.value.version == version && r.value.nodeId == nodeId
      && r.value.generator.None? && r.value.tracker == EmptyTracker
      && r.value.fixedNode.None? && r.value.fixedClockSeq.None?
      && r.value.onExhausted == config.defaultExhaustionBehavior
      && r.value.ignoreList == ComposeIgnoreList(config, ignore, ignoreDefaults)
      && r.value.ignoreExtra == ignore && r.value.ignoreDefaults == ignoreDefaults
  {
    var check := if version == Mock1 then None else RequireExtended(MockedFuncName(version), hasExtended);
    match check
    case Some(e) => Err(e)
    case None =>
      Ok(VersionMocker(version, nodeId, None, config.defaultExhaustionBehavior, None, None, ignore, ignoreDefaults,
                       ComposeIgnoreList(config, ignore, ignoreDefaults), EmptyTracker))
  }

  /** `set`, as UUIDMocker's. */
  function VersionSet(m: VersionMocker, uuids: seq<Uuid>, fallback: Rng): (r: VersionMocker)
    ensures r == m.(generator := SetUuids(m.generator, m.onExhausted, uuids, fallback))
  {
    m.(generator := SetUuids(m.generator, m.onExhausted, uuids, fallback))
  }

  /** `set_seed` as written: every version mocker installs the seeded v4
      generator. */
  function VersionSetSeedAsWritten(m: VersionMocker, seed: SeedArg): (r: VersionMocker)
    ensures r == m.(generator := Some(NewSeeded(V4, seed, None, None)))
  {
    m.(generator := Some(NewSeeded(V4, seed, None, None)))
  }

  /** As written, a seeded uuid1 (or uuid6, uuid7, uuid8) mocker answers
      with version-4 UUIDs, never with UUIDs of its own version. */
  lemma SetSeedWrongVersion(m: VersionMocker, seed: SeedArg, i: nat, env: Env)
    ensures var g := VersionSetSeedAsWritten(m, seed).generator.value;
      var out := NthOutput(g, i, env);
      out.Ok? && WellFormed(out.value, 4) && !WellFormed(out.value, MockedNumber(m.version) as bv128)
  {
    var g := NewSeeded(V4, seed, None, None);
    SeededRun(g, i);
  }

  /** `set_seed` installing the seeded generator of the mocker's own
      version, with its fixed node and clock sequence where it has them. */
  function VersionSetSeed(m: VersionMocker, seed: SeedArg): (r: VersionMocker)
    ensures r.generator.Some? && r.generator.value.Seeded?
    ensures r.generator.value.version == MockedSeededVersion(m.version)
    ensures r == m.(generator := r.generator)
    ensures TakesNode(m.version) ==>
      r.generator.value.node == m.fixedNode && r.generator.value.clockSeq == m.fixedClockSeq
    ensures r.generator.value == NewSeeded(MockedSeededVersion(m.version), seed, r.generator.value.node, r.generator.value.clockSeq)
  {
    var node := if TakesNode(m.version) then m.fixedNode else None;
    var clockSeq := if TakesNode(m.version) then m.fixedClockSeq else None;
    m.(generator := Some(NewSeeded(MockedSeededVersion(m.version), seed, node, clockSeq)))
  }

  /** With the corrected `set_seed`, every answer that is not an error is
      a UUID of the mocker's version (unless a uuid6 mocker's fixed node
      overflows 48 bits, the v6 builder's own defect), and the corrected
      `seed` reports the seed. */
  lemma SetSeedRightVersion(m: VersionMocker, s: int, i: nat, env: Env)
    ensures var g := VersionSetSeed(m, IntSeed(s)).generator.value;
      var out := NthOutput(g, i, env);
      (out.Ok? && !NodeOverflows(MockedSeededVersion(m.version), m.fixedNode) ==>
         WellFormed(out.value, MockedNumber(m.version) as bv128)) &&
      VersionSeed(VersionSetSeed(m, IntSeed(s))) == Some(s)
  {
    var g := VersionSetSeed(m, IntSeed(s)).generator.value;
    SeededRun(g, i);
  }

  /** `set_node` (uuid1 and uuid6 mockers). */
  function SetNode(m: VersionMocker, node: int): (r: VersionMocker)
    requires TakesNode(m.version)
    ensures r == m.(fixedNode := Some(node))
  {
    m.(fixedNode := Some(node))
  }

  /** `set_clock_seq` (uuid1 and uuid6 mockers). */
  function SetClockSeq(m: VersionMocker, clockSeq: int): (r: VersionMocker)
    requires TakesNode(m.version)
    ensures r == m.(fixedClockSeq := Some(clockSeq))
  {
    m.(fixedClockSeq := Some(clockSeq))
  }

  /** `set_exhaustion_behavior`, as UUIDMocker's. */
  function VersionSetExhaustionBehavior(m: VersionMocker, arg: BehaviorArg): (r: Result<VersionMocker>)
    ensures r.Err? <==> ResolveBehavior(arg).Err?
    ensures r.Err? ==> r.error.ValueError?
    ensures r.Ok? ==> var b := ResolveBehavior(arg).value;
      r.value == m.(onExhausted := b, generator := RetargetBehavior(m.generator, b))
  {
    match ResolveBehavior(arg)
    case Err(e) => Err(e)
    case Ok(b) => Ok(m.(onExhausted := b, generator := RetargetBehavior(m.generator, b)))
  }

  /** `reset`: no generator, no fixed node or clock sequence, nothing
      tracked; unlike UUIDMocker's, the ignore list is kept. */
  function ResetVersionMocker(m: VersionMocker): (r: VersionMocker)
    ensures r.generator.None? && r.fixedNode.None? && r.fixedClockSeq.None? && r.tracker == EmptyTracker
    ensures r.ignoreList == m.ignoreList && r.onExhausted == m.onExhausted && r.version == m.version
  {
    m.(generator := None, fixedNode := None, fixedClockSeq := None, tracker := ResetTracking(m.tracker))
  }

  /** `reset` returns a mocker to its constructed state, policy aside. */
  lemma ResetVersionMockerIsFresh(m: VersionMocker, config: PytestUUIDConfig, hasExtended: bool)
    requires m.ignoreList == ComposeIgnoreList(config, m.ignoreExtra, m.ignoreDefaults)
    requires m.version == Mock1 || hasExtended
    ensures NewVersionMocker(config, m.version, hasExtended, m.nodeId, m.ignoreExtra, m.ignoreDefaults).Ok?
    ensures ResetVersionMocker(m) ==
      NewVersionMocker(config, m.version, hasExtended, m.nodeId, m.ignoreExtra, m.ignoreDefaults).value.(onExhausted := m.onExhausted)
  {
  }

  /** The version mockers' `seed` property as written: the v4 class only,
      so a seeded generator of the mocker's own version is never reported. */
  function VersionSeedAsWritten(m: VersionMocker): (r: Option<int>)
    ensures r.Some? <==> m.generator.Some? && m.generator.value.Seeded? && m.generator.value.version == V4 && m.generator.value.seed.Some?
    ensures r.Some? ==> r == m.generator.value.seed
    ensures m.generator.Some? && m.generator.value.Seeded? && m.generator.value.version == MockedSeededVersion(m.version) ==> r.None?
  {
    SeedProperty(m.generator)
  }

  /** The `seed` property reporting the seed of any seeded generator. */
  function VersionSeed(m: VersionMocker): (r: Option<int>)
    ensures r.Some? ==> m.generator.Some? && m.generator.value.Seeded? && m.generator.value.seed == r
    ensures m.generator.Some? && m.generator.value.Seeded? ==> r == m.generator.value.seed
  {
    if m.generator.Some? then SeedOf(m.generator.value) else None
  }

  /** `spy`. */
  function VersionSpy(m: VersionMocker): (r: VersionMocker)
    ensures r == m.(generator := None)
  {
    m.(generator := None)
  }

  /** `__call__` of a version mocker: ignored frames and the absence of a
      generator both go to the original function, recorded as real (its
      outcome is `env.original`; the fixed node and clock sequence the
      source passes to it are not modelled); otherwise the generator answers,
      recorded as mocked. Every record carries the mocker's version. */
  function VersionCall(m: VersionMocker, frames: seq<string>, caller: CallerInfo, env: Env): (r: (Result<Uuid>, VersionMocker))
    ensures r.1 == m.(generator := r.1.generator, tracker := r.1.tracker)
    ensures var a := Answer(ChooseSource(m.ignoreList, frames, m.generator.Some?, false),
                            m.generator, m.tracker, caller, env, Err(RuntimeError("")), MockedNumber(m.version));
      r.0 == a.out && r.1.generator == a.generator && r.1.tracker == a.tracker
    ensures r.0.Ok? ==> r.1.tracker.calls[|r.1.tracker.calls| - 1].uuidVersion == MockedNumber(m.version)
  {
    var a := Answer(ChooseSource(m.ignoreList, frames, m.generator.Some?, false),
                    m.generator, m.tracker, caller, env, Err(RuntimeError("")), MockedNumber(m.version));
    (a.out, m.(generator := a.generator, tracker := a.tracker))
  }

  /** A uuid1 or uuid6 mocker given a 48-bit node and a clock sequence,
      then seeded with the corrected `set_seed`, builds its UUIDs of its
      own version on that node and clock sequence. */
  lemma SeededNodeReachesOutput(m: VersionMocker, node: int, clockSeq: int, s: int, frames: seq<string>, caller: CallerInfo, env: Env)
    requires TakesNode(m.version) && 0 <= node < 0x1_0000_0000_0000
    requires !StackIgnored(frames, m.ignoreList)
    ensures var out := VersionCall(VersionSetSeed(SetClockSeq(SetNode(m, node), clockSeq), IntSeed(s)), frames, caller, env).0;
      && out.Ok? && WellFormed(out.value, MockedNumber(m.version) as bv128)
      && NodeField(out.value) == NodeBits(node) && ClockSeqField(out.value) == Low14(clockSeq)
  {
    var g := VersionSetSeed(SetClockSeq(SetNode(m, node), clockSeq), IntSeed(s)).generator.value;
    assert g.node == Some(node) && g.clockSeq == Some(clockSeq);
    if m.version == Mock1 {
      var r := GenerateV1FromRandom(g.rng, g.node, g.clockSeq, env.stream);
      assert Output(g, env) == r.out;
    } else {
      var r := GenerateV6FromRandomAsWritten(g.rng, g.node, g.clockSeq, env.stream);
      assert Output(g, env) == r.out;
    }
  }

  /** In spy mode a version mocker answers every call from the original
      function and records it as real. */
  lemma VersionSpyAnswersReal(m: VersionMocker, frames: seq<string>, caller: CallerInfo, env: Env)
    ensures var r := VersionCall(VersionSpy(m), frames, caller, env);
      && r.0 == env.original && r.1.generator.None?
      && (r.0.Ok? ==> r.1.tracker == RecordCall(m.tracker, r.0.value, false, caller, MockedNumber(m.version)))
      && (r.0.Err? ==> r.1.tracker == m.tracker)
  {
  }

  /** The version mocker after one call per slot, with the same stack. */
  function VersionAfter(m: VersionMocker, frames: seq<string>, caller: CallerInfo, envs: seq<Env>): (r: VersionMocker)
    ensures r.ignoreList == m.ignoreList && r.version == m.version
    decreases |envs|
  {
    if |envs| == 0 then m
    else VersionAfter(VersionCall(m, frames, caller, envs[0]).1, frames, caller, envs[1..])
  }

  /** One call from a stack that is not ignored steps the generator once
      and keeps everything but the generator and tracker. */
  lemma VersionCallAdvances(m: VersionMocker, frames: seq<string>, caller: CallerInfo, env: Env)
    requires m.generator.Some? && !StackIgnored(frames, m.ignoreList)
    ensures var m1 := VersionCall(m, frames, caller, env).1;
      m1.generator == Some(Advance(m.generator.value)) && m1.ignoreList == m.ignoreList
  {
    var src := ChooseSource(m.ignoreList, frames, true, false);
    assert src == Local;
  }

  /** Calls from a stack that is not ignored step a version mocker's
      generator once each. */
  lemma {:induction false} VersionRunAdvances(m: VersionMocker, frames: seq<string>, caller: CallerInfo, envs: seq<Env>)
    requires m.generator.Some? && !StackIgnored(frames, m.ignoreList)
    ensures VersionAfter(m, frames, caller, envs).generator == Some(After(m.generator.value, |envs|))
    decreases |envs|
  {
    if |envs| > 0 {
      var g := m.generator.value;
      var m1 := VersionCall(m, frames, caller, envs[0]).1;
      VersionCallAdvances(m, frames, caller, envs[0]);
      assert VersionAfter(m, frames, caller, envs) == VersionAfter(m1, frames, caller, envs[1..]);
      VersionRunAdvances(m1, frames, caller, envs[1..]);
      AfterAdvance(g, |envs| - 1);
    }
  }

  /** What call number k (0-based) of a version mocker's run returns. */
  function VersionNthOutput(m: VersionMocker, frames: seq<string>, caller: CallerInfo, envs: seq<Env>, k: nat): Result<Uuid>
    requires k < |envs|
  {
    VersionCall(VersionAfter(m, frames, caller, envs[..k]), frames, caller, envs[k]).0
  }

  /** After `set(*uuids)` under CYCLE, call k of a version mocker's run from
      a stack that is not ignored returns preset k mod n. */
  lemma VersionSetThenCallsCycle(m: VersionMocker, uuids: seq<Uuid>, fallback: Rng, frames: seq<string>,
                                 caller: CallerInfo, envs: seq<Env>, k: nat)
    requires m.onExhausted == Cycle && |uuids| > 0 && !StackIgnored(frames, m.ignoreList) && k < |envs|
    ensures VersionNthOutput(VersionSet(m, uuids, fallback), frames, caller, envs, k) == Ok(uuids[k % |uuids|])
  {
    var m1 := VersionSet(m, uuids, fallback);
    VersionRunAdvances(m1, frames, caller, envs[..k]);
    SetUuidsCycles(m.generator, uuids, fallback, k, envs[k]);
  }

  // ---------------------------------------------------------------------
  // NamespaceUUIDSpy

  /** A NamespaceUUIDSpy for uuid3 or uuid5. It keeps its own records
      (without the tracking mixin); `enabled` is a flag nothing reads. */
  datatype NamespaceSpy = NamespaceSpy(
    uuidVersion: int,
    callCount: nat,
    generatedUuids: seq<Uuid>,
    calls: seq<NamespaceUUIDCall>,
    enabled: bool)

  /** `NamespaceUUIDSpy.__init__`: versions other than 3 and 5 are a
      ValueError. */
  function NewNamespaceSpy(uuidVersion: int): (r: Result<NamespaceSpy>)
    ensures r.Ok? <==> uuidVersion == 3 || uuidVersion == 5
    ensures r.Err? ==> r.error.ValueError?
    ensures r.Ok? ==> r.value == NamespaceSpy(uuidVersion, 0, [], [], false)
  {
    if uuidVersion == 3 || uuidVersion == 5 then Ok(NamespaceSpy(uuidVersion, 0, [], [], false))
    else Err(ValueError("NamespaceUUIDSpy only supports uuid3 (version=3) or uuid5 (version=5)"))
  }

  /** `enable`: the flag goes up and nothing else changes. */
  function Enable(s: NamespaceSpy): (r: NamespaceSpy)
    ensures r.enabled
    ensures r.uuidVersion == s.uuidVersion && r.callCount == s.callCount
    ensures r.generatedUuids == s.generatedUuids && r.calls == s.calls
  {
    s.(enabled := true)
  }

  /** `disable`: the flag goes down and nothing else changes. */
  function Disable(s: NamespaceSpy): (r: NamespaceSpy)
    ensures !r.enabled
    ensures r.uuidVersion == s.uuidVersion && r.callCount == s.callCount
    ensures r.generatedUuids == s.generatedUuids && r.calls == s.calls
  {
    s.(enabled := false)
  }

  /** `reset`: the records go; the version and the flag stay. */
  function ResetNamespaceSpy(s: NamespaceSpy): (r: NamespaceSpy)
    ensures r.callCount == 0 && r.generatedUuids == [] && r.calls == []
    ensures r.uuidVersion == s.uuidVersion && r.enabled == s.enabled
  {
    s.(callCount := 0, generatedUuids := [], calls := [])
  }

  /** `NamespaceUUIDSpy.__call__`: `original` is the outcome of calling the
      original uuid3 or uuid5 on the namespace and name. A failure
      propagates unrecorded; otherwise the result is returned and
      recorded with its namespace, name and caller. */
  function NamespaceCall(s: NamespaceSpy, namespace: Uuid, name: string, caller: CallerInfo, original: Result<Uuid>): (r: (Result<Uuid>, NamespaceSpy))
    ensures r.0 == original
    ensures original.Err? ==> r.1 == s
    ensures original.Ok? ==>
      && r.1.calls == s.calls + [NamespaceUUIDCall(original.value, s.uuidVersion, namespace, name, caller)]
      && r.1.generatedUuids == s.generatedUuids + [original.value]
      && r.1.callCount == s.callCount + 1
      && r.1.uuidVersion == s.uuidVersion && r.1.enabled == s.enabled
  {
    match original
    case Err(e) => (Err(e), s)
    case Ok(u) =>
      (Ok(u), s.(callCount := s.callCount + 1, generatedUuids := s.generatedUuids + [u],
                 calls := s.calls + [NamespaceUUIDCall(u, s.uuidVersion, namespace, name, caller)]))
  }

  /** `enable` and `disable` have no effect on what a call does: the call
      answers and records the same whichever was last called, and it
      commutes with both. */
  lemma EnabledFlagUnused(s: NamespaceSpy, namespace: Uuid, name: string, caller: CallerInfo, original: Result<Uuid>)
    ensures NamespaceCall(Enable(s), namespace, name, caller, original).0 == NamespaceCall(s, namespace, name, caller, original).0
    ensures NamespaceCall(Disable(s), namespace, name, caller, original).0 == NamespaceCall(s, namespace, name, caller, original).0
    ensures NamespaceCall(Enable(s), namespace, name, caller, original).1 == Enable(NamespaceCall(s, namespace, name, caller, original).1)
    ensures NamespaceCall(Disable(s), namespace, name, caller, original).1 == Disable(NamespaceCall(s, namespace, name, caller, original).1)
  {
  }

  /** `calls_from`. */
  function NamespaceCallsFrom(s: NamespaceSpy, prefix: string): (r: seq<NamespaceUUIDCall>)
    ensures forall i :: 0 <= i < |r| ==> r[i] in s.calls && FromModule(r[i].caller, prefix)
    ensures forall i :: 0 <= i < |s.calls| && FromModule(s.calls[i].caller, prefix) ==> s.calls[i] in r
  {
    Filter(s.calls, (c: NamespaceUUIDCall) => FromModule(c.caller, prefix))
  }

  /** `calls_with_namespace`. */
  function CallsWithNamespace(s: NamespaceSpy, namespace: Uuid): (r: seq<NamespaceUUIDCall>)
    ensures forall i :: 0 <= i < |r| ==> r[i] in s.calls && r[i].namespace == namespace
    ensures forall i :: 0 <= i < |s.calls| && s.calls[i].namespace == namespace ==> s.calls[i] in r
  {
    Filter(s.calls, (c: NamespaceUUIDCall) => c.namespace == namespace)
  }

  /** `calls_with_name`. */
  function CallsWithName(s: NamespaceSpy, name: string): (r: seq<NamespaceUUIDCall>)
    ensures forall i :: 0 <= i < |r| ==> r[i] in s.calls && r[i].name == name
    ensures forall i :: 0 <= i < |s.calls| && s.calls[i].name == name ==> s.calls[i] in r
  {
    Filter(s.calls, (c: NamespaceUUIDCall) => c.name == name)
  }

  /** A recorded call is appended to exactly the filtered lists it
      matches, after the earlier matches. */
  lemma NamespaceCallFiltered(s: NamespaceSpy, namespace: Uuid, name: string, caller: CallerInfo, u: Uuid,
                              ns: Uuid, nm: string, prefix: string)
    ensures var s1 := NamespaceCall(s, namespace, name, caller, Ok(u)).1;
      var c := NamespaceUUIDCall(u, s.uuidVersion, namespace, name, caller);
      && CallsWithNamespace(s1, ns) == CallsWithNamespace(s, ns) + (if namespace == ns then [c] else [])
      && CallsWithName(s1, nm) == CallsWithName(s, nm) + (if name == nm then [c] else [])
      && NamespaceCallsFrom(s1, prefix) == NamespaceCallsFrom(s, prefix) + (if FromModule(caller, prefix) then [c] else [])
  {
    var c := NamespaceUUIDCall(u, s.uuidVersion, namespace, name, caller);
    FilterAppend(s.calls, [c], (x: NamespaceUUIDCall) => x.namespace == ns);
    FilterAppend(s.calls, [c], (x: NamespaceUUIDCall) => x.name == nm);
    FilterAppend(s.calls, [c], (x: NamespaceUUIDCall) => FromModule(x.caller, prefix));
  }

  /** `last_uuid`. */
  function NamespaceLastUuid(s: NamespaceSpy): (r: Option<Uuid>)
    ensures r.None? <==> s.generatedUuids == []
    ensures r.Some? ==> r.value == s.generatedUuids[|s.generatedUuids| - 1]
  {
    if |s.generatedUuids| > 0 then Some(s.generatedUuids[|s.generatedUuids| - 1]) else None
  }
}
