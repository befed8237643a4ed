/** generators.py: the exhaustion policy, the UUIDsExhaustedError count,
    and the static, sequence, seeded and delegating generators as values
    with a pure `Call` step and a `Reset`. */
module Generators {
  import opened Base
  import opened UuidLayout
  import opened RandomSource

  datatype ExhaustionBehavior = Cycle | Random | Raise

  /** The enum's string values. */
  function BehaviorName(b: ExhaustionBehavior): string
  {
    match b
    case Cycle => "cycle"
    case Random => "random"
    case Raise => "raise"
  }

  /** `ExhaustionBehavior(s)`: lookup by value, ValueError for anything else. */
  function ParseBehavior(s: string): (r: Result<ExhaustionBehavior>)
    ensures r.Ok? <==> (s == "cycle" || s == "random" || s == "raise")
    ensures r.Ok? ==> BehaviorName(r.value) == s
    ensures r.Err? ==> r.error.ValueError?
  {
    if s == "cycle" then Ok(Cycle)
    else if s == "random" then Ok(Random)
    else if s == "raise" then Ok(Raise)
    else Err(ValueError("'" + s + "' is not a valid ExhaustionBehavior"))
  }

  lemma ParseBehaviorName(b: ExhaustionBehavior)
    ensures ParseBehavior(BehaviorName(b)) == Ok(b)
  {
  }

  /** An `ExhaustionBehavior | str` argument. */
  datatype BehaviorArg = Behavior(behavior: ExhaustionBehavior) | BehaviorString(name: string)

  function ResolveBehavior(arg: BehaviorArg): (r: Result<ExhaustionBehavior>)
    ensures arg.Behavior? ==> r == Ok(arg.behavior)
    ensures arg.BehaviorString? ==> r == ParseBehavior(arg.name)
  {
    match arg
    case Behavior(b) => Ok(b)
    case BehaviorString(s) => ParseBehavior(s)
  }

  /** The five seeded generator classes, by the UUID version they build. */
  datatype SeededVersion = V1 | V4 | V6 | V7 | V8

  function VersionBits(v: SeededVersion): bv128
  {
    match v
    case V1 => 1
    case V4 => 4
    case V6 => 6
    case V7 => 7
    case V8 => 8
  }

  /** An `int | random.Random` seed argument. */
  datatype SeedArg = IntSeed(seed: int) | RandomObject(rng: Rng)

  /** What one call can observe of the outside: the random stream, and the
      outcome of calling the channel's original function in this slot. */
  datatype Env = Env(stream: Stream, original: Result<Uuid>)

  datatype Generator =
    | Static(value: Uuid)
    | Sequence(uuids: seq<Uuid>, onExhausted: ExhaustionBehavior, fallback: Rng, index: nat, exhausted: bool)
    | Seeded(version: SeededVersion, seed: Option<int>, rng: Rng, node: Option<int>, clockSeq: Option<int>)
      /** RandomUUIDGenerator and RandomUUID1/6/7/8Generator: they call the
          original function (with the stored node and clock_seq). */
    | Delegating(funcName: string, node: Option<int>, clockSeq: Option<int>)

  /** SequenceUUIDGenerator(uuids, on_exhausted, fallback_rng). */
  function NewSequence(uuids: seq<Uuid>, onExhausted: ExhaustionBehavior, fallback: Rng): (g: Generator)
    ensures g.Sequence? && g.uuids == uuids && g.onExhausted == onExhausted
    ensures g.index == 0 && !g.exhausted
  {
    Sequence(uuids, onExhausted, fallback, 0, false)
  }

  /** The constructor shared by the Seeded*Generator classes: an integer
      seed builds `random.Random(seed)` and is remembered; a Random object
      is used as is and the seed is None. */
  function NewSeeded(version: SeededVersion, seed: SeedArg, node: Option<int>, clockSeq: Option<int>): (g: Generator)
    ensures g.Seeded? && g.version == version && g.node == node && g.clockSeq == clockSeq
    ensures seed.IntSeed? ==> g.seed == Some(seed.seed) && g.rng == FromSeed(seed.seed)
    ensures seed.RandomObject? ==> g.seed.None? && g.rng == seed.rng
  {
    match seed
    case IntSeed(s) => Seeded(version, Some(s), FromSeed(s), node, clockSeq)
    case RandomObject(r) => Seeded(version, None, r, node, clockSeq)
  }

  datatype Generated = Generated(out: Result<Uuid>, rest: Rng)

  /** generate_uuid_from_random: one 128-bit draw. */
  function GenerateV4FromRandom(rng: Rng, stream: Stream): (r: Generated)
    ensures r.out.Ok? && WellFormed(r.out.value, 4)
    ensures r.rest == rng.(pos := rng.pos + 1)
  {
    var d := GetRandBits(rng, 128, stream);
    Generated(Ok(FromRandomV4(d.bits)), d.rest)
  }

  /** The clock sequence of the v1 and v6 builders: drawn when not
      supplied, otherwise the supplied value masked to 14 bits. */
  function ClockSeqDraw(rng: Rng, clockSeq: Option<int>, stream: Stream): (d: Draw)
    ensures Fits(d.bits, 14)
    ensures clockSeq.Some? ==> d.bits == Low14(clockSeq.value) && d.rest == rng
    ensures clockSeq.None? ==> d.rest == rng.(pos := rng.pos + 1)
  {
    match clockSeq
    case None => GetRandBits(rng, 14, stream)
    case Some(c) => Low14Fits(c); Draw(Low14(c), rng)
  }

  /** Number of draws a v1 or v6 build takes: three time fields, plus the
      clock sequence and the node when they are not supplied. */
  function TimeBasedDraws(node: Option<int>, clockSeq: Option<int>): nat
  {
    3 + (if clockSeq.None? then 1 else 0) + (if node.None? then 1 else 0)
  }

  predicate IsNode48(n: int)
  {
    0 <= n < 0x1_0000_0000_0000
  }

  /** generate_uuid1_from_random. A supplied node outside 48 bits makes
      `uuid.UUID(fields=...)` raise ValueError after the draws. */
  function GenerateV1FromRandom(rng: Rng, node: Option<int>, clockSeq: Option<int>, stream: Stream): (r: Generated)
    ensures r.out.Ok? <==> (node.None? || IsNode48(node.value))
    ensures r.out.Err? ==> r.out.error.ValueError?
    ensures r.out.Ok? ==> WellFormed(r.out.value, 1)
    ensures r.out.Ok? && node.Some? ==> NodeField(r.out.value) == NodeBits(node.value)
    ensures r.out.Ok? && clockSeq.Some? ==> ClockSeqField(r.out.value) == Low14(clockSeq.value)
    ensures r.rest == rng.(pos := rng.pos + TimeBasedDraws(node, clockSeq))
  {
    var timeLow := GetRandBits(rng, 32, stream);
    var timeMid := GetRandBits(timeLow.rest, 16, stream);
    var timeHi := GetRandBits(timeMid.rest, 12, stream);
    var cs := ClockSeqDraw(timeHi.rest, clockSeq, stream);
    match node
    case None =>
      var n := GetRandBits(cs.rest, 48, stream);
      Generated(Ok(BuildV1(timeLow.bits, timeMid.bits, timeHi.bits, cs.bits, n.bits)), n.rest)
    case Some(n) =>
      if IsNode48(n) then
        NodeBitsFits(n);
        Generated(Ok(BuildV1(timeLow.bits, timeMid.bits, timeHi.bits, cs.bits, NodeBits(n))), cs.rest)
      else
        Generated(Err(ValueError("field 6 out of range (need a 48-bit value)")), cs.rest)
  }

  /** generate_uuid6_from_random as written: the supplied node is ORed into
      the word unmasked, so only a node outside [0, 2^128) is rejected. A
      48-bit node (or none) gives a well-formed v6 UUID. */
  function GenerateV6FromRandomAsWritten(rng: Rng, node: Option<int>, clockSeq: Option<int>, stream: Stream): (r: Generated)
    ensures r.rest == rng.(pos := rng.pos + TimeBasedDraws(node, clockSeq))
    ensures r.out.Ok? <==> (node.None? || IsUuidInt(node.value))
    ensures r.out.Err? ==> r.out.error.ValueError?
    ensures node.None? || IsNode48(node.value) ==> r.out.Ok? && WellFormed(r.out.value, 6)
    ensures node.Some? && IsNode48(node.value) ==> NodeField(r.out.value) == NodeBits(node.value)
    ensures clockSeq.Some? && (node.None? || IsNode48(node.value)) ==> ClockSeqField(r.out.value) == Low14(clockSeq.value)
  {
    var timeHigh := GetRandBits(rng, 32, stream);
    var timeMid := GetRandBits(timeHigh.rest, 16, stream);
    var timeLow := GetRandBits(timeMid.rest, 12, stream);
    var cs := ClockSeqDraw(timeLow.rest, clockSeq, stream);
    match node
    case None =>
      var n := GetRandBits(cs.rest, 48, stream);
      LayoutV6Fields(timeHigh.bits, timeMid.bits, timeLow.bits, cs.bits, n.bits);
      Generated(Ok(LayoutV6(timeHigh.bits, timeMid.bits, timeLow.bits, cs.bits, n.bits)), n.rest)
    case Some(n) =>
      Generated(BuildV6AsWritten(timeHigh.bits, timeMid.bits, timeLow.bits, cs.bits, n), cs.rest)
  }

  /** With the node 2^62 the as-written v6 generator returns a UUID whose
      variant bits are 0b11. */
  lemma V6GeneratorNodeOverflow(rng: Rng, stream: Stream)
    ensures var r := GenerateV6FromRandomAsWritten(rng, Some(0x4000_0000_0000_0000), Some(0), stream);
      r.out.Ok? && !WellFormed(r.out.value, 6)
  {
    var timeHigh := GetRandBits(rng, 32, stream);
    var timeMid := GetRandBits(timeHigh.rest, 16, stream);
    var timeLow := GetRandBits(timeMid.rest, 12, stream);
    var n: bv128 := (0x4000_0000_0000_0000 as int) as bv128;
    assert n == 0x4000_0000_0000_0000;
    var u := LayoutV6(timeHigh.bits, timeMid.bits, timeLow.bits, Low14(0), n);
    assert Low14(0) == 0;
    assert VariantField(u) == 3;
  }

  /** generate_uuid6_from_random with the 48-bit node its docstring asks
      for enforced, as in the v1 path: a wider or negative node is a
      ValueError, anything else a well-formed v6 UUID that carries the
      node and clock sequence. */
  function GenerateV6FromRandom(rng: Rng, node: Option<int>, clockSeq: Option<int>, stream: Stream): (r: Generated)
    ensures r.out.Ok? <==> (node.None? || IsNode48(node.value))
    ensures r.out.Err? ==> r.out.error.ValueError?
    ensures r.out.Ok? ==> WellFormed(r.out.value, 6)
    ensures r.out.Ok? && node.Some? ==> NodeField(r.out.value) == NodeBits(node.value)
    ensures r.out.Ok? && clockSeq.Some? ==> ClockSeqField(r.out.value) == Low14(clockSeq.value)
    ensures r.rest == rng.(pos := rng.pos + TimeBasedDraws(node, clockSeq))
  {
    var timeHigh := GetRandBits(rng, 32, stream);
    var timeMid := GetRandBits(timeHigh.rest, 16, stream);
    var timeLow := GetRandBits(timeMid.rest, 12, stream);
    var cs := ClockSeqDraw(timeLow.rest, clockSeq, stream);
    match node
    case None =>
      var n := GetRandBits(cs.rest, 48, stream);
      LayoutV6Fields(timeHigh.bits, timeMid.bits, timeLow.bits, cs.bits, n.bits);
      Generated(Ok(LayoutV6(timeHigh.bits, timeMid.bits, timeLow.bits, cs.bits, n.bits)), n.rest)
    case Some(n) =>
      Generated(BuildV6(timeHigh.bits, timeMid.bits, timeLow.bits, cs.bits, n), cs.rest)
  }

  /** The corrected v6 generator differs from the one as written only on
      nodes that do not fit 48 bits. */
  lemma V6AgreesOnNode48(rng: Rng, node: Option<int>, clockSeq: Option<int>, stream: Stream)
    requires node.None? || IsNode48(node.value)
    ensures GenerateV6FromRandom(rng, node, clockSeq, stream) == GenerateV6FromRandomAsWritten(rng, node, clockSeq, stream)
  {
    if node.Some? {
      var timeHigh := GetRandBits(rng, 32, stream);
      var timeMid := GetRandBits(timeHigh.rest, 16, stream);
      var timeLow := GetRandBits(timeMid.rest, 12, stream);
      var cs := ClockSeqDraw(timeLow.rest, clockSeq, stream);
      BuildV6AgreesOnNode48(timeHigh.bits, timeMid.bits, timeLow.bits, cs.bits, node.value);
    }
  }

  /** The same overflow through a seeded uuid6 generator (SeededUUID6Generator
      with node 2^62): its call succeeds with a UUID that is not an RFC
      variant v6 UUID. */
  lemma SeededV6NodeOverflow(seed: Option<int>, rng: Rng, env: Env)
    ensures var out := Output(Seeded(V6, seed, rng, Some(0x4000_0000_0000_0000), Some(0)), env);
      out.Ok? && !WellFormed(out.value, 6)
  {
    V6GeneratorNodeOverflow(rng, env.stream);
  }

  /** generate_uuid7_from_random: 48, 12 and 62 random bits. */
  function GenerateV7FromRandom(rng: Rng, stream: Stream): (r: Generated)
    ensures r.out.Ok? && WellFormed(r.out.value, 7)
    ensures r.rest == rng.(pos := rng.pos + 3)
  {
    var ts := GetRandBits(rng, 48, stream);
    var a := GetRandBits(ts.rest, 12, stream);
    var b := GetRandBits(a.rest, 62, stream);
    Generated(Ok(BuildV7(ts.bits, a.bits, b.bits)), b.rest)
  }

  /** generate_uuid8_from_random: 48, 12 and 62 random bits. */
  function GenerateV8FromRandom(rng: Rng, stream: Stream): (r: Generated)
    ensures r.out.Ok? && WellFormed(r.out.value, 8)
    ensures r.rest == rng.(pos := rng.pos + 3)
  {
    var a := GetRandBits(rng, 48, stream);
    var b := GetRandBits(a.rest, 12, stream);
    var c := GetRandBits(b.rest, 62, stream);
    Generated(Ok(BuildV8(a.bits, b.bits, c.bits)), c.rest)
  }

  /** Draws one call of a seeded generator takes. */
  function SeededDraws(version: SeededVersion, node: Option<int>, clockSeq: Option<int>): nat
  {
    match version
    case V1 => TimeBasedDraws(node, clockSeq)
    case V4 => 1
    case V6 => TimeBasedDraws(node, clockSeq)
    case V7 => 3
    case V8 => 3
  }

  /** A supplied node outside 48 bits: v1 rejects it, v6 (as written)
      rejects it only outside [0, 2^128). */
  predicate NodeRejected(version: SeededVersion, node: Option<int>)
  {
    node.Some? && ((version == V1 && !IsNode48(node.value)) || (version == V6 && !IsUuidInt(node.value)))
  }

  /** A v6 node that the builder as written ORs into the reserved bits. */
  predicate NodeOverflows(version: SeededVersion, node: Option<int>)
  {
    version == V6 && node.Some? && !IsNode48(node.value)
  }

  /** The `__call__` of each seeded generator class. */
  function GenerateFromRandom(version: SeededVersion, rng: Rng, node: Option<int>, clockSeq: Option<int>, stream: Stream): (r: Generated)
    ensures r.out.Ok? && !NodeOverflows(version, node) ==> WellFormed(r.out.value, VersionBits(version))
    ensures r.out.Err? <==> NodeRejected(version, node)
    ensures r.out.Err? ==> r.out.error.ValueError?
    ensures r.rest == rng.(pos := rng.pos + SeededDraws(version, node, clockSeq))
  {
    match version
    case V1 => GenerateV1FromRandom(rng, node, clockSeq, stream)
    case V4 => GenerateV4FromRandom(rng, stream)
    case V6 => GenerateV6FromRandomAsWritten(rng, node, clockSeq, stream)
    case V7 => GenerateV7FromRandom(rng, stream)
    case V8 => GenerateV8FromRandom(rng, stream)
  }

  /** A sequence past its end answers from its fallback random state:
      under RANDOM, and under CYCLE when it holds no presets. */
  predicate UsesFallback(g: Generator)
    requires g.Sequence?
  {
    g.index >= |g.uuids| && (g.onExhausted == Random || (g.onExhausted == Cycle && |g.uuids| == 0))
  }

  /** What `generator()` returns. A sequence hands out its presets in
      order; past the end it cycles back to the first preset (or, with
      none, draws a random v4 UUID), draws a random v4 UUID, or raises with
      the preset count. */
  function Output(g: Generator, env: Env): (r: Result<Uuid>)
    ensures g.Static? ==> r == Ok(g.value)
    ensures g.Sequence? && g.index < |g.uuids| ==> r == Ok(g.uuids[g.index])
    ensures g.Sequence? && g.index >= |g.uuids| && g.onExhausted == Cycle && |g.uuids| > 0 ==> r == Ok(g.uuids[0])
    ensures g.Sequence? && UsesFallback(g) ==> r.Ok? && WellFormed(r.value, 4)
    ensures g.Sequence? && r.Err? <==> g.Sequence? && g.index >= |g.uuids| && g.onExhausted == Raise
    ensures g.Sequence? && r.Err? ==> r.error == Exhausted(|g.uuids|)
    ensures g.Seeded? && r.Ok? && !NodeOverflows(g.version, g.node) ==> WellFormed(r.value, VersionBits(g.version))
    ensures g.Seeded? ==> (r.Err? <==> NodeRejected(g.version, g.node))
    ensures g.Seeded? && r.Err? ==> r.error.ValueError?
    ensures g.Delegating? ==> r == env.original
  {
    match g
    case Static(v) => Ok(v)
    case Sequence(uuids, onExhausted, fallback, index, _) =>
      if index < |uuids| then Ok(uuids[index])
      else if onExhausted == Cycle && |uuids| > 0 then Ok(uuids[0])
      else if onExhausted == Raise then Err(Exhausted(|uuids|))
      else GenerateV4FromRandom(fallback, env.stream).out
    case Seeded(version, _, rng, node, clockSeq) =>
      GenerateFromRandom(version, rng, node, clockSeq, env.stream).out
    case Delegating(_, _, _) => env.original
  }

  /** The generator's state after `generator()`. The state never depends
      on what the call observed: a sequence moves its cursor (back to 1
      when it cycles), marks itself exhausted past the end and advances
      its fallback stream by one draw when it used it; a seeded generator
      advances its stream by the draws of one build. */
  function Advance(g: Generator): (r: Generator)
    ensures r.Static? == g.Static? && r.Sequence? == g.Sequence?
    ensures r.Seeded? == g.Seeded? && r.Delegating? == g.Delegating?
    ensures (g.Static? || g.Delegating?) ==> r == g
    ensures g.Sequence? ==> r.uuids == g.uuids && r.onExhausted == g.onExhausted
    ensures g.Sequence? && g.index < |g.uuids| ==> r == g.(index := g.index + 1)
    ensures g.Sequence? && g.index >= |g.uuids| ==> r.exhausted
    ensures g.Sequence? && g.index >= |g.uuids| && g.onExhausted != Cycle ==> r.index == g.index
    ensures g.Sequence? ==> (r.fallback != g.fallback <==> UsesFallback(g))
    ensures g.Seeded? ==> r == g.(rng := r.rng) && r.rng.key == g.rng.key && r.rng.pos > g.rng.pos
  {
    match g
    case Sequence(uuids, onExhausted, fallback, index, _) =>
      if index < |uuids| then g.(index := index + 1)
      else if onExhausted == Cycle && |uuids| > 0 then g.(exhausted := true, index := 1)
      else if onExhausted == Raise then g.(exhausted := true)
      else g.(exhausted := true, fallback := fallback.(pos := fallback.pos + 1))
    case Seeded(version, _, rng, node, clockSeq) =>
      g.(rng := rng.(pos := rng.pos + SeededDraws(version, node, clockSeq)))
    case _ => g
  }

  datatype Step = Step(out: Result<Uuid>, next: Generator)

  /** `generator()`: the value returned and the state left behind. The
      state it leaves is the one each build's draws leave. */
  function Call(g: Generator, env: Env): (r: Step)
    ensures r.out == Output(g, env) && r.next == Advance(g)
    ensures g.Seeded? ==> r.next.rng == GenerateFromRandom(g.version, g.rng, g.node, g.clockSeq, env.stream).rest
    ensures g.Sequence? && UsesFallback(g) ==> r.next.fallback == GenerateV4FromRandom(g.fallback, env.stream).rest
  {
    Step(Output(g, env), Advance(g))
  }

  /** `generator.reset()`: a sequence returns to its first preset and
      clears its exhausted flag; a generator seeded with an integer starts
      its stream again; everything else is left as it is. */
  function Reset(g: Generator): (r: Generator)
    ensures g.Sequence? ==> r == g.(index := 0, exhausted := false)
    ensures g.Seeded? && g.seed.Some? ==> r == g.(rng := FromSeed(g.seed.value))
    ensures (g.Static? || g.Delegating? || (g.Seeded? && g.seed.None?)) ==> r == g
  {
    match g
    case Sequence(_, _, _, _, _) => g.(index := 0, exhausted := false)
    case Seeded(_, seed, _, _, _) =>
      if seed.Some? then g.(rng := FromSeed(seed.value)) else g
    case _ => g
  }

  /** SequenceUUIDGenerator.is_exhausted. */
  function IsExhausted(g: Generator): bool
    requires g.Sequence?
  {
    g.exhausted
  }

  /** `is_exhausted` turns true on the first call past the end, not on the
      call that hands out the last preset, and stays true under every
      policy until a reset. */
  lemma ExhaustedAfter(uuids: seq<Uuid>, b: ExhaustionBehavior, fallback: Rng, i: nat)
    ensures After(NewSequence(uuids, b, fallback), i).Sequence?
    ensures IsExhausted(After(NewSequence(uuids, b, fallback), i)) <==> i > |uuids|
    ensures !IsExhausted(Reset(After(NewSequence(uuids, b, fallback), i)))
  {
    SequenceRun(uuids, b, fallback, i);
  }

  /** The `seed` property where a generator has one (the seeded classes),
      None for the rest. */
  function SeedOf(g: Generator): Option<int>
  {
    if g.Seeded? then g.seed else None
  }

  /** The names get_seeded_generator accepts. */
  predicate IsSeededVersionName(name: string)
  {
    name == "uuid1" || name == "uuid4" || name == "uuid6" || name == "uuid7" || name == "uuid8"
  }

  /** get_seeded_generator: node and clock_seq reach only the v1 and v6
      generators; other names are ValueError. */
  function GetSeededGenerator(version: string, seed: SeedArg, node: Option<int>, clockSeq: Option<int>): (r: Result<Generator>)
    ensures r.Ok? <==> IsSeededVersionName(version)
    ensures r.Err? ==> r.error.ValueError?
    ensures r.Ok? ==> r.value.Seeded? && "uuid" + [('0' as int + VersionBits(r.value.version) as int) as char] == version
    ensures r.Ok? && (version == "uuid1" || version == "uuid6") ==>
      r.value.node == node && r.value.clockSeq == clockSeq
    ensures r.Ok? && !(version == "uuid1" || version == "uuid6") ==>
      r.value.node.None? && r.value.clockSeq.None?
    ensures r.Ok? ==> r.value == NewSeeded(r.value.version, seed, r.value.node, r.value.clockSeq)
  {
    if version == "uuid1" then Ok(NewSeeded(V1, seed, node, clockSeq))
    else if version == "uuid4" then Ok(NewSeeded(V4, seed, None, None))
    else if version == "uuid6" then Ok(NewSeeded(V6, seed, node, clockSeq))
    else if version == "uuid7" then Ok(NewSeeded(V7, seed, None, None))
    else if version == "uuid8" then Ok(NewSeeded(V8, seed, None, None))
    else Err(ValueError("Seeded generation not supported for " + version))
  }

  // ---------------------------------------------------------------------
  // Runs of consecutive calls

  /** The generator after n calls. */
  function After(g: Generator, n: nat): (r: Generator)
    ensures r.Static? == g.Static? && r.Sequence? == g.Sequence?
    ensures r.Seeded? == g.Seeded? && r.Delegating? == g.Delegating?
  {
    if n == 0 then g else Advance(After(g, n - 1))
  }

  /** The outcome of call number i (0-based). */
  function NthOutput(g: Generator, i: nat, env: Env): Result<Uuid>
  {
    Output(After(g, i), env)
  }

  /** n calls after a first call are n + 1 calls. */
  lemma {:induction false} AfterAdvance(g: Generator, n: nat)
    ensures After(Advance(g), n) == After(g, n + 1)
  {
    if n > 0 {
      AfterAdvance(g, n - 1);
    }
  }

  /** A static generator returns its value on every call, and `reset()`
      leaves it as it is. */
  lemma {:induction false} StaticRun(v: Uuid, i: nat, env: Env)
    ensures After(Static(v), i) == Static(v)
    ensures NthOutput(Static(v), i, env) == Ok(v)
    ensures Reset(After(Static(v), i)) == Static(v)
  {
    if i > 0 {
      StaticRun(v, i - 1, env);
    }
  }

  /** The cursor of a cycling sequence of n >= 1 presets after i calls:
      it counts up to n and then restarts at 1. */
  function CycleIndex(i: nat, n: nat): (k: nat)
    requires n >= 1
    ensures k <= n && (i >= 1 ==> k >= 1) && (i <= n ==> k == i)
  {
    if i == 0 then 0
    else
      var k := CycleIndex(i - 1, n);
      if k < n then k + 1 else 1
  }

  lemma {:induction false} MulAtLeast(d: int, n: int)
    requires d >= 1 && n >= 1
    ensures d * n >= n
    decreases d
  {
    if d > 1 {
      MulAtLeast(d - 1, n);
      assert d * n == (d - 1) * n + n;
    }
  }

  /** Euclidean remainders are unique. */
  lemma ModUnique(a: int, n: int, q: int, r: int)
    requires n >= 1 && 0 <= r < n && a == q * n + r
    ensures a % n == r
  {
    var q0, r0 := a / n, a % n;
    assert a == q0 * n + r0;
    if q0 > q {
      assert (q0 - q) * n == r - r0;
      MulAtLeast(q0 - q, n);
      assert false;
    } else if q0 < q {
      assert (q - q0) * n == r0 - r;
      MulAtLeast(q - q0, n);
      assert false;
    }
  }

  lemma ModSucc(i: nat, n: nat)
    requires n >= 1
    ensures (i + 1) % n == if i % n + 1 < n then i % n + 1 else 0
  {
    var q, r := i / n, i % n;
    assert i == q * n + r;
    if r + 1 < n {
      ModUnique(i + 1, n, q, r + 1);
    } else {
      assert i + 1 == (q + 1) * n;
      ModUnique(i + 1, n, q + 1, 0);
    }
  }

  /** The preset a cycling sequence returns on call i is preset i mod n. */
  lemma {:induction false} CycleIndexMod(i: nat, n: nat)
    requires n >= 1
    ensures CycleIndex(i, n) < n ==> CycleIndex(i, n) == i % n
    ensures CycleIndex(i, n) == n ==> i % n == 0
  {
    if i == 0 {
      ModUnique(0, n, 0, 0);
    } else {
      CycleIndexMod(i - 1, n);
      ModSucc(i - 1, n);
    }
  }

  /** The cursor a fresh sequence of the given shape has after i calls. */
  function SequenceIndex(n: nat, b: ExhaustionBehavior, i: nat): nat
  {
    if b == Cycle && n >= 1 then CycleIndex(i, n) else if i < n then i else n
  }

  /** A cycling sequence with presets: after i calls its cursor is
      `CycleIndex` and it is exhausted once a call went past the end. */
  lemma {:induction false} CycleRun(uuids: seq<Uuid>, fallback: Rng, i: nat)
    requires |uuids| >= 1
    ensures var g := After(NewSequence(uuids, Cycle, fallback), i);
      && g.uuids == uuids && g.onExhausted == Cycle && g.fallback == fallback
      && g.index == CycleIndex(i, |uuids|) && (g.exhausted <==> i > |uuids|)
  {
    if i > 0 {
      CycleRun(uuids, fallback, i - 1);
    }
  }

  /** Any other sequence: after i calls its cursor is min(i, n), it is
      exhausted once a call went past the end, and under RAISE its fallback
      state is untouched. */
  lemma {:induction false} StraightRun(uuids: seq<Uuid>, b: ExhaustionBehavior, fallback: Rng, i: nat)
    requires b != Cycle || |uuids| == 0
    ensures var g := After(NewSequence(uuids, b, fallback), i);
      && g.uuids == uuids && g.onExhausted == b
      && g.index == (if i < |uuids| then i else |uuids|) && (g.exhausted <==> i > |uuids|)
      && (b == Raise ==> g.fallback == fallback)
  {
    if i > 0 {
      StraightRun(uuids, b, fallback, i - 1);
    }
  }

  /** After i calls a fresh sequence keeps its presets and policy, its
      cursor is `SequenceIndex`, and it is exhausted exactly when some call
      went past the end, i.e. when i > n. Only a random fallback moves the
      fallback state. */
  lemma SequenceRun(uuids: seq<Uuid>, b: ExhaustionBehavior, fallback: Rng, i: nat)
    ensures var g := After(NewSequence(uuids, b, fallback), i);
      && g.Sequence? && g.uuids == uuids && g.onExhausted == b
      && g.index == SequenceIndex(|uuids|, b, i)
      && (g.exhausted <==> i > |uuids|)
      && ((b == Raise || (b == Cycle && |uuids| >= 1)) ==> g.fallback == fallback)
  {
    if b == Cycle && |uuids| >= 1 {
      CycleRun(uuids, fallback, i);
    } else {
      StraightRun(uuids, b, fallback, i);
    }
  }

  /** Under CYCLE with n >= 1 presets, call i returns preset i mod n: call
      n + 1 returns the first preset again. */
  lemma CycleOutput(uuids: seq<Uuid>, fallback: Rng, i: nat, env: Env)
    requires |uuids| >= 1
    ensures NthOutput(NewSequence(uuids, Cycle, fallback), i, env) == Ok(uuids[i % |uuids|])
  {
    SequenceRun(uuids, Cycle, fallback, i);
    CycleIndexMod(i, |uuids|);
  }

  /** Under RAISE the first n calls return the presets in order and every
      later call raises UUIDsExhaustedError(n) without moving the cursor. */
  lemma RaiseOutput(uuids: seq<Uuid>, fallback: Rng, i: nat, env: Env)
    ensures i < |uuids| ==> NthOutput(NewSequence(uuids, Raise, fallback), i, env) == Ok(uuids[i])
    ensures i >= |uuids| ==> NthOutput(NewSequence(uuids, Raise, fallback), i, env) == Err(Exhausted(|uuids|))
    ensures i >= |uuids| ==> After(NewSequence(uuids, Raise, fallback), i).index == |uuids|
  {
    SequenceRun(uuids, Raise, fallback, i);
  }

  /** Whatever the policy, the first n calls return the presets in order. */
  lemma PresetsFirst(uuids: seq<Uuid>, b: ExhaustionBehavior, fallback: Rng, i: nat, env: Env)
    requires i < |uuids|
    ensures NthOutput(NewSequence(uuids, b, fallback), i, env) == Ok(uuids[i])
  {
    SequenceRun(uuids, b, fallback, i);
    if b == Cycle {
      CycleIndexMod(i, |uuids|);
      ModUnique(i, |uuids|, 0, i);
    }
  }

  /** Past the end, RANDOM (and CYCLE on an empty sequence) answers with a
      well-formed random v4 UUID. */
  lemma RandomFallbackOutput(uuids: seq<Uuid>, b: ExhaustionBehavior, fallback: Rng, i: nat, env: Env)
    requires b == Random || (b == Cycle && |uuids| == 0)
    requires i >= |uuids|
    ensures NthOutput(NewSequence(uuids, b, fallback), i, env).Ok?
    ensures WellFormed(NthOutput(NewSequence(uuids, b, fallback), i, env).value, 4)
  {
    SequenceRun(uuids, b, fallback, i);
  }

  /** `reset()` after any number of calls brings a sequence back to its
      initial state (the fallback random state aside), so its next calls
      repeat the first ones. */
  lemma SequenceResetRestarts(uuids: seq<Uuid>, b: ExhaustionBehavior, fallback: Rng, k: nat)
    ensures var g := After(NewSequence(uuids, b, fallback), k);
      Reset(g) == NewSequence(uuids, b, g.fallback)
    ensures (b == Raise || (b == Cycle && |uuids| >= 1)) ==>
      Reset(After(NewSequence(uuids, b, fallback), k)) == NewSequence(uuids, b, fallback)
  {
    SequenceRun(uuids, b, fallback, k);
  }

  /** A seeded generator keeps everything but its stream position, which
      only moves forward. */
  lemma {:induction false} SeededRun(g: Generator, i: nat)
    requires g.Seeded?
    ensures var h := After(g, i);
      h == g.(rng := h.rng) && h.rng.key == g.rng.key && h.rng.pos >= g.rng.pos + i
  {
    if i > 0 {
      SeededRun(g, i - 1);
    }
  }

  /** For an integer seed, `reset()` after any number of calls returns the
      generator to its freshly constructed state: the stream starts over. */
  lemma SeededResetRestarts(version: SeededVersion, seed: int, node: Option<int>, clockSeq: Option<int>, k: nat)
    ensures Reset(After(NewSeeded(version, IntSeed(seed), node, clockSeq), k))
      == NewSeeded(version, IntSeed(seed), node, clockSeq)
  {
    SeededRun(NewSeeded(version, IntSeed(seed), node, clockSeq), k);
  }

  /** Given a Random object, `reset()` changes nothing: the stream goes on
      from where it is. */
  lemma SeededObjectResetKeeps(version: SeededVersion, rng: Rng, node: Option<int>, clockSeq: Option<int>, k: nat)
    ensures var h := After(NewSeeded(version, RandomObject(rng), node, clockSeq), k);
      Reset(h) == h && SeedOf(h).None?
  {
    SeededRun(NewSeeded(version, RandomObject(rng), node, clockSeq), k);
  }

  /** Two seeded generators that differ only in the seed they record
      produce the same outputs: a generator seeded with s and one given
      `random.Random(s)` yield identical streams. */
  lemma {:induction false} SameStateSameStream(g: Generator, h: Generator, i: nat, env: Env)
    requires g.Seeded? && h.Seeded? && h == g.(seed := h.seed)
    ensures After(h, i).Seeded? && After(g, i).Seeded?
    ensures After(h, i) == After(g, i).(seed := h.seed)
    ensures NthOutput(h, i, env) == NthOutput(g, i, env)
  {
    if i > 0 {
      SameStateSameStream(g, h, i - 1, env);
    }
  }

  lemma SeedEqualsRandomObject(version: SeededVersion, seed: int, node: Option<int>, clockSeq: Option<int>, i: nat, env: Env)
    ensures NthOutput(NewSeeded(version, IntSeed(seed), node, clockSeq), i, env)
      == NthOutput(NewSeeded(version, RandomObject(FromSeed(seed)), node, clockSeq), i, env)
  {
    SameStateSameStream(NewSeeded(version, IntSeed(seed), node, clockSeq),
                        NewSeeded(version, RandomObject(FromSeed(seed)), node, clockSeq), i, env);
  }
}
