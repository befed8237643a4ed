# pytest-uuid: a Dafny model of its UUID control core

pytest-uuid lets a test decide what `uuid.uuid1` … `uuid.uuid8` return. The
plugin installs a proxy over each function in the `uuid` module. Each proxy
keeps a stack of generators. A call goes to the generator on top of the stack,
or to the original function when the stack is empty.

The generators are:

- **static**: one fixed UUID;
- **sequence**: a list of UUIDs, then cycle, fall back to random, or raise
  once the list runs out;
- **seeded**: a reproducible stream for v1, v4, v6, v7 or v8, drawn from a
  seeded random number generator;
- **delegating**: calls the original function.

Four front ends sit on top:

- `freeze_uuid`, a context manager. On enter it pushes a generator; on exit
  it pops it.
- The `mock_uuid` fixture's `UUIDMocker`, together with its lazily created
  `uuid1`/`uuid3`/`uuid5`/`uuid6`/`uuid7`/`uuid8` sub-mockers.
- `UUIDSpy`.
- `NamespaceUUIDSpy`.

Every front end records its calls in a tracker. It can also skip the mock for
callers whose module matches an ignore list; such calls get a real UUID.

The model, one module per source file:

| module | source file | contents |
|---|---|---|
| `Base` | — | `Option`, `Result`, the error kinds, and sequence filtering and counting |
| `UuidLayout` | — | UUIDs as `bv128`, with the version, variant, node and clock-sequence fields and the RFC 4122 / RFC 9562 builders |
| `RandomSource` | — | the random number generator, as a key and a position in an abstract stream of draws (`random.Random.getrandbits`) |
| `Generators` | `generators.py` | the generator state machine: output, advance, reset, and the seeded builders |
| `Proxy` | `_proxy.py` | the registry: installed flag, originals, and one stack per function name |
| `Tracking` | `_tracking.py` | the call records, their filters, and `_get_node_seed` |
| `Config` | `config.py` | the global configuration |
| `Api` | `api.py` | `UUIDFreezer`: generator choice, the patched function, enter and exit |
| `Plugin` | `plugin.py` | `UUIDMocker`, `UUIDSpy`, the v1/v6/v7/v8 mockers and `NamespaceUUIDSpy` |

Calling a generator is split in two:

- `Output` gives the value of a call.
- `Advance` gives the state after the call.

`After(g, n)` is the state after `n` calls, and `NthOutput(g, n, env)` is the
value of call number `n`. Everything a call needs from outside is passed in
an `Env`:

- the random stream;
- the outcome of the real `uuid` function.

Behaviour where the code differs from the package's documented behaviour (the
model follows the code):

- An empty UUID list is accepted. It becomes a sequence generator that falls
  back to random UUIDs under `cycle` and `random`, and raises at once under
  `raise`.
- `reset_generator` with a token that is not on top of its stack removes the
  token's first occurrence anywhere in the stack. It never raises.
- `NamespaceUUIDSpy.enable`/`disable` set a flag that no call reads.
- `UUIDMocker.set()` with no UUIDs keeps the current generator.
- `reset()` keeps the exhaustion policy.
- The version mockers' `reset()` also keeps the ignore list.

## Model

| member | source | states |
|---|---|---|
| `UuidLayout.FromRandomV4` | src/pytest_uuid/generators.py:108-116 | the result has version 4 and the RFC 4122 variant, and every other bit equals the drawn 128 bits |
| `UuidLayout.BuildV1` | src/pytest_uuid/generators.py:429-447 | the v1 layout has version 1 and the RFC variant, and each of time_low, time_mid, time_hi, clock_seq and node reads back from its field |
| `UuidLayout.LayoutV6Fields` | src/pytest_uuid/generators.py:470-490 | with in-range fields, the v6 layout has version 6 and the RFC variant, and each field reads back |
| `UuidLayout.BuildV6AsWritten` | src/pytest_uuid/generators.py:477-490 | the builder as written fails with ValueError iff the node lies outside 0..2^128, as `UUID(int=)` does; a node of at most 48 bits gives a well-formed v6 UUID that carries the node and the clock sequence |
| `UuidLayout.V6NodeOverflowBreaksVariant` | src/pytest_uuid/generators.py:488 | for node 2^62, the builder as written yields a UUID whose variant field is 3, not the RFC value 2 |
| `UuidLayout.BuildV6` | src/pytest_uuid/generators.py:450-490 | the corrected builder fails with ValueError iff the node does not fit 48 bits; otherwise it yields version 6 with the RFC variant, and the node and clock sequence read back |
| `UuidLayout.BuildV6AgreesOnNode48` | src/pytest_uuid/generators.py:476-490 | for a node of at most 48 bits, the corrected builder and the builder as written give the same UUID |
| `UuidLayout.BuildV7` | src/pytest_uuid/generators.py:493-522 | version 7, RFC variant, and the millisecond timestamp, rand_a and rand_b each read back from their fields |
| `UuidLayout.BuildV8` | src/pytest_uuid/generators.py:525-550 | version 8, RFC variant, and custom_a, custom_b and custom_c each read back |
| `RandomSource.GetRandBits` | src/pytest_uuid/generators.py:83-116 | `getrandbits(k)` yields a value below 2^k and moves the generator exactly one draw forward |
| `Generators.ParseBehavior` | src/pytest_uuid/generators.py:40-69 | a behaviour name parses iff it is "cycle", "random" or "raise"; a parsed name prints back as the same string; any other name is a ValueError |
| `Generators.ParseBehaviorName` | src/pytest_uuid/generators.py:40-69 | every behaviour survives the round trip through its name |
| `Generators.ResolveBehavior` | src/pytest_uuid/config.py:73-79 | an enum member passes unchanged; a string is parsed by value |
| `Generators.NewSequence` | src/pytest_uuid/generators.py:181-191 | a new sequence generator holds the given list and policy, starts at index 0 and is not exhausted |
| `Generators.NewSeeded` | src/pytest_uuid/generators.py:241-247 | an integer seed is remembered and starts a fresh generator; a Random object is used as it is, and no seed is remembered |
| `Generators.GenerateV4FromRandom` | src/pytest_uuid/generators.py:83-116 | one draw gives a well-formed v4 UUID |
| `Generators.ClockSeqDraw` | src/pytest_uuid/generators.py:419-424 | a given clock sequence is masked to 14 bits and uses no draw; otherwise one 14-bit draw is taken |
| `Generators.GenerateV1FromRandom` | src/pytest_uuid/generators.py:399-447 | fails with ValueError iff a given node does not fit 48 bits; otherwise a well-formed v1 UUID carrying the given node and clock sequence; the draw count depends on which of the two were given |
| `Generators.GenerateV6FromRandomAsWritten` | src/pytest_uuid/generators.py:450-490 | as written: a given node outside 0..2^128 is a ValueError and every other node is accepted; with no node or a 48-bit node the result is a well-formed v6 UUID carrying the node and the low 14 bits of the clock sequence; the generator moves by exactly its draws |
| `Generators.V6GeneratorNodeOverflow` | src/pytest_uuid/generators.py:477-488 | with node 2^62, the v6 generator as written returns a UUID whose variant is not the RFC variant |
| `Generators.GenerateV6FromRandom` | src/pytest_uuid/generators.py:450-490 | corrected: a given node that does not fit 48 bits is a ValueError; otherwise a well-formed v6 UUID carrying the node and the low 14 bits of the clock sequence, with the same draws |
| `Generators.V6AgreesOnNode48` | src/pytest_uuid/generators.py:450-490 | with no node or a 48-bit node, the corrected and as-written v6 generators give the same UUID and the same next state |
| `Generators.SeededV6NodeOverflow` | src/pytest_uuid/generators.py:620-621 | a seeded uuid6 generator with node 2^62 answers a call with a UUID that is not a well-formed v6 UUID |
| `Generators.GenerateV7FromRandom` | src/pytest_uuid/generators.py:493-522 | three draws give a well-formed v7 UUID |
| `Generators.GenerateV8FromRandom` | src/pytest_uuid/generators.py:525-550 | three draws give a well-formed v8 UUID |
| `Generators.GenerateFromRandom` | src/pytest_uuid/generators.py:553-692 | a seeded draw fails with ValueError iff it is v1 with a node outside 48 bits or v6 with a node outside 0..2^128; a successful draw is a UUID of its version, except v6 with a node wider than 48 bits |
| `Generators.Output` | src/pytest_uuid/generators.py:193-211 | the value of one call per kind. Static returns its value. A sequence returns its current preset; once exhausted it cycles to the first preset, falls back to a random v4, or raises UUIDsExhaustedError(len) exactly under `raise`. Seeded fails exactly as `GenerateFromRandom` does and otherwise returns its version, unless a v6 node is wider than 48 bits. Delegating returns the real function's outcome |
| `Generators.Advance` | src/pytest_uuid/generators.py:193-211 | a call keeps the generator's kind. Static and delegating are unchanged. A sequence steps its index while presets remain, then is marked exhausted and stays put unless cycling. The fallback generator moves iff it was used. A seeded generator only moves its draw position forward |
| `Generators.Call` | src/pytest_uuid/generators.py:249-250 | a call returns the output and the advanced state; a seeded or fallback draw consumes exactly what the builder consumed |
| `Generators.Reset` | src/pytest_uuid/generators.py:213-215 | a sequence restarts at index 0, not exhausted; a seeded generator with an integer seed restarts its stream; all others, including one built from a Random object, are unchanged |
| `Generators.GetSeededGenerator` | src/pytest_uuid/generators.py:695-728 | succeeds iff the version is one of uuid1, uuid4, uuid6, uuid7, uuid8, else ValueError; the result is seeded with that version; node and clock sequence are kept for v1 and v6 only |
| `Generators.After` | src/pytest_uuid/generators.py:193-211 | any number of calls keeps the generator's kind |
| `Generators.AfterAdvance` | src/pytest_uuid/generators.py:193-211 | one call followed by n calls is n + 1 calls |
| `Generators.StaticRun` | src/pytest_uuid/generators.py:145-162 | a static generator returns its value on every call, and reset changes nothing |
| `Generators.CycleIndexMod` | src/pytest_uuid/generators.py:203-207 | the cycling index after i calls is i mod the list length |
| `Generators.CycleRun` | src/pytest_uuid/generators.py:193-207 | after i calls, a cycling sequence points at preset i mod n and is exhausted iff i > n |
| `Generators.StraightRun` | src/pytest_uuid/generators.py:193-211 | without cycling, the index after i calls is min(i, n) and the generator is exhausted iff i > n |
| `Generators.SequenceRun` | src/pytest_uuid/generators.py:193-215 | after i calls, a sequence keeps its list and policy, is exhausted iff i > n, and touches its fallback generator only under `random` or an empty cycle |
| `Generators.CycleOutput` | src/pytest_uuid/generators.py:193-207 | call i of a cycling sequence returns preset i mod n |
| `Generators.RaiseOutput` | src/pytest_uuid/generators.py:193-211 | under `raise`, call i returns preset i while presets remain and raises UUIDsExhaustedError(n) on every later call |
| `Generators.PresetsFirst` | src/pytest_uuid/generators.py:193-200 | under any policy, the first n calls return the presets in order |
| `Generators.RandomFallbackOutput` | src/pytest_uuid/generators.py:208-209 | past the presets, under `random` (or an empty cycle), every call returns a well-formed v4 UUID |
| `Generators.ExhaustedAfter` | src/pytest_uuid/generators.py:193-220 | `is_exhausted` is false for the first n calls over n presets and true from call n + 1 on, under every policy, and false again after `reset()` |
| `Generators.SequenceResetRestarts` | src/pytest_uuid/generators.py:213-215 | after any number of calls, reset makes the sequence replay from its first preset |
| `Generators.SeededRun` | src/pytest_uuid/generators.py:249-250 | calls on a seeded generator change only its draw position, which never goes back |
| `Generators.SeededResetRestarts` | src/pytest_uuid/generators.py:252-256 | with an integer seed, reset after any number of calls returns the freshly built generator |
| `Generators.SeededObjectResetKeeps` | src/pytest_uuid/generators.py:252-256 | with a Random object, reset after any number of calls changes nothing |
| `Generators.SameStateSameStream` | src/pytest_uuid/generators.py:241-265 | two seeded generators that differ only in the remembered seed produce the same outputs forever |
| `Generators.SeedEqualsRandomObject` | src/pytest_uuid/generators.py:241-247 | seeding with n produces the same UUIDs as passing `random.Random(n)` |
| `Proxy.FuncNamesPartition` | src/pytest_uuid/_proxy.py:54-60 | the seven function names are exactly the stdlib names plus the extended names, and the two groups are disjoint |
| `Proxy.Initial` | src/pytest_uuid/_proxy.py:68-70 | the registry starts uninstalled with an empty stack for every name |
| `Proxy.SetGenerator` | src/pytest_uuid/_proxy.py:263-290 | fails with ValueError iff the name is not a uuid function; otherwise pushes the generator onto that name's stack only and returns the token |
| `Proxy.RemoveFirst` | src/pytest_uuid/_proxy.py:300-310 | list.remove: the first occurrence is dropped and the rest kept in order |
| `Proxy.RemoveFirstMultiset` | src/pytest_uuid/_proxy.py:300-310 | list.remove takes exactly one copy out of the stack |
| `Proxy.ResetGenerator` | src/pytest_uuid/_proxy.py:293-310 | pops the token if it is on top, else removes its first occurrence, else does nothing; other names' stacks are untouched |
| `Proxy.ResetRemovesOneCopy` | src/pytest_uuid/_proxy.py:300-310 | a reset removes exactly one copy of the token's generator |
| `Proxy.CurrentGenerator` | src/pytest_uuid/_proxy.py:313-324 | the current generator is the top of the stack; there is none iff the stack is empty or missing |
| `Proxy.Dispatch` | src/pytest_uuid/_proxy.py:87-103 | a proxy call goes to the top generator if there is one; else to the original if installed; else it is a RuntimeError |
| `Proxy.GetOriginal` | src/pytest_uuid/_proxy.py:206-239 | succeeds iff the name is a uuid function that was captured; an unknown name is a ValueError, an uncaptured one a RuntimeError |
| `Proxy.Install` | src/pytest_uuid/_proxy.py:113-157 | installing captures the stdlib originals, plus the extended ones when available; a second install changes nothing |
| `Proxy.Uninstall` | src/pytest_uuid/_proxy.py:160-198 | uninstalling clears the originals and every stack; uninstalling twice is harmless |
| `Proxy.SetResetRoundTrip` | src/pytest_uuid/_proxy.py:263-310 | pushing a generator and resetting its token restores the registry exactly |
| `Proxy.NestedSetReset` | src/pytest_uuid/_proxy.py:263-310 | nested pushes undone in reverse order restore each earlier registry, and the inner generator is current in between |
| `Proxy.UninstallThenInstall` | src/pytest_uuid/_proxy.py:113-198 | after uninstalling, a proxy call and get_original fail; a reinstall brings the stdlib originals back |
| `Proxy.InstallIdempotent` | src/pytest_uuid/_proxy.py:122-124 | installing twice is the same as installing once |
| `Tracking.RecordCall` | src/pytest_uuid/_tracking.py:150-187 | recording keeps the count, the UUID list and the record list in step, appending the new call at the end |
| `Tracking.RecordCallAsWritten` | src/pytest_uuid/_tracking.py:184 | `_record_call` on an object without `_tracking_lock` fails with AttributeError, and only then |
| `Tracking.ResetTracking` | src/pytest_uuid/_tracking.py:189-194 | after a reset the tracker is empty and consistent |
| `Tracking.LastUuid` | src/pytest_uuid/_tracking.py:212-215 | `last_uuid` is the last generated UUID, and None iff none was generated |
| `Tracking.MockedCalls` | src/pytest_uuid/_tracking.py:226-229 | `mocked_calls` holds every recorded call that returned a mocked UUID and nothing else |
| `Tracking.RealCalls` | src/pytest_uuid/_tracking.py:231-235 | `real_calls` holds every recorded call that returned a real UUID and nothing else |
| `Tracking.MockedCount` | src/pytest_uuid/_tracking.py:237-241 | `mocked_count` equals the length of `mocked_calls` |
| `Tracking.RealCount` | src/pytest_uuid/_tracking.py:243-247 | `real_count` equals the length of `real_calls` |
| `Tracking.CountsSplitCalls` | src/pytest_uuid/_tracking.py:226-248 | the counts are the lengths of mocked_calls and real_calls, which add up to call_count and together are a permutation of the calls |
| `Tracking.RecordCallClassifies` | src/pytest_uuid/_tracking.py:174-187 | a recorded call becomes last_uuid and lands at the end of exactly one of mocked_calls and real_calls |
| `Tracking.CallsFrom` | src/pytest_uuid/_tracking.py:250-264 | `calls_from` keeps exactly the calls whose known, non-empty module starts with the prefix, in their original order |
| `Tracking.CallsFromEmptyPrefix` | src/pytest_uuid/_tracking.py:250-264 | the empty prefix selects every call with a known module and no call without one |
| `Tracking.CallsFromRecord` | src/pytest_uuid/_tracking.py:184-187 | recording a call appends it to `calls_from(prefix)` iff its module has the prefix; the earlier matches keep their order |
| `Tracking.HexValue` | src/pytest_uuid/_tracking.py:33 | `int(s, 16)` of n hex digits is below 16^n |
| `Tracking.ToHex` | src/pytest_uuid/_tracking.py:33 | a value below 16^w is written with exactly w hex digits |
| `Tracking.HexValueToHex` | src/pytest_uuid/_tracking.py:33 | reading back a written value gives the value |
| `Tracking.ToHexHexValue` | src/pytest_uuid/_tracking.py:33 | writing back a read hex string gives the string |
| `Tracking.NodeSeed` | src/pytest_uuid/_tracking.py:24-33 | the node seed is a 32-bit value whose 8-digit hex form is the digest's first eight digits |
| `Tracking.NodeSeedOnto` | src/pytest_uuid/_tracking.py:24-33 | every 32-bit value is a node seed, and only the digest's first eight digits matter |
| `Config.GetIgnoreList` | src/pytest_uuid/config.py:28-30 | the ignore list is the default list followed by the extension list |
| `Config.Configure` | src/pytest_uuid/config.py:37-79 | each given field replaces the old one and each omitted one is kept; an unparsable behaviour name is a ValueError |
| `Config.ConfigureIdempotent` | src/pytest_uuid/config.py:37-79 | configuring twice with the same arguments is configuring once; configuring with nothing changes nothing |
| `Config.ConfigurePartialUpdate` | src/pytest_uuid/config.py:67-79 | the ignore lists are assigned before the behaviour is parsed, so a bad behaviour name still leaves the new default list in place |
| `Config.ResetConfig` | src/pytest_uuid/config.py:87-90 | after a reset the ignore list is empty and the behaviour is cycle |
| `Api.AnyPrefix` | src/pytest_uuid/api.py:108-110 | true iff some listed prefix starts the module name |
| `Api.ShouldIgnoreFrame` | src/pytest_uuid/api.py:93-110 | a frame is ignored iff its module name is non-empty and starts with a listed prefix |
| `Api.WalkFrames` | src/pytest_uuid/api.py:309-333 | the frame walk reports an ignored caller iff some frame of the stack is ignored |
| `Api.ComposeIgnoreList` | src/pytest_uuid/api.py:193-197 | with defaults, the ignore list is the configured list followed by the extra prefixes; without them, only the extra prefixes |
| `Api.NewFreezer` | src/pytest_uuid/api.py:146-207 | construction fails with ValueError iff the behaviour name does not parse; otherwise the freezer is not entered, its tracker is empty, the policy comes from the argument or the configuration, and node_id, node, clock_seq, the extra ignore list and ignore_defaults are stored as given |
| `Api.CreateRandomGenerator` | src/pytest_uuid/api.py:250-262 | with no UUIDs and no seed, the freezer delegates to the real function of its version; node and clock sequence are kept for v1 and v6; an unknown version is a ValueError |
| `Api.CreateGenerator` | src/pytest_uuid/api.py:209-248 | the generator choice. A node seed needs a node id, else ValueError. Seeds give seeded generators. A single UUID or a one-element cycle is static; other lists are sequences; nothing gives the random generator |
| `Api.SingleCycleIsStatic` | src/pytest_uuid/api.py:233-245 | the static shortcut for one cycling UUID returns what the sequence would have |
| `Api.PatchedCallWith` | src/pytest_uuid/api.py:264-347 | an ignored caller gets the real outcome and the generator is untouched; otherwise the generator answers and advances; a successful call is recorded, a failed one is not |
| `Api.PatchedCallAsWritten` | src/pytest_uuid/api.py:286-294 | the freezer as written records every call as version 4 |
| `Api.FreezerRecordsWrongVersion` | src/pytest_uuid/api.py:321-344 | a uuid7 freezer records its uuid7 calls with version 4 |
| `Api.VersionNumber` | src/pytest_uuid/_proxy.py:54 | each function name ends in its version digit 1..8 |
| `Api.PatchedCall` | src/pytest_uuid/api.py:264-347 | the corrected patched function records each call with the freezer's own version number, and the answer becomes last_uuid |
| `Api.Enter` | src/pytest_uuid/api.py:349-363 | entering succeeds iff a generator can be built for a known function name; on success it is pushed on that name's stack and the token kept |
| `Api.Exit` | src/pytest_uuid/api.py:365-374 | exiting drops the generator and token and resets the token in the registry, if there was one |
| `Api.EnterExitRoundTrip` | src/pytest_uuid/api.py:349-374 | inside the block the freezer's generator is current; leaving it restores the registry exactly |
| `Api.NestedFreezersRestore` | src/pytest_uuid/api.py:349-374 | nested freezers on one function: the inner generator wins inside, the outer is current again after the inner exits, and the registry is restored after both |
| `Api.FreezerSeed` | src/pytest_uuid/api.py:449-464 | `seed` is the remembered seed of a seeded generator, and None with no generator or a generator of another kind |
| `Api.FreezerSeedAfterEnter` | src/pytest_uuid/api.py:212-231 | after entering, `seed` is the integer seed given, or the one derived from node_id under seed="node"; it is None for a Random object, for presets and with no seed |
| `Api.NodeSeedReported` | src/pytest_uuid/api.py:212-231 | after entering with a node seed, `seed` is the node id's digest seed |
| `Api.ResetFreezer` | src/pytest_uuid/api.py:466-470 | reset empties the tracker and resets the generator, leaving everything else |
| `Plugin.SetUuids` | src/pytest_uuid/plugin.py:180-190 | `set()` with no UUIDs keeps the generator; with one or more it installs a static generator of the first UUID exactly when there is one UUID under cycle, and otherwise a fresh sequence over the UUIDs with the mocker's policy, starting at index 0 |
| `Plugin.SetUuidsRandom` | src/pytest_uuid/plugin.py:180-190 | after `set(...)` under random, the presets come in order and every later call returns a well-formed random v4 UUID |
| `Plugin.SetUuidsCycles` | src/pytest_uuid/plugin.py:180-190 | after `set(u0..un-1)` under cycle, call i returns u(i mod n) |
| `Plugin.SetUuidsRaises` | src/pytest_uuid/plugin.py:180-190 | after `set(...)` under raise, the presets come in order and every later call raises UUIDsExhaustedError(n) |
| `Plugin.RetargetBehavior` | src/pytest_uuid/plugin.py:235-241 | changing the policy updates a live sequence generator's policy and leaves any other generator |
| `Plugin.RetargetTakesEffect` | src/pytest_uuid/plugin.py:235-241 | an exhausted cycling sequence switched to raise raises on its next call |
| `Plugin.SeedProperty` | src/pytest_uuid/plugin.py:338-353 | `seed` is reported only for the seeded v4 generator, and is its seed |
| `Plugin.ChooseSource` | src/pytest_uuid/plugin.py:285-320 | the answer's source: ignored callers get the real function; otherwise the generator if any; otherwise the delegate if any; otherwise the real function |
| `Plugin.Answer` | src/pytest_uuid/plugin.py:285-331 | the answer per source, with only a local generator advancing; success is recorded as mocked iff it came from the generator or delegate, and a failure records nothing |
| `Plugin.MockerTrackingFailsAsWritten` | src/pytest_uuid/plugin.py:129-169 | the fixtures' classes never create `_tracking_lock`, so their first tracked call raises AttributeError, while the freezer records |
| `Plugin.NewMocker` | src/pytest_uuid/plugin.py:129-169 | a new mocker has no generator, an empty tracker and no sub-mockers, takes its policy from the configuration, and composes its ignore list |
| `Plugin.MockerSet` | src/pytest_uuid/plugin.py:171-190 | `set()` replaces only the generator; with no UUIDs nothing changes |
| `Plugin.MockerSetDefault` | src/pytest_uuid/plugin.py:192-198 | after `set_default(u)` every call returns u, and nothing but the generator changed |
| `Plugin.MockerSetSeed` | src/pytest_uuid/plugin.py:200-207 | `set_seed` installs a seeded v4 generator and changes nothing else |
| `Plugin.MockerSetSeedFromNode` | src/pytest_uuid/plugin.py:209-224 | fails with the documented RuntimeError iff no node id is known; otherwise it is `set_seed` with the node seed |
| `Plugin.MockerSetExhaustionBehavior` | src/pytest_uuid/plugin.py:226-241 | an unparsable name is a ValueError; otherwise the policy is stored and a live sequence generator is retargeted |
| `Plugin.RaiseThenSetSingle` | src/pytest_uuid/plugin.py:180-190 | under raise, `set(u)` builds a one-element sequence whose second call raises, not a static generator |
| `Plugin.SetIgnoreAsWritten` | src/pytest_uuid/plugin.py:243-260 | `set_ignore` as written always puts the configured defaults in front of the prefixes |
| `Plugin.SetIgnore` | src/pytest_uuid/plugin.py:243-260 | the corrected `set_ignore` composes the list as construction and reset do, honouring ignore_defaults |
| `Plugin.ResetMocker` | src/pytest_uuid/plugin.py:262-271 | reset drops the generator, empties the tracker and recomposes the ignore list, keeping the rest |
| `Plugin.ResetMockerIsFresh` | src/pytest_uuid/plugin.py:262-271 | a reset mocker is a freshly built one that keeps its policy and sub-mockers |
| `Plugin.ResetKeepsSetIgnore` | src/pytest_uuid/plugin.py:243-271 | with the corrected `set_ignore`, a reset keeps the ignore list it set |
| `Plugin.SetIgnoreAsWrittenUndoneByReset` | src/pytest_uuid/plugin.py:243-271 | with ignore_defaults off, the as-written list holds the defaults and a reset removes them |
| `Plugin.MockerSpy` | src/pytest_uuid/plugin.py:355-370 | spy mode drops the generator and nothing else |
| `Plugin.MockerSeed` | src/pytest_uuid/plugin.py:338-353 | `seed` is some value iff the generator is a v4 seeded generator built from an integer, and then it is that integer |
| `Plugin.MockerSeedReported` | src/pytest_uuid/plugin.py:338-353 | `seed` reports an integer seed, reports the node seed after `set_seed_from_node`, and is None after a Random object, `set_default` or `spy` |
| `Plugin.MockerCall` | src/pytest_uuid/plugin.py:273-331 | a mocker call answers from the chosen source, records the call as version 4 through the corrected tracker of the `_tracking.py:184` finding (the lock present), and changes only the generator and tracker |
| `Plugin.SpyModeAnswers` | src/pytest_uuid/plugin.py:355-370 | in spy mode a call answers from the delegate if any, else from the real function |
| `Plugin.MockerAfter` | src/pytest_uuid/plugin.py:273-331 | a run of calls keeps the ignore list and the delegate |
| `Plugin.MockerRunAdvances` | src/pytest_uuid/plugin.py:311-313 | for a caller that is not ignored, n calls advance the mocker's generator exactly n steps |
| `Plugin.SetThenCallsCycle` | src/pytest_uuid/plugin.py:171-331 | after `set(u0..un-1)` under cycle, the k-th mocker call returns u(k mod n) |
| `Plugin.NewSub` | src/pytest_uuid/plugin.py:372-509 | uuid1, uuid3 and uuid5 sub-mockers always build; uuid6/7/8 fail iff the extended functions are unavailable; version sub-mockers inherit the parent's node id and ignore settings |
| `Plugin.AccessSub` | src/pytest_uuid/plugin.py:372-509 | a cached sub-mocker is returned unchanged; a new one is cached and pushed on its function's stack; a failed one changes nothing |
| `Plugin.CleanupFrom` | src/pytest_uuid/plugin.py:511-536 | cleanup resets the tokens of exactly the registered sub-mockers and leaves every other stack alone |
| `Plugin.CleanupSubs` | src/pytest_uuid/plugin.py:511-536 | `_cleanup_sub_mockers` forgets all sub-mockers and resets each registered one's token |
| `Plugin.CleanupSingle` | src/pytest_uuid/plugin.py:511-536 | with one sub-mocker, cleanup is a single reset of its token when its name is listed, and nothing otherwise |
| `Plugin.PushThenCleanup` | src/pytest_uuid/plugin.py:511-536 | cleanup after a single registration restores the registry |
| `Plugin.NothingToCleanup` | src/pytest_uuid/plugin.py:511-536 | cleanup with no sub-mockers leaves the registry as it is |
| `Plugin.AccessThenCleanup` | src/pytest_uuid/plugin.py:372-536 | touching one sub-mocker and then cleaning up restores the registry exactly |
| `Plugin.SpyCall` | src/pytest_uuid/plugin.py:576-592 | the spy returns the real outcome and records a success as a real version-4 call, through the corrected tracker of the `_tracking.py:184` finding (the lock present) |
| `Plugin.SpyOnlyReal` | src/pytest_uuid/plugin.py:576-592 | a spy never records a mocked call |
| `Plugin.ResetSpy` | src/pytest_uuid/plugin.py:594-596 | reset empties the spy's tracker |
| `Plugin.MockedNumber` | src/pytest_uuid/plugin.py:721-778 | a version mocker's number is the digit of its function name and the version of its seeded generator |
| `Plugin.RequireExtended` | src/pytest_uuid/_compat.py:53-66 | no error iff uuid6/7/8 are available; otherwise the RuntimeError with the install hint |
| `Plugin.NewVersionMocker` | src/pytest_uuid/plugin.py:814-845 | the v6, v7 and v8 mockers fail iff the extended functions are unavailable; a new mocker has no generator, fixed node or clock sequence, and an empty tracker |
| `Plugin.VersionSet` | src/pytest_uuid/plugin.py:650-666 | a version mocker's `set()` behaves as the UUIDMocker's |
| `Plugin.VersionSetSeedAsWritten` | src/pytest_uuid/plugin.py:668-678 | the version mockers' `set_seed` as written installs a seeded v4 generator |
| `Plugin.SetSeedWrongVersion` | src/pytest_uuid/plugin.py:668-678 | after `set_seed` as written, a v1/v6/v7/v8 mocker returns version 4 UUIDs |
| `Plugin.VersionSetSeed` | src/pytest_uuid/plugin.py:668-678 | the corrected `set_seed` installs a seeded generator of the mocker's own version, passing the fixed node and clock sequence for v1 and v6 |
| `Plugin.SetSeedRightVersion` | src/pytest_uuid/plugin.py:668-678 | with the corrected `set_seed`, every successful call returns a UUID of the mocker's version (v6 only for a node of at most 48 bits), and the corrected `seed` reports the seed |
| `Plugin.SetNode` | src/pytest_uuid/plugin.py:680-689 | `set_node` stores the node and changes nothing else |
| `Plugin.SetClockSeq` | src/pytest_uuid/plugin.py:691-699 | `set_clock_seq` stores the clock sequence and changes nothing else |
| `Plugin.VersionSetExhaustionBehavior` | src/pytest_uuid/plugin.py:701-712 | as for the UUIDMocker: ValueError on a bad name, else the policy is stored and a live sequence is retargeted |
| `Plugin.ResetVersionMocker` | src/pytest_uuid/plugin.py:714-719 | reset drops the generator, fixed node and clock sequence, empties the tracker, and keeps the ignore list and policy |
| `Plugin.ResetVersionMockerIsFresh` | src/pytest_uuid/plugin.py:714-719 | a reset version mocker is a freshly built one that keeps its policy |
| `Plugin.VersionSeedAsWritten` | src/pytest_uuid/plugin.py:785-790 | `seed` as written is some value only for a v4 seeded generator, so it is None for a seeded generator of the mocker's own version |
| `Plugin.VersionSeed` | src/pytest_uuid/plugin.py:785-790 | the corrected `seed` reports the seed of a seeded generator of the mocker's own version |
| `Plugin.VersionSpy` | src/pytest_uuid/plugin.py:792-794 | spy mode drops the generator and nothing else |
| `Plugin.VersionSpyAnswersReal` | src/pytest_uuid/plugin.py:721-794 | after `spy()` a call returns the real function's outcome, and a success is recorded as not mocked with the mocker's version number |
| `Plugin.VersionAfter` | src/pytest_uuid/plugin.py:721-778 | a run of calls keeps the ignore list and the version |
| `Plugin.VersionCallAdvances` | src/pytest_uuid/plugin.py:721-778 | a call from a stack that is not ignored advances the version mocker's generator by one call |
| `Plugin.VersionRunAdvances` | src/pytest_uuid/plugin.py:721-778 | n calls from a stack that is not ignored leave the generator as n calls of it would |
| `Plugin.VersionSetThenCallsCycle` | src/pytest_uuid/plugin.py:650-778 | after `set(u0..un-1)` under cycle, call number k of a version mocker returns u(k mod n) |
| `Plugin.VersionCall` | src/pytest_uuid/plugin.py:721-778 | a version mocker call answers from the chosen source, with no delegate, and records the mocker's own version number through the corrected tracker of the `_tracking.py:184` finding (the lock present) |
| `Plugin.SeededNodeReachesOutput` | src/pytest_uuid/plugin.py:680-778 | on the v1 or v6 mocker, `set_node(n)`, `set_clock_seq(c)` and then the corrected `set_seed` give a call that succeeds with a well-formed UUID whose node field is n and whose clock sequence is the low 14 bits of c |
| `Plugin.NewNamespaceSpy` | src/pytest_uuid/plugin.py:1252-1261 | a namespace spy exists for versions 3 and 5 only, else ValueError, and starts empty and disabled |
| `Plugin.Enable` | src/pytest_uuid/plugin.py:1263-1265 | `enable()` sets the flag and leaves the version and every record unchanged |
| `Plugin.Disable` | src/pytest_uuid/plugin.py:1267-1269 | `disable()` clears the flag and leaves the version and every record unchanged |
| `Plugin.ResetNamespaceSpy` | src/pytest_uuid/plugin.py:1271-1275 | reset empties the record and keeps the version and enabled flag |
| `Plugin.NamespaceCall` | src/pytest_uuid/plugin.py:1277-1313 | a namespace call returns the real outcome and records a success with its namespace and name |
| `Plugin.EnabledFlagUnused` | src/pytest_uuid/plugin.py:1263-1313 | a call after `enable()` or `disable()` returns what it would have returned otherwise, and its record is the same up to the flag |
| `Plugin.NamespaceCallsFrom` | src/pytest_uuid/plugin.py:1340-1353 | `calls_from` keeps exactly the calls from modules with the prefix |
| `Plugin.CallsWithNamespace` | src/pytest_uuid/plugin.py:1355-1364 | keeps exactly the calls with the given namespace |
| `Plugin.CallsWithName` | src/pytest_uuid/plugin.py:1366-1375 | keeps exactly the calls with the given name |
| `Plugin.NamespaceCallFiltered` | src/pytest_uuid/plugin.py:1277-1375 | a recorded call is found by its namespace and by its name |
| `Plugin.NamespaceLastUuid` | src/pytest_uuid/plugin.py:1315-1338 | `last_uuid` is the last generated UUID, and None iff none was generated |

## Left out

- Locks and threads (`_generator_lock`, `_tracking_lock` as a lock): every operation is modelled as atomic.
- Frame inspection: a call stack is a sequence of module names, "" for a frame without one. `_get_caller_info` and `_get_qualname` are not modelled: the caller record is an input.
- The Mersenne Twister: a random number generator is a key plus a draw position into an abstract stream, so its numeric output is not modelled. Integer seeds map to keys one to one, so seeds n and -n are different keys here, while CPython's `random.Random(n)` seeds from abs(n) and gives them the same stream; no lemma relies on the difference, since `Generators.SameStateSameStream` only goes from the same seed to the same output. CPython's hashing of seeds is not modelled.
- MD5: the node id's digest is an input function returning 32 lower-case hex digits.
- `parse_uuid`/`parse_uuids`: UUIDs are already-parsed `bv128` values; string parsing and its errors are not modelled.
- The real `uuid` functions: their outcome for a call is an input (`Env.original`). Some arguments are kept in state but not passed on: the node and clock sequence that the random generators forward, and the fixed node and clock sequence that the v1 and v6 mockers hand to the real `uuid1`/`uuid6` for ignored callers and in spy mode.
- Monkeypatching of `uuid` attributes and the `uuid6` backport module: installation is a flag and the captured originals are names.
- pytest glue: fixtures, markers, hooks and `pytest_configure` (plugin.py:1378-1607). Their teardown is modelled through `Plugin.CleanupSubs` and `Proxy.ResetGenerator`.
- `UUIDFreezer` as a decorator (api.py:376-437) and the `freeze_uuid*` factories (api.py:480 onwards). These are wrappers over `Enter`/`Exit`.
- `_compat`: only `require_uuid6_7_8` and the availability flag are modelled.
- The proxy's stack entry for a sub-mocker is an opaque handle. The model does not link a handle to the sub-mocker's state.
- A `random.Random` passed as a seed is shared with its caller. The model owns its copy, so draws the caller makes on the same object are not modelled.
- The `generator` and `uuid_version` property getters, `is_proxy_installed` and `get_original_uuid4`: plain reads of state the model exposes directly.
- Api.PatchedCallWith: requires a generator. The source calls the patched function only after `__enter__` has created one.
- Plugin.VersionCall: the version mockers have no delegate, so the delegated slot of `Answer` is unused there.
- Plugin.Answer: a delegated answer is an input value. When `UUIDMocker` delegates to an active freezer's patched function, that call also advances the freezer's generator and adds a record to the freezer's tracker. Those effects on the freezer are not modelled.
- Plugin.ResetMocker, Plugin.ResetSpy, Tracking.LastUuid, Plugin.MockerCall, Plugin.SpyCall and Plugin.VersionCall: these model the tracker with its lock present, that is, the corrected `Tracking.RecordCall`. As written, each tracked call of these classes raises AttributeError at _tracking.py:184, because plugin.py never creates `_tracking_lock`. Without the lock, `_reset_tracking` and every tracking accessor raise AttributeError as `_record_call` does (_tracking.py:189-259); only the recording failure is modelled, by `Plugin.MockerTrackingFailsAsWritten`.
- Plugin.SetSeedRightVersion: the corrected `set_seed` still uses the v6 builder as written, so a uuid6 mocker with a node wider than 48 bits gets no well-formedness promise. `Generators.SeededV6NodeOverflow` shows that case.
- Plugin.SetNode: requires a v1 or v6 mocker, because only those classes define `set_node` and `set_clock_seq`.

## Findings

| source | as written | input that shows it | evidently intended | confidence | as-written member | corrected member |
|---|---|---|---|---|---|---|
| src/pytest_uuid/generators.py:477-488 | the v6 builder ORs the node into the low bits without masking it to 48 bits | node = 2^62 with clock_seq 0: bit 62 sets the variant field to 3 | reject a node that does not fit 48 bits with ValueError. The docstring asks for a 48-bit node, and the v1 path rejects a wider one through `uuid.UUID(fields=...)` | medium, not executed | `Generators.SeededV6NodeOverflow` | `Generators.GenerateV6FromRandom` |
| src/pytest_uuid/plugin.py:668-678 | `UUID1Mocker.set_seed` (and the v6/v7/v8 versions at 857-859, 1009-1011, 1147-1149) installs the v4 seeded generator | `mock_uuid.uuid7.set_seed(1)` then a call: the UUID has version 4 | a seeded generator of the mocker's own version, with the fixed node and clock sequence for v1/v6, whose seed `seed` then reports (`Plugin.VersionSeed`) | medium, not executed | `Plugin.SetSeedWrongVersion` | `Plugin.SetSeedRightVersion` |
| src/pytest_uuid/api.py:286-294 | the freezer's `_record_call` calls pass no version, so every record says 4 | `freeze_uuid(u, uuid_version="uuid7")`: `calls[0].uuid_version` is 4 | record the version of the patched function | medium, not executed | `Api.FreezerRecordsWrongVersion` | `Api.PatchedCall` |
| src/pytest_uuid/plugin.py:243-260 | `set_ignore` always prepends the configured defaults, while `__init__` and `reset` honour `ignore_defaults` | a mocker built with ignore_defaults off, then `set_ignore("x")`: the defaults are in the list, and `reset()` removes them | compose the list as `__init__` and `reset` do | low, not executed | `Plugin.SetIgnoreAsWrittenUndoneByReset` | `Plugin.ResetKeepsSetIgnore` |
| src/pytest_uuid/_tracking.py:184 | `_record_call` takes `self._tracking_lock`, but only `UUIDFreezer.__init__` creates it (api.py:207); UUIDMocker, UUIDSpy and the version mockers never do | any tracked call on `mock_uuid` or `spy_uuid`: AttributeError on `_tracking_lock` | every `__init__` creates the lock, so the call is recorded | medium, not executed; inferred from _tracking.py and plugin.py alone, which may come from different releases (plugin.py:65-73 imports names that config.py here does not define, and tests/unit/test_fixtures.py:298-347 expect these calls to be tracked), so it may not hold in any single release | `Plugin.MockerTrackingFailsAsWritten` | `Tracking.RecordCall` |
