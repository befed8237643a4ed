/** _proxy.py: the permanent proxies installed over the uuid module's
    functions, the originals they fall back to, and the per-function stacks
    of active generators. Generators are opaque handles of type T compared
    by identity (`is`), which for handles is equality. */
module Proxy {
  import opened Base

  /** UUID_FUNC_NAMES, STDLIB_UUID_FUNCS and EXTENDED_UUID_FUNCS. */
  const FuncNames: seq<string> := ["uuid1", "uuid3", "uuid4", "uuid5", "uuid6", "uuid7", "uuid8"]
  const StdlibFuncs: set<string> := {"uuid1", "uuid3", "uuid4", "uuid5"}
  const ExtendedFuncs: set<string> := {"uuid6", "uuid7", "uuid8"}

  predicate IsFuncName(name: string)
  {
    name in FuncNames
  }

  lemma FuncNamesPartition(name: string)
    ensures IsFuncName(name) <==> name in StdlibFuncs + ExtendedFuncs
    ensures name !in StdlibFuncs * ExtendedFuncs
  {
  }

  /** The module state: whether the proxies are installed, which functions
      have a captured original, and one generator stack per function name
      (innermost last). */
  datatype Registry<T> = Registry(installed: bool, originals: set<string>, stacks: map<string, seq<T>>)

  /** The state is shaped as at import time: one stack per supported name,
      originals only for supported names and only while installed. */
  ghost predicate Valid<T>(reg: Registry<T>)
  {
    && (forall name :: name in reg.stacks <==> IsFuncName(name))
    && (forall name :: name in reg.originals ==> IsFuncName(name))
    && (!reg.installed ==> reg.originals == {})
  }

  /** The state at import: not installed, no originals, empty stacks. */
  function Initial<T>(): (reg: Registry<T>)
    ensures Valid(reg) && !reg.installed
    ensures forall name :: name in reg.stacks ==> reg.stacks[name] == []
  {
    Registry(false, {}, map name | name in FuncNames :: [])
  }

  datatype Token<T> = Token(generator: T, funcName: string)

  datatype Pushed<T> = Pushed(reg: Registry<T>, token: Token<T>)

  /** set_generator: an unknown name is ValueError; otherwise the generator
      goes on top of that name's stack and a token for it is returned. */
  function SetGenerator<T>(reg: Registry<T>, generator: T, funcName: string): (r: Result<Pushed<T>>)
    requires Valid(reg)
    ensures r.Ok? <==> IsFuncName(funcName)
    ensures r.Err? ==> r.error.ValueError?
    ensures r.Ok? ==> Valid(r.value.reg) && r.value.token == Token(generator, funcName)
    ensures r.Ok? ==> r.value.reg.stacks.Keys == reg.stacks.Keys
    ensures r.Ok? ==> r.value.reg.stacks[funcName] == reg.stacks[funcName] + [generator]
    ensures r.Ok? ==> forall name :: name in reg.stacks && name != funcName ==>
      r.value.reg.stacks[name] == reg.stacks[name]
    ensures r.Ok? ==> r.value.reg.installed == reg.installed && r.value.reg.originals == reg.originals
  {
    if !IsFuncName(funcName) then
      Err(ValueError("Unknown UUID function: " + funcName))
    else
      Ok(Pushed(reg.(stacks := reg.stacks[funcName := reg.stacks[funcName] + [generator]]), Token(generator, funcName)))
  }

  /** The position of the first occurrence of x in s. */
  function FirstIndex<T(==)>(s: seq<T>, x: T): (i: nat)
    requires x in s
    ensures i < |s| && s[i] == x && x !in s[..i]
  {
    if s[0] == x then 0 else 1 + FirstIndex(s[1..], x)
  }

  /** `list.remove`: drops the first occurrence, keeping the order of the
      rest. */
  function RemoveFirst<T(==)>(s: seq<T>, x: T): (r: seq<T>)
    requires x in s
    ensures r == s[..FirstIndex(s, x)] + s[FirstIndex(s, x) + 1..]
  {
    if s[0] == x then s[1..]
    else
      var i := FirstIndex(s[1..], x);
      var rest := RemoveFirst(s[1..], x);
      assert s[..i + 1] == [s[0]] + s[1..][..i];
      assert s[i + 2..] == s[1..][i + 1..];
      [s[0]] + rest
  }

  /** Exactly one copy of x goes. */
  lemma RemoveFirstMultiset<T>(s: seq<T>, x: T)
    requires x in s
    ensures multiset(RemoveFirst(s, x)) == multiset(s) - multiset{x}
  {
    var i := FirstIndex(s, x);
    assert s == s[..i] + [x] + s[i + 1..];
  }

  /** What reset_generator does to the token's own stack: drop the top
      when it is the generator, else its first occurrence, else nothing. */
  function ResetStack<T(==)>(s: seq<T>, generator: T): seq<T>
  {
    if |s| > 0 && s[|s| - 1] == generator then s[..|s| - 1]
    else if generator in s then RemoveFirst(s, generator)
    else s
  }

  /** reset_generator: pop when the token's generator is on top; otherwise
      remove its first occurrence if present (out-of-order cleanup);
      otherwise, or for a name without a stack, do nothing. */
  function ResetGenerator<T(==)>(reg: Registry<T>, token: Token<T>): (r: Registry<T>)
    requires Valid(reg)
    ensures Valid(r) && r.installed == reg.installed && r.originals == reg.originals
    ensures r.stacks.Keys == reg.stacks.Keys
    ensures forall name :: name in reg.stacks && name != token.funcName ==> r.stacks[name] == reg.stacks[name]
    ensures token.funcName in reg.stacks ==>
      var s := reg.stacks[token.funcName];
      && (|s| > 0 && s[|s| - 1] == token.generator ==> r.stacks[token.funcName] == s[..|s| - 1])
      && (token.generator in s && s[|s| - 1] != token.generator ==>
            r.stacks[token.funcName] == RemoveFirst(s, token.generator))
      && (token.generator !in s ==> r == reg)
    ensures token.funcName !in reg.stacks ==> r == reg
    ensures token.funcName in reg.stacks ==>
      r.stacks[token.funcName] == ResetStack(reg.stacks[token.funcName], token.generator)
  {
    if token.funcName !in reg.stacks then reg
    else
      var s := reg.stacks[token.funcName];
      if |s| > 0 && s[|s| - 1] == token.generator then
        reg.(stacks := reg.stacks[token.funcName := s[..|s| - 1]])
      else if token.generator in s then
        reg.(stacks := reg.stacks[token.funcName := RemoveFirst(s, token.generator)])
      else
        reg
  }

  /** Whichever branch it takes, a reset whose generator is on the stack
      removes exactly one copy of it and nothing else. */
  lemma ResetRemovesOneCopy<T>(reg: Registry<T>, token: Token<T>)
    requires Valid(reg) && token.funcName in reg.stacks && token.generator in reg.stacks[token.funcName]
    ensures multiset(ResetGenerator(reg, token).stacks[token.funcName])
      == multiset(reg.stacks[token.funcName]) - multiset{token.generator}
  {
    var s := reg.stacks[token.funcName];
    if s[|s| - 1] == token.generator {
      assert s == s[..|s| - 1] + [token.generator];
    } else {
      RemoveFirstMultiset(s, token.generator);
    }
  }

  /** get_current_generator: the top of the name's stack, if any. */
  function CurrentGenerator<T>(reg: Registry<T>, funcName: string): (r: Option<T>)
    ensures r.None? <==> funcName !in reg.stacks || reg.stacks[funcName] == []
    ensures r.Some? ==> reg.stacks[funcName] == reg.stacks[funcName][..|reg.stacks[funcName]| - 1] + [r.value]
  {
    if funcName in reg.stacks && |reg.stacks[funcName]| > 0 then
      var s := reg.stacks[funcName];
      assert s == s[..|s| - 1] + [s[|s| - 1]];
      Some(s[|s| - 1])
    else None
  }

  /** Where the proxy for a function sends a call. */
  datatype Route<T> = ToGenerator(generator: T) | ToOriginal | Fail(error: Error)

  /** The proxy: the innermost active generator if there is one, otherwise
      the captured original, otherwise a RuntimeError. */
  function Dispatch<T>(reg: Registry<T>, funcName: string): (r: Route<T>)
    ensures r.ToGenerator? <==> CurrentGenerator(reg, funcName).Some?
    ensures r.ToGenerator? ==> r.generator == CurrentGenerator(reg, funcName).value
    ensures r.ToOriginal? <==> CurrentGenerator(reg, funcName).None? && funcName in reg.originals
    ensures r.Fail? ==> r.error.RuntimeError?
  {
    match CurrentGenerator(reg, funcName)
    case Some(g) => ToGenerator(g)
    case None =>
      if funcName in reg.originals then ToOriginal
      else Fail(RuntimeError("Proxy for " + funcName + " called before installation. Ensure pytest-uuid plugin is loaded."))
  }

  const NotInstalledMessage := "Proxy not installed. Call install_proxy() first, or ensure pytest-uuid plugin is loaded."

  /** get_original: the name of the captured original to call. Unknown
      names are ValueError; a supported name without an original is a
      RuntimeError whose message depends on whether the name is one of the
      extended functions. */
  function GetOriginal<T>(reg: Registry<T>, funcName: string): (r: Result<string>)
    ensures r.Ok? <==> IsFuncName(funcName) && funcName in reg.originals
    ensures r.Ok? ==> r.value == funcName
    ensures !IsFuncName(funcName) ==> r.Err? && r.error.ValueError?
    ensures IsFuncName(funcName) && r.Err? ==> r.error.RuntimeError?
    ensures IsFuncName(funcName) && r.Err? ==>
      (r.error == RuntimeError(NotInstalledMessage) <==> funcName !in ExtendedFuncs)
  {
    if !IsFuncName(funcName) then
      Err(ValueError("Unknown UUID function: " + funcName))
    else if funcName !in reg.originals then
      if funcName in ExtendedFuncs then
        Err(RuntimeError(funcName + " requires Python 3.14+ or the 'uuid6' package. Install with: pip install uuid6"))
      else
        Err(RuntimeError(NotInstalledMessage))
    else
      Ok(funcName)
  }

  /** install_proxy: the stdlib originals are always captured, the extended
      ones only when the platform has them; a second install does nothing. */
  function Install<T>(reg: Registry<T>, hasExtended: bool): (r: Registry<T>)
    requires Valid(reg)
    ensures Valid(r) && r.installed && r.stacks == reg.stacks
    ensures reg.installed ==> r == reg
    ensures !reg.installed ==> r.originals == StdlibFuncs + (if hasExtended then ExtendedFuncs else {})
  {
    if reg.installed then reg
    else reg.(installed := true, originals := StdlibFuncs + (if hasExtended then ExtendedFuncs else {}))
  }

  /** uninstall_proxy: when installed, forgets the originals and empties
      every stack. */
  function Uninstall<T>(reg: Registry<T>): (r: Registry<T>)
    requires Valid(reg)
    ensures Valid(r) && !r.installed && r.originals == {}
    ensures reg.installed ==> forall name :: name in r.stacks ==> r.stacks[name] == []
    ensures !reg.installed ==> r == reg
  {
    if !reg.installed then reg
    else reg.(installed := false, originals := {}, stacks := map name | name in reg.stacks :: [])
  }

  /** The LIFO round trip: setting a generator and resetting with its
      token restores the state exactly. */
  lemma SetResetRoundTrip<T>(reg: Registry<T>, generator: T, funcName: string)
    requires Valid(reg) && IsFuncName(funcName)
    ensures var p := SetGenerator(reg, generator, funcName);
      p.Ok? && ResetGenerator(p.value.reg, p.value.token) == reg
  {
    var p := SetGenerator(reg, generator, funcName).value;
    var s := reg.stacks[funcName];
    assert (s + [generator])[..|s|] == s;
    assert p.reg.stacks[funcName := s] == reg.stacks;
  }

  /** Nested contexts on one function: after the inner exit the outer
      generator is current again, after the outer exit the state is as
      before both. */
  lemma NestedSetReset<T>(reg: Registry<T>, outer: T, inner: T, funcName: string)
    requires Valid(reg) && IsFuncName(funcName)
    ensures var p1 := SetGenerator(reg, outer, funcName);
      p1.Ok? &&
      var p2 := SetGenerator(p1.value.reg, inner, funcName);
      p2.Ok? && CurrentGenerator(p2.value.reg, funcName) == Some(inner) &&
      var back := ResetGenerator(p2.value.reg, p2.value.token);
      back == p1.value.reg && CurrentGenerator(back, funcName) == Some(outer) &&
      ResetGenerator(back, p1.value.token) == reg
  {
    var p1 := SetGenerator(reg, outer, funcName).value;
    SetResetRoundTrip(reg, outer, funcName);
    SetResetRoundTrip(p1.reg, inner, funcName);
  }

  /** After uninstalling, every proxy call fails until the next install,
      which captures the originals again. */
  lemma UninstallThenInstall<T>(reg: Registry<T>, hasExtended: bool, funcName: string)
    requires Valid(reg) && reg.installed
    ensures Dispatch(Uninstall(reg), funcName).Fail?
    ensures GetOriginal(Uninstall(reg), funcName).Err?
    ensures IsFuncName(funcName) && funcName in StdlibFuncs ==>
      Dispatch(Install(Uninstall(reg), hasExtended), funcName) == ToOriginal
  {
  }

  /** Installing is idempotent. */
  lemma InstallIdempotent<T>(reg: Registry<T>, h1: bool, h2: bool)
    requires Valid(reg)
    ensures Install(Install(reg, h1), h2) == Install(reg, h1)
  {
  }
}
