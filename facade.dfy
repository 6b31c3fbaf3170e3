/** `ObserverFacade`: runs every observer of a registry on each registration and lookup,
    collects every failure and raises one joined error unless validation is skipped. */
module Facade {
  import opened Common
  import opened Metacoding
  import opened Observer
  import opened FactoryPattern
  import opened Testing

  /** One of the observers a registry can be created with. */
  datatype RegistryObserver =
    | Meta(meta: MetaInformationObserver)
    | Pattern(pattern: FactoryPatternObserver)
    | Test(testing: TestingObserver)

  /** `name`: the observer's class name. */
  function Name(o: RegistryObserver): string {
    match o
    case Meta(m) => m.className
    case Pattern(_) => "FactoryPattern"
    case Test(_) => "Testing"
  }

  /** `register_event` of one observer, as a step on the shared index. */
  function RegisterStep(o: RegistryObserver, items: map<string, Entry>, key: string, obj: Obj, kwargs: Kwargs): (s: Step)
    ensures s.outcome.Fail? ==> s.items == items
    ensures forall k :: k in items ==> k in s.items && s.items[k] == items[k]
  {
    match o
    case Meta(m) => MetaRegisterStep(m, items, key, kwargs)
    case Pattern(p) => PatternRegisterStep(p, items, key, obj)
    case Test(t) => TestRegisterStep(t, items, key, obj)
  }

  /** `call_event` of one observer. Only the metadata observer checks anything; the
      `FactoryPattern` and `Testing` lookups never raise, warn or change the index. */
  function CallStep(o: RegistryObserver, items: map<string, Entry>, key: string, kwargs: Kwargs): (s: Step)
    ensures s.items == items
    ensures !o.Meta? ==> s == Step(items, Pass, [])
  {
    match o
    case Meta(m) => MetaCallStep(m, items, key, kwargs)
    case Pattern(_) => Step(items, Pass, [])
    case Test(_) => Step(items, Pass, [])
  }

  method ObserverRegister(o: RegistryObserver, index: UniqueDict<Entry>, log: Log, key: string, obj: Obj, kwargs: Kwargs)
    returns (out: Outcome)
    modifies index, log
    ensures var s := RegisterStep(o, old(index.items), key, obj, kwargs);
              index.items == s.items && out == s.outcome && log.warnings == old(log.warnings) + s.warnings
  {
    match o
    case Meta(m) => out := MetaRegister(m, index, log, key, kwargs);
    case Pattern(p) => out := PatternRegister(p, index, log, key, obj);
    case Test(t) => out := TestRegister(t, index, log, key, obj);
  }

  method ObserverCall(o: RegistryObserver, index: UniqueDict<Entry>, log: Log, key: string, kwargs: Kwargs)
    returns (out: Outcome)
    modifies log
    ensures var s := CallStep(o, index.items, key, kwargs);
              out == s.outcome && log.warnings == old(log.warnings) + s.warnings
  {
    match o
    case Meta(m) => out := MetaCall(m, index, log, key, kwargs);
    case Pattern(_) => out := Pass;
    case Test(_) => out := Pass;
  }

  /** The line the facade records for a failing observer: `f"{name}:\t{e}"`. */
  function ErrorLine(o: RegistryObserver, e: Error): string {
    Name(o) + ":\t" + Text(e)
  }

  /** The error lines one observer event contributes: one when it failed, none otherwise. */
  function Lines(o: RegistryObserver, outcome: Outcome): seq<string> {
    if outcome.Fail? then [ErrorLine(o, outcome.error)] else []
  }

  /** What running a list of observers does: the final index, the error lines in observer order
      and the warnings in order. */
  datatype Run = Run(items: map<string, Entry>, errors: seq<string>, warnings: seq<Warning>)

  /** Every observer is run in order, each on the index the previous one left, whether or not an
      earlier one failed. */
  function RunRegister(obs: seq<RegistryObserver>, items: map<string, Entry>, key: string, obj: Obj, kwargs: Kwargs): Run
    decreases |obs|
  {
    if obs == [] then Run(items, [], [])
    else
      var s := RegisterStep(obs[0], items, key, obj, kwargs);
      var rest := RunRegister(obs[1..], s.items, key, obj, kwargs);
      Run(rest.items, Lines(obs[0], s.outcome) + rest.errors,
          s.warnings + rest.warnings)
  }

  function RunCall(obs: seq<RegistryObserver>, items: map<string, Entry>, key: string, kwargs: Kwargs): Run
    decreases |obs|
  {
    if obs == [] then Run(items, [], [])
    else
      var s := CallStep(obs[0], items, key, kwargs);
      var rest := RunCall(obs[1..], items, key, kwargs);
      Run(items, Lines(obs[0], s.outcome) + rest.errors,
          s.warnings + rest.warnings)
  }

  lemma RunRegisterAt(obs: seq<RegistryObserver>, i: nat, items: map<string, Entry>, key: string, obj: Obj, kwargs: Kwargs)
    requires i < |obs|
    ensures var s := RegisterStep(obs[i], items, key, obj, kwargs);
      var rest := RunRegister(obs[i + 1..], s.items, key, obj, kwargs);
      RunRegister(obs[i..], items, key, obj, kwargs) ==
        Run(rest.items, Lines(obs[i], s.outcome) + rest.errors,
            s.warnings + rest.warnings)
  {
    assert obs[i..][1..] == obs[i + 1..];
  }

  lemma RunCallAt(obs: seq<RegistryObserver>, i: nat, items: map<string, Entry>, key: string, kwargs: Kwargs)
    requires i < |obs|
    ensures var s := CallStep(obs[i], items, key, kwargs);
      var rest := RunCall(obs[i + 1..], items, key, kwargs);
      RunCall(obs[i..], items, key, kwargs) ==
        Run(items, Lines(obs[i], s.outcome) + rest.errors,
            s.warnings + rest.warnings)
  {
    assert obs[i..][1..] == obs[i + 1..];
  }

  /** One iteration of `compose_register`: running observer `i` moves its error line and warnings
      from the work still to do to what has been done. */
  lemma RegisterAdvance(obs: seq<RegistryObserver>, i: nat, items: map<string, Entry>, key: string, obj: Obj, kwargs: Kwargs,
                        full: Run, errors: seq<string>, start: seq<Warning>, done: seq<Warning>)
    requires i < |obs|
    requires full.items == RunRegister(obs[i..], items, key, obj, kwargs).items
    requires full.errors == errors + RunRegister(obs[i..], items, key, obj, kwargs).errors
    requires start + full.warnings == done + RunRegister(obs[i..], items, key, obj, kwargs).warnings
    ensures var s := RegisterStep(obs[i], items, key, obj, kwargs);
      var rest := RunRegister(obs[i + 1..], s.items, key, obj, kwargs);
      && full.items == rest.items
      && full.errors == (errors + Lines(obs[i], s.outcome)) + rest.errors
      && start + full.warnings == (done + s.warnings) + rest.warnings
  {
    RunRegisterAt(obs, i, items, key, obj, kwargs);
    var s := RegisterStep(obs[i], items, key, obj, kwargs);
    var rest := RunRegister(obs[i + 1..], s.items, key, obj, kwargs);
    ShiftRun(full, errors, start, done, RunRegister(obs[i..], items, key, obj, kwargs), Lines(obs[i], s.outcome), s.warnings, rest);
  }

  /** The sequence bookkeeping of one loop iteration: what one observer contributed moves from
      the run still to do onto what has been done. */
  lemma ShiftRun(full: Run, errors: seq<string>, start: seq<Warning>, done: seq<Warning>,
                 whole: Run, lines: seq<string>, warnings: seq<Warning>, rest: Run)
    requires whole == Run(rest.items, lines + rest.errors, warnings + rest.warnings)
    requires full.items == whole.items
    requires full.errors == errors + whole.errors
    requires start + full.warnings == done + whole.warnings
    ensures full.items == rest.items
    ensures full.errors == (errors + lines) + rest.errors
    ensures start + full.warnings == (done + warnings) + rest.warnings
  {
  }

  /** One iteration of `compose_call`. */
  lemma CallAdvance(obs: seq<RegistryObserver>, i: nat, items: map<string, Entry>, key: string, kwargs: Kwargs,
                    full: Run, errors: seq<string>, start: seq<Warning>, done: seq<Warning>)
    requires i < |obs|
    requires full.errors == errors + RunCall(obs[i..], items, key, kwargs).errors
    requires start + full.warnings == done + RunCall(obs[i..], items, key, kwargs).warnings
    ensures var s := CallStep(obs[i], items, key, kwargs);
      var rest := RunCall(obs[i + 1..], items, key, kwargs);
      && full.errors == (errors + Lines(obs[i], s.outcome)) + rest.errors
      && start + full.warnings == (done + s.warnings) + rest.warnings
  {
    RunCallAt(obs, i, items, key, kwargs);
    var s := CallStep(obs[i], items, key, kwargs);
    var rest := RunCall(obs[i + 1..], items, key, kwargs);
    var whole := RunCall(obs[i..], items, key, kwargs);
    ShiftRun(Run(whole.items, full.errors, full.warnings), errors, start, done, whole, Lines(obs[i], s.outcome), s.warnings, rest);
  }

  /** How `compose_*` ends: one exception with the "\n"-joined error lines, raised exactly when
      some observer failed and validation is not skipped. */
  function Verdict(errors: seq<string>, skip: bool): (o: Outcome)
    ensures o.Fail? <==> errors != [] && !skip
    ensures o.Fail? ==> o.error == AggregateError(Join(errors, "\n"))
  {
    if |errors| > 0 && !skip then Fail(AggregateError(Join(errors, "\n"))) else Pass
  }

  /** Registration events never remove or rebind an entry of the shared index, and produce at
      most one error line per observer. */
  lemma {:induction false} RunRegisterGrows(obs: seq<RegistryObserver>, items: map<string, Entry>, key: string, obj: Obj, kwargs: Kwargs)
    ensures var r := RunRegister(obs, items, key, obj, kwargs);
      && (forall k :: k in items ==> k in r.items && r.items[k] == items[k])
      && |r.errors| <= |obs|
    decreases |obs|
  {
    if obs != [] {
      var s := RegisterStep(obs[0], items, key, obj, kwargs);
      RunRegisterGrows(obs[1..], s.items, key, obj, kwargs);
    }
  }

  /** Lookup reports no error exactly when every observer's own lookup passes. */
  lemma {:induction false} RunCallErrorsIff(obs: seq<RegistryObserver>, items: map<string, Entry>, key: string, kwargs: Kwargs)
    ensures RunCall(obs, items, key, kwargs).errors == [] <==>
              forall i :: 0 <= i < |obs| ==> CallStep(obs[i], items, key, kwargs).outcome.Pass?
    decreases |obs|
  {
    if obs != [] {
      RunCallErrorsIff(obs[1..], items, key, kwargs);
      assert forall i :: 1 <= i < |obs| ==> obs[i] == obs[1..][i - 1];
    }
  }

  /** Registration reports no error exactly when every observer's registration passes on the
      index the observers before it left. */
  lemma {:induction false} RunRegisterErrorsIff(obs: seq<RegistryObserver>, items: map<string, Entry>, key: string, obj: Obj, kwargs: Kwargs)
    ensures RunRegister(obs, items, key, obj, kwargs).errors == [] <==>
              forall i :: 0 <= i < |obs| ==>
                RegisterStep(obs[i], RunRegister(obs[..i], items, key, obj, kwargs).items, key, obj, kwargs).outcome.Pass?
    decreases |obs|
  {
    if obs != [] {
      var s := RegisterStep(obs[0], items, key, obj, kwargs);
      RunRegisterErrorsIff(obs[1..], s.items, key, obj, kwargs);
      forall i | 1 <= i < |obs|
        ensures RunRegister(obs[..i], items, key, obj, kwargs).items == RunRegister(obs[1..][..i - 1], s.items, key, obj, kwargs).items
        ensures obs[i] == obs[1..][i - 1]
      {
        assert obs[..i][1..] == obs[1..][..i - 1];
      }
      assert obs[..0] == [];
    }
  }

  /** Lookup through observers that are not metadata observers never fails or warns. */
  lemma {:induction false} RunCallWithoutMetaIsSilent(obs: seq<RegistryObserver>, items: map<string, Entry>, key: string, kwargs: Kwargs)
    requires forall i :: 0 <= i < |obs| ==> !obs[i].Meta?
    ensures RunCall(obs, items, key, kwargs) == Run(items, [], [])
    decreases |obs|
  {
    if obs != [] {
      assert forall i :: 0 <= i < |obs[1..]| ==> obs[1..][i] == obs[i + 1];
      RunCallWithoutMetaIsSilent(obs[1..], items, key, kwargs);
    }
  }

  /** All observers share one index, so a metadata observer and a `FactoryPattern` observer on
      the same registry both store under the registered key: the second store collides, and
      registration reports it even though both checks passed. */
  lemma StoringObserversCollide(m: MetaInformationObserver, p: FactoryPatternObserver, items: map<string, Entry>, key: string, obj: Obj, kwargs: Kwargs)
    requires forall q :: q in m.parameters ==> q in kwargs
    requires key !in items
    requires MatchPattern(p, obj) == Ok(true)
    ensures RunRegister([Meta(m), Pattern(p)], items, key, obj, kwargs).errors == ["FactoryPattern:\t" + Text(DuplicateKey)]
  {
    var obs := [Meta(m), Pattern(p)];
    var first := RegisterStep(Meta(m), items, key, obj, kwargs);
    MetaStoresKey(m, items, key, obj, kwargs);
    PatternRunCollides(p, first.items, key, obj, kwargs);
    RunRegisterAt(obs, 0, items, key, obj, kwargs);
    assert obs[0..] == obs && obs[1..] == [Pattern(p)];
  }

  /** The `FactoryPattern` observer alone, on an index that already holds the key. */
  lemma PatternRunCollides(p: FactoryPatternObserver, items: map<string, Entry>, key: string, obj: Obj, kwargs: Kwargs)
    requires key in items
    requires MatchPattern(p, obj) == Ok(true)
    ensures RunRegister([Pattern(p)], items, key, obj, kwargs).errors == ["FactoryPattern:\t" + Text(DuplicateKey)]
  {
    PatternOnTakenKey(p, items, key, obj, kwargs);
    RunRegisterAt([Pattern(p)], 0, items, key, obj, kwargs);
    assert [Pattern(p)][1..] == [] && [Pattern(p)][0..] == [Pattern(p)];
    assert ErrorLine(Pattern(p), DuplicateKey) == "FactoryPattern:\t" + Text(DuplicateKey);
  }

  lemma MetaStoresKey(m: MetaInformationObserver, items: map<string, Entry>, key: string, obj: Obj, kwargs: Kwargs)
    requires forall q :: q in m.parameters ==> q in kwargs
    requires key !in items
    ensures var s := RegisterStep(Meta(m), items, key, obj, kwargs);
      s.outcome == Pass && key in s.items
  {
    NoneMissing(m.parameters, kwargs);
  }

  lemma PatternOnTakenKey(p: FactoryPatternObserver, items: map<string, Entry>, key: string, obj: Obj, kwargs: Kwargs)
    requires key in items
    requires MatchPattern(p, obj) == Ok(true)
    ensures RegisterStep(Pattern(p), items, key, obj, kwargs).outcome == Fail(DuplicateKey)
  {
  }

  /** The names of a list of observers. */
  function NameSet(obs: seq<RegistryObserver>): set<string> {
    set i | 0 <= i < |obs| :: Name(obs[i])
  }

  /** The position of the first observer named `name`. */
  function PositionOf(obs: seq<RegistryObserver>, name: string): (j: nat)
    requires name in NameSet(obs)
    ensures j < |obs| && Name(obs[j]) == name
  {
    if Name(obs[0]) == name then 0
    else
      assert name in NameSet(obs[1..]) by {
        var i :| 0 <= i < |obs| && Name(obs[i]) == name;
        assert obs[1..][i - 1] == obs[i];
      }
      1 + PositionOf(obs[1..], name)
  }

  /** `{obj.name: obj for obj in observers}`: one observer per name, in the order names first
      appear, a later observer with a name already present taking its place. */
  function ByName(list: seq<RegistryObserver>): seq<RegistryObserver> {
    if list == [] then []
    else
      var rest := ByName(list[..|list| - 1]);
      var last := list[|list| - 1];
      if Name(last) in NameSet(rest) then rest[PositionOf(rest, Name(last)) := last]
      else rest + [last]
  }

  /** The last observer in `list` named `n`. */
  ghost function LastNamed(list: seq<RegistryObserver>, n: string): RegistryObserver
    requires n in NameSet(list)
  {
    var last := list[|list| - 1];
    if Name(last) == n then last
    else
      assert n in NameSet(list[..|list| - 1]) by {
        var i :| 0 <= i < |list| && Name(list[i]) == n;
        assert list[..|list| - 1][i] == list[i];
      }
      LastNamed(list[..|list| - 1], n)
  }

  lemma NameSetOfAppend(list: seq<RegistryObserver>)
    requires list != []
    ensures NameSet(list) == NameSet(list[..|list| - 1]) + {Name(list[|list| - 1])}
  {
    var prefix := list[..|list| - 1];
    forall n | n in NameSet(prefix)
      ensures n in NameSet(list)
    {
      var i :| 0 <= i < |prefix| && Name(prefix[i]) == n;
      assert list[i] == prefix[i];
    }
  }

  /** Building the observer dict keeps every name exactly once, drops no name, and keeps under
      each name the last observer listed with it. */
  lemma {:induction false} ByNameSpec(list: seq<RegistryObserver>)
    ensures NameSet(ByName(list)) == NameSet(list)
    ensures forall i, j :: 0 <= i < j < |ByName(list)| ==> Name(ByName(list)[i]) != Name(ByName(list)[j])
    ensures forall j :: 0 <= j < |ByName(list)| ==> ByName(list)[j] == LastNamed(list, Name(ByName(list)[j]))
  {
    if list != [] {
      var prefix := list[..|list| - 1];
      var rest := ByName(prefix);
      var last := list[|list| - 1];
      ByNameSpec(prefix);
      NameSetOfAppend(list);
      if Name(last) in NameSet(rest) {
        ReplaceKeepsNames(rest, last);
      } else {
        AppendKeepsNames(rest, last);
      }
    }
  }

  /** The step of `ByName` that replaces the observer of a name already present. */
  lemma ReplaceKeepsNames(rest: seq<RegistryObserver>, last: RegistryObserver)
    requires Name(last) in NameSet(rest)
    requires forall i, j :: 0 <= i < j < |rest| ==> Name(rest[i]) != Name(rest[j])
    ensures var r := rest[PositionOf(rest, Name(last)) := last];
      && NameSet(r) == NameSet(rest)
      && (forall i, j :: 0 <= i < j < |r| ==> Name(r[i]) != Name(r[j]))
      && (forall j :: 0 <= j < |r| && j != PositionOf(rest, Name(last)) ==> r[j] == rest[j] && Name(r[j]) != Name(last))
  {
    var p := PositionOf(rest, Name(last));
    var r := rest[p := last];
    assert forall j :: 0 <= j < |r| ==> Name(r[j]) == Name(rest[j]);
    forall n | n in NameSet(rest)
      ensures n in NameSet(r)
    {
      var i :| 0 <= i < |rest| && Name(rest[i]) == n;
      assert Name(r[i]) == n;
    }
  }

  /** The step of `ByName` that appends an observer with a new name. */
  lemma AppendKeepsNames(rest: seq<RegistryObserver>, last: RegistryObserver)
    requires Name(last) !in NameSet(rest)
    requires forall i, j :: 0 <= i < j < |rest| ==> Name(rest[i]) != Name(rest[j])
    ensures var r := rest + [last];
      && NameSet(r) == NameSet(rest) + {Name(last)}
      && (forall i, j :: 0 <= i < j < |r| ==> Name(r[i]) != Name(r[j]))
      && (forall j :: 0 <= j < |rest| ==> r[j] == rest[j] && Name(r[j]) != Name(last))
  {
    var r := rest + [last];
    assert r[..|r| - 1] == rest;
    NameSetOfAppend(r);
    forall j | 0 <= j < |rest|
      ensures Name(rest[j]) != Name(last)
    {
      assert Name(rest[j]) in NameSet(rest);
    }
  }

  /** A view of one observer's stored information, as `get_info` returns it. */
  datatype Info = Fields(fields: map<string, Value>) | Raw(entry: Entry)

  function InfoOf(o: RegistryObserver, items: map<string, Entry>, key: string): Result<Info> {
    match o
    case Meta(_) =>
      var r := Observer.GetInfo(items, key);
      if r.Err? then Err(r.error) else Ok(Fields(r.value))
    case _ =>
      var r := GetEntry(items, key);
      if r.Err? then Err(r.error) else Ok(Raw(r.value))
  }

  /** No observer after position `i` has the name of the one at `i`, so its entry survives. */
  predicate LastOfName(obs: seq<RegistryObserver>, i: int)
    requires 0 <= i < |obs|
  {
    forall j :: i < j < |obs| ==> Name(obs[j]) != Name(obs[i])
  }

  /** `{idx.name: idx.get_info(key) for idx in observers}`, evaluated in order: the first
      observer whose `get_info` raises decides the error. */
  function CollectInfo(obs: seq<RegistryObserver>, items: map<string, Entry>, key: string): (r: Result<map<string, Info>>)
    ensures r.Ok? ==> r.value.Keys == set i | 0 <= i < |obs| :: Name(obs[i])
    ensures r.Ok? <==> forall i :: 0 <= i < |obs| ==> InfoOf(obs[i], items, key).Ok?
    ensures r.Ok? ==> forall i :: 0 <= i < |obs| && LastOfName(obs, i) ==>
              Ok(r.value[Name(obs[i])]) == InfoOf(obs[i], items, key)
  {
    if obs == [] then Ok(map[])
    else
      var prefix := CollectInfo(obs[..|obs| - 1], items, key);
      var last := obs[|obs| - 1];
      if prefix.Err? then prefix
      else
        match InfoOf(last, items, key)
        case Err(e) => Err(e)
        case Ok(info) =>
          assert obs == obs[..|obs| - 1] + [last];
          CollectInfoStep(obs[..|obs| - 1], last, items, key, prefix.value, info);
          Ok(prefix.value[Name(last) := info])
  }

  /** One step of `CollectInfo`: binding the last observer's information keeps every earlier
      observer's entry whose name no later observer reuses. */
  lemma CollectInfoStep(pre: seq<RegistryObserver>, last: RegistryObserver, items: map<string, Entry>, key: string, m: map<string, Info>, info: Info)
    requires m.Keys == NameSet(pre)
    requires forall i :: 0 <= i < |pre| && LastOfName(pre, i) ==> Ok(m[Name(pre[i])]) == InfoOf(pre[i], items, key)
    requires InfoOf(last, items, key) == Ok(info)
    ensures forall i :: 0 <= i < |pre + [last]| && LastOfName(pre + [last], i) ==>
              Ok(m[Name(last) := info][Name((pre + [last])[i])]) == InfoOf((pre + [last])[i], items, key)
  {
    var obs := pre + [last];
    var m' := m[Name(last) := info];
    forall i | 0 <= i < |obs| && LastOfName(obs, i)
      ensures Ok(m'[Name(obs[i])]) == InfoOf(obs[i], items, key)
    {
      if i < |pre| {
        assert Name(obs[|pre|]) != Name(obs[i]);
        assert obs[i] == pre[i];
        forall j | i < j < |pre|
          ensures Name(pre[j]) != Name(pre[i])
        {
          assert obs[j] == pre[j];
        }
        assert Name(pre[i]) in NameSet(pre);
      }
    }
  }

  /** The facade of one registry. `keyDictOf` stands for the key-dict generator the mediator
      asks for (the facade's code defines none). */
  class ObserverFacade {
    const observers: seq<RegistryObserver>
    const skipValidation: bool
    const keyDictOf: (string, Kwargs) -> Kwargs
    const index: UniqueDict<Entry>
    const log: Log

    /** `ObserverFacade.__init__`: `None` or an empty list means no observers. */
    constructor (skipValidation: bool, given: Option<seq<RegistryObserver>>, keyDictOf: (string, Kwargs) -> Kwargs,
                 index: UniqueDict<Entry>, log: Log)
      ensures given.None? ==> observers == []
      ensures given.Some? ==> observers == ByName(given.value)
      ensures this.skipValidation == skipValidation && this.keyDictOf == keyDictOf
      ensures this.index == index && this.log == log
    {
      var obs: seq<RegistryObserver> := [];
      if given.Some? {
        obs := ByName(given.value);
      }
      observers := obs;
      this.skipValidation := skipValidation;
      this.keyDictOf := keyDictOf;
      this.index := index;
      this.log := log;
    }

    /** `generate_key_dict`: a registry without observers discriminates by nothing, so every
        key dict is `{}`. */
    function GenerateKeyDict(key: string, kwargs: Kwargs): (d: Kwargs)
      reads this
      ensures observers == [] ==> d == map[]
    {
      if observers == [] then map[] else keyDictOf(key, kwargs)
    }

    /** `compose_register`: runs every observer's `register_event` in order, collecting failures. */
    method ComposeRegister(key: string, obj: Obj, kwargs: Kwargs) returns (o: Outcome)
      modifies index, log
      ensures var run := RunRegister(observers, old(index.items), key, obj, kwargs);
        && index.items == run.items
        && log.warnings == old(log.warnings) + run.warnings
        && o == Verdict(run.errors, skipValidation)
    {
      if observers == [] {
        return Pass;
      }
      ghost var full := RunRegister(observers, index.items, key, obj, kwargs);
      var errors: seq<string> := [];
      var i := 0;
      while i < |observers|
        invariant 0 <= i <= |observers|
        invariant full.items == RunRegister(observers[i..], index.items, key, obj, kwargs).items
        invariant full.errors == errors + RunRegister(observers[i..], index.items, key, obj, kwargs).errors
        invariant old(log.warnings) + full.warnings == log.warnings + RunRegister(observers[i..], index.items, key, obj, kwargs).warnings
      {
        RegisterAdvance(observers, i, index.items, key, obj, kwargs, full, errors, old(log.warnings), log.warnings);
        var out := ObserverRegister(observers[i], index, log, key, obj, kwargs);
        errors := errors + Lines(observers[i], out);
        i := i + 1;
      }
      assert observers[i..] == [];
      assert full.errors == errors;
      o := Verdict(errors, skipValidation);
    }

    /** `compose_call`: runs every observer's `call_event` in order, collecting failures. */
    method ComposeCall(key: string, kwargs: Kwargs) returns (o: Outcome)
      modifies log
      ensures var run := RunCall(observers, index.items, key, kwargs);
        && log.warnings == old(log.warnings) + run.warnings
        && o == Verdict(run.errors, skipValidation)
    {
      if observers == [] {
        return Pass;
      }
      ghost var full := RunCall(observers, index.items, key, kwargs);
      var errors: seq<string> := [];
      var i := 0;
      while i < |observers|
        invariant 0 <= i <= |observers|
        invariant full.errors == errors + RunCall(observers[i..], index.items, key, kwargs).errors
        invariant old(log.warnings) + full.warnings == log.warnings + RunCall(observers[i..], index.items, key, kwargs).warnings
      {
        CallAdvance(observers, i, index.items, key, kwargs, full, errors, old(log.warnings), log.warnings);
        var out := ObserverCall(observers[i], index, log, key, kwargs);
        errors := errors + Lines(observers[i], out);
        i := i + 1;
      }
      assert observers[i..] == [];
      assert full.errors == errors;
      o := Verdict(errors, skipValidation);
    }

    /** `register_event`. The facade swaps key and object when calling `compose_register`, which
        swaps them back when calling each observer, so observers see the real key and object. */
    method RegisterEvent(key: string, obj: Obj, kwargs: Kwargs) returns (o: Outcome)
      modifies index, log
      ensures var run := RunRegister(observers, old(index.items), key, obj, kwargs);
        && index.items == run.items
        && log.warnings == old(log.warnings) + run.warnings
        && o == Verdict(run.errors, skipValidation)
      ensures skipValidation ==> o == Pass
      ensures observers == [] ==> o == Pass && index.items == old(index.items) && log.warnings == old(log.warnings)
    {
      o := ComposeRegister(key, obj, kwargs);
    }

    /** `call_event`. */
    method CallEvent(key: string, kwargs: Kwargs) returns (o: Outcome)
      modifies log
      ensures var run := RunCall(observers, index.items, key, kwargs);
        && log.warnings == old(log.warnings) + run.warnings
        && o == Verdict(run.errors, skipValidation)
      ensures skipValidation ==> o == Pass
      ensures observers == [] ==> o == Pass && log.warnings == old(log.warnings)
    {
      o := Pass;
      if observers != [] {
        o := ComposeCall(key, kwargs);
      }
    }

    /** `get_info`: `{}` with no observers, otherwise one entry per observer name. */
    function GetInfo(key: string): (r: Result<map<string, Info>>)
      reads this, index
      ensures observers == [] ==> r == Ok(map[])
      ensures r.Ok? ==> r.value.Keys == set i | 0 <= i < |observers| :: Name(observers[i])
      ensures r.Ok? <==> forall i :: 0 <= i < |observers| ==> InfoOf(observers[i], index.items, key).Ok?
      ensures r.Ok? ==> forall i :: 0 <= i < |observers| && LastOfName(observers, i) ==>
                Ok(r.value[Name(observers[i])]) == InfoOf(observers[i], index.items, key)
    {
      CollectInfo(observers, index.items, key)
    }
  }
}
