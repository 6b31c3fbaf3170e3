/** The older `AbstractRegistry`: objects are stored by plain key in a unique-key index, and an
    optional observer facade validates registrations and lookups. */
module Registration {
  import opened Common
  import opened Metacoding
  import opened Observer
  import opened Facade
  import opened Registry

  const UseGetMethod := "Use the get method to call the registry."

  /** The `AttributeError` that reading information through a missing facade raises. */
  const NoFacade := AttributeError("'NoneType' object has no attribute 'get_info'")

  class AbstractRegistry {
    const index: UniqueDict<Obj>
    const arguments: UniqueDict<Obj>
    const facade: ObserverFacade?
    const log: Log

    /** The facade, when there is one, warns into the registry's log. */
    ghost predicate Valid()
      reads this, facade
    {
      facade != null ==> facade.log == log
    }

    constructor (index: UniqueDict<Obj>, arguments: UniqueDict<Obj>, facade: ObserverFacade?, log: Log)
      requires facade != null ==> facade.log == log
      ensures Valid()
      ensures this.index == index && this.arguments == arguments && this.facade == facade && this.log == log
    {
      this.index := index;
      this.arguments := arguments;
      this.facade := facade;
      this.log := log;
    }

    /** The objects the facade may change: its observer index and the log. */
    function FacadeState(): set<object>
      reads this, facade
    {
      if facade == null then {} else {facade.index, facade.log}
    }

    /** How the facade's `call_event` ends; a registry without a facade runs no check. */
    ghost function CallVerdict(key: string, kwargs: Kwargs): Outcome
      reads this, facade, if facade == null then {} else {facade.index}
    {
      if facade == null then Pass
      else Verdict(RunCall(facade.observers, facade.index.items, key, kwargs).errors, facade.skipValidation)
    }

    /** The warnings the facade's `call_event` emits. */
    ghost function CallWarnings(key: string, kwargs: Kwargs): seq<Warning>
      reads this, facade, if facade == null then {} else {facade.index}
    {
      if facade == null then [] else RunCall(facade.observers, facade.index.items, key, kwargs).warnings
    }

    /** `__call__`: registries are not called directly. */
    function Call(key: string): (r: Result<Obj>)
      ensures r == Err(NotImplementedError(UseGetMethod))
    {
      Err(NotImplementedError(UseGetMethod))
    }

    /** `__getitem__`: registries are not indexed directly. */
    function GetItem(key: string): (r: Result<Obj>)
      ensures r == Err(NotImplementedError(UseGetMethod))
    {
      Err(NotImplementedError(UseGetMethod))
    }

    /** `__contains__`. */
    function Contains(key: string): (b: bool)
      reads this, index
      ensures b <==> index.Get(key).Ok?
    {
      key in index.items
    }

    /** `__len__`: the number of registered keys. */
    function Len(): (n: nat)
      reads this, index
      ensures n == |index.items.Keys|
    {
      |index.items|
    }

    /** `register(key, **kwargs)(obj)`: the facade validates first (and records what its
        observers store, whatever happens next); only if it does not raise is `obj` stored under
        `key`, a key that is already taken raising `KeyError`. Returns `obj` unchanged. */
    method Register(key: string, kwargs: Kwargs, obj: Obj) returns (r: Result<Obj>)
      requires Valid()
      modifies index, FacadeState()
      ensures facade != null ==>
        var run := RunRegister(facade.observers, old(facade.index.items), key, obj, kwargs);
        facade.index.items == run.items && log.warnings == old(log.warnings) + run.warnings
      ensures facade == null ==> log.warnings == old(log.warnings)
      ensures r.Ok? ==> r.value == obj && key !in old(index.items) && index.items == old(index.items)[key := obj]
      ensures r.Err? ==> index.items == old(index.items)
      ensures facade != null && Verdict(RunRegister(facade.observers, old(facade.index.items), key, obj, kwargs).errors,
                                        facade.skipValidation).Fail? ==>
        r == Err(Verdict(RunRegister(facade.observers, old(facade.index.items), key, obj, kwargs).errors, facade.skipValidation).error)
      ensures key in old(index.items) ==> r.Err?
      ensures (facade == null || Verdict(RunRegister(facade.observers, old(facade.index.items), key, obj, kwargs).errors,
                                         facade.skipValidation).Pass?) ==>
        r == if key in old(index.items) then Err(DuplicateKey) else Ok(obj)
    {
      if facade != null {
        var v := facade.RegisterEvent(key, obj, kwargs);
        if v.Fail? {
          return Err(v.error);
        }
      }
      var o := index.Insert(key, obj);
      r := if o.Pass? then Ok(obj) else Err(o.error);
    }

    /** `register_prebuilt`: the same registration. */
    method RegisterPrebuilt(obj: Obj, key: string, kwargs: Kwargs) returns (o: Outcome)
      requires Valid()
      modifies index, FacadeState()
      ensures o.Pass? ==> key !in old(index.items) && index.items == old(index.items)[key := obj]
      ensures o.Fail? ==> index.items == old(index.items)
    {
      var r := Register(key, kwargs, obj);
      o := if r.Ok? then Pass else Fail(r.error);
    }

    /** `check_choice`: an unregistered key warns and gives `False`; a registered one runs the
        facade's lookup checks, whose error propagates, and gives `True`. */
    method CheckChoice(key: string, kwargs: Kwargs) returns (r: Result<bool>)
      requires Valid()
      modifies log
      ensures key !in index.items ==>
        r == Ok(false) && log.warnings == old(log.warnings) + [Warning(RegistrationWarning, NotValidChoice(key))]
      ensures key in index.items ==>
        && log.warnings == old(log.warnings) + CallWarnings(key, kwargs)
        && r == if CallVerdict(key, kwargs).Fail? then Err(CallVerdict(key, kwargs).error) else Ok(true)
    {
      if key !in index.items {
        log.Warn(Warning(RegistrationWarning, NotValidChoice(key)));
        return Ok(false);
      }
      if facade != null {
        var v := facade.CallEvent(key, kwargs);
        if v.Fail? {
          return Err(v.error);
        }
      }
      r := Ok(true);
    }

    /** `validate_choice`: an unregistered key raises `RegistrationError`; a registered one runs
        the facade's lookup checks and gives back the key. */
    method ValidateChoice(key: string, kwargs: Kwargs) returns (r: Result<string>)
      requires Valid()
      modifies log
      ensures key !in index.items ==>
        r == Err(RegistrationError(NotValidChoice(key))) && log.warnings == old(log.warnings)
      ensures key in index.items ==>
        && log.warnings == old(log.warnings) + CallWarnings(key, kwargs)
        && r == if CallVerdict(key, kwargs).Fail? then Err(CallVerdict(key, kwargs).error) else Ok(key)
    {
      if key !in index.items {
        return Err(RegistrationError(NotValidChoice(key)));
      }
      if facade != null {
        var v := facade.CallEvent(key, kwargs);
        if v.Fail? {
          return Err(v.error);
        }
      }
      r := Ok(key);
    }

    /** `get`: without a default it takes the validating path, with one the checking path that
        falls back to the default. A registered key whose lookup checks pass gives its object. */
    method Get(key: string, default: Option<Obj>, kwargs: Kwargs) returns (r: Result<Obj>)
      requires Valid()
      modifies log
      ensures key in index.items ==>
        && log.warnings == old(log.warnings) + CallWarnings(key, kwargs)
        && r == if CallVerdict(key, kwargs).Fail? then Err(CallVerdict(key, kwargs).error) else Ok(index.items[key])
      ensures key !in index.items && default.None? ==>
        r == Err(RegistrationError(NotValidChoice(key))) && log.warnings == old(log.warnings)
      ensures key !in index.items && default.Some? ==>
        r == Ok(default.value) && log.warnings == old(log.warnings) + [Warning(RegistrationWarning, NotValidChoice(key))]
    {
      if default.None? {
        var v := ValidateChoice(key, kwargs);
        if v.Err? {
          return Err(v.error);
        }
        r := Ok(index.items[key]);
      } else {
        var c := CheckChoice(key, kwargs);
        if c.Err? {
          return Err(c.error);
        }
        r := if key in index.items then Ok(index.items[key]) else Ok(default.value);
      }
    }

    /** `get_choice`: the legacy name of `get` without a default or keyword arguments. */
    method GetChoice(key: string) returns (r: Result<Obj>)
      requires Valid()
      modifies log
      ensures key !in index.items ==> r == Err(RegistrationError(NotValidChoice(key)))
      ensures key in index.items && CallVerdict(key, map[]).Pass? ==> r == Ok(index.items[key])
      ensures key in index.items && CallVerdict(key, map[]).Fail? ==> r == Err(CallVerdict(key, map[]).error)
      ensures log.warnings == old(log.warnings) + if key in index.items then CallWarnings(key, map[]) else []
    {
      r := Get(key, None, map[]);
    }

    /** `get_info`: the facade's information for the key. */
    function GetInfo(key: string): (r: Result<map<string, Info>>)
      reads this, facade, if facade == null then {} else {facade.index}
      ensures facade == null ==> r == Err(NoFacade)
      ensures facade != null ==> r == facade.GetInfo(key)
    {
      if facade == null then Err(NoFacade) else facade.GetInfo(key)
    }

    /** `reset`: empties the index. */
    method Reset()
      modifies index
      ensures index.items == map[] && Len() == 0
    {
      index.Clear();
    }

    /** `register_arguments(key)(argument_class)`: stores the class and returns it; a key that
        already has one raises `KeyError` and keeps it. */
    method RegisterArguments(key: string, argumentClass: Obj) returns (r: Result<Obj>)
      modifies arguments
      ensures key in old(arguments.items) ==> r == Err(DuplicateKey) && arguments.items == old(arguments.items)
      ensures key !in old(arguments.items) ==> r == Ok(argumentClass) && arguments.items == old(arguments.items)[key := argumentClass]
    {
      var o := arguments.Insert(key, argumentClass);
      r := if o.Pass? then Ok(argumentClass) else Err(o.error);
    }

    /** `get_arguments`: the class registered for the key, or `KeyError`. */
    function GetArguments(key: string): (r: Result<Obj>)
      reads this, arguments
      ensures r.Ok? <==> key in arguments.items
      ensures r.Ok? ==> r.value == arguments.items[key]
    {
      arguments.Get(key)
    }
  }

  /** Registering and then getting a key without a facade returns the object; after `reset` the
      same `get` raises `RegistrationError`. */
  method RegisterGetReset(reg: AbstractRegistry, key: string, obj: Obj) returns (first: Result<Obj>, got: Result<Obj>, after: Result<Obj>)
    requires reg.Valid() && reg.facade == null && key !in reg.index.items
    modifies reg.index, reg.log
    ensures first == Ok(obj) && got == Ok(obj)
    ensures after == Err(RegistrationError(NotValidChoice(key)))
  {
    first := reg.Register(key, map[], obj);
    got := reg.Get(key, None, map[]);
    reg.Reset();
    after := reg.Get(key, None, map[]);
  }

  /** Arguments registered under a key are read back unchanged, and a second registration under
      the same key raises. */
  method ArgumentsRoundTrip(reg: AbstractRegistry, key: string, first: Obj, second: Obj) returns (stored: Result<Obj>, again: Result<Obj>, got: Result<Obj>)
    requires key !in reg.arguments.items
    modifies reg.arguments
    ensures stored == Ok(first) && again == Err(DuplicateKey) && got == Ok(first)
  {
    stored := reg.RegisterArguments(key, first);
    again := reg.RegisterArguments(key, second);
    got := reg.GetArguments(key);
  }
}
