/** `AbstractRegistry`: the public surface of a registry created by the factory. Every operation
    goes through the registry's mediator and its hash table. */
module Registry {
  import opened Common
  import opened Facade
  import opened Index
  import opened Mediator

  const UseGet := "Use the get() method to call the registry."

  /** The message of the error `get` raises, and of the warning it emits before returning the
      default. */
  function NotRegisteredMessage(key: string): string {
    key + " is not registered."
  }

  function ReturningDefault(key: string): string {
    key + " is not registered. Returning default."
  }

  function NotValidChoice(key: string): string {
    key + " is not a valid choice."
  }

  /** One registry class: its hash and its mediator. */
  class AbstractRegistry {
    const registryHash: nat
    const mediator: HashMediator

    constructor (registryHash: nat, mediator: HashMediator)
      ensures this.registryHash == registryHash && this.mediator == mediator
    {
      this.registryHash := registryHash;
      this.mediator := mediator;
    }

    /** The hash table behind the registry and the warning log. */
    function Table(): HashTable
      reads this, mediator
    {
      mediator.table
    }

    /** `__call__`: registries are not called directly. */
    function Call(key: string): (r: Result<Obj>)
      ensures r == Err(NotImplementedError(UseGet))
    {
      Err(NotImplementedError(UseGet))
    }

    /** `__getitem__`: registries are not indexed directly. */
    function GetItem(key: string): (r: Result<Obj>)
      ensures r == Err(NotImplementedError(UseGet))
    {
      Err(NotImplementedError(UseGet))
    }

    /** `__contains__`: whether the composite key derived from `key` and `kwargs` has a slot. */
    function Contains(key: string, kwargs: Kwargs): (b: bool)
      reads this, mediator, mediator.facade, mediator.table
      ensures b <==> SlotOf(Table().slots, mediator.Address(key, kwargs)).Some?
      ensures Table().Valid() ==> (b <==> Lookup(Table().slots, Table().data, mediator.Address(key, kwargs)).Some?)
    {
      mediator.Address(key, kwargs) in mediator.table.slots.Values
    }

    /** `__len__`: the number of slots, which is the number of registered composite keys. */
    function Len(): (n: nat)
      reads this, mediator, mediator.table
      ensures Table().Valid() ==> n == Table().Len() == |Table().slots.Values|
    {
      |mediator.table.slots|
    }

    /** `register(key, **kwargs)(obj)`: hands `obj` to the mediator and returns it unchanged. */
    method Register(key: string, kwargs: Kwargs, obj: Obj) returns (r: Result<Obj>)
      requires Table().Valid()
      modifies mediator.table, mediator.table.rng, mediator.facade.index, mediator.facade.log
      ensures Table().Valid()
      ensures r.Ok? ==> r.value == obj
      ensures r.Ok? ==> Lookup(Table().slots, Table().data, mediator.Address(key, kwargs)) == Some(obj)
      ensures r.Ok? ==> mediator.Address(key, kwargs) !in old(Table().slots.Values) && Len() == old(Len()) + 1
      ensures r.Err? ==> Table().Snapshot() == old(Table().Snapshot())
      ensures mediator.Address(key, kwargs) in old(Table().slots.Values) ==> r.Err? && Table().Snapshot() == old(Table().Snapshot())
      ensures var run := RunRegister(mediator.facade.observers, old(mediator.facade.index.items), key, obj, kwargs);
        var verdict := Verdict(run.errors, mediator.facade.skipValidation);
        && mediator.facade.index.items == run.items
        && mediator.facade.log.warnings == old(mediator.facade.log.warnings) + run.warnings
        && (verdict.Fail? ==> r == Err(verdict.error))
        && (verdict.Pass? && mediator.Address(key, kwargs) in old(Table().slots.Values) ==>
              r == Err(AlreadyRegistered(mediator.Address(key, kwargs))))
        && (verdict.Pass? && mediator.Address(key, kwargs) !in old(Table().slots.Values) ==>
              r == Ok(obj) || (r == Err(HashExhaustion) && old(Table().slots) != map[]))
    {
      var o := mediator.RegisterEvent(key, obj, kwargs);
      r := if o.Pass? then Ok(obj) else Err(o.error);
    }

    /** `register_prebuilt`: the same registration, returning nothing. */
    method RegisterPrebuilt(obj: Obj, key: string, kwargs: Kwargs) returns (o: Outcome)
      requires Table().Valid()
      modifies mediator.table, mediator.table.rng, mediator.facade.index, mediator.facade.log
      ensures Table().Valid()
      ensures o.Pass? ==> Lookup(Table().slots, Table().data, mediator.Address(key, kwargs)) == Some(obj)
      ensures mediator.Address(key, kwargs) in old(Table().slots.Values) ==> o.Fail? && Table().Snapshot() == old(Table().Snapshot())
      ensures var run := RunRegister(mediator.facade.observers, old(mediator.facade.index.items), key, obj, kwargs);
        var verdict := Verdict(run.errors, mediator.facade.skipValidation);
        && mediator.facade.index.items == run.items
        && mediator.facade.log.warnings == old(mediator.facade.log.warnings) + run.warnings
        && (verdict.Fail? ==> o == Fail(verdict.error))
        && (verdict.Pass? && mediator.Address(key, kwargs) in old(Table().slots.Values) ==>
              o == Fail(AlreadyRegistered(mediator.Address(key, kwargs))))
        && (verdict.Pass? && mediator.Address(key, kwargs) !in old(Table().slots.Values) ==>
              o == Pass || (o == Fail(HashExhaustion) && old(Table().slots) != map[]))
    {
      var r := Register(key, kwargs, obj);
      o := if r.Ok? then Pass else Fail(r.error);
    }

    /** `get`: the looked-up object; on any failure `RegistrationError` when there is no
        default, and otherwise a `RegistrationWarning` and the default. */
    method Get(key: string, default: Option<Obj>, kwargs: Kwargs) returns (r: Result<Obj>)
      requires Table().Valid()
      modifies mediator.facade.log
      ensures var call := mediator.CallResult(key, kwargs);
        var emitted := mediator.CallWarnings(key, kwargs);
        && (call.Ok? ==> r == call && mediator.facade.log.warnings == old(mediator.facade.log.warnings) + emitted)
        && (call.Err? && default.None? ==>
              r == Err(RegistrationError(NotRegisteredMessage(key)))
              && mediator.facade.log.warnings == old(mediator.facade.log.warnings) + emitted)
        && (call.Err? && default.Some? ==>
              r == Ok(default.value)
              && mediator.facade.log.warnings == old(mediator.facade.log.warnings) + emitted
                   + [Warning(RegistrationWarning, ReturningDefault(key))])
    {
      var call := mediator.CallEvent(key, kwargs);
      if call.Ok? {
        return call;
      }
      if default.None? {
        return Err(RegistrationError(NotRegisteredMessage(key)));
      }
      mediator.facade.log.Warn(Warning(RegistrationWarning, ReturningDefault(key)));
      r := Ok(default.value);
    }

    /** `get_choice`: the legacy name of `get` without a default. */
    method GetChoice(key: string, kwargs: Kwargs) returns (r: Result<Obj>)
      requires Table().Valid()
      modifies mediator.facade.log
      ensures var call := mediator.CallResult(key, kwargs);
        r == if call.Ok? then call else Err(RegistrationError(NotRegisteredMessage(key)))
      ensures mediator.facade.log.warnings == old(mediator.facade.log.warnings) + mediator.CallWarnings(key, kwargs)
    {
      r := Get(key, None, kwargs);
    }

    /** `get_info`: the metadata of the composite key. */
    method GetInfo(key: string, kwargs: Kwargs) returns (r: Result<Kwargs>)
      requires Table().Valid()
      ensures mediator.Address(key, kwargs) !in Table().slots.Values ==> r == Err(NotRegistered(mediator.Address(key, kwargs)))
      ensures mediator.Address(key, kwargs) in Table().slots.Values ==>
        var id := SlotOf(Table().slots, mediator.Address(key, kwargs)).value;
        r == (if id in Table().metaDict then Ok(Table().metaDict[id]) else Err(KeyError(NatToString(id))))
    {
      r := mediator.GetMeta(key, kwargs);
    }

    /** `check_choice`: whether the composite key is registered, warning when it is not; an
        absent key never raises. */
    method CheckChoice(key: string, kwargs: Kwargs) returns (b: bool)
      modifies mediator.facade.log
      ensures b <==> mediator.Address(key, kwargs) in Table().slots.Values
      ensures mediator.facade.log.warnings ==
                old(mediator.facade.log.warnings) + if b then [] else [Warning(RegistrationWarning, NotValidChoice(key))]
    {
      var keyDict := mediator.KeyDict(key, kwargs);
      if CompositeKey(key, keyDict) !in mediator.table.slots.Values {
        mediator.facade.log.Warn(Warning(RegistrationWarning, NotValidChoice(key)));
        return false;
      }
      b := true;
    }

    /** `validate_choice`: raises `RegistrationError` exactly when the composite key is not
        registered; it changes nothing. */
    function ValidateChoice(key: string, kwargs: Kwargs): (o: Outcome)
      reads this, mediator, mediator.facade, mediator.table
      ensures o.Pass? <==> Contains(key, kwargs)
      ensures o.Fail? ==> o.error == RegistrationError(NotValidChoice(key))
    {
      if mediator.Address(key, kwargs) !in mediator.table.slots.Values then Fail(RegistrationError(NotValidChoice(key)))
      else Pass
    }

    /** `reset`: empties the table (the argument classes included). */
    method Reset()
      modifies mediator.table
      ensures Table().Valid() && Len() == 0
      ensures Table().slots == map[] && Table().data == map[] && Table().metaDict == map[] && Table().arguments == map[]
    {
      mediator.table.Clear();
    }

    /** `register_arguments(key, **kwargs)(argument_class)`: stores the argument class under the
        composite key and returns it; a composite key that already has one raises `KeyError`. */
    method RegisterArguments(key: string, kwargs: Kwargs, argumentClass: Obj) returns (r: Result<Obj>)
      modifies mediator.table
      ensures Table().Snapshot() == old(Table().Snapshot())
      ensures mediator.Address(key, kwargs) in old(Table().arguments) ==>
                r == Err(AlreadyRegistered(mediator.Address(key, kwargs))) && Table().arguments == old(Table().arguments)
      ensures mediator.Address(key, kwargs) !in old(Table().arguments) ==>
                r == Ok(argumentClass) && Table().arguments == old(Table().arguments)[mediator.Address(key, kwargs) := argumentClass]
    {
      var keyDict := mediator.KeyDict(key, kwargs);
      var o := mediator.table.SetArguments(key, keyDict, argumentClass);
      r := if o.Pass? then Ok(argumentClass) else Err(o.error);
    }

    /** `get_arguments`: the argument class of the composite key. */
    function GetArguments(key: string, kwargs: Kwargs): (r: Result<Obj>)
      reads this, mediator, mediator.facade, mediator.table
      ensures r.Ok? <==> mediator.Address(key, kwargs) in Table().arguments
      ensures r.Ok? ==> r.value == Table().arguments[mediator.Address(key, kwargs)]
    {
      mediator.table.GetArguments(key, mediator.KeyDict(key, kwargs))
    }
  }

  /** After `reset` the registry is empty and every `get` without a default fails. */
  method ResetThenGet(reg: AbstractRegistry, key: string, kwargs: Kwargs) returns (n: nat, r: Result<Obj>)
    modifies reg.mediator.table, reg.mediator.facade.log
    ensures n == 0
    ensures r == Err(RegistrationError(NotRegisteredMessage(key)))
  {
    reg.Reset();
    n := reg.Len();
    r := reg.Get(key, None, kwargs);
  }

  /** Registering arguments and reading them back with the same keyword arguments returns the
      registered class; registering a second class there raises and keeps the first. */
  method ArgumentsRoundTrip(reg: AbstractRegistry, key: string, kwargs: Kwargs, first: Obj, second: Obj)
    returns (stored: Result<Obj>, again: Result<Obj>, got: Result<Obj>)
    requires reg.mediator.Address(key, kwargs) !in reg.Table().arguments
    modifies reg.mediator.table
    ensures stored == Ok(first) && got == Ok(first)
    ensures again.Err? && again.error.KeyError?
  {
    stored := reg.RegisterArguments(key, kwargs, first);
    again := reg.RegisterArguments(key, kwargs, second);
    got := reg.GetArguments(key, kwargs);
  }
}
