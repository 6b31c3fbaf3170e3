/** The first-generation registry: a registry class keeps its objects and its argument classes
    in two `IndexDict`s, which are the one `SharedIndexDict` when the registry is shared. */
module AbstractRegistration {
  import opened Common
  import opened Metacoding
  import opened AbstractIndex
  import opened AbstractAccreditation

  /** The message of `validate_choice`'s error and of `check_choice`'s warning. */
  function NotValidChoice(key: string): string {
    key + " is not a valid choice."
  }

  /** `validate_choice` takes no keyword arguments, so `get` without a default raises this as
      soon as it forwards any. */
  const UnexpectedKeyword := TypeError("AbstractRegistry.validate_choice() got an unexpected keyword argument")

  class AbstractRegistry {
    const index: IndexDict
    const arguments: IndexDict
    const log: Log

    constructor (index: IndexDict, arguments: IndexDict, log: Log)
      ensures this.index == index && this.arguments == arguments && this.log == log
    {
      this.index := index;
      this.arguments := arguments;
      this.log := log;
    }

    /** `__call__`: the object registered under `key`, looked up through the index and its
        post-checks. */
    method Call(key: string) returns (r: Result<Obj>)
      ensures key !in index.items ==> r == Err(MissingKey)
      ensures key in index.items ==>
        r == if index.CallVerdict(key).Fail? then Err(index.CallVerdict(key).error) else Ok(index.items[key])
    {
      r := index.GetItem(key);
    }

    /** `__getitem__`: the same lookup. */
    method GetItem(key: string) returns (r: Result<Obj>)
      ensures key !in index.items ==> r == Err(MissingKey)
      ensures key in index.items ==>
        r == if index.CallVerdict(key).Fail? then Err(index.CallVerdict(key).error) else Ok(index.items[key])
    {
      r := index.GetItem(key);
    }

    /** `__contains__`: exactly the keys `validate_choice` accepts. */
    function Contains(key: string): (b: bool)
      reads this, index
      ensures b <==> ValidateChoice(key).Ok?
    {
      key in index.items
    }

    /** `__len__`. */
    function Len(): (n: nat)
      reads this, index
      ensures n == |index.items.Keys|
    {
      |index.items|
    }

    /** `check_choice`: whether the key is registered, warning when it is not. */
    method CheckChoice(key: string) returns (b: bool)
      modifies log
      ensures b <==> key in index.items
      ensures log.warnings == old(log.warnings) + if b then [] else [Warning(RegistrationWarning, NotValidChoice(key))]
    {
      if key !in index.items {
        log.Warn(Warning(RegistrationWarning, NotValidChoice(key)));
        return false;
      }
      b := true;
    }

    /** `validate_choice`: the key itself when registered, `RegistrationError` otherwise. */
    function ValidateChoice(key: string): (r: Result<string>)
      reads this, index
      ensures r.Ok? <==> key in index.items
      ensures r.Ok? ==> r.value == key
      ensures r.Err? ==> r.error == RegistrationError(NotValidChoice(key))
    {
      if key !in index.items then Err(RegistrationError(NotValidChoice(key))) else Ok(key)
    }

    /** `get`. Without a default it validates the key (forwarding keyword arguments that
        `validate_choice` refuses) and looks it up through the post-checks; with one it checks
        the key and reads the dictionary directly, so no post-check runs and an unregistered key
        gives the default after a warning. */
    method Get(key: string, default: Option<Obj>, kwargs: Kwargs) returns (r: Result<Obj>)
      modifies log
      ensures default.None? ==> log.warnings == old(log.warnings)
      ensures default.None? && kwargs != map[] ==> r == Err(UnexpectedKeyword)
      ensures default.None? && kwargs == map[] && key !in index.items ==> r == Err(RegistrationError(NotValidChoice(key)))
      ensures default.None? && kwargs == map[] && key in index.items ==>
        r == if index.CallVerdict(key).Fail? then Err(index.CallVerdict(key).error) else Ok(index.items[key])
      ensures default.Some? ==>
        && r == Ok(if key in index.items then index.items[key] else default.value)
        && log.warnings == old(log.warnings) + if key in index.items then [] else [Warning(RegistrationWarning, NotValidChoice(key))]
    {
      if default.None? {
        if kwargs != map[] {
          return Err(UnexpectedKeyword);
        }
        var v := ValidateChoice(key);
        if v.Err? {
          return Err(v.error);
        }
        r := index.GetItem(key);
      } else {
        var _ := CheckChoice(key);
        r := Ok(if key in index.items then index.items[key] else default.value);
      }
    }

    /** `get_choice`: the legacy name of `get` without a default. */
    method GetChoice(key: string) returns (r: Result<Obj>)
      modifies log
      ensures key !in index.items ==> r == Err(RegistrationError(NotValidChoice(key)))
      ensures key in index.items && index.CallVerdict(key).Pass? ==> r == Ok(index.items[key])
      ensures key in index.items && index.CallVerdict(key).Fail? ==> r == Err(index.CallVerdict(key).error)
      ensures log.warnings == old(log.warnings)
    {
      r := Get(key, None, map[]);
    }

    /** `register(key, **kwargs)(obj)`: stores `obj` through the index, whose post-checks run
        first, and returns it unchanged; the keyword arguments are not used. */
    method Register(key: string, kwargs: Kwargs, obj: Obj) returns (r: Result<Obj>)
      modifies index
      ensures index.postChecks == old(index.postChecks)
      ensures key in old(index.items) ==> r == Err(DuplicateKey) && index.items == old(index.items)
      ensures key !in old(index.items) && index.RegisterVerdict(obj, key).Fail? ==>
        r == Err(index.RegisterVerdict(obj, key).error) && index.items == old(index.items)
      ensures key !in old(index.items) && index.RegisterVerdict(obj, key).Pass? ==>
        r == Ok(obj) && index.items == old(index.items)[key := obj]
    {
      var o := index.SetItem(key, obj);
      r := if o.Pass? then Ok(obj) else Err(o.error);
    }

    /** `register_prebuilt`: the same registration. */
    method RegisterPrebuilt(obj: Obj, key: string, kwargs: Kwargs) returns (o: Outcome)
      modifies index
      ensures index.postChecks == old(index.postChecks)
      ensures o.Pass? <==> key !in old(index.items) && index.RegisterVerdict(obj, key).Pass?
      ensures index.items == if o.Pass? then old(index.items)[key := obj] else old(index.items)
    {
      var r := Register(key, kwargs, obj);
      o := if r.Ok? then Pass else Fail(r.error);
    }

    /** `reset`: empties the index (and, in a shared registry, the arguments with it). */
    method Reset()
      modifies index
      ensures index.items == map[] && Len() == 0 && index.postChecks == old(index.postChecks)
    {
      index.Clear();
    }

    /** `register_arguments(key)(argument_class)`: stores the class through the arguments
        dictionary and returns it. */
    method RegisterArguments(key: string, argumentClass: Obj) returns (r: Result<Obj>)
      modifies arguments
      ensures arguments.postChecks == old(arguments.postChecks)
      ensures key in old(arguments.items) ==> r == Err(DuplicateKey) && arguments.items == old(arguments.items)
      ensures key !in old(arguments.items) ==>
        && r == (if arguments.RegisterVerdict(argumentClass, key).Pass? then Ok(argumentClass)
                 else Err(arguments.RegisterVerdict(argumentClass, key).error))
        && arguments.items == if r.Ok? then old(arguments.items)[key := argumentClass] else old(arguments.items)
    {
      var o := arguments.SetItem(key, argumentClass);
      r := if o.Pass? then Ok(argumentClass) else Err(o.error);
    }

    /** `get_arguments`: the class registered under the key, through the post-checks. */
    method GetArguments(key: string) returns (r: Result<Obj>)
      ensures key !in arguments.items ==> r == Err(MissingKey)
      ensures key in arguments.items ==>
        r == if arguments.CallVerdict(key).Fail? then Err(arguments.CallVerdict(key).error) else Ok(arguments.items[key])
    {
      r := arguments.GetItem(key);
    }
  }

  /** The factory of the first generation: the `SharedIndexDict` class state, the class-level
      accreditation ledger and the warning log. */
  class Factory {
    const sharedIndex: SharedIndexDictClass
    const accreditation: Accreditation
    const log: Log

    constructor (sharedIndex: SharedIndexDictClass, accreditation: Accreditation, log: Log)
      ensures this.sharedIndex == sharedIndex && this.accreditation == accreditation && this.log == log
    {
      this.sharedIndex := sharedIndex;
      this.accreditation := accreditation;
      this.log := log;
    }

    /** `create_registry`. A private registry gets two fresh, empty, distinct dictionaries with
        the given post-checks. A shared one gets the single `SharedIndexDict` as both its index
        and its arguments; that dictionary keeps whatever earlier shared registries stored and
        takes the new post-checks. */
    method CreateRegistry(shared: bool, postChecks: Option<seq<PostCheck>>) returns (reg: AbstractRegistry)
      modifies sharedIndex, sharedIndex.instance
      ensures fresh(reg) && reg.log == log
      ensures reg.index.postChecks == postChecks && reg.arguments.postChecks == postChecks
      ensures !shared ==>
        && fresh(reg.index) && fresh(reg.arguments) && reg.index != reg.arguments
        && reg.index.items == map[] && reg.arguments.items == map[]
        && sharedIndex.instance == old(sharedIndex.instance)
        && (sharedIndex.instance != null ==> unchanged(sharedIndex.instance))
      ensures shared ==>
        && reg.index == reg.arguments == sharedIndex.instance
        && (old(sharedIndex.instance) != null ==>
              reg.index == old(sharedIndex.instance) && reg.index.items == old(sharedIndex.instance.items))
        && (old(sharedIndex.instance) == null ==> fresh(reg.index) && reg.index.items == map[])
    {
      var index: IndexDict;
      var arguments: IndexDict;
      if shared {
        index := sharedIndex.New(postChecks);
        arguments := sharedIndex.New(postChecks);
      } else {
        index := new IndexDict(postChecks);
        arguments := new IndexDict(postChecks);
      }
      reg := new AbstractRegistry(index, arguments, log);
    }

    /** `get_info`: the accreditation of the key. */
    function GetInfo(key: string): (r: Result<Credit>)
      reads this, accreditation, accreditation.accreditations
      ensures r.Ok? <==> key in accreditation.accreditations.items
      ensures r.Ok? ==> r.value == accreditation.accreditations.items[key]
    {
      accreditation.Get(key)
    }
  }

  /** Sharing: what a shared registry registers is invisible to a private one, which may
      register the same key itself; two shared registries see each other's objects, and since
      a shared registry's index is also its arguments dictionary, registering arguments under a
      key already holding an object raises. */
  method SharingScenario(f: Factory, key: string, obj: Obj, other: Obj, argumentClass: Obj)
    returns (inPrivate: Result<Obj>, privateRegister: Result<Obj>, seenByShared: bool, argumentsClash: Result<Obj>)
    requires f.sharedIndex.instance == null
    modifies f.sharedIndex, f.log
    ensures inPrivate == Err(RegistrationError(NotValidChoice(key)))
    ensures privateRegister == Ok(other)
    ensures seenByShared
    ensures argumentsClash == Err(DuplicateKey)
  {
    var sharedReg := f.CreateRegistry(true, None);
    var privateReg := f.CreateRegistry(false, None);
    var stored := sharedReg.Register(key, map[], obj);
    inPrivate := privateReg.Get(key, None, map[]);
    privateRegister := privateReg.Register(key, map[], other);
    var secondShared := f.CreateRegistry(true, None);
    seenByShared := secondShared.Contains(key);
    argumentsClash := secondShared.RegisterArguments(key, argumentClass);
  }

  /** The post-checks run on registration: a registry whose only check rejects every object
      stores nothing and reports the check's error. */
  method RejectingCheckBlocksRegistration(f: Factory, key: string, obj: Obj, e: Error) returns (r: Result<Obj>, after: bool)
    modifies f.sharedIndex, f.sharedIndex.instance
    ensures r == Err(e) && !after
  {
    var check := PostCheck((o: Obj, k: string) => Fail(e), (k: string) => Pass);
    var reg := f.CreateRegistry(false, Some([check]));
    r := reg.Register(key, map[], obj);
    after := reg.Contains(key);
  }
}
