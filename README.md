# registry-factory in Dafny

This project models the in-memory plugin registry of `registry-factory` and proves properties of
the model. Callers register objects under a string key and keyword parameters, and look them up
again. The repository holds two generations of the registry, and both are modelled.

**The current `registry_factory` package.**

- `HashTable` keeps three maps keyed by random slot ids: slot id to composite key (key plus key
  dict), slot id to object, and slot id to optional metadata.
  - It refuses a composite key that is already registered.
  - It finds a slot by a linear scan.
  - It draws fresh slot ids with a bounded number of retries.
- Observers gate registration and lookup, writing into one class-level `UniqueDict`. There are
  three: `MetaInformationObserver` (required metadata fields), `FactoryPattern` (structural
  conformance) and `Testing` (a caller-supplied test).
- `ObserverFacade` runs every observer and raises one joined error unless validation is skipped.
- `HashMediator` orders the steps of an event, and `AbstractRegistry` is the public surface.
- `Factory` hands out shared or private registries.
- `tools.py` holds dictionary and function helpers.

**The first-generation `abstract_codebase` package.**

- `IndexDict` runs post-checks on every store and lookup.
- A dict-backed `AbstractRegistry` and its `Factory`.
- The accreditation ledger.
- A subclass-only `FactoryPattern`.
- `Config`, which merges configuration groups.

**How the model is built.** There is one module per source file, and each takes the form of its
source.

- An object whose methods update its fields is a `class` with `modifies` clauses: `HashTable`,
  `UniqueDict`, the facade, the mediator, the registries, the factories, `Accreditation` and
  `Config`.
- Loops are `while` loops with invariants, each proved against a specification function:
  - slot-id generation, the slot scan and the missing-field collection;
  - the field comparison, the observer runs and the post-check runs;
  - the configuration merge.
- Pure decisions are functions, for example pattern matching and the `tools.py` helpers.
- Exceptions are `Outcome`/`Result` values over an `Error` datatype, and `Text(e)` is `str(e)`.
- Warnings are appended to a `Log` object.
- `random.getrandbits` is a `RandomSource` object: a fixed stream of draws and a position in it.
- Keyword arguments are `map<string, Value>`, and registered objects are the `Obj` datatype:
  classes with their ancestors, attributes and metaclass, functions with their annotations, or
  other instances with the metaclass of their type.

## Model

| member | source | states |
|---|---|---|
| Common.RandomSource.GetRandBits | registry_factory/index.py:40 | a draw is the next value of the random stream reduced below 2^k; exactly one draw is consumed |
| Common.ToMapLast | registry_factory/tools.py:17-18 | in a dict built from ordered pairs, a key holds the value of its last occurrence |
| Common.ToMapSize | registry_factory/tools.py:17-18 | a dict built from n pairs has at most n keys |
| Metacoding.UniqueDict.Insert | registry_factory/patterns/metacoding.py:46-50 | an absent key gains exactly that binding; a present key raises `KeyError` and keeps its value |
| Metacoding.UniqueDict.Get | registry_factory/patterns/metacoding.py:43-44 | lookup succeeds iff the key is bound, returning the bound value; otherwise `KeyError` with the key |
| Metacoding.UniqueDict.Clear | registry_factory/registration.py:148-150 | the dict is empty afterwards |
| Metacoding.MetaRegistry.Register | registry_factory/patterns/metacoding.py:58-66 | returns the object unchanged and binds it under the name; a name already used raises `KeyError` and keeps the first object |
| Metacoding.MetaRegistryRejectsSecondName | registry_factory/patterns/metacoding.py:56-64 | registering one name twice: the first returns the object, the second raises, the first object stays |
| Metacoding.Singleton.New | registry_factory/patterns/metacoding.py:13-16 | the first construction caches its instance; every later construction returns the cached one |
| Metacoding.SingletonConstructionsAgree | registry_factory/patterns/metacoding.py:8-16 | three constructions all return the first instance |
| Index.SlotOf | registry_factory/index.py:64-68 | a composite key has a slot iff it is among the slot values, and the slot found holds it |
| Index.SlotOfUnique | registry_factory/index.py:50-52 | in a table without duplicate composite keys, the slot holding a key is the only one |
| Index.InsertThenLookup | registry_factory/index.py:49-72 | adding a fresh key under a fresh id keeps keys unique, makes the key find its object and changes no other key's lookup |
| Index.InjectiveCount | registry_factory/index.py:87-88 | the number of slots equals the number of distinct registered composite keys |
| Index.DrawFresh | registry_factory/index.py:39-47 | success gives a candidate below 2^bitsize that is not in use; every earlier draw collided; at most max_generation+1 draws; failure only after the last retry collides |
| Index.HashTable.constructor | registry_factory/index.py:31-37 | a new table is empty and consistent, with bit size 256 and retry bound 1000 (the empty maps are supplied by the model; see Left out) |
| Index.HashTable.GenerateHash | registry_factory/index.py:39-47 | a generated id is below 2^bitsize and is not a slot id yet; retries are bounded by max_generation |
| Index.HashTable.Set | registry_factory/index.py:49-58 | a registered composite key raises `KeyError` and changes no map; otherwise exactly one fresh id is added with the key and value, metadata is stored only when given, length grows by one and the uniqueness invariant is kept |
| Index.HashTable.GetHash | registry_factory/index.py:64-68 | the scan finds the slot holding the composite key iff one exists; otherwise `KeyError` |
| Index.HashTable.SetMeta | registry_factory/index.py:60-62 | a registered key's metadata is replaced and nothing else changes; an absent key raises `KeyError` |
| Index.HashTable.Get | registry_factory/index.py:70-72 | returns the object stored for the composite key iff it is registered; otherwise `KeyError` |
| Index.HashTable.GetMeta | registry_factory/index.py:74-76 | an absent key raises; a registered key gives its metadata, or `KeyError` with the slot id when none was stored |
| Index.HashTable.DeleteAsWritten | registry_factory/index.py:78-82 | the slot and object are removed before the metadata lookup, so a key stored without metadata is removed and `KeyError` is raised anyway |
| Index.HashTable.Delete | registry_factory/index.py:78-82 | succeeds iff the key is registered; its slot id leaves all three maps together, other slots are untouched, length drops by one |
| Index.HashTable.Contains | registry_factory/index.py:84-85 | true iff some slot holds the composite key |
| Index.HashTable.Len | registry_factory/index.py:87-88 | the number of distinct registered composite keys |
| Index.HashTable.Clear | registry_factory/registry.py:117-119 | all maps, the argument classes included, are empty and the table is consistent |
| Index.HashTable.SetArguments | registry_factory/registry.py:125-128 | an argument class is bound to a new composite key; a key already bound raises `KeyError`; the slot maps never change |
| Index.HashTable.GetArguments | registry_factory/registry.py:133-136 | returns the class bound to the composite key iff there is one |
| Index.DeleteWithoutMetaIsPartial | registry_factory/index.py:78-82 | a key stored without metadata: the as-written delete raises yet the key is gone; the intended delete succeeds |
| Index.SetThenGet | registry_factory/index.py:49-72 | a successful `set` followed by `get` of the same composite key returns the stored object |
| Index.IndexDictClass.New | registry_factory/index.py:12-25 | with `shared=True` every construction returns the one instance, with its entries kept, warning when asked; any other construction is a fresh empty dict |
| Index.SharedIndexDictIsOneObject | registry_factory/index.py:12-22 | two shared constructions are one dict that sees each other's entries; an unshared one is separate and empty |
| Observer.GetEntry | registry_factory/patterns/observer.py:24-25 | the entry stored under the key, or `KeyError` |
| Observer.NewMetaInformationObserver | registry_factory/patterns/observer.py:32-37 | a non-dataclass schema raises `TypeError`; otherwise the parameters are the field names in order |
| Observer.MissingExactly | registry_factory/patterns/observer.py:40-43 | a field is missing iff it is declared and not among the keyword arguments |
| Observer.NoneMissing | registry_factory/patterns/observer.py:40-46 | nothing is missing when every declared field is given |
| Observer.MissingFields | registry_factory/patterns/observer.py:40-43 | the loop collects exactly the declared fields absent from the keyword arguments, in declaration order |
| Observer.MetaRegisterStep | registry_factory/patterns/observer.py:39-52 | forced with missing fields raises `ValueError` naming them and changes nothing; lenient with missing fields only warns; with every field given a free key stores the record of the declared fields and a taken key raises `KeyError`; existing entries never change |
| Observer.MetaRegister | registry_factory/patterns/observer.py:39-52 | the method's effect on the shared index, its outcome and its warnings are those of `MetaRegisterStep` |
| Observer.CheckFieldsPassIff | registry_factory/patterns/observer.py:55-57 | the field comparison passes iff every stored field has an equal keyword argument |
| Observer.MetaCallStep | registry_factory/patterns/observer.py:54-62 | the index never changes; a failing stored check raises that check's error when forced, and when lenient passes with one `UserWarning` carrying its text; silent iff the stored check passes |
| Observer.MetaCall | registry_factory/patterns/observer.py:54-62 | the looping lookup check ends and warns as `MetaCallStep` says |
| Observer.CallSilentIff | registry_factory/patterns/observer.py:54-62 | lookup is silent iff the key holds a record whose every field equals the keyword argument of that name |
| Observer.RegisterThenCall | registry_factory/patterns/observer.py:39-62 | registering with every field given and looking up with the same keyword arguments is silent |
| Observer.GetInfo | registry_factory/patterns/observer.py:64-65 | a stored record is returned as a map whose keys are its field names |
| Observer.ToMapOfFields | registry_factory/patterns/observer.py:47-50 | the record built at registration maps each declared field to its keyword value |
| Observer.RegisterThenGetInfo | registry_factory/patterns/observer.py:46-65 | after registration `get_info` returns exactly the declared fields with the registered values |
| FactoryPattern.MatchPattern | registry_factory/checks/factory_pattern.py:37-56 | functions match a function pattern iff annotations are equal; a non-class pattern raises; an object failing the metaclass guard never matches; one passing it must be a class, else `issubclass` raises, and a class matches iff it is related by inheritance either way or offers every non-dunder attribute of the pattern |
| FactoryPattern.NonTypeMetaclassRejected | registry_factory/checks/factory_pattern.py:43 | a class whose metaclass is not `type` is rejected by an ordinary pattern class, even a subclass of it or its own metaclass (an `abc.ABC` or `abc.ABCMeta` pattern rejects the subclasses of `abc.ABC`) |
| FactoryPattern.ObjectPatternRejectsNonClasses | registry_factory/checks/factory_pattern.py:43-45 | with the pattern `object`, any object that is not a class makes the match raise `TypeError` |
| FactoryPattern.MatchAcceptsSubclasses | registry_factory/checks/factory_pattern.py:43-47 | the pattern class and each subclass match exactly when they pass the metaclass guard, so every one whose metaclass is `type` matches |
| FactoryPattern.MatchMonotoneInAttributes | registry_factory/checks/factory_pattern.py:48-54 | a structural match survives adding attributes to the class |
| FactoryPattern.PatternRegisterStep | registry_factory/checks/factory_pattern.py:21-29 | a match on a free key passes and stores `True`; a lenient mismatch warns and, on a free key, passes and stores `False`; either on a taken key raises `KeyError` and stores nothing; a forced mismatch raises `TypeError`; an error of the match propagates; a pass happens only in those two free-key cases |
| FactoryPattern.PatternRegister | registry_factory/checks/factory_pattern.py:21-29 | the method's effect equals `PatternRegisterStep` |
| Testing.TestRegisterStep | registry_factory/checks/testing.py:14-23 | a passing test on a free key stores `True`; any other case, a taken key included, raises `AssertionError` when forced; otherwise it warns, then stores `False` on a free key or raises `KeyError` on a taken one, storing nothing |
| Testing.TestRegister | registry_factory/checks/testing.py:14-23 | the method's effect equals `TestRegisterStep` |
| Testing.TakenKeyFailsTest | registry_factory/checks/testing.py:14-23 | a key already in the shared index fails even a passing object, and the existing entry stays |
| Facade.RegisterStep | registry_factory/patterns/facade.py:24-28 | one observer's registration never rebinds an entry and changes nothing when it fails |
| Facade.CallStep | registry_factory/patterns/facade.py:36-40 | a lookup never changes the index, and `FactoryPattern` and `Testing` lookups do nothing |
| Facade.ObserverRegister | registry_factory/patterns/facade.py:24-28 | dispatching to an observer has the effect of `RegisterStep` |
| Facade.ObserverCall | registry_factory/patterns/facade.py:36-40 | dispatching to an observer has the effect of `CallStep` |
| Facade.Verdict | registry_factory/patterns/facade.py:28-30 | raises iff some observer failed and validation is not skipped, with the lines joined by newlines |
| Facade.RunRegisterGrows | registry_factory/patterns/facade.py:24-28 | running every observer never removes or rebinds an index entry and gives at most one error line per observer |
| Facade.RunRegisterErrorsIff | registry_factory/patterns/facade.py:24-28 | registration collects no error iff every observer's registration passes on the index the observers before it left |
| Facade.RunCallErrorsIff | registry_factory/patterns/facade.py:36-40 | lookup collects no error iff every observer's lookup passes |
| Facade.RunCallWithoutMetaIsSilent | registry_factory/patterns/facade.py:36-40 | observers other than metadata observers never fail or warn on lookup |
| Facade.StoringObserversCollide | registry_factory/patterns/observer.py:10 | with the shared index, a metadata and a `FactoryPattern` observer both storing under one key make registration report a duplicate |
| Facade.ByNameSpec | registry_factory/patterns/facade.py:18 | the observer dict keeps every name exactly once and keeps the last observer given with each name |
| Facade.CollectInfo | registry_factory/patterns/facade.py:51-54 | the info map has one key per observer name and succeeds iff every observer's `get_info` does; each name maps to the `get_info(key)` of the last observer with that name |
| Facade.ObserverFacade.constructor | registry_factory/patterns/facade.py:14-18 | `None` means no observers; a list becomes the by-name observer collection |
| Facade.ObserverFacade.GenerateKeyDict | registry_factory/patterns/mediator.py:19-20 | without observers every key dict is empty |
| Facade.ObserverFacade.ComposeRegister | registry_factory/patterns/facade.py:20-30 | the loop runs every observer in order, even after failures, and ends as the specification run says: index, warnings and verdict |
| Facade.ObserverFacade.ComposeCall | registry_factory/patterns/facade.py:32-42 | the loop runs every observer's lookup in order and ends as the specification run says |
| Facade.ObserverFacade.RegisterEvent | registry_factory/patterns/facade.py:44-45 | observers receive the real key and object; a skip never raises; without observers nothing happens |
| Facade.ObserverFacade.CallEvent | registry_factory/patterns/facade.py:47-49 | as `compose_call`; a skip never raises; without observers nothing happens |
| Facade.ObserverFacade.GetInfo | registry_factory/patterns/facade.py:51-54 | `{}` without observers; otherwise succeeds iff every observer's `get_info(key)` does, with one entry per observer name holding the `get_info(key)` of the last observer with that name |
| Mediator.HashMediator.constructor | registry_factory/patterns/mediator.py:12-17 | the mediator starts with a fresh, empty, consistent table |
| Mediator.HashMediator.KeyDict | registry_factory/patterns/mediator.py:19-20 | without observers the discriminator is empty |
| Mediator.HashMediator.RegisterEvent | registry_factory/patterns/mediator.py:22-25 | validation runs first and a raising facade gives its verdict and leaves the table unchanged; once validation passes, a registered composite key raises `KeyError`, and a new one is stored unless slot-id generation runs out on a non-empty table; success makes the key find the object and leaves every other key's lookup alone |
| Mediator.HashMediator.CallEvent | registry_factory/patterns/mediator.py:27-31 | an unregistered key raises `KeyError` with no observer run and no warning; otherwise the facade's lookup verdict decides; only warnings change |
| Mediator.HashMediator.GetMeta | registry_factory/patterns/mediator.py:33-37 | the metadata stored for the derived composite key, or the table's `KeyError` |
| Mediator.RegisterThenCall | registry_factory/patterns/mediator.py:19-31 | register then call with the same arguments returns the object unless lookup validation rejects it, and always with validation skipped |
| Mediator.HashConnection.constructor | registry_factory/patterns/mediator.py:40-41 | no connections at first |
| Mediator.HashConnection.AddConnection | registry_factory/patterns/mediator.py:43-44 | binds the hash to the mediator, replacing any earlier binding |
| Mediator.HashConnection.GetConnection | registry_factory/patterns/mediator.py:46-47 | the bound mediator iff the hash is bound; otherwise `KeyError` |
| Mediator.AddThenGet | registry_factory/patterns/mediator.py:43-47 | an added connection is retrieved, a later add overwrites it, other hashes keep theirs |
| Registry.AbstractRegistry.Call | registry_factory/registry.py:24-27 | always raises `NotImplementedError` pointing to `get()` |
| Registry.AbstractRegistry.GetItem | registry_factory/registry.py:29-32 | always raises `NotImplementedError` pointing to `get()` |
| Registry.AbstractRegistry.Contains | registry_factory/registry.py:34-38 | true iff the derived composite key has a slot, that is iff a lookup would find an object |
| Registry.AbstractRegistry.Len | registry_factory/registry.py:40-43 | the number of distinct registered composite keys |
| Registry.AbstractRegistry.Register | registry_factory/registry.py:60-69 | the facade's run decides the index and warnings and its verdict error propagates; once validation passes, a taken composite key raises `KeyError` and a new one is registered, returning the object unchanged and growing the length by one, unless slot-id generation runs out on a non-empty table; a failure leaves the table unchanged |
| Registry.AbstractRegistry.RegisterPrebuilt | registry_factory/registry.py:71-74 | the same registration without a result: the verdict error, `KeyError` for a taken key, otherwise success unless slot-id generation runs out on a non-empty table |
| Registry.AbstractRegistry.Get | registry_factory/registry.py:76-88 | a successful lookup returns the mediator's object; any failure raises `RegistrationError` without a default, or warns `RegistrationWarning` and returns the default |
| Registry.AbstractRegistry.GetChoice | registry_factory/registry.py:139-142 | `get` without a default: the looked-up object or `RegistrationError`, appending the facade's lookup warnings |
| Registry.AbstractRegistry.GetInfo | registry_factory/registry.py:90-93 | an unregistered key raises `KeyError`; a registered key gives the metadata of its slot, or `KeyError` with the slot id when none was stored |
| Registry.AbstractRegistry.CheckChoice | registry_factory/registry.py:100-107 | true iff the composite key is registered; false comes with one `RegistrationWarning` and never raises |
| Registry.AbstractRegistry.ValidateChoice | registry_factory/registry.py:109-114 | raises `RegistrationError` iff the key is not contained, changing nothing |
| Registry.AbstractRegistry.Reset | registry_factory/registry.py:116-119 | the table is empty and consistent, and the length is 0 |
| Registry.AbstractRegistry.RegisterArguments | registry_factory/registry.py:121-130 | binds the class to the derived composite key and returns it; a bound key raises `KeyError`; slots untouched |
| Registry.AbstractRegistry.GetArguments | registry_factory/registry.py:132-136 | the class bound to the derived composite key iff one is bound |
| Registry.ResetThenGet | registry_factory/registry.py:116-119 | after `reset` the length is 0 and `get` without default raises `RegistrationError` |
| Registry.ArgumentsRoundTrip | registry_factory/registry.py:121-136 | arguments read back unchanged with the same keyword arguments; a second registration raises |
| RegistryFactory.Instantiate | registry_factory/factory.py:21-22 | instantiating the factory raises `ValueError` |
| RegistryFactory.RegistryTable.constructor | registry_factory/factory.py:46-48 | a new hash map tracks nothing |
| RegistryFactory.RegistryTable.GenerateHash | registry_factory/factory.py:49 | a hash not yet tracked and below 2^bitsize; never fails on an empty map |
| RegistryFactory.RegistryTable.Set | registry_factory/factory.py:64-65 | records the hash as live |
| RegistryFactory.LiveRegistries | registry_factory/factory.py:79-88 | the result is no longer than the attribute list |
| RegistryFactory.LiveRegistriesExactly | registry_factory/factory.py:79-88 | `get_registries` keeps exactly the non-dunder registries whose hash is tracked or is the shared hash |
| RegistryFactory.Keys | registry_factory/factory.py:96-99 | one name per live registry |
| RegistryFactory.Values | registry_factory/factory.py:101-104 | one registry per live registry |
| RegistryFactory.KeysAndValuesOfLive | registry_factory/factory.py:79-104 | `keys` are exactly the names and `values` exactly the hashes of the live registry attributes, and the i-th item pairs the i-th key with the i-th value |
| RegistryFactory.Factory.constructor | registry_factory/factory.py:14-19 | no hash map, shared hash or shared table before first use |
| RegistryFactory.Factory.InitHashMap | registry_factory/factory.py:45-49 | a fresh empty hash map and a shared hash below 2^256 drawn from it |
| RegistryFactory.Factory.HashMap | registry_factory/factory.py:24-29 | made on first use, then the same map with no further draw |
| RegistryFactory.Factory.SharedHash | registry_factory/factory.py:31-36 | drawn once at lazy initialisation; later calls return the same value without drawing |
| RegistryFactory.Factory.SharedHashTable | registry_factory/factory.py:38-43 | created empty at most once and reused afterwards |
| RegistryFactory.Factory.CreateRegistry | registry_factory/factory.py:51-68 | shared gives the shared hash and table; private draws an untracked hash, records it and keeps a fresh empty table; the facade has the given observers and skip flag |
| RegistryFactory.Factory.GetRegistries | registry_factory/factory.py:76-89 | the live registries after lazy initialisation of the hash map and shared hash |
| RegistryFactory.CreatedRegistryIsLive | registry_factory/factory.py:58-88 | a freshly created private registry is listed by `get_registries` |
| Registration.AbstractRegistry.Call | registry_factory/registration.py:48-51 | always raises `NotImplementedError` |
| Registration.AbstractRegistry.GetItem | registry_factory/registration.py:53-56 | always raises `NotImplementedError` |
| Registration.AbstractRegistry.Contains | registry_factory/registration.py:58-61 | true iff the index lookup of the key succeeds |
| Registration.AbstractRegistry.Len | registry_factory/registration.py:63-66 | the number of registered keys |
| Registration.AbstractRegistry.Register | registry_factory/registration.py:105-116 | the facade validates first and a raising facade leaves the index unchanged; otherwise the object is stored and returned unchanged, and a taken key raises `KeyError` |
| Registration.AbstractRegistry.RegisterPrebuilt | registry_factory/registration.py:118-121 | success stores the object under a new key; failure leaves the index unchanged |
| Registration.AbstractRegistry.CheckChoice | registry_factory/registration.py:128-136 | an absent key warns and gives false; a present key runs the lookup checks, whose error propagates, then gives true |
| Registration.AbstractRegistry.ValidateChoice | registry_factory/registration.py:138-145 | an absent key raises `RegistrationError`; a present key runs the lookup checks and returns the key |
| Registration.AbstractRegistry.Get | registry_factory/registration.py:83-93 | a registered key gives its object unless the lookup checks raise; an absent key raises without a default and warns and gives the default with one |
| Registration.AbstractRegistry.GetChoice | registry_factory/registration.py:167-171 | `get` without a default: an absent key raises `RegistrationError` and warns nothing; a present key runs the lookup checks, appending their warnings, and returns the object or the facade's joined error |
| Registration.AbstractRegistry.GetInfo | registry_factory/registration.py:95-98 | the facade's information; without a facade, `AttributeError` |
| Registration.AbstractRegistry.Reset | registry_factory/registration.py:147-150 | the index is empty and the length is 0 |
| Registration.AbstractRegistry.RegisterArguments | registry_factory/registration.py:152-160 | stores and returns the class; a taken key raises `KeyError` and keeps the first |
| Registration.AbstractRegistry.GetArguments | registry_factory/registration.py:162-165 | the class stored for the key iff there is one |
| Registration.RegisterGetReset | registry_factory/registration.py:83-150 | without a facade, register then get returns the object, and after `reset` get raises |
| Registration.ArgumentsRoundTrip | registry_factory/registration.py:152-165 | arguments read back unchanged; a second registration under the key raises |
| Tools.OmitFromDict | registry_factory/tools.py:8-9 | keeps exactly the keys not omitted, with their values |
| Tools.OmitSplitsDict | registry_factory/tools.py:8-9 | kept and dropped entries together are the input; omitting again changes nothing |
| Tools.Compose | registry_factory/tools.py:12-14 | fails with `TypeError` iff no function is given |
| Tools.ComposeAppliesInOrder | registry_factory/tools.py:12-14 | the composition applies its functions left to right |
| Tools.ComposeTwoAndOne | registry_factory/tools.py:12-14 | `compose(f, g)(x) == g(f(x))` and `compose(f)` behaves as `f` |
| Tools.Lower | registry_factory/tools.py:17-18 | same length, every character lowered |
| Tools.Upper | registry_factory/tools.py:21-22 | same length, every character raised |
| Tools.RenameKeys | registry_factory/tools.py:17-22 | the keys are exactly the renamed input keys |
| Tools.RenameKeysSizeAndLastWins | registry_factory/tools.py:17-18 | no more keys than the input, and on colliding keys the later entry wins |
| Tools.CaseConversionIdempotent | registry_factory/tools.py:17-22 | lowering or raising twice is the same as once |
| Tools.ConvertedKeysAreConverted | registry_factory/tools.py:17-22 | every converted key is the conversion of an input key and is already in that case |
| AbstractIndex.FirstFailure | abstract_codebase/index.py:55-63 | passes iff every check passes; a failure is the earliest failing check's |
| AbstractIndex.RegisterResults | abstract_codebase/index.py:60-63 | each check's `validate_register` outcome, in list order |
| AbstractIndex.CallResults | abstract_codebase/index.py:55-58 | each check's `validate_call` outcome, in list order |
| AbstractIndex.FirstFailureIsEarliest | abstract_codebase/index.py:55-63 | the reported error is that of the earliest raising check |
| AbstractIndex.IndexDict.constructor | abstract_codebase/index.py:35-37 | empty, with the given post-checks |
| AbstractIndex.IndexDict.SetItemAsWritten | abstract_codebase/index.py:39-45 | a taken key raises `KeyError`; with any post-check list, even an empty one, the call at line 44 raises `TypeError` and nothing is stored |
| AbstractIndex.IndexDict.GetItemAsWritten | abstract_codebase/index.py:47-53 | an absent key raises `KeyError`; with any post-check list the call at line 50 raises `TypeError` |
| AbstractIndex.IndexDict.RegisterVerdict | abstract_codebase/index.py:60-63 | passes iff there are no checks or every check accepts the store; a failure is some check's error |
| AbstractIndex.IndexDict.CallVerdict | abstract_codebase/index.py:55-58 | passes iff there are no checks or every check accepts the lookup |
| AbstractIndex.IndexDict.RegisterPostcheck | abstract_codebase/index.py:60-63 | the loop ends with the first raising check's error, or passes |
| AbstractIndex.IndexDict.CallPostcheck | abstract_codebase/index.py:55-58 | the loop ends with the first raising check's error, or passes |
| AbstractIndex.IndexDict.SetItem | abstract_codebase/index.py:39-45 | a taken key raises `KeyError` and no check runs; otherwise the checks run in order and the value is stored only if none raises |
| AbstractIndex.IndexDict.GetItem | abstract_codebase/index.py:47-53 | an absent key raises `KeyError`; a present key is returned once every lookup check passes |
| AbstractIndex.IndexDict.Clear | abstract_codebase/registration.py:141-144 | the dict is empty and keeps its checks |
| AbstractIndex.PostCheckArityDefect | abstract_codebase/index.py:43-50 | with an empty check list the as-written store and lookup raise `TypeError`, while the intended ones store and return the object |
| AbstractIndex.SharedIndexDictClass.New | abstract_codebase/index.py:72-75 | every construction returns the one instance; its checks are the latest given and its entries survive |
| AbstractAccreditation.Marked | abstract_codebase/accreditation.py:61-64 | the called set only grows, by the index alone, and contains it iff it was called before or is credited |
| AbstractAccreditation.MarkedKeepsLedgerInvariant | abstract_codebase/accreditation.py:61-64 | marking keeps called ⊆ credited, and marking twice is marking once |
| AbstractAccreditation.Accreditation.constructor | abstract_codebase/accreditation.py:45-49 | an empty ledger with nothing called |
| AbstractAccreditation.Accreditation.AddCredit | abstract_codebase/accreditation.py:51-55 | stores the credit and its type for a new index; an index already credited raises `KeyError` and keeps its credit |
| AbstractAccreditation.Accreditation.AddDefaultCredit | abstract_codebase/accreditation.py:51-55 | the credit type defaults to NONE |
| AbstractAccreditation.Accreditation.Get | abstract_codebase/accreditation.py:57-59 | the stored credit iff the index has one; otherwise `KeyError` |
| AbstractAccreditation.Accreditation.RegisterAccreditation | abstract_codebase/accreditation.py:61-64 | records the index as called only if it has a credit, keeping called ⊆ credited |
| AbstractAccreditation.Accreditation.Called | abstract_codebase/accreditation.py:66-68 | exactly the effect of `register_accreditation` |
| AbstractAccreditation.CreditRoundTrip | abstract_codebase/accreditation.py:51-68 | a credit reads back as stored with type NONE; marking twice records it once; an uncredited index is never recorded |
| AbstractRegistration.AbstractRegistry.Call | abstract_codebase/registration.py:60-63 | the index lookup through its post-checks |
| AbstractRegistration.AbstractRegistry.GetItem | abstract_codebase/registration.py:65-68 | the index lookup through its post-checks |
| AbstractRegistration.AbstractRegistry.Contains | abstract_codebase/registration.py:70-73 | true iff `validate_choice` accepts the key |
| AbstractRegistration.AbstractRegistry.Len | abstract_codebase/registration.py:75-78 | the number of registered keys |
| AbstractRegistration.AbstractRegistry.CheckChoice | abstract_codebase/registration.py:126-132 | true iff registered; false comes with one warning and nothing else changes |
| AbstractRegistration.AbstractRegistry.ValidateChoice | abstract_codebase/registration.py:134-139 | succeeds exactly for a registered key, returning the key; otherwise `RegistrationError` |
| AbstractRegistration.AbstractRegistry.Get | abstract_codebase/registration.py:95-103 | without a default: an absent key raises `RegistrationError` and a present one is looked up through the checks; with one: a warning and the default for an absent key |
| AbstractRegistration.AbstractRegistry.GetChoice | abstract_codebase/registration.py:162-165 | `get` without a default: an absent key raises `RegistrationError`; a present key returns the object, or the error of the first raising post-check; no warning is issued |
| AbstractRegistration.AbstractRegistry.Register | abstract_codebase/registration.py:105-114 | stores through the post-checks and returns the object unchanged; a taken key raises `KeyError`; a rejecting check stores nothing |
| AbstractRegistration.AbstractRegistry.RegisterPrebuilt | abstract_codebase/registration.py:116-119 | succeeds iff the key is new and the checks accept; the index changes only then |
| AbstractRegistration.AbstractRegistry.Reset | abstract_codebase/registration.py:141-144 | the index is empty and the length is 0 |
| AbstractRegistration.AbstractRegistry.RegisterArguments | abstract_codebase/registration.py:146-154 | stores the class through the checks; a taken key raises `KeyError` |
| AbstractRegistration.AbstractRegistry.GetArguments | abstract_codebase/registration.py:156-159 | the class for the key through the lookup checks; `KeyError` when absent |
| AbstractRegistration.Factory.CreateRegistry | abstract_codebase/registration.py:173-181 | private gives two fresh, empty, distinct dicts; shared gives the one shared dict as both index and arguments, keeping earlier entries |
| AbstractRegistration.Factory.GetInfo | abstract_codebase/registration.py:189-192 | the accreditation of the key iff there is one |
| AbstractRegistration.SharingScenario | abstract_codebase/registration.py:177-181 | private registries do not see shared entries; shared registries see each other's; shared index and arguments collide on a key |
| AbstractRegistration.RejectingCheckBlocksRegistration | abstract_codebase/registration.py:105-114 | a registry whose check rejects everything stores nothing and reports the check's error |
| AbstractFactoryPattern.SubclassCheck | abstract_codebase/checks/factory_pattern.py:14 | `issubclass` succeeds iff both are classes, and then holds iff the pattern is the class or an ancestor |
| AbstractFactoryPattern.FactoryPatternCheck.constructor | abstract_codebase/checks/factory_pattern.py:8-11 | keeps the pattern and the forced flag |
| AbstractFactoryPattern.FactoryPatternCheck.RegisterEvent | abstract_codebase/checks/factory_pattern.py:13-21 | a subclass flags `True`; forced non-subclass raises `TypeError` and stores nothing; lenient warns and flags `False` |
| AbstractFactoryPattern.FactoryPatternCheck.CallEvent | abstract_codebase/checks/factory_pattern.py:23-24 | never raises |
| AbstractFactoryPattern.FactoryPatternCheck.GetInfo | abstract_codebase/checks/factory_pattern.py:26-27 | the stored flag, or `KeyError` |
| AbstractFactoryPattern.RegisterThenInfo | abstract_codebase/checks/factory_pattern.py:13-27 | in lenient mode the info is whether the last registered class is a subclass |
| AbstractFactoryPattern.SubclassOnlyImpliesStructural | abstract_codebase/checks/factory_pattern.py:14 | a class this check accepts is accepted by the current check exactly when it passes that check's metaclass guard, so every accepted class whose metaclass is `type` |
| AbstractFactoryPattern.UnrelatedConformingClassRejected | abstract_codebase/checks/factory_pattern.py:14 | an unrelated class offering the pattern's attributes passes the current check and fails this one |
| AbstractConfig.YamlConfigData | abstract_codebase/config.py:61-66 | a mapping becomes its pairs tagged with their types, in order; a scalar becomes one tagged value |
| AbstractConfig.MergedOutside | abstract_codebase/config.py:116-125 | a key no entry assigns keeps its presence and value |
| AbstractConfig.MergedLast | abstract_codebase/config.py:116-125 | a key holds the value of its last assignment |
| AbstractConfig.MergeReplacesAndKeeps | abstract_codebase/config.py:116-125 | every incoming key holds its incoming pair; other keys are unchanged |
| AbstractConfig.EntryWarnings | abstract_codebase/config.py:117-124 | no warning iff the key is in the group with the same type; otherwise the not-found or type-mismatch warning |
| AbstractConfig.WarningsForSilentIff | abstract_codebase/config.py:117-124 | merging is silent iff every incoming key is in the group with the same type |
| AbstractConfig.MergeWithWarnings | abstract_codebase/config.py:116-125 | the loop leaves the group as the entries merged in order and warns exactly as `WarningsFor` says |
| AbstractConfig.Untagged | abstract_codebase/config.py:136-137 | the values without their types, in order |
| AbstractConfig.Config.constructor | abstract_codebase/config.py:103-106 | no groups and no attributes |
| AbstractConfig.Config.ToEnvironment | abstract_codebase/config.py:108-109 | the value without its type becomes the attribute; groups unchanged |
| AbstractConfig.Config.ToConfigData | abstract_codebase/config.py:111-112 | the group is replaced wholesale by the handler's dictionary |
| AbstractConfig.Config.OverwriteConfigData | abstract_codebase/config.py:114-125 | each incoming pair is written into the group, other keys kept, with a warning for each absent or retyped key; a single pair raises `AttributeError`; an absent group raises `KeyError` |
| AbstractConfig.Config.ProcessingArguments | abstract_codebase/config.py:127-139 | a dictionary for a non-`env` group is merged into it or becomes it; an `env` dictionary or a single pair goes to the attributes, untyped |
| AbstractConfig.Config.ReturnArguments | abstract_codebase/config.py:164-166 | the group's values without types, key for key; an unknown group raises `KeyError` |
| AbstractConfig.ProcessThenReturn | abstract_codebase/config.py:127-166 | a new group reads back as given; a second dictionary overrides exactly its keys |

## Left out

- FactoryPattern.MatchPattern: a metaclass is taken to derive directly from `type`, so `isinstance(type(obj), p)` holds only when `p` is `type`, `object` or, for an instance, the metaclass of its type (a class's own type, its metaclass, is an instance of `type`); deeper metaclass hierarchies and `__instancecheck__`/`__subclasscheck__` overrides such as `abc.ABCMeta.register` are not modelled.
- AbstractRegistration.AbstractRegistry.Call, AbstractRegistration.AbstractRegistry.GetItem, AbstractRegistration.AbstractRegistry.Get, AbstractRegistration.AbstractRegistry.GetChoice, AbstractRegistration.AbstractRegistry.Register, AbstractRegistration.AbstractRegistry.RegisterPrebuilt, AbstractRegistration.AbstractRegistry.RegisterArguments, AbstractRegistration.AbstractRegistry.GetArguments, AbstractRegistration.RejectingCheckBlocksRegistration: these use the corrected `IndexDict.SetItem` and `IndexDict.GetItem` of the second finding below. As written, a registry created with any `post_checks` list that is not `None` raises `TypeError` on every store and on every lookup of a present key, because abstract_codebase/registration.py:175-178 passes the list straight to `IndexDict`.
- Index.HashTable.constructor: `HashTable` subclasses `Singleton`, so every `HashTable()` in the program is one shared object. The model gives each table its own maps, as the factory's split into private and shared tables intends. The source also only annotates `slots`, `data` and `meta_dict` at registry_factory/index.py:31-33 and `__init__` (lines 35-37) never assigns them, so as written the first `generate_hash`, `set`, `get_hash`, `__contains__`, `__len__` or `get` on a table raises `AttributeError`; the model starts all three maps empty, as the rest of the class evidently expects.
- Index.HashTable.GenerateHash: the source retries by recursion, and each recursive call restarts its own counter, so it is not bounded. The model makes at most `max_generation` retries after the first draw and then fails with `HashExhaustion`. The distribution of `random.getrandbits` is not modelled, only the stream of draws.
- Index.HashTable.Set: the `KeyError` messages of `set` and `get_hash` also hold the repr of the key dict. The model keeps only the key.
- Index.HashTable.Clear, Index.HashTable.SetArguments, Index.HashTable.GetArguments: `HashTable` defines no `clear`, `set_arguments` or `get_arguments`, although registry_factory/registry.py:119,127,136 call them. `clear` is modelled as emptying every map, and the arguments as a composite-key map with the collision rule of `set`.
- Mediator.HashMediator.constructor: the source calls `HashTable(bitsize, max_generation)`, but `HashTable.__init__` takes no arguments. The model builds a table with the defaults 256 and 1000.
- Mediator.HashMediator.RegisterEvent: the mediator passes `obj=` where the facade's parameter is named `object`, and unpacks a 4-tuple from facade events that return `None`. The model passes the key and object through unchanged and stores no metadata.
- Mediator.HashMediator.CallEvent: the object is forwarded to the facade inside the keyword arguments. Only metadata observers read keyword arguments, and they read only their declared fields.
- Facade.ObserverFacade.GenerateKeyDict: the facade defines no `generate_key_dict`. It is a constructor parameter `keyDictOf`, and it is empty when there are no observers.
- Facade.ObserverFacade.constructor: `create_registry` passes `skip_validation` to a constructor that takes only the observers. The model gives the facade a skip-flag field that `compose_*` use.
- Mediator.HashConnection.constructor: `connection` is only declared in the source, so it does not exist until assigned. The model starts it empty.
- RegistryFactory.RegistryTable: `RegistryTable` is imported from registry_factory/index.py, which does not define it. Only its uses are modelled: construction, `generate_hash`, `set` and membership.
- RegistryFactory.Factory.GetRegistries: the `dir`/`hasattr` scan over the class is an explicit list of (name, hash) attributes. The hash map and shared hash are looked up once before the scan, so they are initialised even when no attribute is a registry; the source initialises them only when some attribute carries `_registry_hash`, which leaves the result unchanged.
- The shared hash is never added to the hash map, so it could in principle be drawn again for a private registry. The model keeps this behaviour.
- Registration.AbstractRegistry.Get: the `Tracker().add` calls at registry_factory/registration.py:88,92 pass two arguments to a method that takes three. The model treats them as a no-op side channel; registry_factory/tracker.py is not part of this model.
- Registry.AbstractRegistry.CheckChoice: warning texts are stored without the `RegistrationWarning: ` prefix that `RegistrationWarning.__str__` adds. `RegistrationError` texts do carry their prefix, through `Text`.
- AbstractRegistration.AbstractRegistry.Get: the `TypeError` for keyword arguments forwarded to `validate_choice` omits the argument's name.
- AbstractRegistration.Factory.CreateRegistry: the class-level `Accreditation()` of both `AbstractRegistry` and `Factory` is one ledger object passed in.
- AbstractFactoryPattern.FactoryPatternCheck: abstract_codebase/patterns/observer.py is not part of this model, so the index this check writes to is modelled as a plain dictionary that a later flag overwrites.
- abstract_codebase/metacoding.py is not part of this model. The accreditation ledger uses the `UniqueDict` and `Singleton` of the current package, which have the same text.
- AbstractConfig.Config.ToEnvironment: the source writes into the object's `__dict__` and can overwrite real fields such as `config_data`. The model keeps the attributes in a separate map.
- AbstractConfig.Config.ToConfigData: the operations take the handler's output, not the object and handler. A direct `to_config_data` with non-dictionary data, which stores a bare pair as a group, is not modelled.
- The configuration's file, YAML and command-line I/O is not modelled: `DataclassHandler`, `read_yaml`, `dict_to_yaml`, `CLIHandler`, `dataclass_override`, `yaml_override`, `return_self`, `return_dataclass`, `print_arguments`, `generate_yaml`. They depend on reflection and the file system.
- Printing and display are not modelled: `__str__`, `__repr__`, `__iter__`, `show_choices`, `info`, `print_info`, `show_registered`, `view_called`, `view_accreditations`, `show_accreditations`, `CreditInfo.__str__` and the debug prints in `get_meta`.
- Reflection-based glue is not modelled: `Factory.get_options`, `get_registry_arguments` and `get_arguments` in registry_factory/factory.py, and `get_subclass_choices` and `get_subclass_arguments` in abstract_codebase/registration.py. They rely on `dir` and `__subclasses__`.
- abstract_codebase/factory.py is glue over modules that are not part of this model.
- The `Borg`, `Final`, `ReducedClass`, `_NestedClassGetter` and `InheretanceTracker` metaclasses are not modelled. They are not used by the registry.
- The field-schema classes of the accreditation and versioning checks are parameters of `MetaInformationObserver`: its class name and its field names.
- `str.lower` and `str.upper` are modelled on ASCII letters only.

## Findings

| source | as written | input that shows it | evidently intended | confidence | as-written member | corrected member |
|---|---|---|---|---|---|---|
| registry_factory/index.py:78-82 | `delete` removes the slot and the object before it deletes `meta_dict[hash_value]`. That raises `KeyError` for a slot stored without metadata, after the key is already gone. | `set("model", {}, obj)` with `meta=None`, then `delete("model", {})` | the composite key leaves all three maps together, or nothing is removed | not executed | Index.HashTable.DeleteAsWritten, Index.DeleteWithoutMetaIsPartial | Index.HashTable.Delete |
| abstract_codebase/index.py:43-50 | `self.register_postcheck(self, value, key)` and `self.call_postcheck(self, key)` pass `self` twice to bound methods. So any post-check list that is not `None`, even `[]`, raises `TypeError` on every store and on every lookup of a present key. tests/test_postchecks.py:49-52,64-68 expect the checks' own `ValueError` instead. | `IndexDict(post_checks=[])`, then `d["test"] = obj` | every check's `validate_register(value, key)` runs on a store, and every `validate_call(key)` on a lookup, in order | not executed | AbstractIndex.IndexDict.SetItemAsWritten, AbstractIndex.PostCheckArityDefect | AbstractIndex.IndexDict.SetItem |
