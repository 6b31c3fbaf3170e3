/** The metacoding helpers the registry relies on: a dictionary that refuses to rebind a key,
    a decorator-style registry built on it, and the "one shared instance" effect of `Singleton`. */
module Metacoding {
  import opened Common

  /** The error `UniqueDict` raises when a key is bound a second time. */
  const DuplicateKey := KeyError(StrRepr("Key already in dict."))

  /** A `dict` whose `__setitem__` refuses to rebind a key that is already present. */
  class UniqueDict<V> {
    var items: map<string, V>

    constructor ()
      ensures items == map[]
    {
      items := map[];
    }

    /** `d[key] = value`: binds an absent key; a present key raises and keeps its old value. */
    method Insert(key: string, value: V) returns (o: Outcome)
      modifies this
      ensures key in old(items) ==> o == Fail(DuplicateKey) && items == old(items)
      ensures key !in old(items) ==> o == Pass && items == old(items)[key := value]
    {
      if key in items {
        o := Fail(DuplicateKey);
      } else {
        items := items[key := value];
        o := Pass;
      }
    }

    /** `d[key]`: the bound value, or `KeyError(key)`. */
    function Get(key: string): (r: Result<V>)
      reads this
      ensures r.Ok? <==> key in items
      ensures r.Ok? ==> r.value == items[key]
      ensures r.Err? ==> r.error == KeyError(StrRepr(key))
    {
      if key in items then Ok(items[key]) else Err(KeyError(StrRepr(key)))
    }

    /** `d.clear()`. */
    method Clear()
      modifies this
      ensures items == map[]
    {
      items := map[];
    }
  }

  /** The decorator registry: `register(call_name)(obj)` stores `obj` in the class-level index. */
  class MetaRegistry {
    const index: UniqueDict<Obj>

    constructor (index: UniqueDict<Obj>)
      ensures this.index == index
    {
      this.index := index;
    }

    /** Returns the decorated object unchanged; a name registered before raises `KeyError`. */
    method Register(callName: string, obj: Obj) returns (r: Result<Obj>)
      modifies index
      ensures callName in old(index.items) ==> r == Err(DuplicateKey) && index.items == old(index.items)
      ensures callName !in old(index.items) ==> r == Ok(obj) && index.items == old(index.items)[callName := obj]
    {
      var o := index.Insert(callName, obj);
      if o.Fail? {
        r := Err(o.error);
      } else {
        r := Ok(obj);
      }
    }
  }

  /** Registering the same name twice: the first call returns the object, the second raises
      and the name keeps the first object. */
  method MetaRegistryRejectsSecondName(a: Obj, b: Obj) returns (first: Result<Obj>, second: Result<Obj>, kept: Obj)
    ensures first == Ok(a)
    ensures second == Err(DuplicateKey)
    ensures kept == a
  {
    var index := new UniqueDict<Obj>();
    var registry := new MetaRegistry(index);
    first := registry.Register("model", a);
    second := registry.Register("model", b);
    kept := index.items["model"];
  }

  /** The instance cache of a `Singleton` subclass: `__new__` creates the instance once and hands
      the same one out on every later construction. */
  class Singleton<T> {
    var instance: Option<T>

    constructor ()
      ensures instance == None
    {
      instance := None;
    }

    /** `cls()`, where `candidate` is the object a first construction would create. */
    method New(candidate: T) returns (obj: T)
      modifies this
      ensures old(instance).Some? ==> obj == old(instance).value && instance == old(instance)
      ensures old(instance).None? ==> obj == candidate && instance == Some(candidate)
    {
      if instance.None? {
        instance := Some(candidate);
      }
      obj := instance.value;
    }
  }

  /** Every construction after the first returns the first instance. */
  method SingletonConstructionsAgree<T(==)>(x: T, y: T, z: T) returns (a: T, b: T, c: T)
    ensures a == x && b == x && c == x
  {
    var cache := new Singleton<T>();
    a := cache.New(x);
    b := cache.New(y);
    c := cache.New(z);
  }
}
