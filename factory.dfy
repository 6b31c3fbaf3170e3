/** `Factory`: hands out registries. A registry gets either the one shared hash and the one
    shared hash table, or a fresh hash recorded in the factory's hash map and a table of its own.
    The class-level fields are created lazily, on first use. */
module RegistryFactory {
  import opened Common
  import opened Metacoding
  import opened Observer
  import opened FactoryPattern
  import opened Index
  import opened Facade
  import opened Mediator
  import opened Registry

  const NotInstantiable := "Factory is not meant to be instantiated."

  /** `Factory()`: the factory is used through its class methods only. */
  function Instantiate(): (o: Outcome)
    ensures o.Fail? && o.error == ValueError(NotInstantiable)
  {
    Fail(ValueError(NotInstantiable))
  }

  /** `RegistryTable`, the factory's record of the hashes of live private registries. Only its
      use is known (construction with a bit size and retry bound, `generate_hash`, `set` of a
      hash and membership); the class itself is not part of this model's sources. */
  class RegistryTable {
    const bitsize: nat
    const maxGeneration: nat
    const rng: RandomSource
    var tracked: set<nat>

    constructor (bitsize: nat, maxGeneration: nat, rng: RandomSource)
      ensures this.bitsize == bitsize && this.maxGeneration == maxGeneration && this.rng == rng
      ensures tracked == {}
    {
      this.bitsize := bitsize;
      this.maxGeneration := maxGeneration;
      this.rng := rng;
      tracked := {};
    }

    /** `generate_hash`: a hash not yet tracked, with the retry bound of the slot tables. */
    method GenerateHash() returns (r: Result<nat>)
      modifies rng
      ensures r.Ok? ==> r.value !in tracked && r.value < Pow2(bitsize)
      ensures r.Err? ==> r.error == HashExhaustion
      ensures tracked == {} ==> r.Ok?
    {
      r := DrawFresh(rng, tracked, bitsize, maxGeneration);
    }

    /** `set(hash)`: records a hash as live. */
    method Set(h: nat)
      modifies this
      ensures tracked == old(tracked) + {h}
    {
      tracked := tracked + {h};
    }
  }

  /** The class attribute a registry leaves on the factory class: its name and, when it is a
      registry, its `_registry_hash`. */
  datatype Attribute = Attribute(name: string, registryHash: Option<nat>)

  /** The condition `get_registries` keeps an attribute under: not a dunder name, a registry,
      and its hash either tracked or the shared one. */
  predicate IsLive(a: Attribute, tracked: set<nat>, shared: nat) {
    !HasDunderPrefix(a.name) && a.registryHash.Some? && (a.registryHash.value in tracked || a.registryHash.value == shared)
  }

  /** The `get_registries` comprehension over the class attributes, in `dir` order. */
  function LiveRegistries(attrs: seq<Attribute>, tracked: set<nat>, shared: nat): (r: seq<(string, nat)>)
    ensures |r| <= |attrs|
  {
    if attrs == [] then []
    else
      var rest := LiveRegistries(attrs[1..], tracked, shared);
      if IsLive(attrs[0], tracked, shared) then [(attrs[0].name, attrs[0].registryHash.value)] + rest else rest
  }

  /** `get_registries` keeps exactly the live attributes, with their hashes. */
  lemma {:induction false} LiveRegistriesExactly(attrs: seq<Attribute>, tracked: set<nat>, shared: nat)
    ensures forall a :: a in attrs && IsLive(a, tracked, shared) ==> (a.name, a.registryHash.value) in LiveRegistries(attrs, tracked, shared)
    ensures forall p :: p in LiveRegistries(attrs, tracked, shared) ==>
              exists a :: a in attrs && IsLive(a, tracked, shared) && p == (a.name, a.registryHash.value)
  {
    if attrs != [] {
      LiveRegistriesExactly(attrs[1..], tracked, shared);
      assert forall a :: a in attrs[1..] ==> a in attrs;
      assert forall a :: a in attrs ==> a == attrs[0] || a in attrs[1..];
    }
  }

  /** `keys`: the names of the live registries, in order. */
  function Keys(regs: seq<(string, nat)>): (ks: seq<string>)
    ensures |ks| == |regs|
  {
    seq(|regs|, i requires 0 <= i < |regs| => regs[i].0)
  }

  /** `values`: the live registries (by hash), in order. */
  function Values(regs: seq<(string, nat)>): (vs: seq<nat>)
    ensures |vs| == |regs|
  {
    seq(|regs|, i requires 0 <= i < |regs| => regs[i].1)
  }

  /** `keys` names exactly the live registry attributes and `values` holds exactly their hashes;
      `items` pairs the two in the same order. */
  lemma KeysAndValuesOfLive(attrs: seq<Attribute>, tracked: set<nat>, shared: nat)
    ensures var regs := LiveRegistries(attrs, tracked, shared);
      && (forall n :: n in Keys(regs) <==> exists a :: a in attrs && IsLive(a, tracked, shared) && a.name == n)
      && (forall h :: h in Values(regs) <==> exists a :: a in attrs && IsLive(a, tracked, shared) && a.registryHash.value == h)
      && (forall i :: 0 <= i < |regs| ==> regs[i] == (Keys(regs)[i], Values(regs)[i]))
  {
    var regs := LiveRegistries(attrs, tracked, shared);
    LiveRegistriesExactly(attrs, tracked, shared);
    forall n | n in Keys(regs)
      ensures exists a :: a in attrs && IsLive(a, tracked, shared) && a.name == n
    {
      var i :| 0 <= i < |regs| && Keys(regs)[i] == n;
      assert regs[i] in regs;
    }
    forall n | exists a :: a in attrs && IsLive(a, tracked, shared) && a.name == n
      ensures n in Keys(regs)
    {
      var a :| a in attrs && IsLive(a, tracked, shared) && a.name == n;
      var i :| 0 <= i < |regs| && regs[i] == (a.name, a.registryHash.value);
      assert Keys(regs)[i] == n;
    }
    forall h | h in Values(regs)
      ensures exists a :: a in attrs && IsLive(a, tracked, shared) && a.registryHash.value == h
    {
      var i :| 0 <= i < |regs| && Values(regs)[i] == h;
      assert regs[i] in regs;
    }
    forall h | exists a :: a in attrs && IsLive(a, tracked, shared) && a.registryHash.value == h
      ensures h in Values(regs)
    {
      var a :| a in attrs && IsLive(a, tracked, shared) && a.registryHash.value == h;
      var i :| 0 <= i < |regs| && regs[i] == (a.name, a.registryHash.value);
      assert Values(regs)[i] == h;
    }
  }

  /** The factory's class-level state. `index` is the observer index every observer shares and
      `log` the warning log; `rng` is the process-wide random source. */
  class Factory {
    var hashMap: RegistryTable?
    var sharedHash: Option<nat>
    var sharedTable: HashTable?
    const rng: RandomSource
    const index: UniqueDict<Entry>
    const log: Log

    /** `init_hash_map` sets the hash map and the shared hash together, from the one random
        source; a shared table, once made, is a valid table. */
    ghost predicate Valid()
      reads this, hashMap, sharedTable
    {
      && (hashMap == null <==> sharedHash.None?)
      && (hashMap != null ==> hashMap.rng == rng)
      && (sharedTable != null ==> sharedTable.Valid() && sharedTable.rng == rng)
    }

    /** The hashes the hash map tracks; none before it exists. */
    ghost function Tracked(): set<nat>
      reads this, hashMap
    {
      if hashMap == null then {} else hashMap.tracked
    }

    /** The class before any registry is made: no hash map, no shared hash, no shared table. */
    constructor (rng: RandomSource, index: UniqueDict<Entry>, log: Log)
      ensures Valid() && hashMap == null && sharedHash == None && sharedTable == null
      ensures this.rng == rng && this.index == index && this.log == log
    {
      hashMap := null;
      sharedHash := None;
      sharedTable := null;
      this.rng := rng;
      this.index := index;
      this.log := log;
    }

    /** `init_hash_map`: a new, empty hash map and a shared hash drawn from it. */
    method InitHashMap()
      requires Valid()
      modifies this, rng
      ensures Valid() && fresh(hashMap) && hashMap.tracked == {}
      ensures sharedHash.Some? && sharedHash.value < Pow2(256)
      ensures sharedTable == old(sharedTable)
    {
      var table := new RegistryTable(256, 1000, rng);
      var h := table.GenerateHash();
      hashMap := table;
      sharedHash := Some(h.value);
    }

    /** `hash_map`: the hash map, made on first use. */
    method HashMap() returns (m: RegistryTable)
      requires Valid()
      modifies this, rng
      ensures Valid() && m == hashMap
      ensures old(hashMap) != null ==> hashMap == old(hashMap) && sharedHash == old(sharedHash) && rng.position == old(rng.position)
      ensures old(hashMap) == null ==> fresh(m) && m.tracked == {}
      ensures sharedTable == old(sharedTable)
    {
      if hashMap == null {
        InitHashMap();
      }
      m := hashMap;
    }

    /** `shared_hash`: drawn once, at the lazy initialisation, and the same value afterwards. */
    method SharedHash() returns (h: nat)
      requires Valid()
      modifies this, rng
      ensures Valid() && sharedHash == Some(h)
      ensures old(sharedHash).Some? ==> h == old(sharedHash).value && hashMap == old(hashMap) && rng.position == old(rng.position)
      ensures old(hashMap) == null ==> fresh(hashMap) && hashMap.tracked == {}
      ensures sharedTable == old(sharedTable)
    {
      if sharedHash.None? {
        InitHashMap();
      }
      h := sharedHash.value;
    }

    /** `shared_hash_table`: created at most once and then reused. */
    method SharedHashTable() returns (t: HashTable)
      requires Valid()
      modifies this
      ensures Valid() && sharedTable == t
      ensures old(sharedTable) != null ==> t == old(sharedTable)
      ensures old(sharedTable) == null ==> fresh(t) && t.slots == map[] && t.arguments == map[]
      ensures hashMap == old(hashMap) && sharedHash == old(sharedHash)
    {
      if sharedTable == null {
        sharedTable := new HashTable(rng);
      }
      t := sharedTable;
    }

    /** `create_registry`. A shared registry gets the shared hash and the shared table; a private
        one draws a hash the hash map does not track yet, records it there, and keeps the fresh
        table of its own mediator. Both get a facade over the given observers on the common
        observer index. */
    method CreateRegistry(shared: bool, skipValidation: bool, checks: Option<seq<RegistryObserver>>,
                          keyDictOf: (string, Kwargs) -> Kwargs) returns (r: Result<AbstractRegistry>)
      requires Valid()
      modifies this, hashMap, rng
      ensures Valid()
      ensures r.Ok? ==> var reg := r.value;
        && fresh(reg) && fresh(reg.mediator) && fresh(reg.mediator.facade)
        && reg.mediator.table.Valid()
        && reg.mediator.facade.skipValidation == skipValidation
        && reg.mediator.facade.observers == (if checks.Some? then ByName(checks.value) else [])
        && reg.mediator.facade.index == index && reg.mediator.facade.log == log
        && reg.mediator.connectionHash == reg.registryHash
      ensures shared ==>
        && r.Ok? && sharedHash == Some(r.value.registryHash)
        && r.value.mediator.table == sharedTable
        && (old(sharedHash).Some? ==> sharedHash == old(sharedHash))
        && (old(sharedTable) != null ==> sharedTable == old(sharedTable))
      ensures !shared && r.Ok? ==>
        && r.value.registryHash !in old(Tracked())
        && Tracked() == old(Tracked()) + {r.value.registryHash}
        && fresh(r.value.mediator.table) && r.value.mediator.table.slots == map[]
        && sharedTable == old(sharedTable)
      ensures !shared && r.Err? ==> r.error == HashExhaustion
    {
      var h: nat;
      if shared {
        h := SharedHash();
      } else {
        var m := HashMap();
        var g := m.GenerateHash();
        if g.Err? {
          return Err(g.error);
        }
        h := g.value;
      }
      var facade := new ObserverFacade(skipValidation, checks, keyDictOf, index, log);
      var mediator := new HashMediator(h, facade, rng);
      var reg := new AbstractRegistry(h, mediator);
      if !shared {
        hashMap.Set(h);
      } else {
        var t := SharedHashTable();
        mediator.table := t;
      }
      r := Ok(reg);
    }

    /** `get_registries`: the live registries among the class attributes. Looking the hash map
        and the shared hash up initialises them on first use. The source looks them up only
        inside the comprehension, for an attribute carrying `_registry_hash`; the model looks
        them up once, in advance, which gives the same registries but also initialises both
        when no attribute is a registry. */
    method GetRegistries(attrs: seq<Attribute>) returns (regs: seq<(string, nat)>)
      requires Valid()
      modifies this, rng
      ensures Valid() && hashMap != null && sharedHash.Some?
      ensures regs == LiveRegistries(attrs, hashMap.tracked, sharedHash.value)
      ensures old(hashMap) != null ==> hashMap == old(hashMap) && sharedHash == old(sharedHash)
    {
      var m := HashMap();
      var s := SharedHash();
      regs := LiveRegistries(attrs, m.tracked, s);
    }
  }

  /** A registry the factory has just created privately is live: `get_registries` lists it. */
  method CreatedRegistryIsLive(f: Factory, name: string, checks: Option<seq<RegistryObserver>>,
                               keyDictOf: (string, Kwargs) -> Kwargs, others: seq<Attribute>)
    returns (r: Result<AbstractRegistry>, regs: seq<(string, nat)>)
    requires f.Valid() && !HasDunderPrefix(name)
    modifies f, f.hashMap, f.rng
    ensures r.Ok? ==> (name, r.value.registryHash) in regs
  {
    r := f.CreateRegistry(false, false, checks, keyDictOf);
    if r.Ok? {
      var attrs := others + [Attribute(name, Some(r.value.registryHash))];
      regs := f.GetRegistries(attrs);
      LiveRegistriesExactly(attrs, f.hashMap.tracked, f.sharedHash.value);
      assert attrs[|others|] in attrs;
    } else {
      regs := [];
    }
  }
}
