/** The hash table behind every registry: three maps keyed by random slot ids (slot id to
    composite key, slot id to stored object, slot id to optional metadata), composite-key
    uniqueness, a linear scan from composite key to slot id, and bounded fresh-id generation.
    Also the shared-instance rule of `IndexDict`. */
module Index {
  import opened Common
  import opened Metacoding

  /** The logical address of a registered object: its key plus the discriminating key dict. */
  datatype CompositeKey = CompositeKey(key: string, keyDict: Kwargs)

  /** Raised by `set` for a composite key that is already registered. The key dict's repr that
      the message also holds is not modelled. */
  function AlreadyRegistered(ck: CompositeKey): Error {
    KeyError(StrRepr(ck.key + " already exist in the registry."))
  }

  /** Raised by `get_hash` when no slot holds the composite key. */
  function NotRegistered(ck: CompositeKey): Error {
    KeyError(StrRepr(ck.key + " not found in the registry."))
  }

  /** No two slot ids hold the same composite key. */
  ghost predicate Injective(slots: map<nat, CompositeKey>) {
    forall a, b :: a in slots && b in slots && slots[a] == slots[b] ==> a == b
  }

  /** The slot id holding `ck`, if any. */
  ghost function SlotOf(slots: map<nat, CompositeKey>, ck: CompositeKey): (r: Option<nat>)
    ensures r.Some? <==> ck in slots.Values
    ensures r.Some? ==> r.value in slots && slots[r.value] == ck
  {
    if ck in slots.Values then
      var id :| id in slots && slots[id] == ck; Some(id)
    else None
  }

  /** The object a table stores for `ck`, if any. */
  ghost function Lookup(slots: map<nat, CompositeKey>, data: map<nat, Obj>, ck: CompositeKey): Option<Obj> {
    match SlotOf(slots, ck)
    case None => None
    case Some(id) => if id in data then Some(data[id]) else None
  }

  /** In an injective table the slot holding `ck` is the only id that holds it. */
  lemma SlotOfUnique(slots: map<nat, CompositeKey>, ck: CompositeKey, id: nat)
    requires Injective(slots)
    requires id in slots && slots[id] == ck
    ensures SlotOf(slots, ck) == Some(id)
  {
  }

  /** Adding a fresh composite key under a fresh id keeps the table injective, makes the key
      find exactly the stored object and leaves every other key's lookup as it was. */
  lemma InsertThenLookup(slots: map<nat, CompositeKey>, data: map<nat, Obj>, id: nat, ck: CompositeKey, v: Obj, other: CompositeKey)
    requires Injective(slots) && data.Keys == slots.Keys
    requires id !in slots && ck !in slots.Values
    ensures Injective(slots[id := ck])
    ensures Lookup(slots[id := ck], data[id := v], ck) == Some(v)
    ensures other != ck ==> Lookup(slots[id := ck], data[id := v], other) == Lookup(slots, data, other)
  {
    var s' := slots[id := ck];
    var d' := data[id := v];
    forall a, b | a in s' && b in s' && s'[a] == s'[b]
      ensures a == b
    {
      if a != id && b != id {
        assert slots[a] == slots[b];
      }
    }
    SlotOfUnique(s', ck, id);
    if other != ck {
      match SlotOf(slots, other)
      case None =>
      case Some(j) =>
        assert j != id;
        SlotOfUnique(s', other, j);
    }
  }

  /** In an injective table there are as many distinct composite keys as slot ids. */
  lemma {:induction false} InjectiveCount(slots: map<nat, CompositeKey>)
    requires Injective(slots)
    ensures |slots.Values| == |slots|
    decreases |slots|
  {
    if slots != map[] {
      var id :| id in slots;
      var rest := slots - {id};
      assert Injective(rest);
      InjectiveCount(rest);
      forall v | v in slots.Values
        ensures v in rest.Values + {slots[id]}
      {
        var k :| k in slots && slots[k] == v;
        if k != id {
          assert rest[k] == v;
        }
      }
      forall v | v in rest.Values
        ensures v in slots.Values && v != slots[id]
      {
        var k :| k in rest && rest[k] == v;
        assert slots[k] == v;
      }
      assert slots.Values == rest.Values + {slots[id]};
      assert slots.Keys == rest.Keys + {id};
    }
  }

  /** `generate_hash`: draw `bitsize`-bit candidates until one is not in `used`. The first draw
      is followed by at most `maxGeneration` retries; when the last one still collides, generation
      fails with `HashExhaustion`. */
  method DrawFresh(rng: RandomSource, used: set<nat>, bitsize: nat, maxGeneration: nat) returns (r: Result<nat>)
    modifies rng
    ensures old(rng.position) < rng.position <= old(rng.position) + maxGeneration + 1
    ensures forall j :: old(rng.position) <= j < rng.position - 1 ==> rng.bits(j) % Pow2(bitsize) in used
    ensures r.Ok? ==> r.value == rng.bits(rng.position - 1) % Pow2(bitsize)
    ensures r.Ok? ==> r.value !in used && r.value < Pow2(bitsize)
    ensures r.Err? ==> r.error == HashExhaustion && rng.bits(rng.position - 1) % Pow2(bitsize) in used
                       && rng.position == old(rng.position) + maxGeneration + 1
  {
    var candidate := rng.GetRandBits(bitsize);
    var generation := 0;
    while candidate in used && generation < maxGeneration
      invariant 0 <= generation <= maxGeneration
      invariant rng.position == old(rng.position) + generation + 1
      invariant candidate == rng.bits(rng.position - 1) % Pow2(bitsize)
      invariant forall j :: old(rng.position) <= j < rng.position - 1 ==> rng.bits(j) % Pow2(bitsize) in used
      decreases maxGeneration - generation
    {
      candidate := rng.GetRandBits(bitsize);
      generation := generation + 1;
    }
    if candidate in used {
      r := Err(HashExhaustion);
    } else {
      r := Ok(candidate);
    }
  }

  /** A snapshot of a table's three slot maps. */
  datatype Tables = Tables(slots: map<nat, CompositeKey>, data: map<nat, Obj>, metaDict: map<nat, Kwargs>)

  /** `HashTable`. `HashTable` subclasses `Singleton`, so in the running program every
      `HashTable()` is one shared object; the model gives each table its own maps, as the factory
      that hands out private and shared tables evidently intends. */
  class HashTable {
    const bitsize: nat
    const maxGeneration: nat
    const rng: RandomSource
    var slots: map<nat, CompositeKey>
    var data: map<nat, Obj>
    var metaDict: map<nat, Kwargs>
    /** The argument classes registered per composite key. */
    var arguments: map<CompositeKey, Obj>

    ghost predicate Valid()
      reads this
    {
      && Injective(slots)
      && data.Keys == slots.Keys
      && metaDict.Keys <= slots.Keys
      && (forall id :: id in slots ==> id < Pow2(bitsize))
    }

    ghost function Snapshot(): Tables
      reads this
    {
      Tables(slots, data, metaDict)
    }

    constructor (rng: RandomSource)
      ensures Valid()
      ensures this.rng == rng && bitsize == 256 && maxGeneration == 1000
      ensures slots == map[] && data == map[] && metaDict == map[] && arguments == map[]
    {
      this.rng := rng;
      bitsize := 256;
      maxGeneration := 1000;
      slots := map[];
      data := map[];
      metaDict := map[];
      arguments := map[];
    }

    /** `generate_hash`: a fresh slot id below `2^bitsize`. */
    method GenerateHash() returns (r: Result<nat>)
      modifies rng
      ensures r.Ok? ==> r.value !in slots && r.value < Pow2(bitsize)
      ensures old(rng.position) < rng.position
      ensures r.Err? ==> r.error == HashExhaustion && rng.bits(rng.position - 1) % Pow2(bitsize) in slots
      ensures rng.position <= old(rng.position) + maxGeneration + 1
    {
      r := DrawFresh(rng, slots.Keys, bitsize, maxGeneration);
    }

    /** `set`: a composite key that is already registered raises and changes nothing; otherwise
        exactly one fresh slot id `id` is added, holding the key and the value, and the metadata
        is stored only when there is some. Slot-id generation can only run out when the table
        already has slots. */
    method Set(key: string, keyDict: Kwargs, value: Obj, meta: Option<Kwargs>) returns (o: Outcome, ghost id: nat)
      requires Valid()
      modifies this, rng
      ensures Valid() && arguments == old(arguments)
      ensures o.Fail? ==> Snapshot() == old(Snapshot())
      ensures CompositeKey(key, keyDict) in old(slots.Values) ==>
                o == Fail(AlreadyRegistered(CompositeKey(key, keyDict))) && rng.position == old(rng.position)
      ensures CompositeKey(key, keyDict) !in old(slots.Values) && o.Fail? ==>
                o.error == HashExhaustion && old(slots) != map[]
      ensures o.Pass? ==> CompositeKey(key, keyDict) !in old(slots.Values)
      ensures o.Pass? ==> id !in old(slots) && slots == old(slots)[id := CompositeKey(key, keyDict)]
      ensures o.Pass? ==> data == old(data)[id := value]
      ensures o.Pass? ==> metaDict == if meta.Some? then old(metaDict)[id := meta.value] else old(metaDict)
      ensures o.Pass? ==> |slots| == old(|slots|) + 1
    {
      id := 0;
      var ck := CompositeKey(key, keyDict);
      if ck in slots.Values {
        return Fail(AlreadyRegistered(ck)), id;
      }
      var h := GenerateHash();
      if h.Err? {
        return Fail(h.error), id;
      }
      var slotId := h.value;
      id := slotId;
      InsertThenLookup(slots, data, slotId, ck, value, ck);
      slots := slots[slotId := ck];
      data := data[slotId := value];
      if meta.Some? {
        metaDict := metaDict[slotId := meta.value];
      }
      o := Pass;
    }

    /** `get_hash`: the slot id holding the composite key, found by scanning the slots. */
    method GetHash(key: string, keyDict: Kwargs) returns (r: Result<nat>)
      requires Valid()
      ensures r.Ok? <==> CompositeKey(key, keyDict) in slots.Values
      ensures r.Ok? ==> r.value in slots && slots[r.value] == CompositeKey(key, keyDict)
      ensures r.Ok? ==> SlotOf(slots, CompositeKey(key, keyDict)) == Some(r.value)
      ensures r.Err? ==> r.error == NotRegistered(CompositeKey(key, keyDict))
    {
      var ck := CompositeKey(key, keyDict);
      var remaining := slots.Keys;
      while remaining != {}
        invariant remaining <= slots.Keys
        invariant forall id :: id in slots && id !in remaining ==> slots[id] != ck
        decreases remaining
      {
        var id :| id in remaining;
        if slots[id] == ck {
          SlotOfUnique(slots, ck, id);
          return Ok(id);
        }
        remaining := remaining - {id};
      }
      r := Err(NotRegistered(ck));
    }

    /** `set_meta`: replaces the metadata of a registered composite key. */
    method SetMeta(key: string, keyDict: Kwargs, meta: Kwargs) returns (o: Outcome)
      requires Valid()
      modifies this
      ensures Valid()
      ensures slots == old(slots) && data == old(data) && arguments == old(arguments)
      ensures o.Pass? <==> CompositeKey(key, keyDict) in slots.Values
      ensures o.Pass? ==> var id := SlotOf(slots, CompositeKey(key, keyDict)).value;
                metaDict == old(metaDict)[id := meta]
      ensures o.Fail? ==> o.error == NotRegistered(CompositeKey(key, keyDict)) && metaDict == old(metaDict)
    {
      var h := GetHash(key, keyDict);
      if h.Err? {
        return Fail(h.error);
      }
      metaDict := metaDict[h.value := meta];
      o := Pass;
    }

    /** `get`: the stored object of a registered composite key. */
    method Get(key: string, keyDict: Kwargs) returns (r: Result<Obj>)
      requires Valid()
      ensures r.Ok? <==> Lookup(slots, data, CompositeKey(key, keyDict)).Some?
      ensures r.Ok? ==> r.value == Lookup(slots, data, CompositeKey(key, keyDict)).value
      ensures r.Err? ==> r.error == NotRegistered(CompositeKey(key, keyDict))
    {
      var h := GetHash(key, keyDict);
      if h.Err? {
        return Err(h.error);
      }
      r := Ok(data[h.value]);
    }

    /** `get_meta`: the metadata of a registered composite key; a slot stored without metadata
        raises `KeyError` with the slot id. */
    method GetMeta(key: string, keyDict: Kwargs) returns (r: Result<Kwargs>)
      requires Valid()
      ensures CompositeKey(key, keyDict) !in slots.Values ==> r == Err(NotRegistered(CompositeKey(key, keyDict)))
      ensures CompositeKey(key, keyDict) in slots.Values ==>
                var id := SlotOf(slots, CompositeKey(key, keyDict)).value;
                r == if id in metaDict then Ok(metaDict[id]) else Err(KeyError(NatToString(id)))
    {
      var h := GetHash(key, keyDict);
      if h.Err? {
        return Err(h.error);
      }
      if h.value in metaDict {
        r := Ok(metaDict[h.value]);
      } else {
        r := Err(KeyError(NatToString(h.value)));
      }
    }

    /** `delete` as written: the slot and its object are removed before the metadata lookup, so a
        slot stored without metadata is half deleted when the `KeyError` is raised. */
    method DeleteAsWritten(key: string, keyDict: Kwargs) returns (o: Outcome)
      requires Valid()
      modifies this
      ensures Valid() && arguments == old(arguments)
      ensures CompositeKey(key, keyDict) !in old(slots.Values) ==>
                o == Fail(NotRegistered(CompositeKey(key, keyDict))) && Snapshot() == old(Snapshot())
      ensures CompositeKey(key, keyDict) in old(slots.Values) ==>
                var id := SlotOf(old(slots), CompositeKey(key, keyDict)).value;
                && slots == old(slots) - {id} && data == old(data) - {id}
                && metaDict == old(metaDict) - {id}
                && o == if id in old(metaDict) then Pass else Fail(KeyError(NatToString(id)))
    {
      var h := GetHash(key, keyDict);
      if h.Err? {
        return Fail(h.error);
      }
      var id := h.value;
      slots := slots - {id};
      data := data - {id};
      if id !in metaDict {
        return Fail(KeyError(NatToString(id)));
      }
      metaDict := metaDict - {id};
      o := Pass;
    }

    /** `delete` as intended: the composite key's slot id leaves all three maps together, other
        slots are untouched, and a slot without metadata is deleted like any other. */
    method Delete(key: string, keyDict: Kwargs) returns (o: Outcome)
      requires Valid()
      modifies this
      ensures Valid() && arguments == old(arguments)
      ensures o.Pass? <==> CompositeKey(key, keyDict) in old(slots.Values)
      ensures o.Fail? ==> o.error == NotRegistered(CompositeKey(key, keyDict)) && Snapshot() == old(Snapshot())
      ensures o.Pass? ==> CompositeKey(key, keyDict) !in slots.Values && |slots| == old(|slots|) - 1
      ensures o.Pass? ==> var id := SlotOf(old(slots), CompositeKey(key, keyDict)).value;
                slots == old(slots) - {id} && data == old(data) - {id} && metaDict == old(metaDict) - {id}
    {
      var h := GetHash(key, keyDict);
      if h.Err? {
        return Fail(h.error);
      }
      var id := h.value;
      var ck := CompositeKey(key, keyDict);
      slots := slots - {id};
      data := data - {id};
      metaDict := metaDict - {id};
      o := Pass;
    }

    /** `__contains__`. */
    function Contains(key: string, keyDict: Kwargs): (b: bool)
      reads this
      ensures b <==> SlotOf(slots, CompositeKey(key, keyDict)).Some?
    {
      CompositeKey(key, keyDict) in slots.Values
    }

    /** `__len__`: the number of slots, which is the number of distinct registered composite keys. */
    function Len(): (n: nat)
      requires Valid()
      reads this
      ensures n == |slots.Values|
    {
      InjectiveCount(slots);
      |slots|
    }

    /** Empties every map, the argument classes included. */
    method Clear()
      modifies this
      ensures slots == map[] && data == map[] && metaDict == map[] && arguments == map[]
      ensures Valid()
    {
      slots := map[];
      data := map[];
      metaDict := map[];
      arguments := map[];
    }

    /** Registers an argument class for a composite key, with the collision rule of `set`. */
    method SetArguments(key: string, keyDict: Kwargs, argumentClass: Obj) returns (o: Outcome)
      modifies this
      ensures Snapshot() == old(Snapshot())
      ensures CompositeKey(key, keyDict) in old(arguments) ==>
                o == Fail(AlreadyRegistered(CompositeKey(key, keyDict))) && arguments == old(arguments)
      ensures CompositeKey(key, keyDict) !in old(arguments) ==>
                o == Pass && arguments == old(arguments)[CompositeKey(key, keyDict) := argumentClass]
    {
      var ck := CompositeKey(key, keyDict);
      if ck in arguments {
        return Fail(AlreadyRegistered(ck));
      }
      arguments := arguments[ck := argumentClass];
      o := Pass;
    }

    /** The argument class registered for a composite key. */
    function GetArguments(key: string, keyDict: Kwargs): (r: Result<Obj>)
      reads this
      ensures r.Ok? <==> CompositeKey(key, keyDict) in arguments
      ensures r.Ok? ==> r.value == arguments[CompositeKey(key, keyDict)]
      ensures r.Err? ==> r.error == NotRegistered(CompositeKey(key, keyDict))
    {
      var ck := CompositeKey(key, keyDict);
      if ck in arguments then Ok(arguments[ck]) else Err(NotRegistered(ck))
    }
  }

  /** Deleting a composite key that was stored without metadata: the as-written `delete` raises
      after the key has already left the slots, while the intended `delete` succeeds. */
  method DeleteWithoutMetaIsPartial() returns (asWritten: Outcome, stillRegistered: bool, intended: Outcome)
    ensures asWritten.Fail? && asWritten.error.KeyError?
    ensures !stillRegistered
    ensures intended == Pass
  {
    var rng := new RandomSource(n => n);
    var t := new HashTable(rng);
    var stored, id := t.Set("model", map[], Instance("Model", "type", 0), None);
    asWritten := t.DeleteAsWritten("model", map[]);
    stillRegistered := t.Contains("model", map[]);

    var u := new HashTable(rng);
    stored, id := u.Set("model", map[], Instance("Model", "type", 0), None);
    intended := u.Delete("model", map[]);
  }

  /** A successful `set` followed by `get` of the same composite key returns the stored object. */
  method SetThenGet(t: HashTable, key: string, keyDict: Kwargs, value: Obj) returns (o: Outcome, r: Result<Obj>)
    requires t.Valid()
    modifies t, t.rng
    ensures o.Pass? ==> r == Ok(value)
    ensures CompositeKey(key, keyDict) in old(t.slots.Values) ==> o.Fail?
  {
    ghost var slots0, data0 := t.slots, t.data;
    ghost var id;
    o, id := t.Set(key, keyDict, value, None);
    if o.Pass? {
      InsertThenLookup(slots0, data0, id, CompositeKey(key, keyDict), value, CompositeKey(key, keyDict));
    }
    r := t.Get(key, keyDict);
  }

  /** `IndexDict.__new__`: with the keyword `shared=True` every construction returns the one
      class-level instance (warning when `warnings=True` finds it already made); every other
      construction is a fresh empty dict. `__init__` does not clear a reused instance. */
  class IndexDictClass {
    var instance: UniqueDict?<Obj>

    constructor ()
      ensures instance == null
    {
      instance := null;
    }

    method New(shared: Option<bool>, warnFlag: Option<bool>, log: Log) returns (d: UniqueDict<Obj>)
      modifies this, log
      ensures shared == Some(true) ==> d == instance
      ensures shared == Some(true) && old(instance) != null ==>
                d == old(instance) && d.items == old(d.items)
                && log.warnings == old(log.warnings) +
                  (if warnFlag == Some(true)
                   then [Warning(UserWarning, "SharedIndexDict already exists, overriding with new instance.")]
                   else [])
      ensures shared == Some(true) && old(instance) == null ==> fresh(d) && d.items == map[] && log.warnings == old(log.warnings)
      ensures shared != Some(true) ==>
                fresh(d) && d.items == map[] && instance == old(instance) && log.warnings == old(log.warnings)
    {
      if shared == Some(true) {
        if instance == null {
          instance := new UniqueDict<Obj>();
        } else if warnFlag == Some(true) {
          log.Warn(Warning(UserWarning, "SharedIndexDict already exists, overriding with new instance."));
        }
        d := instance;
      } else {
        d := new UniqueDict<Obj>();
      }
    }
  }

  /** Two shared constructions give the same dict, so an entry written through one is seen
      through the other; an unshared construction is a different, empty dict. */
  method SharedIndexDictIsOneObject(obj: Obj) returns (same: bool, seen: bool, separateEmpty: bool)
    ensures same && seen && separateEmpty
  {
    var cls := new IndexDictClass();
    var log := new Log();
    var a := cls.New(Some(true), None, log);
    var b := cls.New(Some(true), Some(true), log);
    var c := cls.New(None, None, log);
    var o := a.Insert("model", obj);
    same := a == b;
    seen := "model" in b.items;
    separateEmpty := c != a && c.items == map[];
  }
}
