/** `HashMediator`: orders the steps of a registry event. Registration derives the key dict,
    lets the observer facade validate and then writes the hash table; lookup fetches the stored
    object first and validates afterwards. `HashConnection` maps connection hashes to mediators. */
module Mediator {
  import opened Common
  import opened Observer
  import opened Facade
  import opened Index

  /** One registry's mediator. `table` is reassigned by the factory for shared registries. */
  class HashMediator {
    const connectionHash: nat
    const facade: ObserverFacade
    var table: HashTable

    /** `HashMediator.__init__`: a table of its own, with the default bit size and retry bound. */
    constructor (connectionHash: nat, facade: ObserverFacade, rng: RandomSource)
      ensures this.connectionHash == connectionHash && this.facade == facade
      ensures fresh(table) && table.Valid() && table.rng == rng
      ensures table.slots == map[] && table.data == map[] && table.metaDict == map[] && table.arguments == map[]
    {
      this.connectionHash := connectionHash;
      this.facade := facade;
      table := new HashTable(rng);
    }

    /** `generate_key_dict`: the discriminator the facade derives from the key and keyword
        arguments; registration and lookup with the same arguments address the same slot. */
    function KeyDict(key: string, kwargs: Kwargs): (d: Kwargs)
      reads this, facade
      ensures facade.observers == [] ==> d == map[]
    {
      facade.GenerateKeyDict(key, kwargs)
    }

    /** The composite key registration and lookup use for `key` and `kwargs`. */
    function Address(key: string, kwargs: Kwargs): CompositeKey
      reads this, facade
    {
      CompositeKey(key, KeyDict(key, kwargs))
    }

    /** `register_event`: the facade validates first; if it raises, the table is untouched.
        Otherwise the object is stored, without metadata, under the derived composite key, and
        a composite key that is already registered raises `KeyError`. */
    method RegisterEvent(key: string, obj: Obj, kwargs: Kwargs) returns (o: Outcome)
      requires table.Valid()
      modifies table, table.rng, facade.index, facade.log
      ensures table.Valid() && table.arguments == old(table.arguments)
      ensures var run := RunRegister(facade.observers, old(facade.index.items), key, obj, kwargs);
        && facade.index.items == run.items
        && facade.log.warnings == old(facade.log.warnings) + run.warnings
        && (Verdict(run.errors, facade.skipValidation).Fail? ==>
              o == Verdict(run.errors, facade.skipValidation) && table.Snapshot() == old(table.Snapshot()))
      ensures o.Fail? ==> table.Snapshot() == old(table.Snapshot())
      ensures Address(key, kwargs) in old(table.slots.Values) ==> o.Fail?
      ensures var run := RunRegister(facade.observers, old(facade.index.items), key, obj, kwargs);
        Verdict(run.errors, facade.skipValidation).Pass? && Address(key, kwargs) in old(table.slots.Values) ==>
          o == Fail(AlreadyRegistered(Address(key, kwargs)))
      ensures var run := RunRegister(facade.observers, old(facade.index.items), key, obj, kwargs);
        Verdict(run.errors, facade.skipValidation).Pass? && Address(key, kwargs) !in old(table.slots.Values) ==>
          o.Pass? || (o == Fail(HashExhaustion) && old(table.slots) != map[])
      ensures o.Pass? ==>
        && Address(key, kwargs) !in old(table.slots.Values)
        && Lookup(table.slots, table.data, Address(key, kwargs)) == Some(obj)
        && |table.slots| == old(|table.slots|) + 1
        && table.metaDict == old(table.metaDict)
      ensures o.Pass? ==> forall other :: other != Address(key, kwargs) ==>
        Lookup(table.slots, table.data, other) == Lookup(old(table.slots), old(table.data), other)
    {
      var keyDict := KeyDict(key, kwargs);
      var v := facade.RegisterEvent(key, obj, kwargs);
      if v.Fail? {
        return v;
      }
      ghost var slots0, data0 := table.slots, table.data;
      ghost var id;
      o, id := table.Set(key, keyDict, obj, None);
      if o.Pass? {
        forall other | other != Address(key, kwargs)
          ensures Lookup(table.slots, table.data, other) == Lookup(slots0, data0, other)
        {
          InsertThenLookup(slots0, data0, id, CompositeKey(key, keyDict), obj, other);
        }
        InsertThenLookup(slots0, data0, id, CompositeKey(key, keyDict), obj, CompositeKey(key, keyDict));
      }
    }

    /** What `call_event` yields: `KeyError` for an unregistered composite key, otherwise the
        stored object unless the facade's lookup validation raises. */
    ghost function CallResult(key: string, kwargs: Kwargs): Result<Obj>
      reads this, facade, table, facade.index
    {
      match Lookup(table.slots, table.data, Address(key, kwargs))
      case None => Err(NotRegistered(Address(key, kwargs)))
      case Some(v) =>
        var verdict := Verdict(RunCall(facade.observers, facade.index.items, key, kwargs).errors, facade.skipValidation);
        if verdict.Fail? then Err(verdict.error) else Ok(v)
    }

    /** The warnings `call_event` emits: none when the object is not found, since no observer
        runs, otherwise those of the observers' lookups. */
    ghost function CallWarnings(key: string, kwargs: Kwargs): seq<Warning>
      reads this, facade, table, facade.index
    {
      if Lookup(table.slots, table.data, Address(key, kwargs)).None? then []
      else RunCall(facade.observers, facade.index.items, key, kwargs).warnings
    }

    /** `call_event`: the object is fetched before any observer runs, so an unregistered
        composite key raises `KeyError` with no observer invoked; otherwise the facade's lookup
        validation decides whether the object is returned. Nothing but the warning log changes. */
    method CallEvent(key: string, kwargs: Kwargs) returns (r: Result<Obj>)
      requires table.Valid()
      modifies facade.log
      ensures Lookup(table.slots, table.data, Address(key, kwargs)).None? ==>
        r == Err(NotRegistered(Address(key, kwargs))) && facade.log.warnings == old(facade.log.warnings)
      ensures r == CallResult(key, kwargs)
      ensures facade.log.warnings == old(facade.log.warnings) + CallWarnings(key, kwargs)
    {
      var keyDict := KeyDict(key, kwargs);
      var got := table.Get(key, keyDict);
      if got.Err? {
        return Err(got.error);
      }
      var v := facade.CallEvent(key, kwargs);
      if v.Fail? {
        return Err(v.error);
      }
      r := Ok(got.value);
    }

    /** `get_meta`: the metadata stored for the derived composite key. */
    method GetMeta(key: string, kwargs: Kwargs) returns (r: Result<Kwargs>)
      requires table.Valid()
      ensures Address(key, kwargs) !in table.slots.Values ==> r == Err(NotRegistered(Address(key, kwargs)))
      ensures Address(key, kwargs) in table.slots.Values ==>
        var id := SlotOf(table.slots, Address(key, kwargs)).value;
        r == (if id in table.metaDict then Ok(table.metaDict[id]) else Err(KeyError(NatToString(id))))
    {
      var keyDict := KeyDict(key, kwargs);
      r := table.GetMeta(key, keyDict);
    }
  }

  /** Registering and then looking up with the same keyword arguments addresses the same slot:
      the lookup returns the registered object unless lookup validation rejects it, and with
      validation skipped it always returns it. */
  method RegisterThenCall(m: HashMediator, key: string, obj: Obj, kwargs: Kwargs) returns (o: Outcome, r: Result<Obj>)
    requires m.table.Valid()
    modifies m.table, m.table.rng, m.facade.index, m.facade.log
    ensures o.Pass? ==> r == Ok(obj) || (r.Err? && r.error.AggregateError? && !m.facade.skipValidation)
    ensures o.Pass? && m.facade.skipValidation ==> r == Ok(obj)
  {
    o := m.RegisterEvent(key, obj, kwargs);
    r := m.CallEvent(key, kwargs);
  }

  /** `HashConnection`: the mediators by connection hash, starting empty. */
  class HashConnection {
    var connection: map<nat, HashMediator>

    constructor ()
      ensures connection == map[]
    {
      connection := map[];
    }

    /** `add_connection`: binds the hash to the mediator, replacing any earlier binding. */
    method AddConnection(connectionHash: nat, mediator: HashMediator)
      modifies this
      ensures connection == old(connection)[connectionHash := mediator]
    {
      connection := connection[connectionHash := mediator];
    }

    /** `get_connection`: the mediator bound to the hash; `KeyError` when there is none. */
    function GetConnection(connectionHash: nat): (r: Result<HashMediator>)
      reads this
      ensures r.Ok? <==> connectionHash in connection
      ensures r.Ok? ==> r.value == connection[connectionHash]
      ensures r.Err? ==> r.error == KeyError(NatToString(connectionHash))
    {
      if connectionHash in connection then Ok(connection[connectionHash])
      else Err(KeyError(NatToString(connectionHash)))
    }
  }

  /** Adding a connection makes it retrievable, a later add under the same hash overwrites it,
      and other hashes keep their mediators. */
  method AddThenGet(c: HashConnection, h: nat, first: HashMediator, second: HashMediator, other: nat)
    returns (got1: Result<HashMediator>, got2: Result<HashMediator>, kept: bool)
    modifies c
    ensures got1 == Ok(first) && got2 == Ok(second)
    ensures kept
  {
    var before := c.GetConnection(other);
    c.AddConnection(h, first);
    got1 := c.GetConnection(h);
    c.AddConnection(h, second);
    got2 := c.GetConnection(h);
    kept := other == h || c.GetConnection(other) == before;
  }
}
