/** The observers that gate registration and lookup, and the `MetaInformationObserver` that
    requires a set of metadata fields at registration and checks them again at lookup.
    Every observer writes into one class-level `UniqueDict`, shared by all observer instances. */
module Observer {
  import opened Common
  import opened Metacoding

  /** What an observer stores under a key in the shared index: the dataclass instance a
      `MetaInformationObserver` builds (its fields in declaration order), or the flag a
      `FactoryPattern` or `Testing` observer records. */
  datatype Entry = Record(fields: seq<(string, Value)>) | Flag(ok: bool)

  /** What one observer event does: the shared index afterwards, how the event ends and the
      warnings it emits, in order. */
  datatype Step = Step(items: map<string, Entry>, outcome: Outcome, warnings: seq<Warning>)

  /** `RegistryObserver.get_info`: the raw entry stored under `key`. */
  function GetEntry(items: map<string, Entry>, key: string): (r: Result<Entry>)
    ensures r.Ok? <==> key in items
    ensures r.Ok? ==> r.value == items[key]
    ensures r.Err? ==> r.error == KeyError(StrRepr(key))
  {
    if key in items then Ok(items[key]) else Err(KeyError(StrRepr(key)))
  }

  /** The argument given as the field schema: a dataclass with its field names, or anything else. */
  datatype Schema = Dataclass(fieldNames: seq<string>) | NotDataclass

  /** A `MetaInformationObserver` (or one of its subclasses, named `className`): the required
      field names in declaration order and whether failures raise. */
  datatype MetaInformationObserver = MetaInformationObserver(className: string, parameters: seq<string>, forced: bool)

  /** `MetaInformationObserver.__init__`: the schema must be a dataclass, whose field names become
      the required parameters. */
  function NewMetaInformationObserver(className: string, schema: Schema, forced: bool): (r: Result<MetaInformationObserver>)
    ensures r.Err? <==> schema.NotDataclass?
    ensures r.Err? ==> r.error == TypeError("Fields must be a dataclass.")
    ensures r.Ok? ==> r.value.parameters == schema.fieldNames && r.value.forced == forced
  {
    match schema
    case NotDataclass => Err(TypeError("Fields must be a dataclass."))
    case Dataclass(names) => Ok(MetaInformationObserver(className, names, forced))
  }

  /** The declared fields absent from the keyword arguments, in declaration order. */
  function Missing(parameters: seq<string>, kwargs: Kwargs): seq<string> {
    if parameters == [] then []
    else
      var last := parameters[|parameters| - 1];
      Missing(parameters[..|parameters| - 1], kwargs) + (if last in kwargs then [] else [last])
  }

  /** A field is reported missing exactly when it is declared and not given. */
  lemma {:induction false} MissingExactly(parameters: seq<string>, kwargs: Kwargs)
    ensures forall x :: x in Missing(parameters, kwargs) <==> x in parameters && x !in kwargs
  {
    if parameters != [] {
      var prefix := parameters[..|parameters| - 1];
      MissingExactly(prefix, kwargs);
      assert parameters == prefix + [parameters[|parameters| - 1]];
    }
  }

  /** Nothing is missing when every declared field is given. */
  lemma {:induction false} NoneMissing(parameters: seq<string>, kwargs: Kwargs)
    requires forall p :: p in parameters ==> p in kwargs
    ensures Missing(parameters, kwargs) == []
  {
    if parameters != [] {
      NoneMissing(parameters[..|parameters| - 1], kwargs);
    }
  }

  /** The loop of `register_event` that collects the missing fields. */
  method MissingFields(parameters: seq<string>, kwargs: Kwargs) returns (missing: seq<string>)
    ensures missing == Missing(parameters, kwargs)
    ensures forall x :: x in missing <==> x in parameters && x !in kwargs
  {
    missing := [];
    var i := 0;
    while i < |parameters|
      invariant 0 <= i <= |parameters|
      invariant missing == Missing(parameters[..i], kwargs)
    {
      assert parameters[..i + 1][..i] == parameters[..i];
      if parameters[i] !in kwargs {
        missing := missing + [parameters[i]];
      }
      i := i + 1;
    }
    assert parameters[..i] == parameters;
    MissingExactly(parameters, kwargs);
  }

  function MissingMessage(missing: seq<string>): string {
    "Information must have a " + Join(missing, ", ") + " field."
  }

  /** The dataclass instance built from the declared fields of `kwargs`, in declaration order. */
  function RecordOf(parameters: seq<string>, kwargs: Kwargs): Entry
    requires forall p :: p in parameters ==> p in kwargs
  {
    Record(seq(|parameters|, i requires 0 <= i < |parameters| => (parameters[i], kwargs[parameters[i]])))
  }

  /** `register_event`: forced with missing fields raises `ValueError` naming them; with no missing
      field the record is stored under `key` (a key already in the shared index raises
      `KeyError`); lenient with missing fields only warns. No entry already in the index is ever
      changed, and a failing event changes nothing. */
  function MetaRegisterStep(o: MetaInformationObserver, items: map<string, Entry>, key: string, kwargs: Kwargs): (s: Step)
    ensures forall k :: k in items ==> k in s.items && s.items[k] == items[k]
    ensures s.outcome.Fail? ==> s.items == items
    ensures s.items.Keys <= items.Keys + {key}
    ensures o.forced && Missing(o.parameters, kwargs) != [] ==>
              s == Step(items, Fail(ValueError(MissingMessage(Missing(o.parameters, kwargs)))), [])
    ensures (forall p :: p in o.parameters ==> p in kwargs) && key in items ==> s == Step(items, Fail(DuplicateKey), [])
    ensures (forall p :: p in o.parameters ==> p in kwargs) && key !in items ==>
              s == Step(items[key := RecordOf(o.parameters, kwargs)], Pass, [])
    ensures !o.forced && Missing(o.parameters, kwargs) != [] ==>
              s == Step(items, Pass, [Warning(UserWarning, MissingMessage(Missing(o.parameters, kwargs)))])
  {
    var missing := Missing(o.parameters, kwargs);
    MissingExactly(o.parameters, kwargs);
    if missing != [] && o.forced then
      assert missing[0] in missing;
      Step(items, Fail(ValueError(MissingMessage(missing))), [])
    else if missing == [] then
      if key in items then Step(items, Fail(DuplicateKey), [])
      else
        Step(items[key := RecordOf(o.parameters, kwargs)], Pass, [])
    else
      assert missing[0] in missing;
      Step(items, Pass, [Warning(UserWarning, MissingMessage(missing))])
  }

  /** `MetaInformationObserver.register_event` on the shared index. */
  method MetaRegister(o: MetaInformationObserver, index: UniqueDict<Entry>, log: Log, key: string, kwargs: Kwargs) returns (out: Outcome)
    modifies index, log
    ensures var s := MetaRegisterStep(o, old(index.items), key, kwargs);
              index.items == s.items && out == s.outcome && log.warnings == old(log.warnings) + s.warnings
  {
    var missing := MissingFields(o.parameters, kwargs);
    if missing != [] && o.forced {
      out := Fail(ValueError(MissingMessage(missing)));
    } else if missing == [] {
      var record := RecordOf(o.parameters, kwargs);
      out := index.Insert(key, record);
    } else {
      log.Warn(Warning(UserWarning, MissingMessage(missing)));
      out := Pass;
    }
  }

  /** Compares the stored fields with the keyword arguments in field order: the first field
      without a keyword argument raises `KeyError`, the first unequal one a bare `AssertionError`. */
  function CheckFields(fields: seq<(string, Value)>, kwargs: Kwargs): Outcome {
    if fields == [] then Pass
    else if fields[0].0 !in kwargs then Fail(KeyError(StrRepr(fields[0].0)))
    else if kwargs[fields[0].0] != fields[0].1 then Fail(AssertionError(""))
    else CheckFields(fields[1..], kwargs)
  }

  /** The fields agree exactly when every stored field has an equal keyword argument. */
  lemma {:induction false} CheckFieldsPassIff(fields: seq<(string, Value)>, kwargs: Kwargs)
    ensures CheckFields(fields, kwargs).Pass? <==>
              forall i :: 0 <= i < |fields| ==> fields[i].0 in kwargs && kwargs[fields[i].0] == fields[i].1
  {
    if fields != [] {
      CheckFieldsPassIff(fields[1..], kwargs);
      assert forall i :: 1 <= i < |fields| ==> fields[i] == fields[1..][i - 1];
    }
  }

  /** The body of `call_event`'s `try`: the stored entry must be a dataclass instance whose fields
      all equal the keyword arguments of the same name. */
  function CheckStored(items: map<string, Entry>, key: string, kwargs: Kwargs): Outcome {
    if key !in items then Fail(KeyError(StrRepr(key)))
    else match items[key]
      case Flag(_) => Fail(TypeError("must be called with a dataclass type or instance"))
      case Record(fields) => CheckFields(fields, kwargs)
  }

  /** `call_event`: forced re-raises the failure, lenient warns with its text; the index is
      never changed. */
  function MetaCallStep(o: MetaInformationObserver, items: map<string, Entry>, key: string, kwargs: Kwargs): (s: Step)
    ensures s.items == items
    ensures s.outcome.Fail? ==> o.forced
    ensures s.warnings != [] ==> !o.forced
    ensures s.outcome == Pass && s.warnings == [] <==> CheckStored(items, key, kwargs) == Pass
    ensures CheckStored(items, key, kwargs).Fail? && o.forced ==> s.outcome == CheckStored(items, key, kwargs) && s.warnings == []
    ensures CheckStored(items, key, kwargs).Fail? && !o.forced ==>
              s.outcome == Pass && s.warnings == [Warning(UserWarning, Text(CheckStored(items, key, kwargs).error))]
  {
    var c := CheckStored(items, key, kwargs);
    if c.Pass? then Step(items, Pass, [])
    else if o.forced then Step(items, c, [])
    else Step(items, Pass, [Warning(UserWarning, Text(c.error))])
  }

  /** `MetaInformationObserver.call_event`, looping over the stored fields. */
  method MetaCall(o: MetaInformationObserver, index: UniqueDict<Entry>, log: Log, key: string, kwargs: Kwargs) returns (out: Outcome)
    modifies log
    ensures var s := MetaCallStep(o, index.items, key, kwargs);
              out == s.outcome && log.warnings == old(log.warnings) + s.warnings
  {
    var check := Pass;
    if key !in index.items {
      check := Fail(KeyError(StrRepr(key)));
    } else if index.items[key].Flag? {
      check := Fail(TypeError("must be called with a dataclass type or instance"));
    } else {
      var fields := index.items[key].fields;
      var i := 0;
      while i < |fields| && check.Pass?
        invariant 0 <= i <= |fields|
        invariant check.Pass? ==> CheckFields(fields, kwargs) == CheckFields(fields[i..], kwargs)
        invariant check.Fail? ==> check == CheckFields(fields, kwargs)
      {
        assert fields[i..][1..] == fields[i + 1..];
        if fields[i].0 !in kwargs {
          check := Fail(KeyError(StrRepr(fields[i].0)));
        } else if kwargs[fields[i].0] != fields[i].1 {
          check := Fail(AssertionError(""));
        }
        i := i + 1;
      }
    }
    if check.Pass? {
      out := Pass;
    } else if o.forced {
      out := check;
    } else {
      log.Warn(Warning(UserWarning, Text(check.error)));
      out := Pass;
    }
  }

  /** Lookup is silent exactly when `key` holds a dataclass instance whose every field equals
      the keyword argument of that name. */
  lemma CallSilentIff(o: MetaInformationObserver, items: map<string, Entry>, key: string, kwargs: Kwargs)
    ensures var s := MetaCallStep(o, items, key, kwargs);
      s.outcome == Pass && s.warnings == [] <==>
        key in items && items[key].Record? &&
        forall i :: 0 <= i < |items[key].fields| ==>
          items[key].fields[i].0 in kwargs && kwargs[items[key].fields[i].0] == items[key].fields[i].1
  {
    if key in items && items[key].Record? {
      CheckFieldsPassIff(items[key].fields, kwargs);
    }
  }

  /** Registering with every declared field present and then looking up with the same keyword
      arguments is silent. */
  lemma RegisterThenCall(o: MetaInformationObserver, items: map<string, Entry>, key: string, kwargs: Kwargs)
    requires forall p :: p in o.parameters ==> p in kwargs
    requires key !in items
    ensures MetaRegisterStep(o, items, key, kwargs).outcome == Pass
    ensures var after := MetaRegisterStep(o, items, key, kwargs).items;
              MetaCallStep(o, after, key, kwargs) == Step(after, Pass, [])
  {
    NoneMissing(o.parameters, kwargs);
    var after := MetaRegisterStep(o, items, key, kwargs).items;
    CheckFieldsPassIff(after[key].fields, kwargs);
  }

  /** `MetaInformationObserver.get_info`: the stored instance as a field-name to value map. */
  function GetInfo(items: map<string, Entry>, key: string): (r: Result<map<string, Value>>)
    ensures r.Ok? <==> key in items && items[key].Record?
    ensures r.Ok? ==> r.value.Keys == set i | 0 <= i < |items[key].fields| :: items[key].fields[i].0
    ensures key !in items ==> r == Err(KeyError(StrRepr(key)))
  {
    if key !in items then Err(KeyError(StrRepr(key)))
    else match items[key]
      case Flag(_) => Err(TypeError("asdict() should be called on dataclass instances"))
      case Record(fields) => Ok(ToMap(fields))
  }

  /** A map built from pairs whose value is determined by the key holds that value. */
  lemma {:induction false} ToMapOfFields(parameters: seq<string>, kwargs: Kwargs, p: string)
    requires forall q :: q in parameters ==> q in kwargs
    requires p in parameters
    ensures var fields := RecordOf(parameters, kwargs).fields; p in ToMap(fields) && ToMap(fields)[p] == kwargs[p]
  {
    var fields := RecordOf(parameters, kwargs).fields;
    var prefix := parameters[..|parameters| - 1];
    var last := parameters[|parameters| - 1];
    assert fields[..|fields| - 1] == RecordOf(prefix, kwargs).fields;
    if p != last {
      assert p in prefix by {
        var i :| 0 <= i < |parameters| && parameters[i] == p;
        assert prefix[i] == p;
      }
      ToMapOfFields(prefix, kwargs, p);
    }
  }

  /** After a successful registration `get_info` returns exactly the declared fields with the
      values given at registration. */
  lemma RegisterThenGetInfo(o: MetaInformationObserver, items: map<string, Entry>, key: string, kwargs: Kwargs)
    requires forall p :: p in o.parameters ==> p in kwargs
    requires key !in items
    ensures var r := GetInfo(MetaRegisterStep(o, items, key, kwargs).items, key);
      && r.Ok?
      && r.value.Keys == set p | p in o.parameters
      && forall p :: p in o.parameters ==> p in r.value && r.value[p] == kwargs[p]
  {
    NoneMissing(o.parameters, kwargs);
    var fields := RecordOf(o.parameters, kwargs).fields;
    forall p | p in o.parameters
      ensures p in ToMap(fields) && ToMap(fields)[p] == kwargs[p]
    {
      ToMapOfFields(o.parameters, kwargs, p);
    }
    forall p | p in ToMap(fields)
      ensures p in o.parameters
    {
      var i :| 0 <= i < |fields| && fields[i].0 == p;
    }
  }
}
