/** `Config` of the first generation: configuration groups of tagged values, merged from handler
    output, plus the plain attributes set through `to_environment`. A handler turns an object into
    either a mapping of key to (value, type) or one (value, type) pair; that output is what the
    operations here receive. */
module AbstractConfig {
  import opened Common

  /** A value with the name of its type, the pair `as_config_data` produces. */
  datatype Tagged = Tagged(value: Value, typeName: string)

  /** What `as_config_data` returns: a dictionary of tagged values (in insertion order) or a
      single tagged value. */
  datatype ConfigData = Grouped(entries: seq<(string, Tagged)>) | Single(entry: Tagged)

  /** A loaded YAML document node: a mapping (in order) or a scalar. */
  datatype Loaded = Mapping(pairs: seq<(string, Value)>) | Scalar(v: Value)

  /** `type(v).__name__` for the values of this model. */
  function TypeName(v: Value): string {
    match v
    case Str(_) => "str"
    case Int(_) => "int"
    case Bool(_) => "bool"
    case NoneValue => "NoneType"
  }

  /** `YamlHandler.as_config_data`: every value tagged with its own type. */
  function YamlConfigData(obj: Loaded): (d: ConfigData)
    ensures obj.Mapping? <==> d.Grouped?
    ensures obj.Mapping? ==> |d.entries| == |obj.pairs|
    ensures obj.Mapping? ==>
      forall i :: 0 <= i < |obj.pairs| ==> d.entries[i] == (obj.pairs[i].0, Tagged(obj.pairs[i].1, TypeName(obj.pairs[i].1)))
    ensures obj.Scalar? ==> d.entry == Tagged(obj.v, TypeName(obj.v))
  {
    match obj
    case Mapping(pairs) => Grouped(seq(|pairs|, i requires 0 <= i < |pairs| => (pairs[i].0, Tagged(pairs[i].1, TypeName(pairs[i].1)))))
    case Scalar(v) => Single(Tagged(v, TypeName(v)))
  }

  /** The keys of a handler's dictionary output are distinct, as the keys of any dictionary. */
  predicate DistinctKeys<T>(entries: seq<(string, T)>) {
    forall i, j :: 0 <= i < j < |entries| ==> entries[i].0 != entries[j].0
  }

  /** The warnings `overwrite_config_data` emits. */
  function NotFound(k: string): Warning {
    Warning(UserWarning, "Key " + k + " not found in original.")
  }

  function TypeMismatch(k: string): Warning {
    Warning(UserWarning, "Key " + k + " type not matching original.")
  }

  /** The dictionary `d` after assigning the pairs of `entries` one by one: `d.update(entries)`.
      `Merged(map[], entries)` is the dictionary built from `entries`. */
  function Merged<V>(d: map<string, V>, entries: seq<(string, V)>): map<string, V>
    decreases |entries|
  {
    if entries == [] then d
    else
      var last := entries[|entries| - 1];
      Merged(d, entries[..|entries| - 1])[last.0 := last.1]
  }

  /** A key no entry assigns keeps its presence and its value. */
  lemma {:induction false} MergedOutside<V>(d: map<string, V>, entries: seq<(string, V)>, k: string)
    requires forall i :: 0 <= i < |entries| ==> entries[i].0 != k
    ensures (k in Merged(d, entries)) == (k in d)
    ensures k in d ==> Merged(d, entries)[k] == d[k]
    decreases |entries|
  {
    if entries != [] {
      MergedOutside(d, entries[..|entries| - 1], k);
    }
  }

  /** A key holds the value of its last assignment. */
  lemma {:induction false} MergedLast<V>(d: map<string, V>, entries: seq<(string, V)>, i: nat)
    requires i < |entries|
    requires forall j :: i < j < |entries| ==> entries[j].0 != entries[i].0
    ensures entries[i].0 in Merged(d, entries) && Merged(d, entries)[entries[i].0] == entries[i].1
    decreases |entries|
  {
    if i < |entries| - 1 {
      var prefix := entries[..|entries| - 1];
      assert prefix[i] == entries[i];
      MergedLast(d, prefix, i);
    }
  }

  /** With distinct incoming keys, every incoming key holds its incoming value and every other
      key keeps its value. */
  lemma MergeReplacesAndKeeps<V>(d: map<string, V>, entries: seq<(string, V)>)
    requires DistinctKeys(entries)
    ensures forall i :: 0 <= i < |entries| ==> entries[i].0 in Merged(d, entries) && Merged(d, entries)[entries[i].0] == entries[i].1
    ensures forall k :: (forall i :: 0 <= i < |entries| ==> entries[i].0 != k) ==>
              (k in Merged(d, entries)) == (k in d) && (k in d ==> Merged(d, entries)[k] == d[k])
  {
    forall i | 0 <= i < |entries|
      ensures entries[i].0 in Merged(d, entries) && Merged(d, entries)[entries[i].0] == entries[i].1
    {
      MergedLast(d, entries, i);
    }
    forall k | forall i :: 0 <= i < |entries| ==> entries[i].0 != k
      ensures (k in Merged(d, entries)) == (k in d) && (k in d ==> Merged(d, entries)[k] == d[k])
    {
      MergedOutside(d, entries, k);
    }
  }

  /** Whether an entry agrees with the group: its key is there with the same type. */
  predicate Agrees(group: map<string, Tagged>, e: (string, Tagged)) {
    e.0 in group && group[e.0].typeName == e.1.typeName
  }

  /** The warning for one incoming entry against the group as it stands. */
  function EntryWarnings(group: map<string, Tagged>, e: (string, Tagged)): (ws: seq<Warning>)
    ensures ws == [] <==> Agrees(group, e)
    ensures !Agrees(group, e) ==> ws == [if e.0 in group then TypeMismatch(e.0) else NotFound(e.0)]
  {
    if e.0 !in group then [NotFound(e.0)]
    else if group[e.0].typeName != e.1.typeName then [TypeMismatch(e.0)]
    else []
  }

  /** All warnings of merging `entries` into `group` one after the other. */
  function WarningsFor(group: map<string, Tagged>, entries: seq<(string, Tagged)>): seq<Warning>
    decreases |entries|
  {
    if entries == [] then []
    else
      var prefix := entries[..|entries| - 1];
      WarningsFor(group, prefix) + EntryWarnings(Merged(group, prefix), entries[|entries| - 1])
  }

  /** Merging is silent exactly when every incoming key is already in the group with the same
      type. */
  lemma {:induction false} WarningsForSilentIff(group: map<string, Tagged>, entries: seq<(string, Tagged)>)
    requires DistinctKeys(entries)
    ensures WarningsFor(group, entries) == [] <==> forall i :: 0 <= i < |entries| ==> Agrees(group, entries[i])
    decreases |entries|
  {
    if entries != [] {
      var n := |entries| - 1;
      var prefix := entries[..n];
      var last := entries[n];
      assert forall i :: 0 <= i < n ==> prefix[i] == entries[i];
      WarningsForSilentIff(group, prefix);
      MergedOutside(group, prefix, last.0);
      assert WarningsFor(group, entries) == WarningsFor(group, prefix) + EntryWarnings(Merged(group, prefix), last);
      assert Agrees(Merged(group, prefix), last) == Agrees(group, last);
      assert (forall i :: 0 <= i < |entries| ==> Agrees(group, entries[i])) <==>
             (forall i :: 0 <= i < n ==> Agrees(group, prefix[i])) && Agrees(group, last);
    }
  }

  /** One more entry merged: the group gains it and its warning follows the earlier ones. */
  lemma MergeStep(group: map<string, Tagged>, entries: seq<(string, Tagged)>, i: nat)
    requires i < |entries|
    ensures Merged(group, entries[..i + 1]) == Merged(group, entries[..i])[entries[i].0 := entries[i].1]
    ensures WarningsFor(group, entries[..i + 1]) == WarningsFor(group, entries[..i]) + EntryWarnings(Merged(group, entries[..i]), entries[i])
  {
    assert entries[..i + 1][..i] == entries[..i];
  }

  /** The untagged values of entries, in order. */
  function Untagged(entries: seq<(string, Tagged)>): (r: seq<(string, Value)>)
    ensures |r| == |entries| && forall i :: 0 <= i < |entries| ==> r[i] == (entries[i].0, entries[i].1.value)
  {
    seq(|entries|, i requires 0 <= i < |entries| => (entries[i].0, entries[i].1.value))
  }

  /** The loop of `overwrite_config_data`: each incoming pair is written into the group in turn,
      warning for a key the group lacks or whose type differs at that point. */
  method MergeWithWarnings(original: map<string, Tagged>, entries: seq<(string, Tagged)>, log: Log) returns (group: map<string, Tagged>)
    modifies log
    ensures group == Merged(original, entries)
    ensures log.warnings == old(log.warnings) + WarningsFor(original, entries)
  {
    group := original;
    var i := 0;
    while i < |entries|
      invariant 0 <= i <= |entries|
      invariant group == Merged(original, entries[..i])
      invariant log.warnings == old(log.warnings) + WarningsFor(original, entries[..i])
    {
      var k := entries[i].0;
      MergeStep(original, entries, i);
      if k in group {
        if entries[i].1.typeName != group[k].typeName {
          log.Warn(TypeMismatch(k));
        }
      } else {
        log.Warn(NotFound(k));
      }
      group := group[k := entries[i].1];
      i := i + 1;
    }
    assert entries[..i] == entries;
  }

  const TupleHasNoItems := AttributeError("'tuple' object has no attribute 'items'")

  class Config {
    var configData: map<string, map<string, Tagged>>
    var environment: map<string, Value>
    const log: Log

    constructor (log: Log)
      ensures configData == map[] && environment == map[] && this.log == log
    {
      configData := map[];
      environment := map[];
      this.log := log;
    }

    /** `to_environment(key, value)`: the value without its type becomes an attribute. */
    method ToEnvironment(key: string, value: Tagged)
      modifies this
      ensures environment == old(environment)[key := value.value] && configData == old(configData)
    {
      environment := environment[key := value.value];
    }

    /** `to_config_data`: the group is replaced wholesale by the handler's dictionary. */
    method ToConfigData(groupName: string, entries: seq<(string, Tagged)>)
      modifies this
      ensures configData == old(configData)[groupName := Merged(map[], entries)]
      ensures environment == old(environment)
    {
      configData := configData[groupName := Merged(map[], entries)];
    }

    /** `overwrite_config_data`: every incoming pair is written into the existing group, with a
        warning for a key the group lacks or whose type differs. A single pair has no `items`;
        an absent group raises `KeyError` at the first incoming entry. */
    method OverwriteConfigData(groupName: string, data: ConfigData) returns (o: Outcome)
      modifies this, log
      ensures environment == old(environment)
      ensures data.Single? ==> o == Fail(TupleHasNoItems) && configData == old(configData) && log.warnings == old(log.warnings)
      ensures data.Grouped? && data.entries != [] && groupName !in old(configData) ==>
        o == Fail(KeyError(StrRepr(groupName))) && configData == old(configData) && log.warnings == old(log.warnings)
      ensures data.Grouped? && data.entries == [] ==>
        o == Pass && configData == old(configData) && log.warnings == old(log.warnings)
      ensures data.Grouped? && groupName in old(configData) ==>
        && o == Pass
        && configData == old(configData)[groupName := Merged(old(configData)[groupName], data.entries)]
        && log.warnings == old(log.warnings) + WarningsFor(old(configData)[groupName], data.entries)
    {
      if data.Single? {
        return Fail(TupleHasNoItems);
      }
      var entries := data.entries;
      if entries == [] {
        assert groupName in configData ==> configData[groupName := configData[groupName]] == configData;
        return Pass;
      }
      if groupName !in configData {
        return Fail(KeyError(StrRepr(groupName)));
      }
      var group := MergeWithWarnings(configData[groupName], entries, log);
      configData := configData[groupName := group];
      o := Pass;
    }

    /** `processing_arguments`. A dictionary for a group other than `env` is merged into that
        group when it exists and becomes the group otherwise; the pairs of an `env` dictionary
        become attributes; a single pair becomes the attribute named after the group. */
    method ProcessingArguments(group: string, data: ConfigData)
      modifies this, log
      ensures data.Grouped? && group != "env" && group in old(configData) ==>
        && configData == old(configData)[group := Merged(old(configData)[group], data.entries)]
        && log.warnings == old(log.warnings) + WarningsFor(old(configData)[group], data.entries)
        && environment == old(environment)
      ensures data.Grouped? && group != "env" && group !in old(configData) ==>
        && configData == old(configData)[group := Merged(map[], data.entries)]
        && log.warnings == old(log.warnings) && environment == old(environment)
      ensures data.Grouped? && group == "env" ==>
        && environment == Merged(old(environment), Untagged(data.entries))
        && configData == old(configData) && log.warnings == old(log.warnings)
      ensures data.Single? ==>
        && environment == old(environment)[group := data.entry.value]
        && configData == old(configData) && log.warnings == old(log.warnings)
    {
      if data.Grouped? && group != "env" {
        if group in configData {
          var _ := OverwriteConfigData(group, data);
        } else {
          ToConfigData(group, data.entries);
        }
      } else if data.Grouped? {
        var entries := data.entries;
        var i := 0;
        while i < |entries|
          invariant 0 <= i <= |entries|
          invariant environment == Merged(old(environment), Untagged(entries[..i]))
          invariant configData == old(configData) && log.warnings == old(log.warnings)
        {
          assert Untagged(entries[..i + 1])[..i] == Untagged(entries[..i]);
          ToEnvironment(entries[i].0, entries[i].1);
          i := i + 1;
        }
        assert entries[..i] == entries;
      } else {
        ToEnvironment(group, data.entry);
      }
    }

    /** `return_arguments`: the group's values without their types; an unknown group raises
        `KeyError`. */
    function ReturnArguments(callName: string): (r: Result<map<string, Value>>)
      reads this
      ensures r.Ok? <==> callName in configData
      ensures r.Err? ==> r.error == KeyError(StrRepr(callName))
      ensures r.Ok? ==> r.value.Keys == configData[callName].Keys
      ensures r.Ok? ==> forall k :: k in r.value ==> r.value[k] == configData[callName][k].value
    {
      if callName !in configData then Err(KeyError(StrRepr(callName)))
      else
        var group := configData[callName];
        Ok(map k | k in group :: group[k].value)
    }
  }

  /** Processing a dictionary for a new group and reading the group back gives the incoming
      values; processing a second dictionary for it then overrides exactly the incoming keys. */
  method ProcessThenReturn(c: Config, group: string, first: seq<(string, Tagged)>, second: seq<(string, Tagged)>, k: string)
    returns (initial: Result<map<string, Value>>, merged: Result<map<string, Value>>)
    requires group != "env" && group !in c.configData
    requires DistinctKeys(first) && DistinctKeys(second)
    modifies c, c.log
    ensures initial.Ok? && forall i :: 0 <= i < |first| ==> first[i].0 in initial.value && initial.value[first[i].0] == first[i].1.value
    ensures merged.Ok? && forall i :: 0 <= i < |second| ==> second[i].0 in merged.value && merged.value[second[i].0] == second[i].1.value
    ensures merged.Ok? && k in initial.value && (forall i :: 0 <= i < |second| ==> second[i].0 != k) ==> k in merged.value && merged.value[k] == initial.value[k]
  {
    c.ProcessingArguments(group, Grouped(first));
    initial := c.ReturnArguments(group);
    MergeReplacesAndKeeps(map[], first);
    c.ProcessingArguments(group, Grouped(second));
    merged := c.ReturnArguments(group);
    MergeReplacesAndKeeps(Merged(map[], first), second);
  }
}
