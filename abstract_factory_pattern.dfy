/** The `FactoryPattern` check of the first generation: an object is accepted only when it is a
    subclass of the pattern class. Its flags go to the observer index of that generation, a plain
    dictionary in which a later registration overwrites an earlier flag. */
module AbstractFactoryPattern {
  import opened Common
  import FactoryPattern

  const PatternMismatch := "Object must be a subclass of the factory pattern."

  /** The `TypeError`s `issubclass` raises for an argument that is not a class; the first
      argument is checked first. */
  const NotAClassArg1 := TypeError("issubclass() arg 1 must be a class")
  const NotAClassArg2 := TypeError("issubclass() arg 2 must be a class, a tuple of classes, or a union")

  /** `issubclass(obj, pattern)` on the objects of this model. */
  function SubclassCheck(obj: Obj, pattern: Obj): (r: Result<bool>)
    ensures r.Ok? <==> obj.ClassObj? && pattern.ClassObj?
    ensures !obj.ClassObj? ==> r == Err(NotAClassArg1)
    ensures obj.ClassObj? && !pattern.ClassObj? ==> r == Err(NotAClassArg2)
    ensures r.Ok? ==> (r.value <==> obj.cls.name == pattern.cls.name || pattern.cls.name in obj.cls.ancestors)
  {
    if !obj.ClassObj? then Err(NotAClassArg1)
    else if !pattern.ClassObj? then Err(NotAClassArg2)
    else Ok(IsSubclass(obj.cls, pattern.cls))
  }

  /** The observer index the flags are written to. */
  class FlagIndex {
    var flags: map<string, bool>

    constructor ()
      ensures flags == map[]
    {
      flags := map[];
    }
  }

  class FactoryPatternCheck {
    const pattern: Obj
    const forced: bool
    const index: FlagIndex
    const log: Log

    constructor (pattern: Obj, forced: bool, index: FlagIndex, log: Log)
      ensures this.pattern == pattern && this.forced == forced && this.index == index && this.log == log
    {
      this.pattern := pattern;
      this.forced := forced;
      this.index := index;
      this.log := log;
    }

    /** `register_event`: a subclass is flagged `True`; any other class raises `TypeError` when
        forced (storing nothing) and otherwise warns and is flagged `False`. An argument that is
        not a class makes `issubclass` raise before anything happens. */
    method RegisterEvent(key: string, obj: Obj, kwargs: Kwargs) returns (o: Outcome)
      modifies index, log
      ensures SubclassCheck(obj, pattern).Err? ==>
        o == Fail(SubclassCheck(obj, pattern).error) && index.flags == old(index.flags) && log.warnings == old(log.warnings)
      ensures SubclassCheck(obj, pattern) == Ok(true) ==>
        o == Pass && index.flags == old(index.flags)[key := true] && log.warnings == old(log.warnings)
      ensures SubclassCheck(obj, pattern) == Ok(false) && forced ==>
        o == Fail(TypeError(PatternMismatch)) && index.flags == old(index.flags) && log.warnings == old(log.warnings)
      ensures SubclassCheck(obj, pattern) == Ok(false) && !forced ==>
        && o == Pass && index.flags == old(index.flags)[key := false]
        && log.warnings == old(log.warnings) + [Warning(UserWarning, PatternMismatch)]
    {
      var sub := SubclassCheck(obj, pattern);
      if sub.Err? {
        return Fail(sub.error);
      }
      if !sub.value {
        if forced {
          return Fail(TypeError(PatternMismatch));
        }
        log.Warn(Warning(UserWarning, PatternMismatch));
        index.flags := index.flags[key := false];
      } else {
        index.flags := index.flags[key := true];
      }
      o := Pass;
    }

    /** `call_event`: nothing is checked at lookup. */
    function CallEvent(key: string, kwargs: Kwargs): (o: Outcome)
      ensures o.Pass?
    {
      Pass
    }

    /** `get_info`: the stored flag, or `KeyError` for a key never checked. */
    function GetInfo(key: string): (r: Result<bool>)
      reads this, index
      ensures r.Ok? <==> key in index.flags
      ensures r.Ok? ==> r.value == index.flags[key]
      ensures r.Err? ==> r.error == KeyError(StrRepr(key))
    {
      if key in index.flags then Ok(index.flags[key]) else Err(KeyError(StrRepr(key)))
    }
  }

  /** Registering and then asking for the information gives whether the object was a subclass,
      in lenient mode; a later registration under the same key overwrites the flag. */
  method RegisterThenInfo(check: FactoryPatternCheck, key: string, first: ClassInfo, second: ClassInfo)
    returns (o1: Outcome, o2: Outcome, info: Result<bool>)
    requires !check.forced && check.pattern.ClassObj?
    modifies check.index, check.log
    ensures o1 == Pass && o2 == Pass
    ensures info == Ok(IsSubclass(second, check.pattern.cls))
  {
    o1 := check.RegisterEvent(key, ClassObj(first), map[]);
    o2 := check.RegisterEvent(key, ClassObj(second), map[]);
    info := check.GetInfo(key);
  }

  /** On ordinary classes the first generation is the stricter check: every class it accepts,
      the structural check of the current generation accepts too, provided the class passes
      that check's metaclass guard; a subclass whose metaclass is not `type` is accepted here and
      rejected there. */
  lemma SubclassOnlyImpliesStructural(pattern: ClassInfo, c: ClassInfo, forced: bool)
    requires SubclassCheck(ClassObj(c), ClassObj(pattern)) == Ok(true)
    ensures FactoryPattern.MatchPattern(FactoryPattern.FactoryPatternObserver(ClassObj(pattern), forced), ClassObj(c)) ==
              Ok(FactoryPattern.ClassGuard(pattern, ClassObj(c)))
    ensures c.metaclass == "type" ==>
              FactoryPattern.MatchPattern(FactoryPattern.FactoryPatternObserver(ClassObj(pattern), forced), ClassObj(c)) == Ok(true)
  {
  }

  /** ... and strictly so: a class unrelated to the pattern that offers all of its attributes
      passes the current check and fails this one. */
  lemma UnrelatedConformingClassRejected(forced: bool)
    ensures var pattern := ClassInfo("Base", {}, {"run"}, "type");
      var c := ClassInfo("Duck", {}, {"run", "quack"}, "type");
      && SubclassCheck(ClassObj(c), ClassObj(pattern)) == Ok(false)
      && FactoryPattern.MatchPattern(FactoryPattern.FactoryPatternObserver(ClassObj(pattern), forced), ClassObj(c)) == Ok(true)
  {
  }
}
