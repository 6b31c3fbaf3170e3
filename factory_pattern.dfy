/** The `FactoryPattern` observer: an object may be registered only if it conforms to a pattern,
    either a function with the same annotations or a class related by inheritance or offering
    every public attribute of the pattern. */
module FactoryPattern {
  import opened Common
  import opened Metacoding
  import opened Observer

  /** A `FactoryPattern` observer: the pattern object and whether a mismatch raises. */
  datatype FactoryPatternObserver = FactoryPatternObserver(pattern: Obj, forced: bool)

  /** `class_pattern`: set in `__init__`, false exactly for a plain-function pattern. */
  predicate ClassPattern(o: FactoryPatternObserver) {
    !o.pattern.FunctionObj?
  }

  /** The names `dir` lists that the structural check ignores: those starting with `__`. */
  predicate HasDunderPrefix(name: string) {
    |name| >= 2 && name[..2] == "__"
  }

  const PatternMismatch := "Object must be a subclass of the factory pattern."

  /** The `TypeError` `isinstance` raises when its second argument is not a class. */
  const IsInstanceArgument := TypeError("isinstance() arg 2 must be a type, a tuple of types, or a union")

  /** The `TypeError` `issubclass` raises when its second argument is not a class. */
  const IsSubclassArgument := TypeError("issubclass() arg 2 must be a class, a tuple of classes, or a union")

  /** The metaclass of `type(obj)`. For a class, `type(obj)` is its metaclass, itself an instance
      of `type`; the type of a function is an instance of `type`; an instance's type has the
      recorded metaclass. */
  function MetaclassOfType(obj: Obj): string {
    match obj
    case ClassObj(_) => "type"
    case FunctionObj(_, _) => "type"
    case Instance(_, m, _) => m
  }

  /** The guard of `_match_pattern`'s class branch, for a class pattern `p`:
      `isinstance(type(obj), p) or type(obj) == type`. `type(obj)` is an instance of `p` when its
      own metaclass is `p`, or `p` is `type` or `object`, from which every metaclass derives; for
      a class, `type(obj)` is its metaclass, whose own metaclass is `type`, so only `type` and
      `object` pass that way. `type(obj) == type` holds for exactly the classes whose metaclass
      is `type`. */
  predicate ClassGuard(p: ClassInfo, obj: Obj) {
    || p.name == "type" || p.name == "object" || p.name == MetaclassOfType(obj)
    || (obj.ClassObj? && obj.cls.metaclass == "type")
  }

  /** `_match_pattern`. A function is matched against a function pattern by its annotations.
      Otherwise the pattern must be a class (anything else makes `isinstance` raise), and only
      an object passing the guard can match: `issubclass` then needs it to be a class, which
      matches if it is related to the pattern by inheritance in either direction or has every
      attribute of the pattern that does not start with `__`. */
  function MatchPattern(o: FactoryPatternObserver, obj: Obj): (r: Result<bool>)
    ensures obj.FunctionObj? && o.pattern.FunctionObj? ==> r == Ok(obj.annotations == o.pattern.annotations)
    ensures !o.pattern.ClassObj? && !(obj.FunctionObj? && o.pattern.FunctionObj?) ==> r == Err(IsInstanceArgument)
    ensures o.pattern.ClassObj? && !ClassGuard(o.pattern.cls, obj) ==> r == Ok(false)
    ensures o.pattern.ClassObj? && ClassGuard(o.pattern.cls, obj) && !obj.ClassObj? ==> r == Err(IsSubclassArgument)
    ensures o.pattern.ClassObj? && ClassGuard(o.pattern.cls, obj) && obj.ClassObj? ==>
              r == Ok(IsSubclass(o.pattern.cls, obj.cls) || IsSubclass(obj.cls, o.pattern.cls) ||
                      forall a :: a in o.pattern.cls.attrs && !HasDunderPrefix(a) ==> a in obj.cls.attrs)
  {
    if obj.FunctionObj? && !ClassPattern(o) then
      Ok(obj.annotations == o.pattern.annotations)
    else if !o.pattern.ClassObj? then
      Err(IsInstanceArgument)
    else if ClassGuard(o.pattern.cls, obj) then
      if !obj.ClassObj? then Err(IsSubclassArgument)
      else
        var p := o.pattern.cls;
        if IsSubclass(p, obj.cls) then Ok(true)
        else if IsSubclass(obj.cls, p) then Ok(true)
        else Ok(forall a | a in p.attrs && !HasDunderPrefix(a) :: a in obj.cls.attrs)
    else
      Ok(false)
  }

  /** A class pattern accepts the pattern class itself and each of its subclasses exactly when
      the guard lets the class through: every class whose metaclass is `type`. */
  lemma MatchAcceptsSubclasses(o: FactoryPatternObserver, c: ClassInfo)
    requires o.pattern.ClassObj?
    requires c.name == o.pattern.cls.name || o.pattern.cls.name in c.ancestors
    ensures MatchPattern(o, ClassObj(c)) == Ok(ClassGuard(o.pattern.cls, ClassObj(c)))
    ensures c.metaclass == "type" ==> MatchPattern(o, ClassObj(c)) == Ok(true)
  {
  }

  /** A class with another metaclass never passes the guard of an ordinary pattern class, so it
      is rejected even when it subclasses the pattern or the pattern is its own metaclass: an
      `abc.ABC` pattern rejects its own subclasses, whose metaclass is `ABCMeta`, and so does an
      `abc.ABCMeta` pattern. */
  lemma NonTypeMetaclassRejected(o: FactoryPatternObserver, c: ClassInfo)
    requires o.pattern.ClassObj?
    requires c.metaclass != "type" && o.pattern.cls.name !in {"type", "object"}
    ensures MatchPattern(o, ClassObj(c)) == Ok(false)
  {
  }

  /** The pattern `object` lets every object through the guard, so any object that is not a class
      makes `issubclass` raise. */
  lemma ObjectPatternRejectsNonClasses(o: FactoryPatternObserver, obj: Obj)
    requires o.pattern.ClassObj? && o.pattern.cls.name == "object"
    requires !obj.ClassObj? && !(obj.FunctionObj? && o.pattern.FunctionObj?)
    ensures MatchPattern(o, obj) == Err(IsSubclassArgument)
  {
  }

  /** Structural matching is monotone: a class that matches without being related to the
      pattern still matches after gaining attributes. */
  lemma MatchMonotoneInAttributes(o: FactoryPatternObserver, c: ClassInfo, extra: set<string>)
    requires o.pattern.ClassObj?
    requires MatchPattern(o, ClassObj(c)) == Ok(true)
    requires !IsSubclass(o.pattern.cls, c) && !IsSubclass(c, o.pattern.cls)
    ensures MatchPattern(o, ClassObj(ClassInfo(c.name, c.ancestors, c.attrs + extra, c.metaclass))) == Ok(true)
  {
  }

  /** `register_event`: a match stores `True`; a mismatch raises `TypeError` when forced and
      otherwise warns and stores `False`; an error from the match itself propagates. Storing
      under a key already in the shared index raises `KeyError`, after the warning. */
  function PatternRegisterStep(o: FactoryPatternObserver, items: map<string, Entry>, key: string, obj: Obj): (s: Step)
    ensures s.outcome.Fail? ==> s.items == items
    ensures s.outcome.Pass? ==> key !in items && s.items == items[key := Flag(MatchPattern(o, obj) == Ok(true))]
    ensures s.outcome.Pass? ==> MatchPattern(o, obj).Ok? && (MatchPattern(o, obj).value || !o.forced)
    ensures MatchPattern(o, obj).Err? ==> s == Step(items, Fail(MatchPattern(o, obj).error), [])
    ensures MatchPattern(o, obj) == Ok(false) && o.forced ==> s == Step(items, Fail(TypeError(PatternMismatch)), [])
    ensures MatchPattern(o, obj).Ok? && (MatchPattern(o, obj).value || !o.forced) ==>
              && (s.outcome.Pass? <==> key !in items)
              && (key in items ==> s.outcome == Fail(DuplicateKey))
              && (key !in items ==> s.items == items[key := Flag(MatchPattern(o, obj).value)])
    ensures s.warnings == (if MatchPattern(o, obj) == Ok(false) && !o.forced then [Warning(UserWarning, PatternMismatch)] else [])
  {
    match MatchPattern(o, obj)
    case Err(e) => Step(items, Fail(e), [])
    case Ok(matched) =>
      if !matched && o.forced then Step(items, Fail(TypeError(PatternMismatch)), [])
      else
        var warnings := if matched then [] else [Warning(UserWarning, PatternMismatch)];
        if key in items then Step(items, Fail(DuplicateKey), warnings)
        else Step(items[key := Flag(matched)], Pass, warnings)
  }

  /** `FactoryPattern.register_event` on the shared index. */
  method PatternRegister(o: FactoryPatternObserver, index: UniqueDict<Entry>, log: Log, key: string, obj: Obj) returns (out: Outcome)
    modifies index, log
    ensures var s := PatternRegisterStep(o, old(index.items), key, obj);
              index.items == s.items && out == s.outcome && log.warnings == old(log.warnings) + s.warnings
  {
    var m := MatchPattern(o, obj);
    if m.Err? {
      return Fail(m.error);
    }
    if !m.value {
      if o.forced {
        return Fail(TypeError(PatternMismatch));
      }
      log.Warn(Warning(UserWarning, PatternMismatch));
      out := index.Insert(key, Flag(false));
    } else {
      out := index.Insert(key, Flag(true));
    }
  }
}
