/** The first-generation `IndexDict`: a dictionary that refuses to rebind a key and runs a list
    of post-checks on every store and every lookup. `SharedIndexDict` is its one-instance
    variant. */
module AbstractIndex {
  import opened Common
  import opened Metacoding

  /** A post-check: what its `validate_register(object, key)` and `validate_call(key)` do, as
      normal return or an exception. */
  datatype PostCheck = PostCheck(validateRegister: (Obj, string) -> Outcome, validateCall: string -> Outcome)

  const MissingKey := KeyError(StrRepr("Key not in dict."))

  /** The `TypeError`s the calls at index.py lines 44 and 50 raise: both pass `self` again to
      a bound method. */
  const RegisterArity := TypeError("IndexDict.register_postcheck() takes 3 positional arguments but 4 were given")
  const CallArity := TypeError("IndexDict.call_postcheck() takes 2 positional arguments but 3 were given")

  /** Running checks in order until one raises: the first failure, or `Pass` when none fails. */
  function FirstFailure(results: seq<Outcome>): (o: Outcome)
    ensures o.Pass? <==> forall i :: 0 <= i < |results| ==> results[i].Pass?
    ensures o.Fail? ==> exists i :: 0 <= i < |results| && results[i] == o && forall j :: 0 <= j < i ==> results[j].Pass?
  {
    if results == [] then Pass
    else if results[0].Fail? then results[0]
    else
      var rest := FirstFailure(results[1..]);
      assert forall i :: 1 <= i < |results| ==> results[i] == results[1..][i - 1];
      rest
  }

  /** What each check's `validate_register` does for `obj` under `key`, in list order. */
  function RegisterResults(checks: seq<PostCheck>, obj: Obj, key: string): (rs: seq<Outcome>)
    ensures |rs| == |checks| && forall i :: 0 <= i < |checks| ==> rs[i] == checks[i].validateRegister(obj, key)
  {
    seq(|checks|, i requires 0 <= i < |checks| => checks[i].validateRegister(obj, key))
  }

  /** What each check's `validate_call` does for `key`, in list order. */
  function CallResults(checks: seq<PostCheck>, key: string): (rs: seq<Outcome>)
    ensures |rs| == |checks| && forall i :: 0 <= i < |checks| ==> rs[i] == checks[i].validateCall(key)
  {
    seq(|checks|, i requires 0 <= i < |checks| => checks[i].validateCall(key))
  }

  class IndexDict {
    var items: map<string, Obj>
    var postChecks: Option<seq<PostCheck>>

    constructor (postChecks: Option<seq<PostCheck>>)
      ensures items == map[] && this.postChecks == postChecks
    {
      items := map[];
      this.postChecks := postChecks;
    }

    /** `__setitem__` as written: with any post-check list, even an empty one, the call at line
        44 raises `TypeError` before anything is stored. */
    method SetItemAsWritten(key: string, value: Obj) returns (o: Outcome)
      modifies this
      ensures postChecks == old(postChecks)
      ensures key in old(items) ==> o == Fail(DuplicateKey) && items == old(items)
      ensures key !in old(items) && postChecks.Some? ==> o == Fail(RegisterArity) && items == old(items)
      ensures key !in old(items) && postChecks.None? ==> o == Pass && items == old(items)[key := value]
    {
      if key in items {
        return Fail(DuplicateKey);
      }
      if postChecks.Some? {
        return Fail(RegisterArity);
      }
      items := items[key := value];
      o := Pass;
    }

    /** `__getitem__` as written: with any post-check list, a registered key makes the call at
        line 50 raise `TypeError`, so the value is never returned. */
    method GetItemAsWritten(key: string) returns (r: Result<Obj>)
      ensures key !in items ==> r == Err(MissingKey)
      ensures key in items && postChecks.Some? ==> r == Err(CallArity)
      ensures key in items && postChecks.None? ==> r == Ok(items[key])
    {
      if key !in items {
        return Err(MissingKey);
      }
      if postChecks.Some? {
        return Err(CallArity);
      }
      r := Ok(items[key]);
    }

    /** How the post-checks judge storing `obj` under `key`: the first check that raises, in
        list order; no list means no check. */
    function RegisterVerdict(obj: Obj, key: string): (o: Outcome)
      reads this
      ensures o.Fail? ==> postChecks.Some? && exists i :: 0 <= i < |postChecks.value| && postChecks.value[i].validateRegister(obj, key) == o
      ensures o.Pass? <==> postChecks.None? || forall i :: 0 <= i < |postChecks.value| ==> postChecks.value[i].validateRegister(obj, key).Pass?
    {
      if postChecks.Some? then FirstFailure(RegisterResults(postChecks.value, obj, key)) else Pass
    }

    /** How the post-checks judge looking `key` up. */
    function CallVerdict(key: string): (o: Outcome)
      reads this
      ensures o.Fail? ==> postChecks.Some? && exists i :: 0 <= i < |postChecks.value| && postChecks.value[i].validateCall(key) == o
      ensures o.Pass? <==> postChecks.None? || forall i :: 0 <= i < |postChecks.value| ==> postChecks.value[i].validateCall(key).Pass?
    {
      if postChecks.Some? then FirstFailure(CallResults(postChecks.value, key)) else Pass
    }

    /** `register_postcheck`: every check's `validate_register`, in order, until one raises. */
    method RegisterPostcheck(obj: Obj, key: string) returns (o: Outcome)
      ensures o == RegisterVerdict(obj, key)
    {
      if postChecks.None? {
        return Pass;
      }
      var checks := postChecks.value;
      var i := 0;
      while i < |checks|
        invariant 0 <= i <= |checks|
        invariant forall j :: 0 <= j < i ==> checks[j].validateRegister(obj, key).Pass?
      {
        var step := checks[i].validateRegister(obj, key);
        if step.Fail? {
          return step;
        }
        i := i + 1;
      }
      o := Pass;
    }

    /** `call_postcheck`: every check's `validate_call`, in order, until one raises. */
    method CallPostcheck(key: string) returns (o: Outcome)
      ensures o == CallVerdict(key)
    {
      if postChecks.None? {
        return Pass;
      }
      var checks := postChecks.value;
      var i := 0;
      while i < |checks|
        invariant 0 <= i <= |checks|
        invariant forall j :: 0 <= j < i ==> checks[j].validateCall(key).Pass?
      {
        var step := checks[i].validateCall(key);
        if step.Fail? {
          return step;
        }
        i := i + 1;
      }
      o := Pass;
    }

    /** `__setitem__` as intended: a taken key raises `KeyError` and no check runs; otherwise
        every check validates the registration in order, and the value is stored only if none
        raises. */
    method SetItem(key: string, value: Obj) returns (o: Outcome)
      modifies this
      ensures postChecks == old(postChecks)
      ensures key in old(items) ==> o == Fail(DuplicateKey) && items == old(items)
      ensures key !in old(items) ==>
        o == RegisterVerdict(value, key) && items == if o.Pass? then old(items)[key := value] else old(items)
    {
      if key in items {
        return Fail(DuplicateKey);
      }
      o := RegisterPostcheck(value, key);
      if o.Pass? {
        items := items[key := value];
      }
    }

    /** `__getitem__` as intended: a missing key raises `KeyError`; a registered one is returned
        once every check has validated the lookup. */
    method GetItem(key: string) returns (r: Result<Obj>)
      ensures key !in items ==> r == Err(MissingKey)
      ensures key in items ==> r == if CallVerdict(key).Fail? then Err(CallVerdict(key).error) else Ok(items[key])
    {
      if key !in items {
        return Err(MissingKey);
      }
      var o := CallPostcheck(key);
      if o.Fail? {
        return Err(o.error);
      }
      r := Ok(items[key]);
    }

    /** `clear`. */
    method Clear()
      modifies this
      ensures items == map[] && postChecks == old(postChecks)
    {
      items := map[];
    }
  }

  /** The error reported is that of the earliest check that raises: later checks, raising or
      not, are never consulted. */
  lemma FirstFailureIsEarliest(results: seq<Outcome>, i: nat)
    requires i < |results| && results[i].Fail?
    requires forall j :: 0 <= j < i ==> results[j].Pass?
    ensures FirstFailure(results) == results[i]
  {
  }

  /** The arity defect: with the empty post-check list every registration raises, while the
      intended `__setitem__` stores the value; a lookup through a post-checked dictionary
      likewise raises instead of running the (absent) checks. */
  method PostCheckArityDefect(obj: Obj) returns (asWritten: Outcome, intended: Outcome, lookupAsWritten: Result<Obj>, lookup: Result<Obj>)
    ensures asWritten == Fail(RegisterArity) && intended == Pass
    ensures lookupAsWritten == Err(CallArity) && lookup == Ok(obj)
  {
    var broken := new IndexDict(Some([]));
    asWritten := broken.SetItemAsWritten("test", obj);
    var fixed := new IndexDict(Some([]));
    intended := fixed.SetItem("test", obj);
    lookupAsWritten := fixed.GetItemAsWritten("test");
    lookup := fixed.GetItem("test");
  }

  /** `SharedIndexDict`: the class keeps one instance. Every construction returns it; since
      `__init__` runs again, the post-check list is the latest one given, while the entries
      already stored survive. */
  class SharedIndexDictClass {
    var instance: IndexDict?

    constructor ()
      ensures instance == null
    {
      instance := null;
    }

    method New(postChecks: Option<seq<PostCheck>>) returns (d: IndexDict)
      modifies this, instance
      ensures d == instance && d.postChecks == postChecks
      ensures old(instance) != null ==> d == old(instance) && d.items == old(instance.items)
      ensures old(instance) == null ==> fresh(d) && d.items == map[]
    {
      if instance == null {
        instance := new IndexDict(postChecks);
      } else {
        instance.postChecks := postChecks;
      }
      d := instance;
    }
  }
}
