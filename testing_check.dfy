/** The `Testing` observer: an object may be registered only if a caller-supplied test module
    accepts it. */
module Testing {
  import opened Common
  import opened Metacoding
  import opened Observer

  /** A `Testing` observer. `test(obj)` holds when calling the test module on `obj` returns
      normally and fails when it raises. */
  datatype TestingObserver = TestingObserver(test: Obj -> bool, forced: bool)

  const TestFailure := "Object must pass the test module."

  /** `register_event`. Running the test and storing `True` both sit inside the `try`, so a
      key already in the shared index counts as a failed test too. A failure raises
      `AssertionError` when forced; otherwise it warns and stores `False`, and that second store
      raises `KeyError` outside the `try` when the key is taken. */
  function TestRegisterStep(o: TestingObserver, items: map<string, Entry>, key: string, obj: Obj): (s: Step)
    ensures s.outcome.Fail? ==> s.items == items
    ensures o.test(obj) && key !in items ==> s == Step(items[key := Flag(true)], Pass, [])
    ensures !(o.test(obj) && key !in items) && o.forced ==>
              s == Step(items, Fail(AssertionError(TestFailure)), [])
    ensures !(o.test(obj) && key !in items) && !o.forced ==>
              s.warnings == [Warning(UserWarning, TestFailure)]
              && s.outcome == (if key in items then Fail(DuplicateKey) else Pass)
              && s.items == (if key in items then items else items[key := Flag(false)])
  {
    if o.test(obj) && key !in items then Step(items[key := Flag(true)], Pass, [])
    else if o.forced then Step(items, Fail(AssertionError(TestFailure)), [])
    else if key in items then Step(items, Fail(DuplicateKey), [Warning(UserWarning, TestFailure)])
    else Step(items[key := Flag(false)], Pass, [Warning(UserWarning, TestFailure)])
  }

  /** `Testing.register_event` on the shared index. */
  method TestRegister(o: TestingObserver, index: UniqueDict<Entry>, log: Log, key: string, obj: Obj) returns (out: Outcome)
    modifies index, log
    ensures var s := TestRegisterStep(o, old(index.items), key, obj);
              index.items == s.items && out == s.outcome && log.warnings == old(log.warnings) + s.warnings
  {
    var tried := Fail(AssertionError(""));
    if o.test(obj) {
      tried := index.Insert(key, Flag(true));
    }
    if tried.Pass? {
      return Pass;
    }
    if o.forced {
      return Fail(AssertionError(TestFailure));
    }
    log.Warn(Warning(UserWarning, TestFailure));
    out := index.Insert(key, Flag(false));
  }

  /** A key already in the shared index makes even a passing object fail the test: forced
      raises `AssertionError`, lenient warns and then raises `KeyError`; either way the
      existing entry stays. */
  lemma TakenKeyFailsTest(o: TestingObserver, items: map<string, Entry>, key: string, obj: Obj)
    requires key in items
    ensures var s := TestRegisterStep(o, items, key, obj);
      && s.items == items
      && s.outcome == (if o.forced then Fail(AssertionError(TestFailure)) else Fail(DuplicateKey))
  {
  }
}
