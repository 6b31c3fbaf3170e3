/** Values shared by every part of the registry model: the objects callers register, keyword
    arguments, the exceptions the code raises, the warnings it emits and the random source. */
module Common {

  datatype Option<T> = None | Some(value: T)

  /** How a call that returns nothing ends: normally, or by raising `error`. */
  datatype Outcome = Pass | Fail(error: Error)

  /** How a call that returns a value ends. */
  datatype Result<T> = Ok(value: T) | Err(error: Error)

  /** A keyword-argument value; the registry only ever compares them for equality. */
  datatype Value = Str(s: string) | Int(i: int) | Bool(b: bool) | NoneValue

  /** Keyword arguments (`**kwargs`). */
  type Kwargs = map<string, Value>

  /** A class as the structural checks see it: its name, the names of all its ancestors, every
      attribute name `dir` lists for it (inherited ones included) and the name of its metaclass
      (`"type"` for an ordinary class, `"ABCMeta"` for an `abc.ABC` subclass, ...). */
  datatype ClassInfo = ClassInfo(name: string, ancestors: set<string>, attrs: set<string>, metaclass: string)

  /** `issubclass(a, b)`: a class is a subclass of itself and of each of its ancestors. */
  predicate IsSubclass(a: ClassInfo, b: ClassInfo) {
    a.name == b.name || b.name in a.ancestors
  }

  /** An object handed to a registry: a class, a plain function with its annotations, or any
      other object (an instance, a string, ...) with the name of its type's metaclass. */
  datatype Obj =
    | ClassObj(cls: ClassInfo)
    | FunctionObj(name: string, annotations: map<string, string>)
    | Instance(typeName: string, typeMetaclass: string, id: nat)

  /** The exceptions the modelled code raises. `KeyError` carries the text `str` shows for it
      (the repr of its argument); `AggregateError` is the plain `Exception` the observer facade
      raises; `HashExhaustion` is the explicit failure of bounded slot-id generation. */
  datatype Error =
    | KeyError(arg: string)
    | ValueError(msg: string)
    | TypeError(msg: string)
    | AssertionError(msg: string)
    | RegistrationError(msg: string)
    | NotImplementedError(msg: string)
    | AttributeError(msg: string)
    | AggregateError(msg: string)
    | HashExhaustion

  /** `str(e)`. `RegistrationError` overrides `__str__` with a prefix. */
  function Text(e: Error): string {
    match e
    case KeyError(arg) => arg
    case ValueError(msg) => msg
    case TypeError(msg) => msg
    case AssertionError(msg) => msg
    case RegistrationError(msg) => "RegistrationError: " + msg
    case NotImplementedError(msg) => msg
    case AttributeError(msg) => msg
    case AggregateError(msg) => msg
    case HashExhaustion => "no free slot id within the retry budget"
  }

  /** `repr` of a string without quotes or backslashes in it. */
  function StrRepr(s: string): string {
    "'" + s + "'"
  }

  /** Decimal digits of a natural number, as `str` prints it. */
  function NatToString(n: nat): (s: string)
    ensures |s| >= 1
    ensures forall i :: 0 <= i < |s| ==> '0' <= s[i] <= '9'
  {
    var d := [(('0' as int) + n % 10) as char];
    if n < 10 then d else NatToString(n / 10) + d
  }

  /** `sep.join(parts)`. */
  function Join(parts: seq<string>, sep: string): string {
    if parts == [] then ""
    else if |parts| == 1 then parts[0]
    else parts[0] + sep + Join(parts[1..], sep)
  }

  datatype Category = UserWarning | RegistrationWarning

  datatype Warning = Warning(category: Category, text: string)

  /** Everything `warnings.warn` has emitted, in order. */
  class Log {
    var warnings: seq<Warning>

    constructor ()
      ensures warnings == []
    {
      warnings := [];
    }

    method Warn(w: Warning)
      modifies this
      ensures warnings == old(warnings) + [w]
    {
      warnings := warnings + [w];
    }
  }

  function Pow2(n: nat): (r: nat)
    ensures r >= 1
  {
    if n == 0 then 1 else 2 * Pow2(n - 1)
  }

  /** The process-wide random generator: a fixed stream of draws and how many were taken. */
  class RandomSource {
    const bits: nat -> nat
    var position: nat

    constructor (bits: nat -> nat)
      ensures this.bits == bits && position == 0
    {
      this.bits := bits;
      position := 0;
    }

    /** `random.getrandbits(k)`: the next draw, reduced to `k` bits. */
    method GetRandBits(k: nat) returns (r: nat)
      modifies this
      ensures r == bits(old(position)) % Pow2(k) && r < Pow2(k)
      ensures position == old(position) + 1
    {
      r := bits(position) % Pow2(k);
      position := position + 1;
    }
  }

  /** The dictionary built from `items` in order: a later pair overrides an earlier one with the
      same key. This is how a dict comprehension over ordered items behaves. */
  function ToMap<K, V>(items: seq<(K, V)>): (m: map<K, V>)
    ensures m.Keys == set i | 0 <= i < |items| :: items[i].0
  {
    if items == [] then map[]
    else
      var prefix := items[..|items| - 1];
      var last := items[|items| - 1];
      var m := ToMap(prefix)[last.0 := last.1];
      m
  }

  /** The value `ToMap` keeps for a key is the one of its last occurrence. */
  lemma {:induction false} ToMapLast<K, V>(items: seq<(K, V)>, i: nat)
    requires i < |items|
    requires forall j :: i < j < |items| ==> items[j].0 != items[i].0
    ensures items[i].0 in ToMap(items) && ToMap(items)[items[i].0] == items[i].1
  {
    if i < |items| - 1 {
      var prefix := items[..|items| - 1];
      assert prefix[i] == items[i];
      ToMapLast(prefix, i);
    }
  }

  /** A dictionary built from `n` pairs has at most `n` keys. */
  lemma {:induction false} ToMapSize<K, V>(items: seq<(K, V)>)
    ensures |ToMap(items)| <= |items|
  {
    if items != [] {
      var prefix := items[..|items| - 1];
      ToMapSize(prefix);
      var last := items[|items| - 1];
      assert ToMap(items).Keys == ToMap(prefix).Keys + {last.0};
    }
  }
}
