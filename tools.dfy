/** Dictionary and function helpers: dropping keys, left-to-right composition and renaming keys
    to lower or upper case. */
module Tools {
  import opened Common

  /** `omit_from_dict`: the entries whose key is not among `omitKeys`. */
  function OmitFromDict<V>(d: map<string, V>, omitKeys: seq<string>): (r: map<string, V>)
    ensures forall k :: k in r <==> k in d && k !in omitKeys
    ensures forall k :: k in r ==> r[k] == d[k]
  {
    map k | k in d && k !in omitKeys :: d[k]
  }

  /** The entries `omit_from_dict` drops. */
  function Omitted<V>(d: map<string, V>, omitKeys: seq<string>): map<string, V> {
    map k | k in d && k in omitKeys :: d[k]
  }

  /** Omitting loses nothing else: the kept and the dropped entries together are the input, and
      omitting the same keys again changes nothing. */
  lemma OmitSplitsDict<V>(d: map<string, V>, omitKeys: seq<string>)
    ensures OmitFromDict(d, omitKeys) + Omitted(d, omitKeys) == d
    ensures OmitFromDict(OmitFromDict(d, omitKeys), omitKeys) == OmitFromDict(d, omitKeys)
  {
    var kept := OmitFromDict(d, omitKeys);
    assert (kept + Omitted(d, omitKeys)).Keys == d.Keys;
  }

  const EmptyReduce := "reduce() of empty iterable with no initial value"

  /** `compose(*functions)`: `functools.reduce` of `lambda f, g: lambda x: g(f(x))`, so the
      functions run left to right; with no function `reduce` raises `TypeError`. */
  function Compose<T>(fs: seq<T -> T>): (r: Result<T -> T>)
    ensures r.Err? <==> fs == []
    ensures r.Err? ==> r.error == TypeError(EmptyReduce)
  {
    if fs == [] then Err(TypeError(EmptyReduce))
    else if |fs| == 1 then Ok(fs[0])
    else
      var f := Compose(fs[..|fs| - 1]).value;
      var g := fs[|fs| - 1];
      Ok(x => g(f(x)))
  }

  /** Applying the functions one after the other, the first one first. */
  function ApplyInOrder<T>(fs: seq<T -> T>, x: T): T
    decreases |fs|
  {
    if fs == [] then x else ApplyInOrder(fs[1..], fs[0](x))
  }

  /** Applying a non-empty list applies its last function to what the others give. */
  lemma {:induction false} ApplyInOrderLast<T>(fs: seq<T -> T>, x: T)
    requires fs != []
    ensures ApplyInOrder(fs, x) == fs[|fs| - 1](ApplyInOrder(fs[..|fs| - 1], x))
    decreases |fs|
  {
    if |fs| > 1 {
      ApplyInOrderLast(fs[1..], fs[0](x));
      assert fs[1..][..|fs| - 2] == fs[..|fs| - 1][1..];
    }
  }

  /** The composition of two or more functions applies the last one to the composition of the
      others. */
  lemma ComposeLast<T>(fs: seq<T -> T>, x: T)
    requires |fs| > 1
    ensures Compose(fs).value(x) == fs[|fs| - 1](Compose(fs[..|fs| - 1]).value(x))
  {
  }

  /** The composition of a non-empty list applies its functions left to right. */
  lemma {:induction false} ComposeAppliesInOrder<T>(fs: seq<T -> T>, x: T)
    requires fs != []
    ensures Compose(fs).value(x) == ApplyInOrder(fs, x)
    decreases |fs|
  {
    if |fs| > 1 {
      ComposeLast(fs, x);
      ComposeAppliesInOrder(fs[..|fs| - 1], x);
      ApplyInOrderLast(fs, x);
    }
  }

  /** `compose(f, g)(x) == g(f(x))`, and `compose(f)` is `f`. */
  lemma ComposeTwoAndOne<T>(f: T -> T, g: T -> T, x: T)
    ensures Compose([f, g]).value(x) == g(f(x))
    ensures Compose([f]).value(x) == f(x)
  {
    assert [f, g][..1] == [f];
  }

  /** ASCII `str.lower` and `str.upper` of one character. */
  function LowerChar(c: char): char {
    if 'A' <= c <= 'Z' then (c as int + 32) as char else c
  }

  function UpperChar(c: char): char {
    if 'a' <= c <= 'z' then (c as int - 32) as char else c
  }

  function Lower(s: string): (r: string)
    ensures |r| == |s| && forall i :: 0 <= i < |s| ==> r[i] == LowerChar(s[i])
  {
    seq(|s|, i requires 0 <= i < |s| => LowerChar(s[i]))
  }

  function Upper(s: string): (r: string)
    ensures |r| == |s| && forall i :: 0 <= i < |s| ==> r[i] == UpperChar(s[i])
  {
    seq(|s|, i requires 0 <= i < |s| => UpperChar(s[i]))
  }

  /** `{rename(k): v for k, v in d.items()}` over the dictionary's items in order. */
  function RenameKeys<V>(items: seq<(string, V)>, rename: string -> string): (r: map<string, V>)
    ensures r.Keys == set i | 0 <= i < |items| :: rename(items[i].0)
  {
    var renamed := seq(|items|, i requires 0 <= i < |items| => (rename(items[i].0), items[i].1));
    assert forall i :: 0 <= i < |items| ==> renamed[i].0 == rename(items[i].0);
    ToMap(renamed)
  }

  /** Renaming never adds keys, and where two keys collide the later entry wins. */
  lemma RenameKeysSizeAndLastWins<V>(items: seq<(string, V)>, rename: string -> string, i: nat)
    requires i < |items|
    requires forall j :: i < j < |items| ==> rename(items[j].0) != rename(items[i].0)
    ensures |RenameKeys(items, rename)| <= |items|
    ensures RenameKeys(items, rename)[rename(items[i].0)] == items[i].1
  {
    var renamed := seq(|items|, j requires 0 <= j < |items| => (rename(items[j].0), items[j].1));
    ToMapSize(renamed);
    ToMapLast(renamed, i);
  }

  /** `convert_dict_names_to_lower`. */
  function ConvertNamesToLower<V>(items: seq<(string, V)>): map<string, V> {
    RenameKeys(items, Lower)
  }

  /** `convert_dict_names_to_upper`. */
  function ConvertNamesToUpper<V>(items: seq<(string, V)>): map<string, V> {
    RenameKeys(items, Upper)
  }

  /** Case conversion is idempotent, so every key of a converted dictionary is already in that
      case and converting again renames nothing. */
  lemma CaseConversionIdempotent(s: string)
    ensures Lower(Lower(s)) == Lower(s)
    ensures Upper(Upper(s)) == Upper(s)
  {
  }

  /** Every key of a lowered dictionary is the lowercase of an input key and is itself
      lowercase; the same holds for upper case. */
  lemma ConvertedKeysAreConverted<V>(items: seq<(string, V)>, k: string)
    ensures k in ConvertNamesToLower(items) ==> Lower(k) == k && exists i :: 0 <= i < |items| && k == Lower(items[i].0)
    ensures k in ConvertNamesToUpper(items) ==> Upper(k) == k && exists i :: 0 <= i < |items| && k == Upper(items[i].0)
  {
    if k in ConvertNamesToLower(items) {
      var i :| 0 <= i < |items| && k == Lower(items[i].0);
      CaseConversionIdempotent(items[i].0);
    }
    if k in ConvertNamesToUpper(items) {
      var i :| 0 <= i < |items| && k == Upper(items[i].0);
      CaseConversionIdempotent(items[i].0);
    }
  }
}
