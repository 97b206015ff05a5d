// Python values as the program handles them: what `json.loads` returns,
// what the agents put in their result dictionaries, and the few built-in
// operations on them the program uses (truth value, `str()`, `len()`,
// iteration, `in`, `", ".join`, `dict.get`).
module Values {
  import opened Wrappers
  import opened Seqs
  import opened Text
  import Dicts

  datatype Value =
    | VNone
    | VBool(b: bool)
    | VInt(i: int)
    | VFloat(f: real)
    | VStr(s: string)
    | VList(items: seq<Value>)
    | VTuple(items: seq<Value>)
    | VDict(entries: seq<(Value, Value)>)
      /** Any other object (a datetime, a client object, ...), by its `str()`. */
    | VObject(repr: string)

  /** Messages of the exceptions Python raises on values of the wrong
      shape, by exception class (the message texts themselves are not part
      of this model). */
  const TypeErrorMessage: string := "TypeError"
  const KeyErrorMessage: string := "KeyError"
  const AttributeErrorMessage: string := "AttributeError"
  const IndexErrorMessage: string := "IndexError"

  /** The message of the AttributeError `None.strip()` raises, as when a
      language-model reply has no text. */
  const NoneStripMessage: string := "'NoneType' object has no attribute 'strip'"

  /** Python's truth value (`if v:`, `v or default`). */
  predicate Truthy(v: Value)
  {
    match v
    case VNone => false
    case VBool(b) => b
    case VInt(i) => i != 0
    case VFloat(f) => f != 0.0
    case VStr(s) => s != ""
    case VList(xs) => xs != []
    case VTuple(xs) => xs != []
    case VDict(es) => es != []
    case VObject(_) => true
  }

  /** An optional string as Python holds it: the string, or `None`. */
  function OptionalStr(o: Option<string>): (r: Value)
    ensures o.None? <==> r.VNone?
    ensures o.Some? ==> r == VStr(o.value)
  {
    if o.Some? then VStr(o.value) else VNone
  }

  /** A dictionary with string keys, written as a list of (key, value) pairs. */
  function Dict(pairs: seq<(string, Value)>): (r: Value)
    ensures r.VDict? && |r.entries| == |pairs|
    ensures forall i :: 0 <= i < |pairs| ==> r.entries[i] == (VStr(pairs[i].0), pairs[i].1)
  {
    VDict(seq(|pairs|, i requires 0 <= i < |pairs| => (VStr(pairs[i].0), pairs[i].1)))
  }

  function Strs(xs: seq<string>): (r: Value)
    ensures r.VList? && |r.items| == |xs|
    ensures forall i :: 0 <= i < |xs| ==> r.items[i] == VStr(xs[i])
  {
    VList(seq(|xs|, i requires 0 <= i < |xs| => VStr(xs[i])))
  }

  /** Looking up the key of the `i`-th pair of a dictionary display finds that
      pair's value, unless an earlier pair has the same key. */
  lemma DictGet(pairs: seq<(string, Value)>, i: nat)
    requires i < |pairs|
    requires forall j :: 0 <= j < i ==> pairs[j].0 != pairs[i].0
    ensures Get(Dict(pairs), pairs[i].0) == Some(pairs[i].1)
  {
    Dicts.LookupAt(Dict(pairs).entries, i, VStr(pairs[i].0), pairs[i].1);
  }

  /** Every key of a dictionary display is `in` it. */
  lemma DictHas(pairs: seq<(string, Value)>, i: nat)
    requires i < |pairs|
    ensures In(VStr(pairs[i].0), Dict(pairs)) == Some(true)
  {
    assert Dicts.Keys(Dict(pairs).entries)[i] == VStr(pairs[i].0);
  }

  /** In a dictionary display with distinct keys, every key finds its own
      value. */
  lemma DictGets(pairs: seq<(string, Value)>)
    requires forall i, j :: 0 <= i < j < |pairs| ==> pairs[i].0 != pairs[j].0
    ensures forall i :: 0 <= i < |pairs| ==> Get(Dict(pairs), pairs[i].0) == Some(pairs[i].1)
  {
    forall i | 0 <= i < |pairs| ensures Get(Dict(pairs), pairs[i].0) == Some(pairs[i].1) {
      DictGet(pairs, i);
    }
  }

  /** `d.get(k)` on a dictionary. */
  function Get(d: Value, k: string): Option<Value>
    requires d.VDict?
  {
    Dicts.Lookup(d.entries, VStr(k))
  }

  /** `k in d` on a dictionary. */
  predicate Has(d: Value, k: string)
    requires d.VDict?
  {
    Get(d, k).Some?
  }

  /** `d.get(k, default)` on a dictionary. */
  function GetOr(d: Value, k: string, default: Value): (r: Value)
    requires d.VDict?
    ensures Has(d, k) ==> Get(d, k) == Some(r)
    ensures !Has(d, k) ==> r == default
  {
    Get(d, k).GetOr(default)
  }

  /** `d[k] = v` on a dictionary. */
  function Set(d: Value, k: string, v: Value): (r: Value)
    requires d.VDict?
    ensures r.VDict? && Get(r, k) == Some(v)
  {
    VDict(Dicts.Put(d.entries, VStr(k), v))
  }

  /** Assigning one key of a dictionary leaves the others as they were. */
  lemma SetOther(d: Value, k: string, v: Value, other: string)
    requires d.VDict? && other != k
    ensures Get(Set(d, k, v), other) == Get(d, other)
  {
    Dicts.PutOther(d.entries, VStr(k), v, VStr(other));
  }

  /** `str(v)`. Floats print as their exact decimal expansion (at most 17
      fractional digits), strings inside containers in single quotes. */
  function Show(v: Value): string
    decreases v, 0
  {
    match v
    case VNone => "None"
    case VBool(b) => if b then "True" else "False"
    case VInt(i) => IntToString(i)
    case VFloat(f) => ShowReal(f)
    case VStr(s) => s
    case VList(xs) => "[" + Join(", ", seq(|xs|, i requires 0 <= i < |xs| => Repr(xs[i]))) + "]"
    case VTuple(xs) =>
      if |xs| == 1 then "(" + Repr(xs[0]) + ",)"
      else "(" + Join(", ", seq(|xs|, i requires 0 <= i < |xs| => Repr(xs[i]))) + ")"
    case VDict(es) =>
      "{" + Join(", ", seq(|es|, i requires 0 <= i < |es| => Repr(es[i].0) + ": " + Repr(es[i].1))) + "}"
    case VObject(r) => r
  }

  /** `repr(v)`. */
  function Repr(v: Value): string
    decreases v, 1
  {
    if v.VStr? then "'" + v.s + "'" else Show(v)
  }

  function ShowReal(f: real): string
  {
    if f < 0.0 then "-" + ShowNonNegative(-f) else ShowNonNegative(f)
  }

  function ShowNonNegative(f: real): string
    requires f >= 0.0
  {
    NatToString(f.Floor) + "." + FractionDigits(f - f.Floor as real, 17)
  }

  /** The decimal digits of a fraction in [0, 1), at least one, no trailing zeros. */
  function FractionDigits(x: real, budget: nat): string
    requires 0.0 <= x < 1.0
    decreases budget
  {
    var y := x * 10.0;
    var d := y.Floor;
    var rest := y - d as real;
    if rest == 0.0 || budget <= 1 then [DigitChar(d)]
    else [DigitChar(d)] + FractionDigits(rest, budget - 1)
  }

  /** A number under Python's comparisons: `bool`, `int` or `float`. */
  predicate IsNumber(v: Value)
  {
    v.VBool? || v.VInt? || v.VFloat?
  }

  /** The key Python's `<` orders a number or a string by: numbers by value
      (`True` is 1), strings as text. Other values are given a placeholder
      key; `Orderable` says when no two of them are ever compared. */
  function SortKey(v: Value): Key
  {
    match v
    case VBool(b) => NumberKey(if b then 1.0 else 0.0)
    case VInt(i) => NumberKey(i as real)
    case VFloat(f) => NumberKey(f)
    case VStr(s) => TextKey(s)
    case _ => TextKey("")
  }

  /** Whether `list.sort` can order the values without raising TypeError:
      a sort of two or more values compares neighbours, and `<` is defined
      between two numbers and between two strings, never between a number
      and a string, and never for `None` or a dictionary. */
  predicate Orderable(vs: seq<Value>)
  {
    |vs| <= 1 || (forall v :: v in vs ==> IsNumber(v)) || (forall v :: v in vs ==> v.VStr?)
  }

  /** `len(v)`; `None` when `len` raises TypeError. */
  function Len(v: Value): Option<nat>
  {
    match v
    case VStr(s) => Some(|s|)
    case VList(xs) => Some(|xs|)
    case VTuple(xs) => Some(|xs|)
    case VDict(es) => Some(|es|)
    case _ => None
  }

  /** The elements `for x in v` visits; `None` when `v` is not iterable. */
  function Iterate(v: Value): (r: Option<seq<Value>>)
    ensures r.Some? ==> Len(v) == Some(|r.value|)
  {
    match v
    case VStr(s) => Some(seq(|s|, i requires 0 <= i < |s| => VStr([s[i]])))
    case VList(xs) => Some(xs)
    case VTuple(xs) => Some(xs)
    case VDict(es) => Some(Dicts.Keys(es))
    case _ => None
  }

  /** `v[0]`: `None` when Python raises (empty sequence, missing key, not
      subscriptable). */
  function First(v: Value): Option<Value>
  {
    match v
    case VStr(s) => if s == [] then None else Some(VStr([s[0]]))
    case VList(xs) => if xs == [] then None else Some(xs[0])
    case VTuple(xs) => if xs == [] then None else Some(xs[0])
    case VDict(es) => Dicts.Lookup(es, VInt(0))
    case _ => None
  }

  /** Whether `v` may be a dictionary key (lists and dictionaries may not). */
  predicate Hashable(v: Value)
  {
    match v
    case VList(_) => false
    case VDict(_) => false
    case VTuple(xs) => forall i :: 0 <= i < |xs| ==> Hashable(xs[i])
    case _ => true
  }

  /** `needle in container`; `None` when Python raises TypeError. */
  function In(needle: Value, container: Value): Option<bool>
  {
    match container
    case VStr(s) => if needle.VStr? then Some(Contains(s, needle.s)) else None
    case VList(xs) => Some(needle in xs)
    case VTuple(xs) => Some(needle in xs)
    case VDict(es) => if Hashable(needle) then Some(needle in Dicts.Keys(es)) else None
    case _ => None
  }

  /** `sep.join(v)`: defined when `v` is iterable and yields only strings. */
  function JoinValue(sep: string, v: Value): (r: Option<string>)
    ensures r.Some? <==> Iterate(v).Some? && forall x :: x in Iterate(v).value ==> x.VStr?
  {
    match Iterate(v)
    case None => None
    case Some(xs) =>
      if forall x :: x in xs ==> x.VStr? then
        Some(Join(sep, seq(|xs|, i requires 0 <= i < |xs| => xs[i].s)))
      else None
  }

  /** A value `json.dump` can write without a `default` hook: no arbitrary
      objects anywhere, and dictionary keys are strings, numbers, bools or
      None. */
  predicate Serializable(v: Value)
  {
    match v
    case VObject(_) => false
    case VList(xs) => forall i :: 0 <= i < |xs| ==> Serializable(xs[i])
    case VTuple(xs) => forall i :: 0 <= i < |xs| ==> Serializable(xs[i])
    case VDict(es) => forall i :: 0 <= i < |es| ==> ScalarKey(es[i].0) && Serializable(es[i].1)
    case _ => true
  }

  predicate ScalarKey(k: Value)
  {
    k.VNone? || k.VBool? || k.VInt? || k.VFloat? || k.VStr?
  }
}
