/** Python values as they appear in the parameter dictionaries of the scripts,
    and the exceptions the modelled code can raise. */
module PyValues {

  /** A value of a parameter dictionary. Python 2 strings have no `__iter__`
      attribute, but a `for` loop still walks their characters. */
  datatype Value =
    | Nothing
    | Flag(b: bool)
    | Int(i: int)
    | Real(x: real)
    | Text(s: string)
    | List(items: seq<Value>)

  /** A keyword-argument dictionary. */
  type Dict = map<string, Value>

  /** The exceptions of the modelled code. */
  datatype Error =
    | KeyError(key: string)
      /** A KeyError whose key is not recorded: some dict lacks a key that another one has. */
    | MissingKeys
    | IndexError
    | ValueError(msg: string)
    | TypeError(msg: string)
    | AttributeError(name: string)
    | UnboundLocalError(name: string)
    | Raised(msg: string)

  datatype Result<T> = Ok(value: T) | Err(error: Error)

  datatype Option<T> = None | Some(value: T)

  /** `hasattr(value, "__iter__")` in Python 2: lists have it, strings do not. */
  predicate HasIter(v: Value) {
    v.List?
  }

  /** What a `for` loop over the value yields, or None when Python raises TypeError. */
  function ForItems(v: Value): (r: Option<seq<Value>>)
    ensures v.List? ==> r == Some(v.items)
    ensures r.Some? <==> v.List? || v.Text?
    ensures v.Text? ==> r.Some? && |r.value| == |v.s|
  {
    match v
    case List(items) => Some(items)
    case Text(s) => Some(seq(|s|, i requires 0 <= i < |s| => Text([s[i]])))
    case _ => None
  }

  /** The numeric value of a Python number (`True` counts as 1). */
  function NumberOf(v: Value): (r: Option<real>)
    ensures r.Some? <==> v.Int? || v.Real? || v.Flag?
  {
    match v
    case Int(i) => Some(i as real)
    case Real(x) => Some(x)
    case Flag(b) => Some(if b then 1.0 else 0.0)
    case _ => None
  }

  /** Python's truth value of a value: None, False, zero and empty strings and lists
      are false. */
  predicate Truthy(v: Value) {
    match v
    case Nothing => false
    case Flag(b) => b
    case Int(i) => i != 0
    case Real(x) => x != 0.0
    case Text(s) => |s| > 0
    case List(items) => |items| > 0
  }

  /** `a == c` for a Python value `a` and a number `c`. */
  predicate NumEquals(v: Value, c: real) {
    NumberOf(v) == Some(c)
  }

  /** A list of strings as a Python list value. */
  function TextList(ks: seq<string>): (v: Value)
    ensures v.List? && |v.items| == |ks|
    ensures forall i :: 0 <= i < |ks| ==> v.items[i] == Text(ks[i])
  {
    List(seq(|ks|, i requires 0 <= i < |ks| => Text(ks[i])))
  }

  /** The strings of a Python list of strings, or None for any other value. */
  function TextsOf(v: Value): (r: Option<seq<string>>)
    ensures r.Some? ==> v.List? && |r.value| == |v.items|
  {
    if v.List? && forall i :: 0 <= i < |v.items| ==> v.items[i].Text? then
      Some(seq(|v.items|, i requires 0 <= i < |v.items| => v.items[i].s))
    else
      None
  }

  lemma TextsOfTextList(ks: seq<string>)
    ensures TextsOf(TextList(ks)) == Some(ks)
  {
    var v := TextList(ks);
    assert forall i :: 0 <= i < |v.items| ==> v.items[i].Text?;
    assert TextsOf(v).value == ks;
  }

  /** No element occurs twice. */
  predicate Distinct<T(==)>(s: seq<T>) {
    forall i, j :: 0 <= i < j < |s| ==> s[i] != s[j]
  }

  /** `order` lists every key of `d` exactly once: the iteration order of the dict. */
  predicate IsOrderOf(order: seq<string>, d: Dict) {
    && Distinct(order)
    && (forall k :: k in d ==> k in order)
    && (forall k :: k in order ==> k in d)
  }
}
