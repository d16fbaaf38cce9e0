/** Parameter-sweep expansion of np/nanopores/scripts/simulation2D.py: which
    keyword arguments are iterated, the list of parameter dicts built from them,
    the stamp describing a sweep, and the layout `post_iteration` relies on. */
module ParamSweep {
  import opened PyValues

  // ---------------------------------------------------------------------------
  // Which parameters are iterable (simulation2D.py:37-40, 168-175)
  // ---------------------------------------------------------------------------

  /** The keys of `order` whose value has `__iter__`, in the order of `order`. */
  function IterableKeysIn(order: seq<string>, params: Dict): seq<string>
  {
    if |order| == 0 then []
    else
      var k := order[|order| - 1];
      IterableKeysIn(order[..|order| - 1], params)
        + (if k in params && HasIter(params[k]) then [k] else [])
  }

  /** The iterable keys are exactly the keys with a list value, each once. */
  lemma {:induction false} IterableKeysInMembers(order: seq<string>, params: Dict)
    ensures forall k :: k in IterableKeysIn(order, params) <==> k in order && k in params && HasIter(params[k])
    ensures Distinct(order) ==> Distinct(IterableKeysIn(order, params))
  {
    if |order| > 0 {
      var pre := order[..|order| - 1];
      IterableKeysInMembers(pre, params);
      assert order == pre + [order[|order| - 1]];
      if Distinct(order) {
        assert Distinct(pre);
        assert order[|order| - 1] !in pre;
      }
    }
  }

  /** Scanning a longer prefix never finds fewer iterable keys. */
  lemma {:induction false} IterableKeysInPrefix(order: seq<string>, params: Dict, i: nat)
    requires i <= |order|
    ensures |IterableKeysIn(order[..i], params)| <= |IterableKeysIn(order, params)|
    decreases |order|
  {
    if i < |order| {
      var pre := order[..|order| - 1];
      assert order[..i] == pre[..i];
      IterableKeysInPrefix(pre, params, i);
    } else {
      assert order[..i] == order;
    }
  }

  /** The loop of `iterate_in_parallel` that collects `iterkeys2`. */
  method IterableKeys(order: seq<string>, params: Dict) returns (keys: seq<string>)
    requires IsOrderOf(order, params)
    ensures keys == IterableKeysIn(order, params)
    ensures Distinct(keys)
    ensures forall k :: k in keys <==> k in params && HasIter(params[k])
  {
    keys := [];
    for i := 0 to |order|
      invariant keys == IterableKeysIn(order[..i], params)
    {
      var key := order[i];
      assert order[..i + 1][..i] == order[..i];
      if HasIter(params[key]) {
        keys := keys + [key];
      }
    }
    assert order[..|order|] == order;
    IterableKeysInMembers(order, params);
  }

  // ---------------------------------------------------------------------------
  // Resolving the requested iteration order (simulation2D.py:41-47)
  // ---------------------------------------------------------------------------

  /** Python's `list.remove(x)` on a list that holds `x`: drops its first occurrence. */
  function RemoveFirst(s: seq<string>, x: string): (r: seq<string>)
    requires x in s
    ensures |r| == |s| - 1
    ensures multiset(r) == multiset(s) - multiset{x}
  {
    if s[0] == x then
      assert s == [s[0]] + s[1..];
      s[1..]
    else
      var tail := RemoveFirst(s[1..], x);
      assert s == [s[0]] + s[1..];
      [s[0]] + tail
  }

  /** A list without repeats is its head followed by a tail that lacks the head and has no repeats. */
  lemma DistinctCons(h: string, t: seq<string>)
    ensures Distinct([h] + t) <==> h !in t && Distinct(t)
  {
    var s := [h] + t;
    assert forall i :: 0 <= i < |t| ==> s[i + 1] == t[i];
    if h in t {
      var j :| 0 <= j < |t| && t[j] == h;
      assert s[0] == s[j + 1];
    }
  }

  /** Every element left by `RemoveFirst` was in the list. */
  lemma {:induction false} RemoveFirstSubset(s: seq<string>, x: string, y: string)
    requires x in s
    ensures y in RemoveFirst(s, x) ==> y in s
  {
    if y in RemoveFirst(s, x) {
      assert y in multiset(RemoveFirst(s, x));
    }
  }

  /** Removing from a list without repeats leaves a list without repeats that lacks `x`. */
  lemma {:induction false} RemoveFirstDistinct(s: seq<string>, x: string)
    requires x in s
    ensures Distinct(s) ==> Distinct(RemoveFirst(s, x)) && x !in RemoveFirst(s, x)
  {
    assert s == [s[0]] + s[1..];
    DistinctCons(s[0], s[1..]);
    if s[0] != x && Distinct(s) {
      var tail := RemoveFirst(s[1..], x);
      RemoveFirstDistinct(s[1..], x);
      RemoveFirstSubset(s[1..], x, s[0]);
      DistinctCons(s[0], tail);
    }
  }

  /** `iterkeys.remove(x)` followed by `[x] + iterkeys`. */
  function MoveToFront(s: seq<string>, x: string): (r: seq<string>)
    requires x in s
    ensures |r| == |s| && r[0] == x
    ensures multiset(r) == multiset(s)
    ensures Distinct(s) ==> Distinct(r)
  {
    var rest := RemoveFirst(s, x);
    RemoveFirstDistinct(s, x);
    DistinctCons(x, rest);
    assert multiset([x] + rest) == multiset{x} + multiset(rest);
    assert x in multiset(s);
    [x] + rest
  }

  /** The iteration order `iterate_in_parallel` settles on, given the keys the
      caller asked for (`requested`) and the iterable keys in dict order. */
  function ResolveIterkeys(requested: Option<seq<string>>, iterable: seq<string>): (r: Result<seq<string>>)
    ensures requested.None? ==> r == Ok(iterable)
    ensures requested.Some? && |requested.value| == 1 ==>
      && (r.Ok? <==> requested.value[0] in iterable)
      && (r.Err? ==> r.error.ValueError?)
      && (r.Ok? ==> && |r.value| == |iterable|
                    && r.value[0] == requested.value[0]
                    && multiset(r.value) == multiset(iterable)
                    && (Distinct(iterable) ==> Distinct(r.value)))
    ensures requested.Some? && |requested.value| != 1 ==>
      && (r.Ok? <==> |requested.value| == |iterable|)
      && (r.Ok? ==> r.value == requested.value)
      && (r.Err? ==> r.error == Raised("Your iterkeys are wrong!"))
  {
    match requested
    case None => Ok(iterable)
    case Some(ks) =>
      if |ks| == 1 then
        if ks[0] in iterable then
          Ok(MoveToFront(iterable, ks[0]))
        else
          Err(ValueError("list.remove(x): x not in list"))
      else if |ks| != |iterable| then
        Err(Raised("Your iterkeys are wrong!"))
      else
        Ok(ks)
  }

  /** With no request, or a request for one iterable key, every resolved key is iterable. */
  lemma ResolvedKeysIterable(order: seq<string>, params: Dict, requested: Option<seq<string>>)
    requires IsOrderOf(order, params)
    requires requested.None? || |requested.value| == 1
    requires ResolveIterkeys(requested, IterableKeysIn(order, params)).Ok?
    ensures var ks := ResolveIterkeys(requested, IterableKeysIn(order, params)).value;
      Distinct(ks) && forall k :: k in ks ==> k in params && HasIter(params[k])
  {
    var iterable := IterableKeysIn(order, params);
    IterableKeysInMembers(order, params);
    var ks := ResolveIterkeys(requested, iterable).value;
    forall k | k in ks ensures k in params && HasIter(params[k]) {
      assert k in multiset(ks);
      assert k in multiset(iterable);
    }
  }

  // ---------------------------------------------------------------------------
  // combinations (simulation2D.py:79-92)
  // ---------------------------------------------------------------------------

  /** `{k: dic[k] for k in dic if k not in iterkeys}` */
  function Base(dic: Dict, iterkeys: seq<string>): (b: Dict)
    ensures forall k :: k in b <==> k in dic && k !in iterkeys
    ensures forall k :: k in b ==> b[k] == dic[k]
  {
    map k | k in dic && k !in iterkeys :: dic[k]
  }

  /** Every key can be looked up and looped over. */
  predicate Expandable(dic: Dict, keys: seq<string>) {
    forall k :: k in keys ==> k in dic && ForItems(dic[k]).Some?
  }

  /** What `for val in dic[key]` runs through. */
  function ItemsOf(dic: Dict, key: string): seq<Value>
    requires key in dic && ForItems(dic[key]).Some?
  {
    ForItems(dic[key]).value
  }

  /** Each dict of `P`, copied, with `key` set to `v`. */
  function Assign(P: seq<Dict>, key: string, v: Value): (r: seq<Dict>)
    ensures |r| == |P|
    ensures forall t :: 0 <= t < |P| ==> r[t] == P[t][key := v]
  {
    seq(|P|, t requires 0 <= t < |P| => P[t][key := v])
  }

  /** One pass of the outer loop: for each value in turn, a copy of every dict of `P`. */
  function Step(P: seq<Dict>, key: string, vals: seq<Value>): (r: seq<Dict>)
    ensures |r| == |vals| * |P|
    decreases |vals|
  {
    if |vals| == 0 then []
    else Step(P, key, vals[..|vals| - 1]) + Assign(P, key, vals[|vals| - 1])
  }

  /** The dicts after the passes for `keys`, starting from `P`. */
  function Expansion(P: seq<Dict>, dic: Dict, keys: seq<string>): (r: seq<Dict>)
    requires Expandable(dic, keys)
    ensures |r| == |P| * Product(dic, keys)
    decreases |keys|
  {
    if |keys| == 0 then P
    else
      var k := keys[|keys| - 1];
      var Q := Expansion(P, dic, keys[..|keys| - 1]);
      MulRegroup(|ItemsOf(dic, k)|, |P|, Product(dic, keys[..|keys| - 1]));
      Step(Q, k, ItemsOf(dic, k))
  }

  /** The product of the lengths of the value lists. */
  function Product(dic: Dict, keys: seq<string>): nat
    requires Expandable(dic, keys)
    decreases |keys|
  {
    if |keys| == 0 then 1
    else Product(dic, keys[..|keys| - 1]) * |ItemsOf(dic, keys[|keys| - 1])|
  }

  /** What `combinations(dic, iterkeys)` returns when it does not raise. */
  function CombinationsOf(dic: Dict, iterkeys: seq<string>): seq<Dict>
    requires Expandable(dic, iterkeys)
  {
    Expansion([Base(dic, iterkeys)], dic, iterkeys)
  }

  /** One pass of the outer loop of `combinations`: for each value of the key, a copy
      of every dict of `P` with the key set to it. */
  method StepLoop(P: seq<Dict>, key: string, vals: seq<Value>) returns (P2: seq<Dict>)
    ensures P2 == Step(P, key, vals)
  {
    P2 := [];
    for a := 0 to |vals|
      invariant P2 == Step(P, key, vals[..a])
    {
      for b := 0 to |P|
        invariant P2 == Step(P, key, vals[..a]) + Assign(P[..b], key, vals[a])
      {
        var p2 := P[b][key := vals[a]];
        P2 := P2 + [p2];
      }
      assert P[..|P|] == P;
      assert vals[..a + 1][..a] == vals[..a];
    }
    assert vals[..|vals|] == vals;
  }

  /** `combinations`: the nested loops that build `P` and `P2`. It raises KeyError
      for a key missing from `dic` and TypeError for a value that cannot be looped over. */
  method Combinations(dic: Dict, iterkeys: seq<string>) returns (r: Result<seq<Dict>>)
    ensures r.Ok? <==> Expandable(dic, iterkeys)
    ensures r.Ok? ==> r.value == CombinationsOf(dic, iterkeys)
    ensures r.Err? ==> r.error.KeyError? || r.error.TypeError?
  {
    var base := Base(dic, iterkeys);
    var P := [base];
    for i := 0 to |iterkeys|
      invariant Expandable(dic, iterkeys[..i])
      invariant P == Expansion([base], dic, iterkeys[..i])
    {
      var key := iterkeys[i];
      if key !in dic {
        return Err(KeyError(key));
      }
      var items := ForItems(dic[key]);
      if items.None? {
        return Err(TypeError("object is not iterable"));
      }
      var P2 := StepLoop(P, key, items.value);
      assert iterkeys[..i + 1][..i] == iterkeys[..i];
      P := P2;
    }
    assert iterkeys[..|iterkeys|] == iterkeys;
    r := Ok(P);
  }

  lemma MulRegroup(a: nat, p: nat, m: nat)
    ensures a * (p * m) == p * (m * a)
  {
  }

  lemma MulMono(x: int, y: int, c: nat)
    requires x <= y
    ensures x * c <= y * c
  {
  }

  /** The value index `a` and the copied dict `t` determine an entry of one pass. */
  lemma {:induction false} StepAt(P: seq<Dict>, key: string, vals: seq<Value>, a: nat, t: nat)
    requires a < |vals| && t < |P|
    ensures a * |P| + t < |Step(P, key, vals)|
    ensures Step(P, key, vals)[a * |P| + t] == P[t][key := vals[a]]
    decreases |vals|
  {
    var n := |vals|;
    var pre := vals[..n - 1];
    MulMono(a + 1, n, |P|);
    if a == n - 1 {
      assert Step(P, key, vals) == Step(P, key, pre) + Assign(P, key, vals[n - 1]);
      assert |Step(P, key, pre)| == (n - 1) * |P|;
    } else {
      StepAt(P, key, pre, a, t);
      MulMono(a + 1, n - 1, |P|);
      assert pre[a] == vals[a];
    }
  }

  /** The assignments made by the `i`-th combination of `keys`, starting from an empty dict. */
  function Choice(dic: Dict, keys: seq<string>, i: nat): Dict
    requires Expandable(dic, keys) && i < Product(dic, keys)
  {
    Expansion([map[]], dic, keys)[i]
  }

  lemma DivBelow(i: nat, m: nat, n: nat)
    requires i < m * n
    ensures m > 0 && i / m < n && i == (i / m) * m + i % m && i % m < m
  {
    if i / m >= n {
      MulMono(n, i / m, m);
    }
  }

  /** Adding a key to the end: combination `a*m + j` extends combination `j` with the `a`-th value. */
  lemma ChoiceStep(dic: Dict, keys: seq<string>, a: nat, j: nat)
    requires |keys| > 0 && Expandable(dic, keys)
    requires a < |ItemsOf(dic, keys[|keys| - 1])| && j < Product(dic, keys[..|keys| - 1])
    ensures var pre := keys[..|keys| - 1];
      var vs := ItemsOf(dic, keys[|keys| - 1]);
      var m := Product(dic, pre);
      && a * m + j < Product(dic, keys)
      && Choice(dic, keys, a * m + j) == Choice(dic, pre, j)[keys[|keys| - 1] := vs[a]]
  {
    var pre := keys[..|keys| - 1];
    var k := keys[|keys| - 1];
    var vs := ItemsOf(dic, k);
    var m := Product(dic, pre);
    var E := Expansion([map[]], dic, pre);
    StepAt(E, k, vs, a, j);
    MulComm(m, |vs|);
  }

  lemma MulComm(x: nat, y: nat)
    ensures x * y == y * x
  {
  }

  lemma OverrideUpdate(d: Dict, c: Dict, k: string, v: Value)
    ensures (d + c)[k := v] == d + c[k := v]
  {
  }

  lemma IndexBound(i: nat, t: nat, n: nat, p: nat)
    requires i < n && t < p
    ensures i * p + t < p * n
  {
    MulMono(i + 1, n, p);
  }

  lemma Regroup(a: nat, m: nat, j: nat, p: nat, t: nat)
    ensures (a * m + j) * p + t == a * (p * m) + (j * p + t)
  {
  }

  /** An index below `m*n` as a digit `a` below `n` and a digit `j` below `m`. */
  lemma SplitIndex(i: nat, m: nat, n: nat, p: nat, t: nat) returns (a: nat, j: nat)
    requires i < m * n
    ensures a < n && j < m && i == a * m + j
    ensures i * p + t == a * (p * m) + (j * p + t)
  {
    DivBelow(i, m, n);
    a, j := i / m, i % m;
    Regroup(a, m, j, p, t);
  }

  /** Entry `(a*m + j)*|P| + t` after the pass for the last key is entry `j*|P| + t`
      before it, with the last key set to its `a`-th value. */
  lemma ExpansionStepAt(P: seq<Dict>, dic: Dict, keys: seq<string>, pre: seq<string>, k: string,
                        a: nat, j: nat, t: nat, jj: nat, idx: nat)
    requires |keys| > 0 && pre == keys[..|keys| - 1] && k == keys[|keys| - 1]
    requires Expandable(dic, keys) && Expandable(dic, pre) && k in dic && ForItems(dic[k]).Some?
    requires a < |ItemsOf(dic, k)| && j < Product(dic, pre) && t < |P|
    requires jj == j * |P| + t && idx == a * (|P| * Product(dic, pre)) + jj
    ensures jj < |Expansion(P, dic, pre)|
    ensures idx < |Expansion(P, dic, keys)|
    ensures Expansion(P, dic, keys)[idx] == Expansion(P, dic, pre)[jj][k := ItemsOf(dic, k)[a]]
  {
    var vs := ItemsOf(dic, k);
    var m := Product(dic, pre);
    var Q := Expansion(P, dic, pre);
    IndexBound(j, t, m, |P|);
    StepAtSized(Q, k, vs, a, jj, |P|, m);
    assert Expansion(P, dic, keys) == Step(Q, k, vs);
  }

  /** `StepAt` for a list of `p*m` dicts. */
  lemma StepAtSized(Q: seq<Dict>, key: string, vals: seq<Value>, a: nat, jj: nat, p: nat, m: nat)
    requires |Q| == p * m && a < |vals| && jj < |Q|
    ensures a * (p * m) + jj < |Step(Q, key, vals)|
    ensures Step(Q, key, vals)[a * (p * m) + jj] == Q[jj][key := vals[a]]
  {
    StepAt(Q, key, vals, a, jj);
  }

  /** Entry `i*|P| + t` of the expansion is dict `t` of `P` overridden by the `i`-th combination. */
  lemma {:induction false} ExpansionAt(P: seq<Dict>, dic: Dict, keys: seq<string>, i: nat, t: nat)
    requires Expandable(dic, keys) && i < Product(dic, keys) && t < |P|
    ensures i * |P| + t < |Expansion(P, dic, keys)|
    ensures Expansion(P, dic, keys)[i * |P| + t] == P[t] + Choice(dic, keys, i)
    decreases |keys|
  {
    IndexBound(i, t, Product(dic, keys), |P|);
    if |keys| == 0 {
      assert Choice(dic, keys, i) == map[];
      assert P[t] + map[] == P[t];
    } else {
      var pre := keys[..|keys| - 1];
      var k := keys[|keys| - 1];
      var vs := ItemsOf(dic, k);
      var m := Product(dic, pre);
      var a, j := SplitIndex(i, m, |vs|, |P|, t);
      ExpansionStepAt(P, dic, keys, pre, k, a, j, t, j * |P| + t, i * |P| + t);
      ExpansionAt(P, dic, pre, j, t);
      ChoiceStep(dic, keys, a, j);
      OverrideUpdate(P[t], Choice(dic, pre, j), k, vs[a]);
    }
  }

  /** Expanding by `a + b` is expanding by `a`, then by `b`. */
  lemma {:induction false} ExpansionAppend(P: seq<Dict>, dic: Dict, a: seq<string>, b: seq<string>)
    requires Expandable(dic, a + b)
    ensures Expandable(dic, a) && Expandable(dic, b)
    ensures Expansion(P, dic, a + b) == Expansion(Expansion(P, dic, a), dic, b)
    decreases |b|
  {
    assert forall k :: k in a ==> k in a + b;
    assert forall k :: k in b ==> k in a + b;
    if |b| == 0 {
      assert a + b == a;
    } else {
      var b' := b[..|b| - 1];
      assert (a + b)[..|a + b| - 1] == a + b';
      assert (a + b)[|a + b| - 1] == b[|b| - 1];
      ExpansionAppend(P, dic, a, b');
    }
  }

  /** The expansion reads `dic` only at the expanded keys. */
  lemma {:induction false} ExpansionReadsKeys(P: seq<Dict>, d1: Dict, d2: Dict, keys: seq<string>)
    requires Expandable(d1, keys)
    requires forall k :: k in keys ==> k in d2 && d2[k] == d1[k]
    ensures Expandable(d2, keys)
    ensures Product(d2, keys) == Product(d1, keys)
    ensures Expansion(P, d2, keys) == Expansion(P, d1, keys)
    decreases |keys|
  {
    if |keys| > 0 {
      ExpansionReadsKeys(P, d1, d2, keys[..|keys| - 1]);
    }
  }

  /** Every combination assigns exactly the expanded keys, each to one of its values. */
  lemma {:induction false} ChoiceShape(dic: Dict, keys: seq<string>, i: nat)
    requires Expandable(dic, keys) && i < Product(dic, keys)
    ensures forall k :: k in Choice(dic, keys, i) <==> k in keys
    ensures forall k :: k in keys ==> Choice(dic, keys, i)[k] in ItemsOf(dic, k)
    decreases |keys|
  {
    if |keys| == 0 {
      assert Choice(dic, keys, i) == map[];
    } else {
      var pre := keys[..|keys| - 1];
      var k := keys[|keys| - 1];
      var m := Product(dic, pre);
      MulComm(m, |ItemsOf(dic, k)|);
      DivBelow(i, m, |ItemsOf(dic, k)|);
      ChoiceStep(dic, keys, i / m, i % m);
      ChoiceShape(dic, pre, i % m);
      assert keys == pre + [k];
    }
  }

  /** `combinations` returns exactly the product of the list lengths many dicts, and
      with no iterated key it returns the input dict alone. */
  lemma CombinationsSize(dic: Dict, iterkeys: seq<string>)
    requires Expandable(dic, iterkeys)
    ensures |CombinationsOf(dic, iterkeys)| == Product(dic, iterkeys)
    ensures iterkeys == [] ==> CombinationsOf(dic, iterkeys) == [dic]
  {
    if iterkeys == [] {
      assert Base(dic, iterkeys) == dic;
    }
  }

  /** Every output dict has the keys of `dic`; a key that is not iterated keeps its value
      and an iterated key holds one of its values. */
  lemma CombinationsContents(dic: Dict, iterkeys: seq<string>, j: nat)
    requires Expandable(dic, iterkeys) && j < |CombinationsOf(dic, iterkeys)|
    ensures var d := CombinationsOf(dic, iterkeys)[j];
      && (forall k :: k in d <==> k in dic)
      && (forall k :: k in dic && k !in iterkeys ==> d[k] == dic[k])
      && (forall k :: k in iterkeys ==> d[k] in ItemsOf(dic, k))
  {
    ExpansionAt([Base(dic, iterkeys)], dic, iterkeys, j, 0);
    ChoiceShape(dic, iterkeys, j);
  }

  /** `{k: stamp[k] for k in iterkeys}` once every key is known to be present. */
  function Restrict(d: Dict, keys: seq<string>): (r: Dict)
    ensures forall k :: k in r <==> k in keys && k in d
    ensures forall k :: k in r ==> r[k] == d[k]
  {
    map k | k in keys && k in d :: d[k]
  }

  /** Splitting off the first key: the sweep has `nx` times as many entries as the
      combinations of the remaining keys over the dict restricted to them. */
  lemma CombinationsSplit(stamp: Dict, iterkeys: seq<string>)
    requires |iterkeys| > 0 && Expandable(stamp, iterkeys)
    ensures Expandable(stamp, iterkeys[1..])
    ensures var rest := iterkeys[1..];
      var R := Restrict(stamp, rest);
      && Expandable(R, rest)
      && |CombinationsOf(R, rest)| == Product(stamp, rest)
      && |CombinationsOf(stamp, iterkeys)| == |ItemsOf(stamp, iterkeys[0])| * Product(stamp, rest)
  {
    var k0, rest := iterkeys[0], iterkeys[1..];
    var B := Base(stamp, iterkeys);
    assert iterkeys == [k0] + rest;
    ExpansionAppend([B], stamp, [k0], rest);
    assert [k0][..0] == [];
    var R := Restrict(stamp, rest);
    ExpansionReadsKeys([Base(R, rest)], stamp, R, rest);
  }

  /** The chunk layout `post_iteration` slices: for the `i`-th combination `pset` of
      the keys after the first, entries `i*nx .. (i+1)*nx - 1` of the full expansion are
      that combination with the first key running over its `nx` values in order. */
  lemma PostIterationChunk(stamp: Dict, iterkeys: seq<string>, i: nat, t: nat)
    requires |iterkeys| > 0 && Expandable(stamp, iterkeys)
    requires i < Product(stamp, iterkeys[1..]) && t < |ItemsOf(stamp, iterkeys[0])|
    ensures var rest := iterkeys[1..];
      var x := ItemsOf(stamp, iterkeys[0]);
      var full := CombinationsOf(stamp, iterkeys);
      var psets := CombinationsOf(Restrict(stamp, rest), rest);
      && |full| == |x| * |psets|
      && i * |x| + t < |full|
      && i < |psets|
      && full[i * |x| + t] == Base(stamp, iterkeys)[iterkeys[0] := x[t]] + psets[i]
  {
    var k0, rest := iterkeys[0], iterkeys[1..];
    var B := Base(stamp, iterkeys);
    assert iterkeys == [k0] + rest;
    ExpansionAppend([B], stamp, [k0], rest);
    var P := Expansion([B], stamp, [k0]);
    FirstPass(B, stamp, k0);
    ExpansionAt(P, stamp, rest, i, t);
    RestrictedChoices(stamp, rest);
    CombinationsSplit(stamp, iterkeys);
  }

  /** The pass for a single key copies `B` once per value, in order. */
  lemma FirstPass(B: Dict, stamp: Dict, k0: string)
    requires Expandable(stamp, [k0])
    ensures var P := Expansion([B], stamp, [k0]);
      && |P| == |ItemsOf(stamp, k0)|
      && forall t :: 0 <= t < |P| ==> P[t] == B[k0 := ItemsOf(stamp, k0)[t]]
  {
    var x := ItemsOf(stamp, k0);
    assert [k0][..0] == [];
    assert Expansion([B], stamp, [k0]) == Step([B], k0, x);
    forall t | 0 <= t < |x|
      ensures Step([B], k0, x)[t] == B[k0 := x[t]]
    {
      StepAt([B], k0, x, t, 0);
    }
  }

  /** The combinations of `rest` over the restricted dict are the bare choices over `stamp`. */
  lemma RestrictedChoices(stamp: Dict, rest: seq<string>)
    requires Expandable(stamp, rest)
    ensures Expandable(Restrict(stamp, rest), rest)
    ensures Product(Restrict(stamp, rest), rest) == Product(stamp, rest)
    ensures CombinationsOf(Restrict(stamp, rest), rest) == Expansion([map[]], stamp, rest)
  {
    var R := Restrict(stamp, rest);
    ExpansionReadsKeys([map[]], stamp, R, rest);
    assert Base(R, rest) == map[];
  }

  /** The first iterated key varies fastest: entry `j` holds its `(j mod n0)`-th value. */
  lemma FirstKeyFastest(dic: Dict, iterkeys: seq<string>, j: nat)
    requires |iterkeys| > 0 && Expandable(dic, iterkeys) && Distinct(iterkeys)
    requires j < |CombinationsOf(dic, iterkeys)|
    ensures var x := ItemsOf(dic, iterkeys[0]);
      && |x| > 0
      && iterkeys[0] in CombinationsOf(dic, iterkeys)[j]
      && CombinationsOf(dic, iterkeys)[j][iterkeys[0]] == x[j % |x|]
  {
    var k0, rest := iterkeys[0], iterkeys[1..];
    var x := ItemsOf(dic, k0);
    var R := Restrict(dic, rest);
    CombinationsSplit(dic, iterkeys);
    var a, t := Digits(j, |x|, Product(dic, rest));
    PostIterationChunk(dic, iterkeys, a, t);
    CombinationsContents(R, rest, a);
    assert iterkeys == [k0] + rest;
    DistinctCons(k0, rest);
  }

  /** An index below `n*m` as a digit `t` below `n` (its remainder) and a digit `a` below `m`. */
  lemma Digits(j: nat, n: nat, m: nat) returns (a: nat, t: nat)
    requires j < n * m
    ensures n > 0 && a < m && t < n && j == a * n + t && t == j % n
  {
    MulComm(n, m);
    DivBelow(j, n, m);
    a, t := j / n, j % n;
  }

  // ---------------------------------------------------------------------------
  // join_dicts (simulation2D.py:94-96)
  // ---------------------------------------------------------------------------

  /** `join_dicts`: one list per key of the first dict. IndexError on an empty list,
      KeyError if some dict lacks a key of the first. */
  function JoinDicts(list: seq<Dict>): (r: Result<map<string, seq<Value>>>)
    ensures r.Ok? <==> |list| > 0 && forall j, k :: 0 <= j < |list| && k in list[0] ==> k in list[j]
    ensures r.Err? ==> r.error == (if |list| == 0 then IndexError else MissingKeys)
    ensures r.Ok? ==> forall k :: k in r.value <==> k in list[0]
    ensures r.Ok? ==> forall k :: k in r.value ==>
      |r.value[k]| == |list| && forall j :: 0 <= j < |list| ==> r.value[k][j] == list[j][k]
  {
    if |list| == 0 then Err(IndexError)
    else if forall j, k :: 0 <= j < |list| && k in list[0] ==> k in list[j] then
      Ok(map k | k in list[0] :: seq(|list|, j requires 0 <= j < |list| => list[j][k]))
    else Err(MissingKeys)
  }

  /** The input table of `post_iteration`: one column per parameter, each of the length
      of the sweep, whose entries run through the combinations in order. */
  lemma InputColumns(stamp: Dict, iterkeys: seq<string>)
    requires Expandable(stamp, iterkeys)
    requires Product(stamp, iterkeys) > 0
    ensures var c := CombinationsOf(stamp, iterkeys);
      var table := JoinDicts(c);
      && table.Ok?
      && (forall k :: k in table.value <==> k in stamp)
      && (forall k :: k in table.value ==> |table.value[k]| == Product(stamp, iterkeys))
  {
    var c := CombinationsOf(stamp, iterkeys);
    CombinationsSize(stamp, iterkeys);
    forall j, k | 0 <= j < |c| && k in c[0] ensures k in c[j] {
      CombinationsContents(stamp, iterkeys, 0);
      CombinationsContents(stamp, iterkeys, j);
    }
    CombinationsContents(stamp, iterkeys, 0);
  }

  // ---------------------------------------------------------------------------
  // The stamp (simulation2D.py:50-52, 109-110)
  // ---------------------------------------------------------------------------

  /** The stamp of a sweep: every input parameter, the iteration order and the method name.
      `iterkeys` and `method` are parameter names of `iterate_in_parallel`, so they cannot
      also be keyword arguments. */
  function Stamp(params: Dict, iterkeys: seq<string>, methodName: string): (s: Dict)
    requires "iterkeys" !in params && "method" !in params
    ensures forall k :: k in s <==> k in params || k == "iterkeys" || k == "method"
    ensures forall k :: k in params ==> s[k] == params[k]
    ensures s["method"] == Text(methodName)
    ensures TextsOf(s["iterkeys"]) == Some(iterkeys)
  {
    TextsOfTextList(iterkeys);
    params["iterkeys" := TextList(iterkeys)]["method" := Text(methodName)]
  }

  /** `stamp.pop("method")` and `stamp.pop("iterkeys")` in `post_iteration`. The TypeError
      for an `iterkeys` entry that is not a list of names has no counterpart in the source,
      which would go on to iterate such a value; no stamp that `Stamp` builds reaches it. */
  function Unstamp(stamp: Dict): (r: Result<(Dict, seq<string>)>)
    ensures r.Ok? ==> forall k :: k in r.value.0 <==> k in stamp && k != "iterkeys" && k != "method"
  {
    if "method" !in stamp then Err(KeyError("method"))
    else if "iterkeys" !in stamp then Err(KeyError("iterkeys"))
    else match TextsOf(stamp["iterkeys"])
      case None => Err(TypeError("iterkeys is not a list of names"))
      case Some(ks) => Ok((stamp - {"method", "iterkeys"}, ks))
  }

  /** Popping the stamp gives back the sweep's parameters and iteration order. */
  lemma StampRoundTrip(params: Dict, iterkeys: seq<string>, methodName: string)
    requires "iterkeys" !in params && "method" !in params
    ensures Unstamp(Stamp(params, iterkeys, methodName)) == Ok((params, iterkeys))
  {
    var s := Stamp(params, iterkeys, methodName);
    assert s - {"method", "iterkeys"} == params;
  }

  // ---------------------------------------------------------------------------
  // post_iteration (simulation2D.py:98-147)
  // ---------------------------------------------------------------------------

  /** What `post_iteration` builds before it writes files and draws: the result table,
      the input table, the plotted key with its values, and the parameter sets of the
      other iterated keys, one per plotted chunk. */
  datatype PostTables = PostTables(results: map<string, seq<Value>>, inputs: map<string, seq<Value>>,
                                   plotKey: string, plotted: seq<Value>, psets: seq<Dict>)

  /** `post_iteration` up to its file writes and plots. The result list is joined
      first, then the stamp is popped and expanded again. An empty sweep, an empty input
      table or no iterated key is an IndexError; the plotted key listed twice makes
      the lookup of the remaining keys fail. */
  method PostIteration(result: seq<Dict>, stamp: Dict) returns (r: Result<PostTables>)
    ensures JoinDicts(result).Err? ==> r == Err(JoinDicts(result).error)
    ensures JoinDicts(result).Ok? && Unstamp(stamp).Err? ==> r == Err(Unstamp(stamp).error)
    ensures JoinDicts(result).Ok? && Unstamp(stamp).Ok? ==>
      var params, ks := Unstamp(stamp).value.0, Unstamp(stamp).value.1;
      && (r.Ok? <==> Expandable(params, ks) && |ks| > 0 && Product(params, ks) > 0 && ks[0] !in ks[1..])
      && (!Expandable(params, ks) ==> r.Err? && (r.error.KeyError? || r.error.TypeError?))
      && (Expandable(params, ks) && (|ks| == 0 || Product(params, ks) == 0) ==> r == Err(IndexError))
      && (Expandable(params, ks) && |ks| > 0 && Product(params, ks) > 0 && ks[0] in ks[1..] ==>
            r == Err(KeyError(ks[0])))
      && (r.Ok? ==>
            && JoinDicts(CombinationsOf(params, ks)).Ok?
            && r.value == PostTables(JoinDicts(result).value, JoinDicts(CombinationsOf(params, ks)).value,
                                  ks[0], ItemsOf(params, ks[0]),
                                  CombinationsOf(Restrict(params, ks[1..]), ks[1..])))
  {
    var table := JoinDicts(result);
    if table.Err? {
      return Err(table.error);
    }
    var popped := Unstamp(stamp);
    if popped.Err? {
      return Err(popped.error);
    }
    r := InputTables(table.value, popped.value.0, popped.value.1);
  }

  /** The part of `post_iteration` after the stamp is popped: the input table, the
      plotted key and the chunk parameter sets. */
  method InputTables(results: map<string, seq<Value>>, params: Dict, ks: seq<string>)
    returns (r: Result<PostTables>)
    ensures r.Ok? <==> Expandable(params, ks) && |ks| > 0 && Product(params, ks) > 0 && ks[0] !in ks[1..]
    ensures !Expandable(params, ks) ==> r.Err? && (r.error.KeyError? || r.error.TypeError?)
    ensures Expandable(params, ks) && (|ks| == 0 || Product(params, ks) == 0) ==> r == Err(IndexError)
    ensures Expandable(params, ks) && |ks| > 0 && Product(params, ks) > 0 && ks[0] in ks[1..] ==>
      r == Err(KeyError(ks[0]))
    ensures r.Ok? ==>
      && JoinDicts(CombinationsOf(params, ks)).Ok?
      && r.value == PostTables(results, JoinDicts(CombinationsOf(params, ks)).value,
                               ks[0], ItemsOf(params, ks[0]),
                               CombinationsOf(Restrict(params, ks[1..]), ks[1..]))
  {
    var combos := Combinations(params, ks);
    if combos.Err? {
      return Err(combos.error);
    }
    CombinationsSize(params, ks);
    if Product(params, ks) > 0 {
      InputColumns(params, ks);
    }
    var inputs := JoinDicts(combos.value);
    if inputs.Err? {
      return Err(inputs.error);
    }
    if |inputs.value| == 0 {
      return Err(IndexError);
    }
    if |ks| == 0 {
      return Err(IndexError);
    }
    var plotKey := ks[0];
    var rest := RemoveFirst(ks, plotKey);
    assert rest == ks[1..];
    if plotKey in rest {
      return Err(KeyError(plotKey));
    }
    var x := ItemsOf(params, plotKey);
    var psets := Combinations(Restrict(params, rest), rest);
    r := Ok(PostTables(results, inputs.value, plotKey, x, psets.value));
  }

  // ---------------------------------------------------------------------------
  // iterate_in_parallel, iterate_in_parallel_ONE and simulation2D
  // ---------------------------------------------------------------------------

  /** `iterate_in_parallel`: resolve the iteration order, stamp the input and map `f` over
      the combinations. The pool is modelled by its result, `pool.map` keeping the order. */
  method IterateInParallel(f: Dict -> Dict, methodName: string, order: seq<string>, params: Dict,
                           iterkeys: Option<seq<string>>)
    returns (r: Result<(seq<Dict>, Dict)>)
    requires IsOrderOf(order, params)
    requires "iterkeys" !in params && "method" !in params
    ensures var ks := ResolveIterkeys(iterkeys, IterableKeysIn(order, params));
      r.Ok? <==> ks.Ok? && Expandable(params, ks.value)
    ensures var ks := ResolveIterkeys(iterkeys, IterableKeysIn(order, params));
      ks.Err? ==> r == Err(ks.error)
    ensures r.Ok? ==>
      var ks := ResolveIterkeys(iterkeys, IterableKeysIn(order, params)).value;
      var c := CombinationsOf(params, ks);
      && |r.value.0| == |c|
      && (forall j :: 0 <= j < |c| ==> r.value.0[j] == f(c[j]))
      && r.value.1 == Stamp(params, ks, methodName)
  {
    var iterkeys2 := IterableKeys(order, params);
    var resolved := ResolveIterkeys(iterkeys, iterkeys2);
    if resolved.Err? {
      return Err(resolved.error);
    }
    r := MapOverCombinations(f, methodName, params, resolved.value);
  }

  /** The part of `iterate_in_parallel` after the order is resolved: stamp the input,
      expand it and map `f` over the combinations. */
  method MapOverCombinations(f: Dict -> Dict, methodName: string, params: Dict, ks: seq<string>)
    returns (r: Result<(seq<Dict>, Dict)>)
    requires "iterkeys" !in params && "method" !in params
    ensures r.Ok? <==> Expandable(params, ks)
    ensures r.Err? ==> r.error.KeyError? || r.error.TypeError?
    ensures r.Ok? ==>
      var c := CombinationsOf(params, ks);
      && |r.value.0| == |c|
      && (forall j :: 0 <= j < |c| ==> r.value.0[j] == f(c[j]))
      && r.value.1 == Stamp(params, ks, methodName)
  {
    var stamp := Stamp(params, ks, methodName);
    var combos := Combinations(params, ks);
    if combos.Err? {
      return Err(combos.error);
    }
    var c := combos.value;
    var result := seq(|c|, j requires 0 <= j < |c| => f(c[j]));
    r := Ok((result, stamp));
  }

  /** The loop of `iterate_in_parallel_ONE` that looks for the single iterable parameter. */
  method FindSingleIterKey(order: seq<string>, params: Dict) returns (r: Result<string>)
    requires IsOrderOf(order, params)
    ensures r.Ok? <==> |IterableKeysIn(order, params)| == 1
    ensures r.Ok? ==> IterableKeysIn(order, params) == [r.value]
    ensures r.Ok? ==> r.value in params && HasIter(params[r.value])
    ensures r.Err? ==> r.error == Raised(
      if |IterableKeysIn(order, params)| == 0
      then "At least one of the parameters was expected to be iterable."
      else "Only one of the parameters was expected to be iterable.")
  {
    var iterkey: Option<string> := None;
    for i := 0 to |order|
      invariant |IterableKeysIn(order[..i], params)| <= 1
      invariant iterkey.None? <==> |IterableKeysIn(order[..i], params)| == 0
      invariant iterkey.Some? ==> IterableKeysIn(order[..i], params) == [iterkey.value]
    {
      var key := order[i];
      assert order[..i + 1][..i] == order[..i];
      if HasIter(params[key]) {
        if iterkey.Some? {
          IterableKeysInPrefix(order, params, i + 1);
          return Err(Raised("Only one of the parameters was expected to be iterable."));
        }
        iterkey := Some(key);
      }
    }
    assert order[..|order|] == order;
    if iterkey.None? {
      return Err(Raised("At least one of the parameters was expected to be iterable."));
    }
    IterableKeysInMembers(order, params);
    assert iterkey.value in IterableKeysIn(order, params);
    r := Ok(iterkey.value);
  }

  /** `iterate_in_parallel_ONE`: map `f` over the values of the single iterable parameter,
      the other parameters held fixed; the stamp records which key was iterated. */
  method IterateInParallelOne(f: Dict -> Dict, methodName: string, order: seq<string>, params: Dict)
    returns (r: Result<(seq<Dict>, Dict)>)
    requires IsOrderOf(order, params)
    ensures r.Ok? <==> |IterableKeysIn(order, params)| == 1
    ensures r.Ok? ==>
      var ks := IterableKeysIn(order, params);
      && |ks| == 1 && ks[0] in params && HasIter(params[ks[0]])
      && var k := ks[0];
      var vals := params[k].items;
      && |r.value.0| == |vals|
      && (forall j :: 0 <= j < |vals| ==> r.value.0[j] == f(params[k := vals[j]]))
      && r.value.1 == params["iterated" := Text(k)]["method" := Text(methodName)]
  {
    var found := FindSingleIterKey(order, params);
    if found.Err? {
      return Err(found.error);
    }
    var k := found.value;
    var stamp := params["iterated" := Text(k)]["method" := Text(methodName)];
    var vals := params[k].items;
    var result := seq(|vals|, j requires 0 <= j < |vals| => f(params[k := vals[j]]));
    r := Ok((result, stamp));
  }

  /** The wrapper `f` of `simulation2D`: keep only the requested outputs (KeyError if one is missing). */
  function FilterOutputs(res: Dict, outputs: seq<string>): (r: Result<Dict>)
    ensures r.Ok? <==> forall k :: k in outputs ==> k in res
    ensures r.Ok? ==> forall k :: k in r.value <==> k in outputs
    ensures r.Ok? ==> forall k :: k in r.value ==> r.value[k] == res[k]
  {
    if forall k :: k in outputs ==> k in res then Ok(map k | k in outputs :: res[k])
    else Err(MissingKeys)
  }

  /** The result `simulation2D` collects for one parameter dict: `calculate2D`'s
      dict, cut down to `outputs` when given. */
  function Calculated(calculate2D: Dict -> Dict, outputs: Option<seq<string>>, d: Dict): Result<Dict> {
    if outputs.None? then Ok(calculate2D(d)) else FilterOutputs(calculate2D(d), outputs.value)
  }

  /** The results of a sweep join into one table: the first has a value for every key,
      and every later result has the keys of the first. */
  predicate Joinable(calculate2D: Dict -> Dict, outputs: Option<seq<string>>, c: seq<Dict>) {
    && |c| > 0
    && (forall j :: 0 <= j < |c| ==> Calculated(calculate2D, outputs, c[j]).Ok?)
    && (forall j, k :: 0 <= j < |c| && k in Calculated(calculate2D, outputs, c[0]).value ==>
          k in Calculated(calculate2D, outputs, c[j]).value)
  }

  /** The resolved iteration order lists the plotted key once. */
  lemma PlottedKeyOnce(order: seq<string>, params: Dict, requested: Option<seq<string>>)
    requires IsOrderOf(order, params)
    requires requested.None? || |requested.value| == 1
    requires ResolveIterkeys(requested, IterableKeysIn(order, params)).Ok?
    ensures var ks := ResolveIterkeys(requested, IterableKeysIn(order, params)).value;
      |ks| > 0 ==> ks[0] !in ks[1..]
  {
    ResolvedKeysIterable(order, params, requested);
    var ks := ResolveIterkeys(requested, IterableKeysIn(order, params)).value;
    if |ks| > 0 {
      assert ks == [ks[0]] + ks[1..];
      DistinctCons(ks[0], ks[1..]);
    }
  }

  /** The filtered results join exactly when the sweep is `Joinable`. */
  lemma JoinedResults(calculate2D: Dict -> Dict, outputs: Option<seq<string>>, c: seq<Dict>, filtered: seq<Dict>)
    requires |filtered| == |c|
    requires forall n :: 0 <= n < |c| ==>
      Calculated(calculate2D, outputs, c[n]).Ok? && filtered[n] == Calculated(calculate2D, outputs, c[n]).value
    ensures JoinDicts(filtered).Ok? <==> Joinable(calculate2D, outputs, c)
  {
  }

  /** The per-result cut of `simulation2D`: the sweep's results, each cut down to
      `outputs` when given, in the order of the combinations. */
  method CollectResults(calculate2D: Dict -> Dict, outputs: Option<seq<string>>, c: seq<Dict>,
                        results: seq<Dict>)
    returns (r: Result<seq<Dict>>)
    requires |results| == |c|
    requires forall j :: 0 <= j < |c| ==> results[j] == calculate2D(c[j])
    ensures r.Ok? <==> forall j :: 0 <= j < |c| ==> Calculated(calculate2D, outputs, c[j]).Ok?
    ensures r.Err? ==> r.error == MissingKeys
    ensures r.Ok? ==>
      && |r.value| == |c|
      && (forall j :: 0 <= j < |c| ==> r.value[j] == Calculated(calculate2D, outputs, c[j]).value)
      && (JoinDicts(r.value).Ok? <==> Joinable(calculate2D, outputs, c))
  {
    var filtered: seq<Dict> := [];
    for j := 0 to |results|
      invariant |filtered| == j
      invariant forall n :: 0 <= n < j ==>
        Calculated(calculate2D, outputs, c[n]).Ok? && filtered[n] == Calculated(calculate2D, outputs, c[n]).value
    {
      var one := if outputs.None? then Ok(results[j]) else FilterOutputs(results[j], outputs.value);
      if one.Err? {
        return Err(one.error);
      }
      assert one == Calculated(calculate2D, outputs, c[j]);
      filtered := filtered + [one.value];
    }
    JoinedResults(calculate2D, outputs, c, filtered);
    r := Ok(filtered);
  }

  /** The TypeError Python raises when a call gives the keyword `name` twice: once by
      the caller and once in `**params`, or once positionally as `method`. */
  function DuplicateKeyword(name: string): Error {
    TypeError("iterate_in_parallel() got multiple values for keyword argument '" + name + "'")
  }

  /** The values of an `iterkeys` keyword the model follows through `iterate_in_parallel`:
      None, a number or flag (which `len` rejects), or a list of names. */
  predicate OrderArgument(v: Value) {
    v.Nothing? || v.Flag? || v.Int? || v.Real? || TextsOf(v).Some?
  }

  /** The order requested by an `iterkeys` keyword that `simulation2D` forwards in
      `**params`: `iterkeys is None` asks for none, a name list for those names, and
      `len` of a number or flag is a TypeError. */
  function RequestedOrder(v: Value): (r: Result<Option<seq<string>>>)
    requires OrderArgument(v)
    ensures r.Ok? <==> v.Nothing? || v.List?
    ensures r.Ok? ==> (r.value.None? <==> v.Nothing?)
    ensures r.Ok? && r.value.Some? ==> v == TextList(r.value.value)
    ensures r.Err? ==> r.error.TypeError?
  {
    if v.Nothing? then Ok(None)
    else if v.Flag? then Err(TypeError("object of type 'bool' has no len()"))
    else if v.Int? then Err(TypeError("object of type 'int' has no len()"))
    else if v.Real? then Err(TypeError("object of type 'float' has no len()"))
    else
      var ks := TextsOf(v).value;
      assert v.items == TextList(ks).items;
      Ok(Some(ks))
  }

  /** The dict order of `**params` once the keyword `x` has been bound to a parameter. */
  lemma BoundKeywordOrder(order: seq<string>, params: Dict, x: string)
    requires IsOrderOf(order, params) && x in params
    ensures IsOrderOf(RemoveFirst(order, x), params - {x})
  {
    var rest := RemoveFirst(order, x);
    RemoveFirstDistinct(order, x);
    forall k | k in params - {x} ensures k in rest {
      assert k in multiset(order);
      assert multiset(rest)[k] == multiset(order)[k];
    }
    forall k | k in rest ensures k in params - {x} {
      RemoveFirstSubset(order, x, k);
    }
  }

  /** The sweep and `post_iteration` of `simulation2D` once the keywords are bound: the
      parameters hold neither `iterkeys` nor `method`, and `requested` is the order asked for. */
  method SweepAndPost(calculate2D: Dict -> Dict, order: seq<string>, params: Dict,
                      outputs: Option<seq<string>>, requested: Option<seq<string>>)
    returns (r: Result<seq<Dict>>)
    requires IsOrderOf(order, params)
    requires "iterkeys" !in params && "method" !in params
    ensures var ks := ResolveIterkeys(requested, IterableKeysIn(order, params));
      && (ks.Err? ==> r == Err(ks.error))
      && (r.Ok? <==>
            && ks.Ok? && Expandable(params, ks.value) && |ks.value| > 0 && ks.value[0] !in ks.value[1..]
            && Joinable(calculate2D, outputs, CombinationsOf(params, ks.value)))
    ensures r.Ok? ==>
      var ks := ResolveIterkeys(requested, IterableKeysIn(order, params)).value;
      var c := CombinationsOf(params, ks);
      && |r.value| == |c|
      && (forall j :: 0 <= j < |c| ==> r.value[j] == Calculated(calculate2D, outputs, c[j]).value)
  {
    var name := if outputs.Some? then "f" else "calculate2D";
    var run := IterateInParallel(calculate2D, name, order, params, requested);
    if run.Err? {
      return Err(run.error);
    }
    var ks := ResolveIterkeys(requested, IterableKeysIn(order, params)).value;
    var c := CombinationsOf(params, ks);
    var collected := CollectResults(calculate2D, outputs, c, run.value.0);
    if collected.Err? {
      return Err(collected.error);
    }
    var filtered := collected.value;
    StampRoundTrip(params, ks, name);
    assert Unstamp(run.value.1) == Ok((params, ks));
    CombinationsSize(params, ks);
    assert JoinDicts(filtered).Ok? ==> Product(params, ks) > 0;
    var post := PostIteration(filtered, run.value.1);
    assert post.Ok? <==> JoinDicts(filtered).Ok? && |ks| > 0 && ks[0] !in ks[1..];
    if post.Err? {
      return Err(post.error);
    }
    r := Ok(filtered);
  }

  /** `simulation2D` on rank 0: the sweep over `calculate2D`, with the plotted parameter
      iterated first and every result cut down to `outputs` when given, followed by
      `post_iteration`, whose failures end the call. An `iterkeys` keyword in `**params`
      clashes with `iterkeys=[plot]`, and one named `method` always clashes with the
      positional `method`; without `plot`, `iterkeys` is bound as the requested order. */
  method Simulation2D(calculate2D: Dict -> Dict, order: seq<string>, params: Dict,
                      outputs: Option<seq<string>>, plot: Option<string>)
    returns (r: Result<seq<Dict>>)
    requires IsOrderOf(order, params)
    requires plot.Some? || "iterkeys" !in params || OrderArgument(params["iterkeys"])
    ensures plot.Some? && "iterkeys" in params ==> r == Err(DuplicateKeyword("iterkeys"))
    ensures !(plot.Some? && "iterkeys" in params) && "method" in params ==>
      r == Err(DuplicateKeyword("method"))
    ensures "method" !in params && "iterkeys" !in params ==>
      var req := if plot.Some? then Some([plot.value]) else None;
      var ks := ResolveIterkeys(req, IterableKeysIn(order, params));
      && (ks.Err? ==> r == Err(ks.error))
      && (r.Ok? <==>
            && ks.Ok? && Expandable(params, ks.value) && |ks.value| > 0
            && Joinable(calculate2D, outputs, CombinationsOf(params, ks.value)))
      && (r.Ok? ==>
            var c := CombinationsOf(params, ks.value);
            && |r.value| == |c|
            && (forall j :: 0 <= j < |c| ==> r.value[j] == Calculated(calculate2D, outputs, c[j]).value)
            && (plot.Some? ==> ks.value[0] == plot.value))
    ensures "method" !in params && plot.None? && "iterkeys" in params ==>
      var given := RequestedOrder(params["iterkeys"]);
      var inner := params - {"iterkeys"};
      && (given.Err? ==> r == Err(given.error))
      && (given.Ok? ==>
            var ks := ResolveIterkeys(given.value, IterableKeysIn(RemoveFirst(order, "iterkeys"), inner));
            && (ks.Err? ==> r == Err(ks.error))
            && (r.Ok? <==>
                  && ks.Ok? && Expandable(inner, ks.value) && |ks.value| > 0 && ks.value[0] !in ks.value[1..]
                  && Joinable(calculate2D, outputs, CombinationsOf(inner, ks.value)))
            && (r.Ok? ==>
                  var c := CombinationsOf(inner, ks.value);
                  && |r.value| == |c|
                  && (forall j :: 0 <= j < |c| ==> r.value[j] == Calculated(calculate2D, outputs, c[j]).value)))
  {
    if plot.Some? && "iterkeys" in params {
      return Err(DuplicateKeyword("iterkeys"));
    }
    if "method" in params {
      return Err(DuplicateKeyword("method"));
    }
    if "iterkeys" !in params {
      var req := if plot.Some? then Some([plot.value]) else None;
      r := SweepAndPost(calculate2D, order, params, outputs, req);
      if ResolveIterkeys(req, IterableKeysIn(order, params)).Ok? {
        PlottedKeyOnce(order, params, req);
      }
    } else {
      var given := RequestedOrder(params["iterkeys"]);
      if given.Err? {
        return Err(given.error);
      }
      BoundKeywordOrder(order, params, "iterkeys");
      r := SweepAndPost(calculate2D, RemoveFirst(order, "iterkeys"), params - {"iterkeys"}, outputs, given.value);
    }
  }
}
