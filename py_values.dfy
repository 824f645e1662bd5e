/**
 * Python-level values, exceptions and insertion-ordered dictionaries, as the
 * light-transfer scripts see them.  Every script works on JSON-shaped data:
 * records are Python dicts, whose iteration order is the insertion order, and
 * whose item assignment `d[k] = v` replaces a value in place when `k` is
 * already a key and appends the pair otherwise.
 */
module PyValues {

  datatype Option<+T> = None | Some(value: T)

  /** The exceptions the scripts can raise.  None of them is caught around the
      loops, so each one aborts the running export or import. */
  datatype Error =
    | KeyError                   // a missing dict key
    | TypeError                  // arithmetic or ordering on a string, a list used as one parm name
    | ZeroDivisionError          // `x / 0`, or `math.log(x, 1)`
    | MathDomainError            // `math.log` of a non-positive number
    | IndexError                 // a positional access past the end of a list
    | HostError(what: string)    // a Maya query on a node or plug that does not exist

  datatype Result<+T> = Ok(value: T) | Err(error: Error)

  /** A value of an exported record or of a host attribute: JSON number, boolean or string. */
  datatype Value = Num(r: real) | Bool(b: bool) | Str(s: string)

  /** Python truthiness (`if v:` / `not v`). */
  predicate Truthy(v: Value) {
    match v
    case Num(r) => r != 0.0
    case Bool(b) => b
    case Str(s) => s != ""
  }

  /** The number Python computes with when `v` meets arithmetic or an ordering:
      a bool is the int 0 or 1, a string raises TypeError. */
  function AsReal(v: Value): (r: Result<real>)
    ensures r.Err? <==> v.Str?
    ensures r.Err? ==> r.error == TypeError
    ensures v.Num? ==> r == Ok(v.r)
  {
    match v
    case Num(x) => Ok(x)
    case Bool(b) => Ok(if b then 1.0 else 0.0)
    case Str(_) => Err(TypeError)
  }

  /** Python's `abs(x)`. */
  function Abs(x: real): real {
    if x < 0.0 then -x else x
  }

  /** Python's `x ** n` for a natural exponent `n`. */
  function Power(x: real, n: nat): real {
    if n == 0 then 1.0 else x * Power(x, n - 1)
  }

  /** A square is positive exactly when its base is non-zero. */
  lemma SquarePositive(x: real)
    ensures Power(x, 2) > 0.0 <==> x != 0.0
  {
    assert Power(x, 1) == x;
    if x > 0.0 {
      assert x * Power(x, 1) > 0.0;
    } else if x < 0.0 {
      assert x * Power(x, 1) > 0.0;
    }
  }

  /** `x ** 2 == abs(x) * abs(x)`. */
  lemma SquareOfAbs(x: real)
    ensures Power(x, 2) == Abs(x) * Abs(x)
  {
    assert Power(x, 1) == x;
    if x < 0.0 {
      assert (-x) * (-x) == x * Power(x, 1);
    }
  }

  /** Python's `v == x` for a number `x`: a string is never equal to a number. */
  predicate EqualsNumber(v: Value, x: real) {
    match v
    case Num(r) => r == x
    case Bool(b) => (if b then 1.0 else 0.0) == x
    case Str(_) => false
  }

  /** An insertion-ordered dict, first inserted entry first. */
  datatype OrderedDict<K, +V> = Nil | Cons(key: K, val: V, rest: OrderedDict<K, V>)

  /** `list(d)`: the keys in iteration order. */
  function Keys<K(==), V>(d: OrderedDict<K, V>): seq<K> {
    match d
    case Nil => []
    case Cons(k, _, r) => [k] + Keys(r)
  }

  /** `d.get(k)`: the value stored under `k`, if any. */
  function Get<K(==), V>(d: OrderedDict<K, V>, k: K): Option<V> {
    match d
    case Nil => None
    case Cons(k0, v0, r) => if k0 == k then Some(v0) else Get(r, k)
  }

  /** The invariant of a real dict: no key occurs twice. */
  predicate DistinctKeys<K(==), V>(d: OrderedDict<K, V>) {
    match d
    case Nil => true
    case Cons(k, _, r) => Get(r, k).None? && DistinctKeys(r)
  }

  /** `d[k]` for reading: KeyError when `k` is missing. */
  function Lookup<K(==), V>(d: OrderedDict<K, V>, k: K): (r: Result<V>)
    ensures r.Ok? <==> Get(d, k).Some?
    ensures r.Ok? ==> Get(d, k) == Some(r.value)
    ensures r.Err? ==> r.error == KeyError
  {
    match Get(d, k)
    case Some(v) => Ok(v)
    case None => Err(KeyError)
  }

  /** `d[v]` where the key comes from data: only a string can be a key of these dicts. */
  function LookupValue<V>(d: OrderedDict<string, V>, v: Value): (r: Result<V>)
    ensures r.Ok? <==> v.Str? && Get(d, v.s).Some?
    ensures r.Ok? ==> Get(d, v.s) == Some(r.value)
    ensures r.Err? ==> r.error == KeyError
  {
    if v.Str? then Lookup(d, v.s) else Err(KeyError)
  }

  /** `d[k] = v`: replace in place when present, append otherwise. */
  function Put<K(==), V>(d: OrderedDict<K, V>, k: K, v: V): OrderedDict<K, V> {
    match d
    case Nil => Cons(k, v, Nil)
    case Cons(k0, v0, r) => if k0 == k then Cons(k, v, r) else Cons(k0, v0, Put(r, k, v))
  }

  /** `{**a, **b}`: a copy of `a` updated with every entry of `b`, in `b`'s order. */
  function Merge<K(==), V>(a: OrderedDict<K, V>, b: OrderedDict<K, V>): OrderedDict<K, V>
    decreases b
  {
    match b
    case Nil => a
    case Cons(k, v, r) => Merge(Put(a, k, v), r)
  }

  lemma {:induction false} GetIsSomeIffKey<K, V>(d: OrderedDict<K, V>, k: K)
    ensures Get(d, k).Some? <==> k in Keys(d)
  {
    match d
    case Nil =>
    case Cons(k0, _, r) => GetIsSomeIffKey(r, k);
  }

  /** Assigning a key makes it map to the new value and leaves every other key alone. */
  lemma {:induction false} PutGet<K, V>(d: OrderedDict<K, V>, k: K, v: V, k': K)
    ensures Get(Put(d, k, v), k') == if k' == k then Some(v) else Get(d, k')
  {
    match d
    case Nil =>
    case Cons(k0, v0, r) =>
      if k0 != k {
        PutGet(r, k, v, k');
      }
  }

  /** Assigning keeps the key order; only a new key is appended, at the end. */
  lemma {:induction false} PutKeys<K, V>(d: OrderedDict<K, V>, k: K, v: V)
    ensures Keys(Put(d, k, v)) == if Get(d, k).Some? then Keys(d) else Keys(d) + [k]
  {
    match d
    case Nil =>
    case Cons(k0, v0, r) =>
      if k0 != k {
        PutKeys(r, k, v);
      }
  }

  lemma {:induction false} PutDistinct<K, V>(d: OrderedDict<K, V>, k: K, v: V)
    requires DistinctKeys(d)
    ensures DistinctKeys(Put(d, k, v))
  {
    match d
    case Nil =>
    case Cons(k0, v0, r) =>
      if k0 != k {
        PutDistinct(r, k, v);
        PutGet(r, k, v, k0);
      }
  }

  /** `{**a, **b}` maps every key of `b` to its value in `b`, every other key as `a` does. */
  lemma {:induction false} MergeGet<K, V>(a: OrderedDict<K, V>, b: OrderedDict<K, V>, k: K)
    requires DistinctKeys(b)
    ensures Get(Merge(a, b), k) == if Get(b, k).Some? then Get(b, k) else Get(a, k)
    decreases b
  {
    match b
    case Nil =>
    case Cons(k0, v0, r) =>
      MergeGet(Put(a, k0, v0), r, k);
      PutGet(a, k0, v0, k);
  }

  /** The keys of `{**a, **b}` are those of `a` and those of `b`. */
  lemma {:induction false} MergeHasKey<K, V>(a: OrderedDict<K, V>, b: OrderedDict<K, V>, k: K)
    ensures Get(Merge(a, b), k).Some? <==> Get(a, k).Some? || Get(b, k).Some?
    decreases b
  {
    match b
    case Nil =>
    case Cons(k0, v0, r) =>
      MergeHasKey(Put(a, k0, v0), r, k);
      PutGet(a, k0, v0, k);
  }

  /** Merging into a dict keeps its keys distinct. */
  lemma {:induction false} MergeDistinct<K, V>(a: OrderedDict<K, V>, b: OrderedDict<K, V>)
    requires DistinctKeys(a)
    ensures DistinctKeys(Merge(a, b))
    decreases b
  {
    match b
    case Nil =>
    case Cons(k0, v0, r) =>
      PutDistinct(a, k0, v0);
      MergeDistinct(Put(a, k0, v0), r);
  }

  /** `for k, v in zip(ks, vs): d[k] = v`. */
  function PutEach<K(==), V>(ks: seq<K>, vs: seq<V>, d: OrderedDict<K, V>): OrderedDict<K, V>
    decreases |ks|
  {
    if ks == [] || vs == [] then d else PutEach(ks[1..], vs[1..], Put(d, ks[0], vs[0]))
  }

  /** No key after position `j` equals the key at `j`. */
  ghost predicate LastOccurrence<K>(ks: seq<K>, j: int)
    requires 0 <= j < |ks|
  {
    forall i :: j < i < |ks| ==> ks[i] != ks[j]
  }

  /** Assigning a list of pairs in turn: a key ends with the value of its last pair, a key
      of no pair keeps its old value, and the keys stay distinct. */
  lemma {:induction false} PutEachLaw<K, V>(ks: seq<K>, vs: seq<V>, d: OrderedDict<K, V>)
    requires |ks| == |vs|
    requires DistinctKeys(d)
    ensures DistinctKeys(PutEach(ks, vs, d))
    ensures forall j :: 0 <= j < |ks| && LastOccurrence(ks, j) ==> Get(PutEach(ks, vs, d), ks[j]) == Some(vs[j])
    ensures forall k :: k !in ks ==> Get(PutEach(ks, vs, d), k) == Get(d, k)
    decreases |ks|
  {
    if ks != [] {
      var d' := Put(d, ks[0], vs[0]);
      PutDistinct(d, ks[0], vs[0]);
      PutEachLaw(ks[1..], vs[1..], d');
      forall j | 0 <= j < |ks| && LastOccurrence(ks, j)
        ensures Get(PutEach(ks, vs, d), ks[j]) == Some(vs[j])
      {
        if j == 0 {
          assert ks[0] !in ks[1..];
          PutGet(d, ks[0], vs[0], ks[0]);
        } else {
          assert ks[j] == ks[1..][j - 1] && vs[j] == vs[1..][j - 1];
          assert LastOccurrence(ks[1..], j - 1);
        }
      }
      forall k | k !in ks
        ensures Get(PutEach(ks, vs, d), k) == Get(d, k)
      {
        PutGet(d, ks[0], vs[0], k);
      }
    }
  }

  /** The elements of a list, each once, in the order of their first occurrence. */
  function FirstOccurrences<K(==)>(ks: seq<K>): (r: seq<K>)
    ensures forall i :: 0 <= i < |ks| ==> ks[i] in r
    ensures forall i :: 0 <= i < |r| ==> r[i] in ks
    ensures forall i, j :: 0 <= i < j < |r| ==> r[i] != r[j]
    decreases |ks|
  {
    if ks == [] then []
    else
      var init := ks[..|ks| - 1];
      assert ks == init + [ks[|ks| - 1]];
      if ks[|ks| - 1] in init then FirstOccurrences(init) else FirstOccurrences(init) + [ks[|ks| - 1]]
  }

  /** The assignment loop over a list with one more pair at the end ends with that pair's
      assignment. */
  lemma {:induction false} PutEachSnoc<K, V>(ks: seq<K>, vs: seq<V>, d: OrderedDict<K, V>, k: K, v: V)
    requires |ks| == |vs|
    ensures PutEach(ks + [k], vs + [v], d) == Put(PutEach(ks, vs, d), k, v)
    decreases |ks|
  {
    if ks == [] {
      assert ([k])[1..] == [] && ([v])[1..] == [];
      assert ks + [k] == [k] && vs + [v] == [v];
    } else {
      assert (ks + [k])[1..] == ks[1..] + [k] && (vs + [v])[1..] == vs[1..] + [v];
      PutEachSnoc(ks[1..], vs[1..], Put(d, ks[0], vs[0]), k, v);
    }
  }

  /** Assigning a list of pairs into an empty dict leaves its keys in the order of their
      first assignment, each once. */
  lemma {:induction false} PutEachKeys<K, V>(ks: seq<K>, vs: seq<V>)
    requires |ks| == |vs|
    ensures Keys(PutEach(ks, vs, Nil)) == FirstOccurrences(ks)
    decreases |ks|
  {
    if ks != [] {
      var n := |ks|;
      var ks0, vs0 := ks[..n - 1], vs[..n - 1];
      assert ks == ks0 + [ks[n - 1]] && vs == vs0 + [vs[n - 1]];
      PutEachSnoc(ks0, vs0, Nil, ks[n - 1], vs[n - 1]);
      PutEachKeys(ks0, vs0);
      var p := PutEach(ks0, vs0, Nil);
      PutKeys(p, ks[n - 1], vs[n - 1]);
      GetIsSomeIffKey(p, ks[n - 1]);
    }
  }
}
