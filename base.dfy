/**
 * Optional and failing values, and the "stop at the first failure" map that
 * the connector's per-element loops perform.
 */
module Base {

  /** A Java reference that may be null. */
  datatype Option<+T> = None | Some(value: T)

  /** A computation that either returns a value or throws. */
  datatype Result<+T, +E> = Ok(value: T) | Err(error: E) {
    predicate IsFailure() { Err? }
    function PropagateFailure<U>(): Result<U, E> requires Err? { Err(error) }
    function Extract(): T requires Ok? { value }
  }

  /** Pairs every element with its position, as an index loop sees it. */
  function Indexed<A>(xs: seq<A>): (r: seq<(nat, A)>)
    ensures |r| == |xs|
    ensures forall i :: 0 <= i < |xs| ==> r[i] == (i, xs[i])
  {
    seq(|xs|, i requires 0 <= i < |xs| => (i, xs[i]))
  }

  /**
   * Applies `f` to the elements from left to right and stops at the first
   * one that fails, as a Java loop that throws on a bad element does.
   */
  function MapAll<A, B, E>(xs: seq<A>, f: A -> Result<B, E>): (r: Result<seq<B>, E>)
    ensures r.Ok? <==> forall i :: 0 <= i < |xs| ==> f(xs[i]).Ok?
    ensures r.Ok? ==> |r.value| == |xs| && forall i :: 0 <= i < |xs| ==> f(xs[i]) == Ok(r.value[i])
    decreases |xs|
  {
    if |xs| == 0 then Ok([])
    else match f(xs[0])
      case Err(e) => Err(e)
      case Ok(y) =>
        match MapAll(xs[1..], f)
        case Err(e) => Err(e)
        case Ok(ys) => Ok([y] + ys)
  }

  /** The error MapAll reports is the error of the first failing element. */
  lemma {:induction false} MapAllFirstError<A, B, E>(xs: seq<A>, f: A -> Result<B, E>, k: nat)
    requires k < |xs| && f(xs[k]).Err?
    requires forall j :: 0 <= j < k ==> f(xs[j]).Ok?
    ensures MapAll(xs, f) == Err(f(xs[k]).error)
    decreases k
  {
    if k > 0 {
      assert forall j :: 0 <= j < k - 1 ==> xs[1..][j] == xs[j + 1];
      MapAllFirstError(xs[1..], f, k - 1);
    }
  }

  predicate NoDuplicates<T(==)>(xs: seq<T>) {
    forall i, j :: 0 <= i < j < |xs| ==> xs[i] != xs[j]
  }

  predicate Disjoint<T(==)>(a: seq<T>, b: seq<T>) {
    forall i, j :: 0 <= i < |a| && 0 <= j < |b| ==> a[i] != b[j]
  }

  /**
   * A sequence of puts into a map, in order: the i-th key is set to the
   * i-th value when there is one and left alone otherwise, as the
   * connector's "put if exists" loops do to a JSONObject or an object builder.
   */
  function PutAll<V>(m: map<string, V>, keys: seq<string>, vs: seq<Option<V>>): (r: map<string, V>)
    requires |keys| == |vs|
    ensures m.Keys <= r.Keys
    decreases |keys|
  {
    if |keys| == 0 then m
    else
      var n := |keys| - 1;
      var prefix := PutAll(m, keys[..n], vs[..n]);
      if vs[n].Some? then prefix[keys[n] := vs[n].value] else prefix
  }

  /** A key that was put ends up holding its value, when no key repeats. */
  lemma {:induction false} PutAllWritten<V>(m: map<string, V>, keys: seq<string>, vs: seq<Option<V>>, i: nat)
    requires |keys| == |vs| && NoDuplicates(keys)
    requires i < |keys| && vs[i].Some?
    ensures keys[i] in PutAll(m, keys, vs) && PutAll(m, keys, vs)[keys[i]] == vs[i].value
    decreases |keys|
  {
    var n := |keys| - 1;
    if i < n {
      assert keys[..n][i] == keys[i] && vs[..n][i] == vs[i];
      assert NoDuplicates(keys[..n]);
      PutAllWritten(m, keys[..n], vs[..n], i);
    }
  }

  /** A key that was never put keeps whatever the map held for it, or stays absent. */
  lemma {:induction false} PutAllUntouched<V>(m: map<string, V>, keys: seq<string>, vs: seq<Option<V>>, k: string)
    requires |keys| == |vs|
    requires forall i :: 0 <= i < |keys| && keys[i] == k ==> vs[i].None?
    ensures k in PutAll(m, keys, vs) <==> k in m
    ensures k in m ==> PutAll(m, keys, vs)[k] == m[k]
    decreases |keys|
  {
    if |keys| > 0 {
      var n := |keys| - 1;
      assert forall i :: 0 <= i < n ==> keys[..n][i] == keys[i] && vs[..n][i] == vs[i];
      PutAllUntouched(m, keys[..n], vs[..n], k);
    }
  }

  /** Every key of the result is an old key or a key that was put. */
  lemma {:induction false} PutAllKeys<V>(m: map<string, V>, keys: seq<string>, vs: seq<Option<V>>, k: string)
    requires |keys| == |vs| && k in PutAll(m, keys, vs)
    ensures k in m || exists i :: 0 <= i < |keys| && keys[i] == k && vs[i].Some?
    decreases |keys|
  {
    if |keys| > 0 {
      var n := |keys| - 1;
      if !(vs[n].Some? && keys[n] == k) {
        PutAllKeys(m, keys[..n], vs[..n], k);
        if k !in m {
          var i :| 0 <= i < n && keys[..n][i] == k && vs[..n][i].Some?;
          assert keys[i] == k && vs[i].Some?;
        }
      }
    }
  }

  /** Putting one more key-value pair after a sequence of puts. */
  lemma PutAllSnoc<V>(m: map<string, V>, keys: seq<string>, vs: seq<Option<V>>, k: string, v: Option<V>)
    requires |keys| == |vs|
    ensures PutAll(m, keys + [k], vs + [v]) == if v.Some? then PutAll(m, keys, vs)[k := v.value] else PutAll(m, keys, vs)
  {
    assert (keys + [k])[..|keys|] == keys && (vs + [v])[..|vs|] == vs;
  }

  /**
   * A loop that looks every key up with `f`, stopping at the first failure,
   * and puts what it finds: a key of the list ends up with its lookup's value
   * when there is one, and every other key keeps its old value.
   */
  lemma OverlayAt<V, E>(m: map<string, V>, keys: seq<string>, f: string -> Result<Option<V>, E>, k: string)
    requires NoDuplicates(keys) && MapAll(keys, f).Ok?
    ensures k in keys ==> f(k).Ok?
    ensures var out := PutAll(m, keys, MapAll(keys, f).value);
      if k in keys && f(k).value.Some? then
        k in out && out[k] == f(k).value.value
      else
        (k in out <==> k in m) && (k in m ==> out[k] == m[k])
  {
    var vs := MapAll(keys, f).value;
    if i :| 0 <= i < |keys| && keys[i] == k {
      assert f(keys[i]) == Ok(vs[i]);
      if vs[i].Some? {
        PutAllWritten(m, keys, vs, i);
      } else {
        PutAllUntouched(m, keys, vs, k);
      }
    } else {
      PutAllUntouched(m, keys, vs, k);
    }
  }

  /**
   * One call of a "put if exists" helper: it throws what its lookup throws,
   * and otherwise puts the value found, if any, under the key.
   */
  ghost predicate PutStep<V, E>(before: map<string, V>, after: map<string, V>, key: string, found: Result<Option<V>, E>, r: Result<(), E>) {
    match found
    case Err(e) => r == Err(e)
    case Ok(v) => r.Ok? && after == if v.Some? then before[key := v.value] else before
  }

  /**
   * A "put if exists" loop after its first i keys: the lookups so far all
   * succeeded with the values vs, and the map holds exactly their puts.
   */
  ghost predicate PutLoopAt<V, E>(m0: map<string, V>, keys: seq<string>, f: string -> Result<Option<V>, E>,
                                  i: nat, vs: seq<Option<V>>, m: map<string, V>) {
    && i <= |keys| && |vs| == i
    && (forall j :: 0 <= j < i ==> f(keys[j]) == Ok(vs[j]))
    && m == PutAll(m0, keys[..i], vs)
  }

  lemma PutLoopStart<V, E>(m0: map<string, V>, keys: seq<string>, f: string -> Result<Option<V>, E>)
    ensures PutLoopAt(m0, keys, f, 0, [], m0)
  {
    assert keys[..0] == [];
  }

  /** A successful call extends the loop state by one key. */
  lemma PutLoopNext<V, E>(m0: map<string, V>, keys: seq<string>, f: string -> Result<Option<V>, E>,
                          i: nat, vs: seq<Option<V>>, m: map<string, V>, m': map<string, V>, r: Result<(), E>)
    requires PutLoopAt(m0, keys, f, i, vs, m) && i < |keys|
    requires PutStep(m, m', keys[i], f(keys[i]), r) && r.Ok?
    ensures f(keys[i]).Ok? && PutLoopAt(m0, keys, f, i + 1, vs + [f(keys[i]).value], m')
  {
    PutAllSnoc(m0, keys[..i], vs, keys[i], f(keys[i]).value);
    assert keys[..i] + [keys[i]] == keys[..i + 1];
  }

  /** A failing call ends the loop with the error the whole fold reports. */
  lemma PutLoopFail<V, E>(m0: map<string, V>, keys: seq<string>, f: string -> Result<Option<V>, E>,
                          i: nat, vs: seq<Option<V>>, m: map<string, V>, m': map<string, V>, r: Result<(), E>)
    requires PutLoopAt(m0, keys, f, i, vs, m) && i < |keys|
    requires PutStep(m, m', keys[i], f(keys[i]), r) && r.Err?
    ensures MapAll(keys, f) == Err(r.error)
  {
    MapAllFirstError(keys, f, i);
  }

  /** A loop that ran to the end computed the fold and its puts. */
  lemma PutLoopEnd<V, E>(m0: map<string, V>, keys: seq<string>, f: string -> Result<Option<V>, E>,
                         vs: seq<Option<V>>, m: map<string, V>)
    requires PutLoopAt(m0, keys, f, |keys|, vs, m)
    ensures MapAll(keys, f) == Ok(vs) && m == PutAll(m0, keys, vs)
  {
    assert keys[..|keys|] == keys;
    assert MapAll(keys, f).value == vs;
  }
}
