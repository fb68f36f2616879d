/** Failure-compatible wrappers used throughout the model. */
module Wrappers {

  datatype Option<+T> = None | Some(value: T)

  /** A value, or the exception the Ruby code would raise instead. */
  datatype Result<+T, +E> = Ok(value: T) | Err(error: E) {
    predicate IsFailure() { Err? }

    function PropagateFailure<U>(): Result<U, E>
      requires Err?
    {
      Err(error)
    }

    function Extract(): T
      requires Ok?
    {
      value
    }
  }

  /** The first index of `s` whose element satisfies `p`, as Ruby's `find` scans. */
  function FirstIndex<T>(s: seq<T>, p: T -> bool): (r: Option<nat>)
    ensures r.Some? ==> r.value < |s| && p(s[r.value])
    ensures r.Some? ==> forall j :: 0 <= j < r.value ==> !p(s[j])
    ensures r.None? ==> forall j :: 0 <= j < |s| ==> !p(s[j])
  {
    if |s| == 0 then None
    else if p(s[0]) then Some(0)
    else match FirstIndex(s[1..], p)
      case None => None
      case Some(i) => Some(i + 1)
  }

  /**
   * Apply `f` to each element in order, stopping at the first failure, as a
   * Ruby `map` does when its block raises.
   */
  function MapResult<A, B, E>(xs: seq<A>, f: A -> Result<B, E>): Result<seq<B>, E>
    decreases |xs|
  {
    if |xs| == 0 then Ok([])
    else
      var done :- MapResult(xs[..|xs| - 1], f);
      var last :- f(xs[|xs| - 1]);
      Ok(done + [last])
  }

  /** The map succeeds iff `f` succeeds on every element. */
  lemma {:induction false} MapResultOk<A, B, E>(xs: seq<A>, f: A -> Result<B, E>)
    ensures MapResult(xs, f).Ok? <==> forall i :: 0 <= i < |xs| ==> f(xs[i]).Ok?
    decreases |xs|
  {
    if |xs| > 0 {
      var n := |xs| - 1;
      MapResultOk(xs[..n], f);
      assert forall i :: 0 <= i < n ==> xs[..n][i] == xs[i];
    }
  }

  /** A successful map has one result per element, in order. */
  lemma {:induction false} MapResultValue<A, B, E>(xs: seq<A>, f: A -> Result<B, E>)
    requires MapResult(xs, f).Ok?
    ensures |MapResult(xs, f).value| == |xs|
    ensures forall i :: 0 <= i < |xs| ==> f(xs[i]).Ok? && MapResult(xs, f).value[i] == f(xs[i]).value
    decreases |xs|
  {
    if |xs| > 0 {
      var n := |xs| - 1;
      var done := MapResult(xs[..n], f);
      MapResultValue(xs[..n], f);
      var out := done.value + [f(xs[n]).value];
      assert MapResult(xs, f) == Ok(out);
      forall i | 0 <= i < |xs| ensures f(xs[i]).Ok? && out[i] == f(xs[i]).value {
        if i < n {
          assert xs[..n][i] == xs[i];
        }
      }
    }
  }

  /** A failed map fails with the error of the first element on which `f` fails. */
  lemma {:induction false} MapResultFirstError<A, B, E>(xs: seq<A>, f: A -> Result<B, E>)
    requires MapResult(xs, f).Err?
    ensures exists k :: 0 <= k < |xs| && (forall j :: 0 <= j < k ==> f(xs[j]).Ok?) && f(xs[k]) == Err(MapResult(xs, f).error)
    decreases |xs|
  {
    var n := |xs| - 1;
    var init := xs[..n];
    if MapResult(init, f).Err? {
      MapResultFirstError(init, f);
      var k :| 0 <= k < n && (forall j :: 0 <= j < k ==> f(init[j]).Ok?) && f(init[k]) == Err(MapResult(init, f).error);
      assert forall j :: 0 <= j <= k ==> init[j] == xs[j];
    } else {
      MapResultOk(init, f);
      assert forall j :: 0 <= j < n ==> init[j] == xs[j];
    }
  }

  /** Extending a successful prefix by one element maps that element. */
  lemma MapResultStep<A, B, E>(xs: seq<A>, k: nat, f: A -> Result<B, E>)
    requires k < |xs| && MapResult(xs[..k], f).Ok?
    ensures f(xs[k]).Ok? ==> MapResult(xs[..k + 1], f) == Ok(MapResult(xs[..k], f).value + [f(xs[k]).value])
    ensures f(xs[k]).Err? ==> MapResult(xs[..k + 1], f) == Err(f(xs[k]).error)
  {
    assert xs[..k + 1][..k] == xs[..k];
  }

  /** Once a prefix fails, the whole map fails with the same error. */
  lemma {:induction false} MapResultErrorStays<A, B, E>(xs: seq<A>, k: nat, f: A -> Result<B, E>)
    requires k <= |xs|
    requires MapResult(xs[..k], f).Err?
    ensures MapResult(xs, f) == MapResult(xs[..k], f)
    decreases |xs|
  {
    if k < |xs| {
      var n := |xs| - 1;
      assert xs[..n][..k] == xs[..k];
      MapResultErrorStays(xs[..n], k, f);
    } else {
      assert xs[..k] == xs;
    }
  }

}

/**
 * Parsed JSON documents as Ruby's JSON library hands them over: a JSON object
 * becomes a Hash, which keeps its keys in insertion order, so an object is an
 * association list here.
 */
module Json {
  import opened Wrappers

  datatype Value =
    | Null
    | Bool(b: bool)
    | Int(i: int)
    | Other(literal: string)   // any other scalar (a float), kept as its literal text
    | Str(s: string)
    | Arr(items: seq<Value>)
    | Obj(fields: seq<(string, Value)>)

  /** Ruby truthiness: everything except `nil` and `false`. */
  predicate Truthy(v: Value) {
    !v.Null? && v != Bool(false)
  }

  function Keys(fields: seq<(string, Value)>): (ks: seq<string>)
    ensures |ks| == |fields|
    ensures forall i :: 0 <= i < |fields| ==> ks[i] == fields[i].0
  {
    seq(|fields|, i requires 0 <= i < |fields| => fields[i].0)
  }

  /** A Ruby Hash never holds one key twice. */
  predicate UniqueKeys(fields: seq<(string, Value)>) {
    forall i, j :: 0 <= i < j < |fields| ==> fields[i].0 != fields[j].0
  }

  /** Position of `key` in the hash, if present. */
  function IndexOf(fields: seq<(string, Value)>, key: string): (r: Option<nat>)
    ensures r.Some? ==> r.value < |fields| && fields[r.value].0 == key
    ensures r.Some? ==> forall j :: 0 <= j < r.value ==> fields[j].0 != key
    ensures r.None? ==> forall j :: 0 <= j < |fields| ==> fields[j].0 != key
  {
    FirstIndex(Keys(fields), k => k == key)
  }

  /** `hash[key]`: the value stored under `key`, or `nil` when the key is absent. */
  function Get(fields: seq<(string, Value)>, key: string): (v: Value)
    ensures (forall j :: 0 <= j < |fields| ==> fields[j].0 != key) ==> v == Null
  {
    match IndexOf(fields, key)
    case Some(i) => fields[i].1
    case None => Null
  }

  /**
   * `hash[key] = v`: an existing key keeps its position and takes the new
   * value; a new key is appended.
   */
  function Put(fields: seq<(string, Value)>, key: string, v: Value): seq<(string, Value)>
  {
    match IndexOf(fields, key)
    case Some(i) => fields[..i] + [(key, v)] + fields[i + 1..]
    case None => fields + [(key, v)]
  }

  /** Writing a key the hash holds at position `i` replaces the pair there and nothing else. */
  lemma PutAt(fields: seq<(string, Value)>, key: string, v: Value, i: nat)
    requires IndexOf(fields, key) == Some(i)
    ensures |Put(fields, key, v)| == |fields| && Put(fields, key, v)[i] == (key, v)
    ensures forall j :: 0 <= j < |fields| && j != i ==> Put(fields, key, v)[j] == fields[j]
  {
  }

  /**
   * After `hash[key] = v` the key reads `v`; an existing key keeps its
   * position, a new one is appended, and every other pair stays in place.
   */
  lemma PutSpec(fields: seq<(string, Value)>, key: string, v: Value)
    ensures IndexOf(fields, key).Some? ==> Keys(Put(fields, key, v)) == Keys(fields)
    ensures IndexOf(fields, key).None? ==> Put(fields, key, v) == fields + [(key, v)]
    ensures forall j :: 0 <= j < |fields| && fields[j].0 != key ==> Put(fields, key, v)[j] == fields[j]
    ensures Get(Put(fields, key, v), key) == v
  {
    var r := Put(fields, key, v);
    match IndexOf(fields, key)
    case Some(i) =>
      PutAt(fields, key, v, i);
      assert Keys(r) == Keys(fields);
      assert IndexOf(r, key) == Some(i);
    case None =>
      assert r[|fields|] == (key, v);
  }

  /**
   * `pairs.each_with_object({}) { |(key, val), hsh| hsh[key] = f(key, val) }`:
   * a fresh hash built pair by pair, stopping at the first pair `f` raises on.
   */
  function BuildHash<E>(pairs: seq<(string, Value)>, f: ((string, Value)) -> Result<Value, E>)
    : Result<seq<(string, Value)>, E>
    decreases |pairs|
  {
    if |pairs| == 0 then Ok([])
    else
      var acc :- BuildHash(pairs[..|pairs| - 1], f);
      var v :- f(pairs[|pairs| - 1]);
      Ok(Put(acc, pairs[|pairs| - 1].0, v))
  }

  /** The last pair is added only when the hash of the pairs before it was built and `f` succeeds on it. */
  lemma BuildHashLast<E>(pairs: seq<(string, Value)>, f: ((string, Value)) -> Result<Value, E>)
    requires |pairs| > 0
    ensures BuildHash(pairs, f).Ok?
        <==> BuildHash(pairs[..|pairs| - 1], f).Ok? && f(pairs[|pairs| - 1]).Ok?
  {
  }

  /** A hash that was built had `f` succeed on every pair. */
  lemma {:induction false} BuildHashOkAll<E>(pairs: seq<(string, Value)>, f: ((string, Value)) -> Result<Value, E>)
    requires BuildHash(pairs, f).Ok?
    ensures forall i :: 0 <= i < |pairs| ==> f(pairs[i]).Ok?
    decreases |pairs|
  {
    if |pairs| > 0 {
      var n := |pairs| - 1;
      var init := pairs[..n];
      BuildHashLast(pairs, f);
      BuildHashOkAll(init, f);
      forall i | 0 <= i < |pairs| ensures f(pairs[i]).Ok? {
        if i < n {
          assert init[i] == pairs[i];
        }
      }
    }
  }

  /** When `f` succeeds on every pair, the hash is built. */
  lemma {:induction false} BuildHashAllOk<E>(pairs: seq<(string, Value)>, f: ((string, Value)) -> Result<Value, E>)
    requires forall i :: 0 <= i < |pairs| ==> f(pairs[i]).Ok?
    ensures BuildHash(pairs, f).Ok?
    decreases |pairs|
  {
    if |pairs| > 0 {
      var n := |pairs| - 1;
      var init := pairs[..n];
      assert forall i :: 0 <= i < n ==> init[i] == pairs[i];
      BuildHashAllOk(init, f);
      BuildHashLast(pairs, f);
    }
  }

  /** Building the hash succeeds iff `f` succeeds on every pair. */
  lemma BuildHashOk<E>(pairs: seq<(string, Value)>, f: ((string, Value)) -> Result<Value, E>)
    ensures BuildHash(pairs, f).Ok? <==> forall i :: 0 <= i < |pairs| ==> f(pairs[i]).Ok?
  {
    if BuildHash(pairs, f).Ok? {
      BuildHashOkAll(pairs, f);
    } else if forall i :: 0 <= i < |pairs| ==> f(pairs[i]).Ok? {
      BuildHashAllOk(pairs, f);
    }
  }

  /** A key the hash built so far does not hold is appended with its new value. */
  lemma BuildHashAppend<E>(pairs: seq<(string, Value)>, f: ((string, Value)) -> Result<Value, E>)
    requires |pairs| > 0 && BuildHash(pairs[..|pairs| - 1], f).Ok? && f(pairs[|pairs| - 1]).Ok?
    requires IndexOf(BuildHash(pairs[..|pairs| - 1], f).value, pairs[|pairs| - 1].0).None?
    ensures BuildHash(pairs, f)
        == Ok(BuildHash(pairs[..|pairs| - 1], f).value + [(pairs[|pairs| - 1].0, f(pairs[|pairs| - 1]).value)])
  {
    PutSpec(BuildHash(pairs[..|pairs| - 1], f).value, pairs[|pairs| - 1].0, f(pairs[|pairs| - 1]).value);
  }

  /** From pairs with distinct keys, the built hash holds every key in order with its new value. */
  lemma {:induction false} BuildHashSpec<E>(pairs: seq<(string, Value)>, f: ((string, Value)) -> Result<Value, E>)
    requires UniqueKeys(pairs)
    requires BuildHash(pairs, f).Ok?
    ensures |BuildHash(pairs, f).value| == |pairs|
    ensures forall i :: 0 <= i < |pairs| ==>
      f(pairs[i]).Ok? && BuildHash(pairs, f).value[i] == (pairs[i].0, f(pairs[i]).value)
    decreases |pairs|
  {
    if |pairs| > 0 {
      var n := |pairs| - 1;
      var init := pairs[..n];
      BuildHashLast(pairs, f);
      assert UniqueKeys(init) by {
        forall i, j | 0 <= i < j < n ensures init[i].0 != init[j].0 {
          assert init[i] == pairs[i] && init[j] == pairs[j];
        }
      }
      BuildHashSpec(init, f);
      var acc := BuildHash(init, f).value;
      assert IndexOf(acc, pairs[n].0).None? by {
        forall j | 0 <= j < |acc| ensures acc[j].0 != pairs[n].0 {
          assert acc[j].0 == init[j].0 == pairs[j].0;
        }
      }
      BuildHashAppend(pairs, f);
      var out := acc + [(pairs[n].0, f(pairs[n]).value)];
      forall j | 0 <= j < |pairs|
        ensures f(pairs[j]).Ok? && out[j] == (pairs[j].0, f(pairs[j]).value)
      {
        if j < n {
          assert out[j] == acc[j];
          assert init[j] == pairs[j];
        }
      }
    }
  }

  /** Writing the value a key already holds leaves the hash as it was. */
  lemma PutSame(fields: seq<(string, Value)>, key: string, v: Value)
    requires IndexOf(fields, key).Some? && Get(fields, key) == v
    ensures Put(fields, key, v) == fields
  {
    var i := IndexOf(fields, key).value;
    assert fields[i] == (key, v);
    assert fields[..i] + [fields[i]] + fields[i + 1..] == fields;
  }

  /** Writing one key leaves every other key's value as it was. */
  lemma GetAfterPut(fields: seq<(string, Value)>, key: string, v: Value, other: string)
    requires other != key
    ensures Get(Put(fields, key, v), other) == Get(fields, other)
  {
    var r := Put(fields, key, v);
    PutSpec(fields, key, v);
    match IndexOf(fields, other)
    case None =>
      if IndexOf(fields, key).None? {
        assert r == fields + [(key, v)];
        assert forall j :: 0 <= j < |r| ==> r[j].0 != other;
      } else {
        assert Keys(r) == Keys(fields);
        assert forall j :: 0 <= j < |r| ==> r[j].0 == Keys(r)[j] == Keys(fields)[j] != other;
      }
    case Some(i) =>
      if IndexOf(fields, key).None? {
        assert r == fields + [(key, v)];
      } else {
        assert Keys(r) == Keys(fields);
        assert forall j :: 0 <= j < |r| ==> r[j].0 == Keys(r)[j] == Keys(fields)[j];
      }
      assert r[i] == fields[i];
      assert IndexOf(r, other) == Some(i);
  }
}
