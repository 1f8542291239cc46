/** The part of the WHATWG `URLSearchParams` interface the query builders use: an ordered
    list of name/value pairs, `set`, `append` and `get`. The names are drawn from a type `K`
    with equality; the query builders use a datatype of the fixed parameter names they send,
    each standing for its literal name (`QueryNames.Name`). Serialisation to a query string
    (percent-encoding) is not modelled. */
module UrlQuery {
  import opened Wrappers

  type Pair<K> = (K, string)

  /** Position of the first pair named `name`. */
  function FirstIndex<K(==)>(ps: seq<Pair<K>>, name: K): (r: Option<nat>)
    ensures r.None? <==> forall i :: 0 <= i < |ps| ==> ps[i].0 != name
    ensures r.Some? ==> (r.value < |ps| && ps[r.value].0 == name
                         && forall j :: 0 <= j < r.value ==> ps[j].0 != name)
    decreases |ps|
  {
    if ps == [] then None
    else if ps[0].0 == name then Some(0)
    else match FirstIndex(ps[1..], name)
      case None => None
      case Some(i) => Some(i + 1)
  }

  /** `get(name)`: the value of the first pair with that name, if any. */
  function Get<K(==)>(ps: seq<Pair<K>>, name: K): (r: Option<string>)
    ensures r.None? <==> forall i :: 0 <= i < |ps| ==> ps[i].0 != name
    ensures r.Some? ==> exists i :: 0 <= i < |ps| && ps[i] == (name, r.value)
                                    && forall j :: 0 <= j < i ==> ps[j].0 != name
  {
    match FirstIndex(ps, name)
    case None => None
    case Some(i) => Some(ps[i].1)
  }

  /** The pairs whose name is not `name`, in order. */
  function RemoveAll<K(==)>(ps: seq<Pair<K>>, name: K): (r: seq<Pair<K>>)
    ensures forall i :: 0 <= i < |r| ==> r[i].0 != name
    ensures forall i :: 0 <= i < |r| ==> r[i] in ps
    decreases |ps|
  {
    if ps == [] then []
    else if ps[0].0 == name then RemoveAll(ps[1..], name)
    else [ps[0]] + RemoveAll(ps[1..], name)
  }

  /** How many pairs are named `name`. */
  function CountKey<K(==)>(ps: seq<Pair<K>>, name: K): nat
    decreases |ps|
  {
    if ps == [] then 0 else (if ps[0].0 == name then 1 else 0) + CountKey(ps[1..], name)
  }

  /** `set(name, value)`: the first pair named `name` takes the new value and the later
      ones are removed; with no such pair, the new pair is appended. */
  function SetPairs<K(==)>(ps: seq<Pair<K>>, name: K, value: string): (r: seq<Pair<K>>)
    ensures FirstIndex(ps, name).None? ==> r == ps + [(name, value)]
  {
    match FirstIndex(ps, name)
    case None => ps + [(name, value)]
    case Some(i) => ps[..i] + [(name, value)] + RemoveAll(ps[i + 1..], name)
  }

  /** Every name occurs at most once. */
  predicate DistinctKeys<K(==)>(ps: seq<Pair<K>>) {
    forall i, j :: 0 <= i < j < |ps| ==> ps[i].0 != ps[j].0
  }

  lemma {:induction false} CountKeyAppend<K>(ps: seq<Pair<K>>, qs: seq<Pair<K>>, name: K)
    ensures CountKey(ps + qs, name) == CountKey(ps, name) + CountKey(qs, name)
    decreases |ps|
  {
    if ps == [] {
      assert ps + qs == qs;
    } else {
      assert (ps + qs)[1..] == ps[1..] + qs;
      CountKeyAppend(ps[1..], qs, name);
    }
  }

  lemma {:induction false} CountKeyAbsent<K>(ps: seq<Pair<K>>, name: K)
    requires forall i :: 0 <= i < |ps| ==> ps[i].0 != name
    ensures CountKey(ps, name) == 0
    decreases |ps|
  {
    if ps != [] {
      CountKeyAbsent(ps[1..], name);
    }
  }

  /** After `set`, `get` of that name gives the new value, and the name occurs exactly once. */
  lemma SetThenGet<K>(ps: seq<Pair<K>>, name: K, value: string)
    ensures Get(SetPairs(ps, name, value), name) == Some(value)
    ensures CountKey(SetPairs(ps, name, value), name) == 1
  {
    var r := SetPairs(ps, name, value);
    match FirstIndex(ps, name)
    case None =>
      FirstIndexAt(r, name, |ps|);
      CountKeyAbsent(ps, name);
      CountKeyAppend(ps, [(name, value)], name);
    case Some(i) =>
      var rest := RemoveAll(ps[i + 1..], name);
      assert r == ps[..i] + ([(name, value)] + rest);
      FirstIndexAt(r, name, i);
      CountKeyAbsent(ps[..i], name);
      CountKeyAbsent(rest, name);
      CountKeyAppend(ps[..i], [(name, value)], name);
      CountKeyAppend(ps[..i] + [(name, value)], rest, name);
  }

  /** `get` looks at the first pair, then at the rest. */
  lemma GetCons<K>(ps: seq<Pair<K>>, name: K)
    requires ps != []
    ensures Get(ps, name) == if ps[0].0 == name then Some(ps[0].1) else Get(ps[1..], name)
  {
  }

  lemma {:induction false} GetRemoveOther<K>(ps: seq<Pair<K>>, name: K, other: K)
    requires other != name
    ensures Get(RemoveAll(ps, name), other) == Get(ps, other)
    decreases |ps|
  {
    if ps != [] {
      GetRemoveOther(ps[1..], name, other);
      GetCons(ps, other);
      if ps[0].0 != name {
        var r := RemoveAll(ps, name);
        assert r == [ps[0]] + RemoveAll(ps[1..], name);
        assert r[1..] == RemoveAll(ps[1..], name);
        GetCons(r, other);
      }
    }
  }

  lemma {:induction false} GetAppend<K>(ps: seq<Pair<K>>, qs: seq<Pair<K>>, other: K)
    ensures Get(ps + qs, other) == if Get(ps, other).Some? then Get(ps, other) else Get(qs, other)
    decreases |ps|
  {
    if ps == [] {
      assert ps + qs == qs;
    } else {
      assert (ps + qs)[1..] == ps[1..] + qs;
      GetAppend(ps[1..], qs, other);
      GetCons(ps, other);
      GetCons(ps + qs, other);
    }
  }

  /** A pair with another name is invisible to `get`. */
  lemma GetSkip<K>(ps: seq<Pair<K>>, p: Pair<K>, qs: seq<Pair<K>>, other: K)
    requires p.0 != other
    ensures Get(ps + [p] + qs, other) == Get(ps + qs, other)
  {
    assert ps + [p] + qs == ps + ([p] + qs);
    GetAppend(ps, [p] + qs, other);
    GetAppend(ps, qs, other);
    GetCons([p] + qs, other);
    assert ([p] + qs)[1..] == qs;
  }

  /** Lists that agree under `get` still agree behind a common front. */
  lemma GetBehind<K>(front: seq<Pair<K>>, xs: seq<Pair<K>>, ys: seq<Pair<K>>, other: K)
    requires Get(xs, other) == Get(ys, other)
    ensures Get(front + xs, other) == Get(front + ys, other)
  {
    GetAppend(front, xs, other);
    GetAppend(front, ys, other);
  }

  /** `set` changes nothing that `get` tells about any other name. */
  lemma SetLeavesOthers<K>(ps: seq<Pair<K>>, name: K, value: string, other: K)
    requires other != name
    ensures Get(SetPairs(ps, name, value), other) == Get(ps, other)
  {
    match FirstIndex(ps, name)
    case None =>
      GetAppend(ps, [(name, value)], other);
    case Some(i) =>
      var front, rest := ps[..i], ps[i + 1..];
      assert Get(SetPairs(ps, name, value), other) == Get(front + RemoveAll(rest, name), other) by {
        GetSkip(front, (name, value), RemoveAll(rest, name), other);
      }
      assert Get(front + RemoveAll(rest, name), other) == Get(front + rest, other) by {
        GetRemoveOther(rest, name, other);
        GetBehind(front, RemoveAll(rest, name), rest, other);
      }
      assert Get(ps, other) == Get(front + rest, other) by {
        assert ps == front + [ps[i]] + rest;
        GetSkip(front, ps[i], rest, other);
      }
  }

  /** `set` keeps names distinct. */
  lemma SetKeepsDistinct<K>(ps: seq<Pair<K>>, name: K, value: string)
    requires DistinctKeys(ps)
    ensures DistinctKeys(SetPairs(ps, name, value))
  {
    match FirstIndex(ps, name)
    case None =>
    case Some(i) =>
      SetInPlace(ps, name, value, i);
      SameKeysDistinct(ps, SetPairs(ps, name, value));
  }

  /** On distinct names, `set` of a present name overwrites that pair in place. */
  lemma SetInPlace<K>(ps: seq<Pair<K>>, name: K, value: string, i: nat)
    requires DistinctKeys(ps) && FirstIndex(ps, name) == Some(i)
    ensures |SetPairs(ps, name, value)| == |ps|
    ensures forall k :: 0 <= k < |ps| ==> SetPairs(ps, name, value)[k].0 == ps[k].0
  {
    var rest := ps[i + 1..];
    NoneLater(ps, name, i, rest);
    RemoveNothing(rest, name);
    OverwriteKeys(ps[..i], (name, value), rest, ps);
  }

  lemma NoneLater<K>(ps: seq<Pair<K>>, name: K, i: nat, rest: seq<Pair<K>>)
    requires DistinctKeys(ps) && i < |ps| && ps[i].0 == name && rest == ps[i + 1..]
    ensures forall k :: 0 <= k < |rest| ==> rest[k].0 != name
  {
    forall k | 0 <= k < |rest| ensures rest[k].0 != name {
      assert rest[k] == ps[i + 1 + k];
    }
  }

  lemma OverwriteKeys<K>(front: seq<Pair<K>>, p: Pair<K>, back: seq<Pair<K>>, ps: seq<Pair<K>>)
    requires |ps| == |front| + 1 + |back| && ps[|front|].0 == p.0
    requires front == ps[..|front|] && back == ps[|front| + 1..]
    ensures |front + [p] + back| == |ps|
    ensures forall k :: 0 <= k < |ps| ==> (front + [p] + back)[k].0 == ps[k].0
  {
  }

  lemma SameKeysDistinct<K>(ps: seq<Pair<K>>, r: seq<Pair<K>>)
    requires DistinctKeys(ps) && |r| == |ps|
    requires forall k :: 0 <= k < |ps| ==> r[k].0 == ps[k].0
    ensures DistinctKeys(r)
  {
  }

  lemma FirstIndexAt<K>(ps: seq<Pair<K>>, name: K, i: nat)
    requires i < |ps| && ps[i].0 == name
    requires forall j :: 0 <= j < i ==> ps[j].0 != name
    ensures FirstIndex(ps, name) == Some(i)
  {
    match FirstIndex(ps, name)
    case None =>
    case Some(k) =>
      assert !(k < i) && !(i < k);
  }

  lemma {:induction false} RemoveNothing<K>(ps: seq<Pair<K>>, name: K)
    requires forall k :: 0 <= k < |ps| ==> ps[k].0 != name
    ensures RemoveAll(ps, name) == ps
    decreases |ps|
  {
    if ps != [] {
      RemoveNothing(ps[1..], name);
      assert ps == [ps[0]] + ps[1..];
    }
  }

  /** `append` adds one more pair with that name at the end, whatever is already there. */
  lemma AppendCount<K>(ps: seq<Pair<K>>, name: K, value: string)
    ensures CountKey(ps + [(name, value)], name) == CountKey(ps, name) + 1
  {
    CountKeyAppend(ps, [(name, value)], name);
  }

  /** A `URLSearchParams` object. */
  class SearchParams<K(==)> {
    var pairs: seq<Pair<K>>

    /** `new URLSearchParams()`. */
    constructor()
      ensures pairs == []
    {
      pairs := [];
    }

    method Set(name: K, value: string)
      modifies this
      ensures pairs == SetPairs(old(pairs), name, value)
    {
      pairs := SetPairs(pairs, name, value);
    }

    method Append(name: K, value: string)
      modifies this
      ensures pairs == old(pairs) + [(name, value)]
    {
      pairs := pairs + [(name, value)];
    }
  }
}
