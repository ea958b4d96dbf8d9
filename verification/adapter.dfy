// The bus in front of a connector: name maps for its ingresses and egresses, and metadata conversion
// (internal/router/adapter.go:12-117).
module Adapter {
  import opened Prelude
  import opened Pipeline
  import opened Bank
  import opened Router

  // ---------- Metadata conversion; None is Go's nil map ----------

  method ToAnyMap(m: Option<map<string, string>>) returns (r: Option<Meta>)
    ensures m.None? ==> r.None?
    ensures m.Some? ==> r == Arrived(Delivery([], m.value)).meta
  {
    if m.None? {
      return None;
    }
    var out: Meta := map[];
    var keys := m.value.Keys;
    while keys != {}
      invariant keys <= m.value.Keys
      invariant out == map k | k in m.value && k !in keys :: Str(m.value[k])
    {
      var k :| k in keys;
      out := out[k := Str(m.value[k])];
      keys := keys - {k};
    }
    assert out == map k | k in m.value :: Str(m.value[k]);
    r := Some(out);
  }

  method ToStringMap(m: Option<Meta>) returns (r: Option<map<string, string>>)
    ensures m.None? ==> r.None?
    ensures m.Some? ==> r == Some(Body(Message([], m)).meta)
  {
    if m.None? {
      return None;
    }
    var out: map<string, string> := map[];
    var keys := m.value.Keys;
    while keys != {}
      invariant keys <= m.value.Keys
      invariant out == map k | k in m.value && k !in keys :: AnyText(m.value[k])
    {
      var k :| k in keys;
      out := out[k := AnyText(m.value[k])];
      keys := keys - {k};
    }
    assert out == map k | k in m.value :: AnyText(m.value[k]);
    r := Some(out);
  }

  /** There and back again: a string map comes out of the router as it went in. */
  method MetaRoundTrip(m: Option<map<string, string>>) returns (r: Option<map<string, string>>)
    ensures r == m
  {
    var any := ToAnyMap(m);
    r := ToStringMap(any);
    if m.Some? {
      assert any == Arrived(Delivery([], m.value)).meta;
      assert r == Some(Body(Message([], any)).meta);
      assert r.value == m.value;
    }
  }

  // ---------- Name maps ----------

  /** Entry i is the last of the list that carries its name. */
  ghost predicate IsLast<T>(xs: seq<(string, T)>, i: nat) {
    i < |xs| && forall k :: i < k < |xs| ==> xs[k].0 != xs[i].0
  }

  /** A map holding, for each name that occurs in the list, the value of its last entry, and nothing else. */
  ghost predicate Indexes<T(!new)>(m: map<string, T>, xs: seq<(string, T)>) {
    && (forall i: nat :: IsLast(xs, i) ==> xs[i].0 in m && m[xs[i].0] == xs[i].1)
    && (forall name :: name in m ==> exists i: nat :: IsLast(xs, i) && xs[i].0 == name)
  }

  /** The last entry of a list that carries a name. */
  function LastNamed<T>(xs: seq<(string, T)>, name: string): Option<T> {
    if xs == [] then None
    else if xs[|xs| - 1].0 == name then Some(xs[|xs| - 1].1)
    else LastNamed(xs[..|xs| - 1], name)
  }

  lemma {:induction false} LastNamedIs<T>(xs: seq<(string, T)>, i: nat)
    requires IsLast(xs, i)
    ensures LastNamed(xs, xs[i].0) == Some(xs[i].1)
  {
    if i < |xs| - 1 {
      assert IsLast(xs[..|xs| - 1], i);
      LastNamedIs(xs[..|xs| - 1], i);
    }
  }

  lemma {:induction false} LastNamedFound<T>(xs: seq<(string, T)>, name: string) returns (i: nat)
    requires exists k :: 0 <= k < |xs| && xs[k].0 == name
    ensures IsLast(xs, i) && xs[i].0 == name
  {
    i := |xs| - 1;
    if xs[i].0 != name {
      assert exists k :: 0 <= k < |xs[..i]| && xs[..i][k].0 == name;
      i := LastNamedFound(xs[..i], name);
    }
  }

  /** Looking a name up in an index is looking for its last entry. */
  lemma IndexedIsLast<T(!new)>(m: map<string, T>, xs: seq<(string, T)>, name: string)
    requires Indexes(m, xs)
    ensures LastNamed(xs, name) == if name in m then Some(m[name]) else None
  {
    FoundIsNamed(xs, name);
    if exists k :: 0 <= k < |xs| && xs[k].0 == name {
      var i := LastNamedFound(xs, name);
      LastNamedIs(xs, i);
    }
  }

  /** An entry whose name nobody else carries is the one the lookup finds. */
  lemma UniqueIsFound<T>(xs: seq<(string, T)>, i: nat)
    requires i < |xs| && forall k :: 0 <= k < |xs| && k != i ==> xs[k].0 != xs[i].0
    ensures LastNamed(xs, xs[i].0) == Some(xs[i].1)
  {
    LastNamedIs(xs, i);
  }

  lemma {:induction false} FoundIsNamed<T>(xs: seq<(string, T)>, name: string)
    ensures LastNamed(xs, name).Some? <==> exists k :: 0 <= k < |xs| && xs[k].0 == name
    ensures LastNamed(xs, name).Some? ==> (name, LastNamed(xs, name).value) in xs
  {
    if xs != [] {
      var n := |xs| - 1;
      FoundIsNamed(xs[..n], name);
      assert xs == xs[..n] + [xs[n]];
      assert forall k :: 0 <= k < n ==> xs[..n][k] == xs[k];
    }
  }

  /** Entering the next entry of the list in the map. */
  lemma IndexMore<T(!new)>(m: map<string, T>, xs: seq<(string, T)>, i: nat)
    requires i < |xs| && Indexes(m, xs[..i])
    ensures Indexes(m[xs[i].0 := xs[i].1], xs[..i + 1])
  {
    var ys, m' := xs[..i + 1], m[xs[i].0 := xs[i].1];
    forall k: nat | IsLast(ys, k) ensures ys[k].0 in m' && m'[ys[k].0] == ys[k].1 {
      LastInLonger(xs, i, k);
    }
    forall name | name in m' ensures exists k: nat :: IsLast(ys, k) && ys[k].0 == name {
      if name == xs[i].0 {
        LastInLonger(xs, i, i);
      } else {
        var k: nat :| IsLast(xs[..i], k) && xs[..i][k].0 == name;
        LastInLonger(xs, i, k);
      }
    }
  }

  lemma IndexAppend<T(!new)>(m: map<string, T>, xs: seq<(string, T)>, name: string, value: T)
    requires Indexes(m, xs)
    ensures Indexes(m[name := value], xs + [(name, value)])
  {
    var ys := xs + [(name, value)];
    assert ys[..|xs|] == xs && ys[..|xs| + 1] == ys;
    IndexMore(m, ys, |xs|);
  }

  lemma LastInLonger<T>(xs: seq<(string, T)>, i: nat, k: nat)
    requires i < |xs|
    ensures IsLast(xs[..i + 1], k) <==> k == i || (IsLast(xs[..i], k) && xs[k].0 != xs[i].0)
  {
  }

  /** Fills a name map; a later entry replaces an earlier one of the same name. */
  method NameMap<T(!new)>(xs: seq<(string, T)>) returns (m: map<string, T>)
    ensures Indexes(m, xs)
  {
    m := map[];
    for i := 0 to |xs|
      invariant Indexes(m, xs[..i])
    {
      IndexMore(m, xs, i);
      m := m[xs[i].0 := xs[i].1];
    }
    assert xs[..|xs|] == xs;
  }
}
