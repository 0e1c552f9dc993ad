/**
 Generic facts about renaming keys and restricting dicts. The wire dicts of the
 client are keyed by long composed strings; reasoning about them through an
 abstract injective key-naming function keeps the string contents out of the
 proofs.
 */
module Collections {

  /** The names of a set of keys. */
  function Image<K, N>(ks: set<K>, name: K -> N): set<N>
  {
    set x | x in ks :: name(x)
  }

  /** `{k: m[k] for k in ks if k in m}` */
  function Restrict<K, V>(m: map<K, V>, ks: set<K>): (r: map<K, V>)
    ensures r.Keys == ks * m.Keys
    ensures forall k | k in r :: r[k] == m[k]
  {
    map k | k in ks && k in m :: m[k]
  }

  /** A dict whose keys are the names of `ks` and that agrees with `m` on every
      one of them is `m` restricted to those names. */
  lemma RestrictOfImage<K, N, V>(r: map<N, V>, m: map<N, V>, ks: set<K>, name: K -> N)
    requires r.Keys == Image(ks, name)
    requires forall x | x in ks :: name(x) in m && name(x) in r && r[name(x)] == m[name(x)]
    ensures r == Restrict(m, Image(ks, name))
  {
    var t := Restrict(m, Image(ks, name));
    forall k | k in r ensures k in t && r[k] == t[k] {
      var x :| x in ks && name(x) == k;
    }
    assert r.Keys == t.Keys;
  }

  /** An injective naming keeps the number of keys. */
  lemma {:induction false} ImageCard<K, N>(ks: set<K>, name: K -> N)
    requires forall x, y | x in ks && y in ks && name(x) == name(y) :: x == y
    ensures |Image(ks, name)| == |ks|
    decreases |ks|
  {
    if ks != {} {
      var x :| x in ks;
      var rest := ks - {x};
      ImageCard(rest, name);
      assert Image(ks, name) == Image(rest, name) + {name(x)};
    } else {
      assert Image(ks, name) == {};
    }
  }
}
