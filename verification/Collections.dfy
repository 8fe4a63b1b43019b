/** Small shared vocabulary: optional values and sums over finite sets. */
module Collections {

  datatype Option<+T> = None | Some(value: T)

  /** Sequence facts that proofs name instead of leaving them to be found. */
  lemma Associate<T>(a: seq<T>, b: seq<T>, c: seq<T>)
    ensures (a + b) + c == a + (b + c)
  {
  }

  lemma HeadAndTail<T>(a: seq<T>, b: seq<T>)
    requires a != []
    ensures a + b != [] && (a + b)[0] == a[0] && (a + b)[1..] == a[1..] + b
  {
  }

  lemma TakeOneMore<T>(s: seq<T>, k: nat)
    requires k < |s|
    ensures s[..k + 1] == s[..k] + [s[k]]
  {
  }

  lemma JoinSlices<T>(s: seq<T>, a: nat, b: nat, c: nat)
    requires a <= b <= c <= |s|
    ensures s[a..b] + s[b..c] == s[a..c]
  {
  }

  lemma DropOne<T>(s: seq<T>, k: nat)
    requires k < |s|
    ensures s[k..] != [] && s[k..][0] == s[k] && s[k..][1..] == s[k + 1..]
  {
  }

  /** Sum of f over a finite set of keys. */
  ghost function SumOver<K>(f: map<K, int>, keys: set<K>): (total: int)
    requires keys <= f.Keys
  {
    if keys == {} then 0
    else
      var k :| k in keys;
      f[k] + SumOver(f, keys - {k})
  }

  /** The sum does not depend on which key is taken out first. */
  lemma {:induction false} SumOverPick<K>(f: map<K, int>, keys: set<K>, k: K)
    requires keys <= f.Keys && k in keys
    ensures SumOver(f, keys) == f[k] + SumOver(f, keys - {k})
    decreases |keys|
  {
    var j :| j in keys && SumOver(f, keys) == f[j] + SumOver(f, keys - {j});
    if j != k {
      SumOverPick(f, keys - {j}, k);
      SumOverPick(f, keys - {k}, j);
      assert keys - {j} - {k} == keys - {k} - {j};
    }
  }

  /** Maps that agree on the keys have the same sum. */
  lemma {:induction false} SumOverCongruent<K>(f: map<K, int>, g: map<K, int>, keys: set<K>)
    requires keys <= f.Keys && keys <= g.Keys
    requires forall k <- keys :: f[k] == g[k]
    ensures SumOver(f, keys) == SumOver(g, keys)
    decreases |keys|
  {
    if keys != {} {
      var k :| k in keys;
      SumOverPick(f, keys, k);
      SumOverPick(g, keys, k);
      SumOverCongruent(f, g, keys - {k});
    }
  }

  /** Keys that contribute nothing can be dropped from a sum. */
  lemma {:induction false} SumOverDropZeros<K>(f: map<K, int>, keys: set<K>, small: set<K>)
    requires small <= keys <= f.Keys
    requires forall k <- keys - small :: f[k] == 0
    ensures SumOver(f, keys) == SumOver(f, small)
    decreases |keys - small|
  {
    if keys - small == {} {
      assert keys == small;
    } else {
      var k :| k in keys - small;
      SumOverPick(f, keys, k);
      assert (keys - {k}) - small == (keys - small) - {k};
      SumOverDropZeros(f, keys - {k}, small);
    }
  }
}
