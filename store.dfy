/**
 * Keyed tables and key/value accumulators with "a later write replaces the whole
 * earlier value" semantics: a JavaScript `reduce` that does `p[key] = value`, and a
 * SQL `INSERT ... ON CONFLICT DO UPDATE SET` every column.
 */
module Store {

  /** `m` after writing every pair of `ps`, in order (`m[k] := v` for each `(k, v)`). */
  function Assoc<K, V>(m: map<K, V>, ps: seq<(K, V)>): map<K, V>
  {
    if ps == [] then m
    else Assoc(m, ps[..|ps| - 1])[ps[|ps| - 1].0 := ps[|ps| - 1].1]
  }

  /** The keys written by `ps`. */
  function KeysOf<K, V>(ps: seq<(K, V)>): set<K>
  {
    set i | 0 <= i < |ps| :: ps[i].0
  }

  /** Rows paired with their primary key, ready to be upserted. */
  function Keyed<K, V>(rows: seq<V>, key: V -> K): (ps: seq<(K, V)>)
    ensures |ps| == |rows|
    ensures forall i :: 0 <= i < |rows| ==> ps[i] == (key(rows[i]), rows[i])
  {
    seq(|rows|, i requires 0 <= i < |rows| => (key(rows[i]), rows[i]))
  }

  /** One more entry assigns its key. */
  lemma AssocSnoc<K, V>(m: map<K, V>, ps: seq<(K, V)>, x: (K, V))
    ensures Assoc(m, ps + [x]) == Assoc(m, ps)[x.0 := x.1]
  {
    assert (ps + [x])[..|ps|] == ps;
  }

  /** Writing pairs one by one is the same as laying their net effect over `m`. */
  lemma {:induction false} AssocOver<K, V>(m: map<K, V>, ps: seq<(K, V)>)
    ensures Assoc(m, ps) == m + Assoc(map[], ps)
  {
    if ps != [] {
      AssocOver(m, ps[..|ps| - 1]);
    }
  }

  /** The table holds exactly the old keys and the written ones. */
  lemma {:induction false} AssocKeys<K, V>(m: map<K, V>, ps: seq<(K, V)>)
    ensures Assoc(m, ps).Keys == m.Keys + KeysOf(ps)
  {
    if ps != [] {
      var init := ps[..|ps| - 1];
      AssocKeys(m, init);
      assert KeysOf(ps) == KeysOf(init) + {ps[|ps| - 1].0} by {
        forall k | k in KeysOf(ps) ensures k in KeysOf(init) + {ps[|ps| - 1].0} {
          var i :| 0 <= i < |ps| && ps[i].0 == k;
          if i < |ps| - 1 { assert init[i] == ps[i]; }
        }
        forall k | k in KeysOf(init) ensures k in KeysOf(ps) {
          var i :| 0 <= i < |init| && init[i].0 == k;
          assert ps[i] == init[i];
        }
      }
    }
  }

  /** The last write to a key decides its value. */
  lemma {:induction false} AssocLastWins<K, V>(m: map<K, V>, ps: seq<(K, V)>, i: nat)
    requires i < |ps|
    requires forall j :: i < j < |ps| ==> ps[j].0 != ps[i].0
    ensures ps[i].0 in Assoc(m, ps) && Assoc(m, ps)[ps[i].0] == ps[i].1
  {
    if i < |ps| - 1 {
      var init := ps[..|ps| - 1];
      assert init[i] == ps[i];
      AssocLastWins(m, init, i);
    }
  }

  /** A key that is never written keeps its old entry, or its absence. */
  lemma {:induction false} AssocUntouched<K, V>(m: map<K, V>, ps: seq<(K, V)>, k: K)
    requires forall j :: 0 <= j < |ps| ==> ps[j].0 != k
    ensures (k in Assoc(m, ps)) == (k in m)
    ensures k in m ==> Assoc(m, ps)[k] == m[k]
  {
    if ps != [] {
      AssocUntouched(m, ps[..|ps| - 1], k);
    }
  }

  /** Repeating the same writes changes nothing: a re-run of an upsert is idempotent. */
  lemma AssocIdempotent<K, V>(m: map<K, V>, ps: seq<(K, V)>)
    ensures Assoc(Assoc(m, ps), ps) == Assoc(m, ps)
  {
    var a := Assoc(map[], ps);
    AssocOver(m, ps);
    AssocOver(m + a, ps);
    assert (m + a) + a == m + a;
  }

  /** The `reduce((p, c) => { p[key] = value; return p }, {})` loop over `ps`. */
  method BuildMap<K, V>(ps: seq<(K, V)>) returns (p: map<K, V>)
    ensures p == Assoc(map[], ps)
  {
    p := map[];
    for i := 0 to |ps|
      invariant p == Assoc(map[], ps[..i])
    {
      assert ps[..i + 1][..i] == ps[..i];
      p := p[ps[i].0 := ps[i].1];
    }
    assert ps[..|ps|] == ps;
  }
}
