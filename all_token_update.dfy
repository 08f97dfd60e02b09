/**
 * The token table behind the cached token document: every token that appears on either
 * side of a configured pair, once, keyed by its code, without KDA's own `coin`.
 */
module AllTokenUpdate {
  import opened Js

  /** A token of the pair configuration: its code and the rest of its description. */
  datatype TokenDef = TokenDef(code: string, fields: Fields)

  /** A configured pair. */
  datatype PairDef = PairDef(token1: TokenDef, token2: TokenDef)

  /** The tokens of the pairs in the order they are looked at: token1, then token2, pair by pair. */
  function Flat(pairs: seq<PairDef>): (ts: seq<TokenDef>)
    ensures |ts| == 2 * |pairs|
    ensures forall i :: 0 <= i < |pairs| ==> ts[2 * i] == pairs[i].token1 && ts[2 * i + 1] == pairs[i].token2
  {
    if pairs == [] then []
    else
      var last := pairs[|pairs| - 1];
      Flat(pairs[..|pairs| - 1]) + [last.token1, last.token2]
  }

  /** `if (!(t.code in p)) p[t.code] = t`. */
  function Insert(p: map<string, TokenDef>, t: TokenDef): map<string, TokenDef>
  {
    if t.code in p then p else p[t.code := t]
  }

  /** The table after inserting `ts` in order, an earlier token keeping its code. */
  function Collect(ts: seq<TokenDef>): map<string, TokenDef>
  {
    if ts == [] then map[] else Insert(Collect(ts[..|ts| - 1]), ts[|ts| - 1])
  }

  /** The codes of a token sequence. */
  function Codes(ts: seq<TokenDef>): set<string>
  {
    set i | 0 <= i < |ts| :: ts[i].code
  }

  /** One more pair inserts its token1 and then its token2. */
  lemma CollectPair(pairs: seq<PairDef>, i: nat)
    requires i < |pairs|
    ensures Collect(Flat(pairs[..i + 1])) == Insert(Insert(Collect(Flat(pairs[..i])), pairs[i].token1), pairs[i].token2)
  {
    var before := Flat(pairs[..i]);
    assert pairs[..i + 1][..i] == pairs[..i];
    assert Flat(pairs[..i + 1]) == before + [pairs[i].token1, pairs[i].token2];
    assert (before + [pairs[i].token1, pairs[i].token2])[..|before| + 1] == before + [pairs[i].token1];
    assert (before + [pairs[i].token1])[..|before|] == before;
  }

  /** The reduce of `getAllTokens` and the removal of `coin`. */
  method GetAllTokens(pairs: seq<PairDef>) returns (allTokens: map<string, TokenDef>)
    ensures allTokens == Collect(Flat(pairs)) - {"coin"}
    ensures "coin" !in allTokens
  {
    var p: map<string, TokenDef> := map[];
    for i := 0 to |pairs|
      invariant p == Collect(Flat(pairs[..i]))
    {
      var token1, token2 := pairs[i].token1, pairs[i].token2;
      CollectPair(pairs, i);
      if !(token1.code in p) {
        p := p[token1.code := token1];
      }
      if !(token2.code in p) {
        p := p[token2.code := token2];
      }
    }
    assert pairs[..|pairs|] == pairs;
    allTokens := p - {"coin"};
  }

  /** The table holds exactly the codes that occur. */
  lemma {:induction false} CollectKeys(ts: seq<TokenDef>)
    ensures Collect(ts).Keys == Codes(ts)
  {
    if ts != [] {
      var init := ts[..|ts| - 1];
      CollectKeys(init);
      assert Codes(ts) == Codes(init) + {ts[|ts| - 1].code} by {
        forall k | k in Codes(ts) ensures k in Codes(init) + {ts[|ts| - 1].code} {
          var i :| 0 <= i < |ts| && ts[i].code == k;
          if i < |init| { assert init[i] == ts[i]; }
        }
        forall k | k in Codes(init) ensures k in Codes(ts) {
          var i :| 0 <= i < |init| && init[i].code == k;
          assert ts[i] == init[i];
        }
      }
    }
  }

  /** The token kept under a code is its first occurrence. */
  lemma {:induction false} CollectFirstWins(ts: seq<TokenDef>, i: nat)
    requires i < |ts|
    requires forall j :: 0 <= j < i ==> ts[j].code != ts[i].code
    ensures ts[i].code in Collect(ts) && Collect(ts)[ts[i].code] == ts[i]
  {
    var init := ts[..|ts| - 1];
    if i == |ts| - 1 {
      CollectKeys(init);
    } else {
      assert init[i] == ts[i];
      CollectFirstWins(init, i);
    }
  }

  /** Every token is kept under its own code. */
  lemma {:induction false} CollectCodes(ts: seq<TokenDef>)
    ensures forall k :: k in Collect(ts) ==> Collect(ts)[k].code == k
  {
    if ts != [] {
      CollectCodes(ts[..|ts| - 1]);
    }
  }

  /** The codes of the token1 and token2 of every pair. */
  function PairCodes(pairs: seq<PairDef>): set<string>
  {
    (set i | 0 <= i < |pairs| :: pairs[i].token1.code) + (set i | 0 <= i < |pairs| :: pairs[i].token2.code)
  }

  lemma CodesAppend(a: seq<TokenDef>, b: seq<TokenDef>)
    ensures Codes(a + b) == Codes(a) + Codes(b)
  {
    forall k | k in Codes(a + b) ensures k in Codes(a) + Codes(b) {
      var i :| 0 <= i < |a + b| && (a + b)[i].code == k;
      if i >= |a| { assert b[i - |a|] == (a + b)[i]; }
    }
    forall k | k in Codes(a) ensures k in Codes(a + b) {
      var i :| 0 <= i < |a| && a[i].code == k;
      assert (a + b)[i] == a[i];
    }
    forall k | k in Codes(b) ensures k in Codes(a + b) {
      var i :| 0 <= i < |b| && b[i].code == k;
      assert (a + b)[|a| + i] == b[i];
    }
  }

  lemma PairCodesSnoc(pairs: seq<PairDef>)
    requires pairs != []
    ensures PairCodes(pairs) == PairCodes(pairs[..|pairs| - 1]) + {pairs[|pairs| - 1].token1.code, pairs[|pairs| - 1].token2.code}
  {
    var init := pairs[..|pairs| - 1];
    forall k | k in PairCodes(pairs)
      ensures k in PairCodes(init) + {pairs[|pairs| - 1].token1.code, pairs[|pairs| - 1].token2.code}
    {
      var i :| 0 <= i < |pairs| && (pairs[i].token1.code == k || pairs[i].token2.code == k);
      if i < |init| { assert init[i] == pairs[i]; }
    }
    forall k | k in PairCodes(init) ensures k in PairCodes(pairs) {
      var i :| 0 <= i < |init| && (init[i].token1.code == k || init[i].token2.code == k);
      assert pairs[i] == init[i];
    }
  }

  /** The codes looked at are those of the token1 and token2 of every pair. */
  lemma {:induction false} FlatCodes(pairs: seq<PairDef>)
    ensures Codes(Flat(pairs)) == PairCodes(pairs)
  {
    if pairs != [] {
      var last := pairs[|pairs| - 1];
      FlatCodes(pairs[..|pairs| - 1]);
      CodesAppend(Flat(pairs[..|pairs| - 1]), [last.token1, last.token2]);
      PairCodesSnoc(pairs);
      var two := [last.token1, last.token2];
      assert Codes(two) == {last.token1.code, last.token2.code} by {
        assert two[0].code == last.token1.code && two[1].code == last.token2.code;
      }
    }
  }

  /**
   * The result of `getAllTokens`: its codes are those of some token1 or token2 except
   * `coin`, each under its own code, and the token kept for a code is the first one met
   * (token1 before token2, earlier pairs first).
   */
  lemma AllTokens(pairs: seq<PairDef>)
    ensures var ts := Flat(pairs); var r := Collect(ts) - {"coin"};
      && r.Keys == PairCodes(pairs) - {"coin"}
      && (forall k :: k in r ==> r[k].code == k)
      && (forall i :: (0 <= i < |ts| && ts[i].code != "coin" && forall j :: 0 <= j < i ==> ts[j].code != ts[i].code)
                      ==> ts[i].code in r && r[ts[i].code] == ts[i])
  {
    var ts := Flat(pairs);
    AllTokenKeys(pairs);
    CollectFirstAll(ts);
  }

  lemma AllTokenKeys(pairs: seq<PairDef>)
    ensures var r := Collect(Flat(pairs)) - {"coin"};
      && r.Keys == PairCodes(pairs) - {"coin"}
      && (forall k :: k in r ==> r[k].code == k)
  {
    var ts := Flat(pairs);
    CollectKeys(ts);
    CollectCodes(ts);
    FlatCodes(pairs);
  }

  lemma CollectFirstAll(ts: seq<TokenDef>)
    ensures forall i :: (0 <= i < |ts| && forall j :: 0 <= j < i ==> ts[j].code != ts[i].code)
                        ==> ts[i].code in Collect(ts) && Collect(ts)[ts[i].code] == ts[i]
  {
    forall i | 0 <= i < |ts| && forall j :: 0 <= j < i ==> ts[j].code != ts[i].code
      ensures ts[i].code in Collect(ts) && Collect(ts)[ts[i].code] == ts[i]
    {
      CollectFirstWins(ts, i);
    }
  }
}
