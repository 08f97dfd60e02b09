/**
 * The discovery of fungible tokens on the Kadena chains: for each chain in turn, the
 * modules listed by the chain that are not yet stored are probed with a `get-balance`
 * call, and the stored list extended by those that answer is written back.
 */
module KadenaTokens {
  import opened Wrappers
  import opened Strings

  // ---- filtering ----

  /** `ts.filter(keep)`. */
  function Filter(ts: seq<string>, keep: string -> bool): (r: seq<string>)
    ensures forall t :: t in r <==> t in ts && keep(t)
    ensures |r| <= |ts|
  {
    if ts == [] then []
    else
      var rest, t := Filter(ts[..|ts| - 1], keep), ts[|ts| - 1];
      assert ts == ts[..|ts| - 1] + [t];
      if keep(t) then rest + [t] else rest
  }

  /** Filtering a concatenation filters each part, in order. */
  lemma {:induction false} FilterAppend(a: seq<string>, b: seq<string>, keep: string -> bool)
    ensures Filter(a + b, keep) == Filter(a, keep) + Filter(b, keep)
    decreases |b|
  {
    if b == [] {
      assert a + b == a;
    } else {
      var init := b[..|b| - 1];
      assert (a + b)[..|a + b| - 1] == a + init;
      assert (a + b)[|a + b| - 1] == b[|b| - 1];
      FilterAppend(a, init, keep);
    }
  }

  /** A kept token keeps every one of its occurrences; a dropped one has none. */
  lemma {:induction false} FilterCount(ts: seq<string>, keep: string -> bool, t: string)
    ensures multiset(Filter(ts, keep))[t] == if keep(t) then multiset(ts)[t] else 0
  {
    if ts != [] {
      var init, last := ts[..|ts| - 1], ts[|ts| - 1];
      FilterCount(init, keep, t);
      assert ts == init + [last];
    }
  }

  /** Nothing is kept when no token passes. */
  lemma {:induction false} FilterNone(ts: seq<string>, keep: string -> bool)
    requires forall i :: 0 <= i < |ts| ==> !keep(ts[i])
    ensures Filter(ts, keep) == []
  {
    if ts != [] {
      FilterNone(ts[..|ts| - 1], keep);
    }
  }

  /** Everything is kept when every token passes. */
  lemma {:induction false} FilterAll(ts: seq<string>, keep: string -> bool)
    requires forall i :: 0 <= i < |ts| ==> keep(ts[i])
    ensures Filter(ts, keep) == ts
  {
    if ts != [] {
      FilterAll(ts[..|ts| - 1], keep);
      assert ts == ts[..|ts| - 1] + [ts[|ts| - 1]];
    }
  }

  // ---- new tokens ----

  function NotStored(stored: seq<string>): string -> bool
  {
    t => t !in stored
  }

  /** `found.filter((t) => !storedTokens.includes(t))`. */
  function Difference(found: seq<string>, stored: seq<string>): seq<string>
  {
    Filter(found, NotStored(stored))
  }

  /**
   * The new tokens are the found ones that are not stored, each as often as it was found,
   * in the order found.
   */
  lemma NewTokens(found: seq<string>, stored: seq<string>, more: seq<string>)
    ensures forall t :: t in Difference(found, stored) <==> t in found && t !in stored
    ensures forall t :: multiset(Difference(found, stored))[t] == if t in stored then 0 else multiset(found)[t]
    ensures Difference(found + more, stored) == Difference(found, stored) + Difference(more, stored)
  {
    forall t ensures multiset(Difference(found, stored))[t] == if t in stored then 0 else multiset(found)[t] {
      FilterCount(found, NotStored(stored), t);
    }
    FilterAppend(found, more, NotStored(stored));
  }

  // ---- probing ----

  /**
   * The outcome of `(<token>.get-balance "k:alice")`: the call threw, or it answered with
   * a status and perhaps an error message.
   */
  datatype Probe = Threw | Answered(status: Option<string>, errorMessage: Option<string>)

  /** The token works: the call succeeded, or failed only because the account has no row. */
  predicate Passes(p: Probe)
  {
    p.Answered? && (p.status == Some("success") || (p.errorMessage.Some? && Contains(p.errorMessage.value, "row not found")))
  }

  /** The token answered, but not as a working token does. */
  predicate Fails(p: Probe)
  {
    p.Answered? && !Passes(p)
  }

  function PassesWith(probe: string -> Probe): string -> bool
  {
    t => Passes(probe(t))
  }

  function FailsWith(probe: string -> Probe): string -> bool
  {
    t => Fails(probe(t))
  }

  function ThrewWith(probe: string -> Probe): string -> bool
  {
    t => probe(t).Threw?
  }

  /** The new tokens that work, in order. */
  function Passing(ts: seq<string>, probe: string -> Probe): seq<string>
  {
    Filter(ts, PassesWith(probe))
  }

  /** The new tokens that answered but do not work, in order: `invalidChainTokens`. */
  function Failing(ts: seq<string>, probe: string -> Probe): seq<string>
  {
    Filter(ts, FailsWith(probe))
  }

  /** The new tokens whose probe threw: they land in neither list. */
  function Thrown(ts: seq<string>, probe: string -> Probe): seq<string>
  {
    Filter(ts, ThrewWith(probe))
  }

  /** Every new token works, fails or throws, exactly once. */
  lemma ProbePartition(ts: seq<string>, probe: string -> Probe)
    ensures multiset(Passing(ts, probe)) + multiset(Failing(ts, probe)) + multiset(Thrown(ts, probe)) == multiset(ts)
    ensures forall t :: t in Passing(ts, probe) <==> t in ts && Passes(probe(t))
    ensures forall t :: t in Failing(ts, probe) <==> t in ts && Fails(probe(t))
  {
    forall t ensures (multiset(Passing(ts, probe)) + multiset(Failing(ts, probe)) + multiset(Thrown(ts, probe)))[t] == multiset(ts)[t] {
      FilterCount(ts, PassesWith(probe), t);
      FilterCount(ts, FailsWith(probe), t);
      FilterCount(ts, ThrewWith(probe), t);
    }
  }

  /**
   * The `for` loop over the new tokens: `validChainTokens` starts as the stored list (it is
   * the same array) and gets each working token pushed; `invalidChainTokens` gets the others
   * that answered.
   */
  method ValidateTokens(storedTokens: seq<string>, difference: seq<string>, probe: string -> Probe)
    returns (validChainTokens: seq<string>, invalidChainTokens: seq<string>)
    ensures validChainTokens == storedTokens + Passing(difference, probe)
    ensures invalidChainTokens == Failing(difference, probe)
  {
    validChainTokens, invalidChainTokens := storedTokens, [];
    for i := 0 to |difference|
      invariant validChainTokens == storedTokens + Passing(difference[..i], probe)
      invariant invalidChainTokens == Failing(difference[..i], probe)
    {
      var token := difference[i];
      assert difference[..i + 1][..i] == difference[..i];
      assert difference[..i + 1][i] == token;
      var isTokenWorking := probe(token);
      if isTokenWorking.Threw? {
        // the error is caught and logged
      } else if Passes(isTokenWorking) {
        validChainTokens := validChainTokens + [token];
      } else {
        invalidChainTokens := invalidChainTokens + [token];
      }
    }
    assert difference[..|difference|] == difference;
  }

  // ---- one chain ----

  /**
   * What `updateKadenaTokens` writes for a chain, None when it writes nothing: the chain
   * listed no module (or the call threw), or every listed module is stored already.
   */
  function ChainWrite(found: Option<seq<string>>, stored: seq<string>, probe: string -> Probe): Option<seq<string>>
  {
    if found.None? || found.value == [] then None
    else
      var difference := Difference(found.value, stored);
      if difference == [] then None else Some(stored + Passing(difference, probe))
  }

  /** `updateKadenaTokens` for one chain, the listed modules and the stored list given. */
  method UpdateKadenaTokens(found: Option<seq<string>>, storedTokens: seq<string>, probe: string -> Probe)
    returns (written: Option<seq<string>>, invalidChainTokens: seq<string>)
    ensures written == ChainWrite(found, storedTokens, probe)
    ensures invalidChainTokens == if written.None? then [] else Failing(Difference(found.value, storedTokens), probe)
  {
    written, invalidChainTokens := None, [];
    if found.Some? && |found.value| > 0 {
      var difference := Difference(found.value, storedTokens);
      if |difference| > 0 {
        var validChainTokens;
        validChainTokens, invalidChainTokens := ValidateTokens(storedTokens, difference, probe);
        written := Some(validChainTokens);
      }
    }
  }

  /** A chain whose listed modules are all stored writes nothing. */
  lemma NothingNewNoWrite(found: Option<seq<string>>, stored: seq<string>, probe: string -> Probe)
    requires found.Some? ==> forall i :: 0 <= i < |found.value| ==> found.value[i] in stored
    ensures ChainWrite(found, stored, probe) == None
  {
    if found.Some? {
      FilterNone(found.value, NotStored(stored));
    }
  }

  /**
   * The written list starts with the stored list and adds exactly the new listed modules
   * that work, in the order listed.
   */
  lemma ChainWriteContents(found: seq<string>, stored: seq<string>, probe: string -> Probe)
    requires ChainWrite(Some(found), stored, probe).Some?
    ensures var w := ChainWrite(Some(found), stored, probe).value;
      && |stored| <= |w| && w[..|stored|] == stored
      && (forall t :: t in w[|stored|..] <==> t in found && t !in stored && Passes(probe(t)))
  {
    var w := ChainWrite(Some(found), stored, probe).value;
    NewTokens(found, stored, []);
    ProbePartition(Difference(found, stored), probe);
    assert w[|stored|..] == Passing(Difference(found, stored), probe);
  }

  /**
   * Running a chain again on what it wrote, with the same listing and the same probe
   * answers, writes the same list again or nothing.
   */
  lemma ChainWriteIdempotent(found: Option<seq<string>>, stored: seq<string>, probe: string -> Probe)
    requires ChainWrite(found, stored, probe).Some?
    ensures var w := ChainWrite(found, stored, probe).value;
      ChainWrite(found, w, probe) in {None, Some(w)}
  {
    var w := ChainWrite(found, stored, probe).value;
    var again := Difference(found.value, w);
    ChainWriteContents(found.value, stored, probe);
    forall i | 0 <= i < |again| ensures !PassesWith(probe)(again[i]) {
      var t := again[i];
      assert t in again;
      assert forall x :: x in w[|stored|..] ==> x in w;
    }
    FilterNone(again, PassesWith(probe));
    assert w + [] == w;
  }

  /** Once every new listed module works, a second run writes nothing. */
  lemma ChainWriteSettles(found: Option<seq<string>>, stored: seq<string>, probe: string -> Probe)
    requires ChainWrite(found, stored, probe).Some?
    requires forall t :: t in found.value && t !in stored ==> Passes(probe(t))
    ensures ChainWrite(found, ChainWrite(found, stored, probe).value, probe) == None
  {
    var w := ChainWrite(found, stored, probe).value;
    ChainWriteContents(found.value, stored, probe);
    forall i | 0 <= i < |found.value| ensures !NotStored(w)(found.value[i]) {
      var t := found.value[i];
      assert t in found.value;
      if t !in stored {
        assert t in w[|stored|..];
      }
    }
    FilterNone(found.value, NotStored(w));
  }

  /** A chain with nothing stored yet writes exactly its working listed modules, in order. */
  lemma FirstChainWrite(found: seq<string>, probe: string -> Probe)
    requires found != []
    ensures ChainWrite(Some(found), [], probe) == Some(Passing(found, probe))
  {
    FilterAll(found, NotStored([]));
    assert [] + Passing(found, probe) == Passing(found, probe);
  }

  // ---- the stored lists ----

  /**
   * `getStoredKadenaTokensByChain`: the chain's document, Err when reading it threw; the
   * `tokens` field, None when absent, parsed when it is a non-empty string, [] otherwise.
   */
  function StoredTokens(lookup: Result<Option<string>>, parse: string -> seq<string>): (r: seq<string>)
    ensures lookup.Err? ==> r == []
    ensures lookup.Ok? && (lookup.value.None? || lookup.value.value == "") ==> r == []
  {
    match lookup
    case Err(_) => []
    case Ok(None) => []
    case Ok(Some(tokens)) => if tokens != "" then parse(tokens) else []
  }

  /** A list written as a serialisation `parse` reverses, and never empty, is read back as written. */
  lemma StoredTokensRoundTrip(w: seq<string>, stringify: seq<string> -> string, parse: string -> seq<string>)
    requires forall l :: stringify(l) != "" && parse(stringify(l)) == l
    ensures StoredTokens(Ok(Some(stringify(w))), parse) == w
  {
    assert stringify(w) != "";
  }

  /** The stored list of a chain in the token collection, keyed by chain id, [] when absent. */
  function StoredOf(collection: map<nat, seq<string>>, chainId: nat): seq<string>
  {
    if chainId in collection then collection[chainId] else []
  }

  /** The updateOne upsert of a chain's list when there is one to write. */
  function Apply(collection: map<nat, seq<string>>, chainId: nat, written: Option<seq<string>>): map<nat, seq<string>>
  {
    match written
    case None => collection
    case Some(w) => collection[chainId := w]
  }

  /** The collection after chains 0 to n - 1 have run, one after the other. */
  function RunChains(collection: map<nat, seq<string>>, n: nat, found: nat -> Option<seq<string>>,
                     probe: nat -> string -> Probe): map<nat, seq<string>>
  {
    if n == 0 then collection
    else
      var before := RunChains(collection, n - 1, found, probe);
      Apply(before, n - 1, ChainWrite(found(n - 1), StoredOf(before, n - 1), probe(n - 1)))
  }

  /** An upsert on one chain leaves every other chain's document as it was. */
  lemma ApplyOther(collection: map<nat, seq<string>>, chainId: nat, written: Option<seq<string>>, c: nat)
    requires c != chainId
    ensures c in Apply(collection, chainId, written) <==> c in collection
    ensures StoredOf(Apply(collection, chainId, written), c) == StoredOf(collection, c)
  {
  }

  /**
   * A chain only ever touches its own document, so each chain sees the list stored before the
   * run: after chains 0 to n - 1, chain c holds what its own run wrote or what it had,
   * and chains from n on are untouched.
   */
  lemma {:induction false} RunChainsPerChain(collection: map<nat, seq<string>>, n: nat, found: nat -> Option<seq<string>>,
                                             probe: nat -> string -> Probe, c: nat)
    ensures c >= n ==> (c in RunChains(collection, n, found, probe) <==> c in collection)
    ensures c >= n ==> StoredOf(RunChains(collection, n, found, probe), c) == StoredOf(collection, c)
    ensures c < n ==> StoredOf(RunChains(collection, n, found, probe), c)
                      == ChainWrite(found(c), StoredOf(collection, c), probe(c)).GetOr(StoredOf(collection, c))
    ensures c < n ==> (c in RunChains(collection, n, found, probe)
                       <==> c in collection || ChainWrite(found(c), StoredOf(collection, c), probe(c)).Some?)
  {
    if n > 0 {
      var before := RunChains(collection, n - 1, found, probe);
      var k := n - 1;
      var written := ChainWrite(found(k), StoredOf(before, k), probe(k));
      assert RunChains(collection, n, found, probe) == Apply(before, k, written);
      RunChainsPerChain(collection, k, found, probe, c);
      if c != k {
        ApplyOther(before, k, written, c);
      } else {
        assert StoredOf(before, k) == StoredOf(collection, k);
      }
    }
  }

  /** `allKadenaTokenUpdate`: the chains one after the other, 0 to KADENA_CHAINS_COUNT - 1. */
  method AllKadenaTokenUpdate(collection: map<nat, seq<string>>, chainsCount: nat, found: nat -> Option<seq<string>>,
                              probe: nat -> string -> Probe)
    returns (after: map<nat, seq<string>>)
    ensures after == RunChains(collection, chainsCount, found, probe)
  {
    after := collection;
    for chainId := 0 to chainsCount
      invariant after == RunChains(collection, chainId, found, probe)
    {
      var written, _ := UpdateKadenaTokens(found(chainId), StoredOf(after, chainId), probe(chainId));
      after := Apply(after, chainId, written);
    }
  }
}
