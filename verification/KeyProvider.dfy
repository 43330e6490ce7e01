/** The key provider of a node and the keys service behind it, which other nodes use as well. */
module KeyProvider {
  import opened Wrappers
  import opened KeyChain

  /** An id nobody uses yet. */
  function FreshId(keys: set<Id>, from: Id): (id: Id)
    ensures id >= from && id !in keys
    decreases |keys|
  {
    if from in keys then FreshId(keys - {from}, from + 1) else from
  }

  class KeyStore {
    const span: Span
    /** The random bytes of the keys to come. */
    const draws: nat -> Material
    var drawn: nat
    var chain: Option<Chain>
    var clock: nat
    /** The times at which other nodes create keys before each of the coming requests. */
    var others: seq<seq<nat>>

    ghost predicate Valid()
      reads this
    {
      GoodChain(span, chain, clock)
    }

    constructor (span: Span, draws: nat -> Material, others: seq<seq<nat>>)
      ensures Valid() && chain.None? && clock == 0
    {
      this.span, this.draws, this.others := span, draws, others;
      drawn, chain, clock := 0, None, 0;
    }

    /** The key is written at the time it is issued. */
    method NewKey()
      requires Valid()
      modifies this
      ensures Valid() && Grown(old(chain), chain) && clock == old(clock)
      ensures chain.Some? && chain.value.keys[chain.value.standard] == Entry(draws(old(drawn)), clock, clock + span)
      ensures chain.value.keys.Keys
        == (if old(chain).Some? then old(chain).value.keys.Keys else {}) + {chain.value.standard}
      ensures old(chain).Some? ==> chain.value.standard !in old(chain).value.keys
      ensures others == old(others)
    {
      var id := FreshId(if chain.Some? then chain.value.keys.Keys else {}, 0);
      var keys: map<Id, Entry> := map[];
      if chain.Some? {
        keys := chain.value.keys;
      }
      chain := Some(Chain(id, keys[id := Entry(draws(drawn), clock, clock + span)]));
      drawn := drawn + 1;
    }

    /** What happens while a request is under way. */
    method LetOthers()
      requires Valid()
      modifies this
      ensures Valid() && Grown(old(chain), chain) && old(clock) <= clock
    {
      if others == [] {
        return;
      }
      var times := others[0];
      others := others[1..];
      var i := 0;
      while i < |times|
        invariant i <= |times| && Valid() && Grown(old(chain), chain) && old(clock) <= clock
      {
        if clock < times[i] {
          clock := times[i];
        }
        label before:
        NewKey();
        Transitive(old(chain), old@before(chain), chain);
        i := i + 1;
      }
    }

    method ReadKeys() returns (result: Option<Chain>)
      requires Valid()
      modifies this
      ensures Valid() && result == chain && Grown(old(chain), chain) && old(clock) <= clock
    {
      LetOthers();
      result := chain;
    }
  }

  lemma Transitive(a: Option<Chain>, b: Option<Chain>, c: Option<Chain>)
    requires Grown(a, b) && Grown(b, c)
    ensures Grown(a, c)
  {
  }

  class KeysServiceAccess {
    const store: KeyStore
    var cache: Option<Chain>

    ghost predicate Valid()
      reads this, store
    {
      store.Valid() && (cache.Some? ==> Within(cache.value, store.chain))
    }

    constructor (store: KeyStore)
      requires store.Valid()
      ensures Valid() && this.store == store && cache.None?
    {
      this.store, cache := store, None;
    }

    /** Fills the cache with everything issued so far, after replacing the default key if asked to. */
    method RefreshCache(rotate: bool)
      requires Valid()
      modifies this, store
      ensures Valid() && Grown(old(store.chain), store.chain) && old(store.clock) <= store.clock
      ensures cache.Some? && cache == store.chain
      ensures rotate ==> Young(cache.value, Rotated(old(store.clock)))
      decreases if rotate then 2 else if store.chain.None? then 1 else 0
    {
      var result: Option<Chain> := None;
      if !rotate {
        result := store.ReadKeys();
      }
      if result.None? || rotate {
        store.LetOthers();
        label created:
        store.NewKey();
        ghost var made := store.chain;
        assert GoodChain(store.span, made, store.clock);
        RefreshCache(false);
        assert Grown(made, cache);
      } else {
        cache := result;
      }
    }

    /** The key asked for, or the default key; `checked` is when its expiry was looked at. */
    method GetKey(wanted: Option<Id>) returns (key: Option<(Id, Material)>, ghost checked: nat)
      requires Valid()
      modifies this, store
      ensures Valid() && Grown(old(store.chain), store.chain) && old(store.clock) <= checked <= store.clock
      ensures var issued := wanted.Some? && old(store.chain).Some? && wanted.value in old(store.chain).value.keys;
        GoodHanded(store.chain, Handed(Request(0, wanted, issued), key, checked))
    {
      if cache.None? || (wanted.Some? && wanted.value !in cache.value.keys) {
        RefreshCache(false);
      }
      checked := store.clock;
      label refreshed:
      if wanted.None? && cache.value.standard in cache.value.keys
        && cache.value.keys[cache.value.standard].exp < store.clock {
        RefreshCache(true);
        Transitive(old(store.chain), old@refreshed(store.chain), store.chain);
      }
      key := Lookup(cache.value, wanted);
    }
  }
}
