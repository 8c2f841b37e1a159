/** `robotStore` and `robotRetrieve` (scripts/impersonate.js, lines 45-62):
    one chain per user, persisted in the chat host's brain under a key derived
    from the user id and cached in memory after its first use. Here they are
    functions of the cache and the brain; the class in impersonator.dfy runs
    them on its own fields. */
module ModelStore {
  import opened Types
  import opened Configuration
  import opened Markov

  /** A value stored in the brain: either what `robotStore` wrote, or
      anything else, which `msgpack.unpack` does not turn into an object. */
  datatype Blob = Packed(snapshot: Snapshot) | Foreign

  type Brain = map<string, Blob>

  type Cache = map<UserId, Chain>

  const KeyPrefix: string := "impersonateMarkov-"

  /** The brain key of a user's chain. */
  function Key(u: UserId): (k: string)
    ensures |k| == |KeyPrefix| + |u|
    ensures k[..|KeyPrefix|] == KeyPrefix && k[|KeyPrefix|..] == u
  {
    KeyPrefix + u
  }

  /** Distinct users never share a key: the second half of `Key`'s contract
      recovers the user. */
  lemma KeyInjective(u: UserId, v: UserId)
    requires Key(u) == Key(v)
    ensures u == v
  {
  }

  /** The chain settings the configuration asks for. */
  function SettingsOf(cfg: Config): Settings
  {
    Settings(cfg.minWords, cfg.caseSensitive, cfg.stripPunctuation)
  }

  /** `msgpack.unpack(brain.get(key) || '')` kept only when it is an object,
      and `{}` otherwise. */
  function Unpack(brain: Brain, key: string): (s: Snapshot)
    ensures key in brain && brain[key].Packed? ==> s == brain[key].snapshot
    ensures key !in brain || brain[key].Foreign? ==> s.learnt == []
  {
    if key in brain && brain[key].Packed? then brain[key].snapshot else Snapshot([])
  }

  /** The chain built from the brain when the cache has none for `u`: what was
      stored under the user's key if that decodes, and an empty chain if the
      key is absent or holds something else. */
  function Load(s: Settings, brain: Brain, u: UserId): (c: Chain)
    ensures c.settings == s
    ensures Key(u) in brain && brain[Key(u)].Packed? ==> Export(c) == brain[Key(u)].snapshot
    ensures !(Key(u) in brain && brain[Key(u)].Packed?) ==> c == New(s)
  {
    Imported(s, Unpack(brain, Key(u)))
  }

  datatype Retrieved = Retrieved(chain: Chain, cache: Cache)

  /** `robotRetrieve`: the cached chain if there is one, otherwise the loaded
      one, which is added to the cache. */
  function Retrieve(s: Settings, cache: Cache, brain: Brain, u: UserId): (r: Retrieved)
    ensures u in r.cache && r.cache[u] == r.chain
    ensures r.cache.Keys == cache.Keys + {u}
    ensures forall v :: v in cache ==> r.cache[v] == cache[v]
    ensures u in cache ==> r.chain == cache[u]
    ensures u !in cache ==> r.chain == Load(s, brain, u)
  {
    if u in cache then Retrieved(cache[u], cache)
    else
      var m := Load(s, brain, u);
      Retrieved(m, cache[u := m])
  }

  /** Once a chain has been retrieved, retrieving it again gives the same
      chain, leaves the cache alone, and does not look at the brain. */
  lemma RetrieveIsCached(s: Settings, cache: Cache, brain: Brain, later: Brain, u: UserId)
    ensures var r := Retrieve(s, cache, brain, u);
            Retrieve(s, r.cache, later, u) == r
  {
  }

  /** `robotStore`: the user's key now holds the chain's exported state and
      no other key changes. */
  function Store(brain: Brain, u: UserId, c: Chain): (b: Brain)
    ensures b.Keys == brain.Keys + {Key(u)}
    ensures b[Key(u)] == Packed(Export(c))
    ensures forall k :: k in brain && k != Key(u) ==> b[k] == brain[k]
  {
    brain[Key(u) := Packed(Export(c))]
  }

  /** A stored chain is what a later process loads for that user, and storing
      one user's chain does not change what is loaded for another. */
  lemma StoreThenLoad(brain: Brain, u: UserId, v: UserId, c: Chain, s: Settings)
    ensures Load(c.settings, Store(brain, u, c), u) == c
    ensures u != v ==> Load(s, Store(brain, u, c), v) == Load(s, brain, v)
  {
    if u != v && Key(u) == Key(v) {
      KeyInjective(u, v);
    }
  }
}
