/**
 * The conversation cache: per conversation key, the JSON list of
 * (text, sender name, HH:MM) triples and the entry's time to live. The
 * backend's get/set-with-expiry are modelled on a map; JSON encoding of the
 * triple list is the identity here.
 */
module Conversation {
  import opened Wrappers
  import opened Keys

  /** One cached message view: (message, user_name, HH:MM). */
  datatype View = View(text: string, sender: string, time: string)

  /** A cache entry: the history and the seconds left before it expires. */
  datatype Entry = Entry(history: seq<View>, ttl: nat)

  type Cache = map<string, Entry>

  /** The `ex=600` every write passes. */
  const Ttl: nat := 600

  /**
   * `redis.get(key)` followed by the truthiness test: any stored value is the
   * non-empty text of a JSON list, so a present key is a hit.
   */
  function Lookup(cache: Cache, key: string): (r: Option<seq<View>>)
    ensures r.Some? <==> key in cache
    ensures r.Some? ==> r.value == cache[key].history
  {
    if key in cache then Some(cache[key].history) else None
  }

  /** The history a write extends: the cached list on a hit, the empty list on a miss. */
  function Prior(cache: Cache, key: string): seq<View> {
    match Lookup(cache, key)
    case Some(history) => history
    case None => []
  }

  /**
   * The read-modify-write of the socket handler: append one triple to the
   * cached list (or start a one-element list) and store it back with the
   * expiry reset to Ttl.
   */
  function Appended(cache: Cache, key: string, v: View): (c: Cache)
    ensures c.Keys == cache.Keys + {key}
    ensures c[key].ttl == Ttl
    ensures key in cache ==> c[key].history == cache[key].history + [v]
    ensures key !in cache ==> c[key].history == [v]
    ensures forall k :: k in cache && k != key ==> c[k] == cache[k]
  {
    cache[key := Entry(Prior(cache, key) + [v], Ttl)]
  }

  /** Several appends to one key, oldest first. */
  function AppendedAll(cache: Cache, key: string, vs: seq<View>): Cache
    decreases |vs|
  {
    if vs == [] then cache
    else Appended(AppendedAll(cache, key, vs[..|vs| - 1]), key, vs[|vs| - 1])
  }

  /**
   * Appending n views grows the entry by exactly those n views in send order,
   * keeps every earlier entry where it was, and leaves other keys alone.
   */
  lemma {:induction false} AppendedAllHistory(cache: Cache, key: string, vs: seq<View>)
    requires vs != []
    ensures key in AppendedAll(cache, key, vs)
    ensures AppendedAll(cache, key, vs)[key] == Entry(Prior(cache, key) + vs, Ttl)
    ensures forall k :: k != key ==>
              (k in AppendedAll(cache, key, vs) <==> k in cache)
    ensures forall k :: k != key && k in cache ==> AppendedAll(cache, key, vs)[k] == cache[k]
  {
    var init := vs[..|vs| - 1];
    if init == [] {
      assert vs == [vs[0]];
    } else {
      AppendedAllHistory(cache, key, init);
      assert Prior(AppendedAll(cache, key, init), key) == Prior(cache, key) + init;
      assert init + [vs[|vs| - 1]] == vs;
    }
  }

  /** A second write to a key replaces the first. */
  lemma Overwrite(cache: Cache, key: string, first: Entry, second: Entry)
    ensures cache[key := first][key := second] == cache[key := second]
  {
  }

  /** A read right after a message's write hits, with the history that write left. */
  lemma ReadAfterWrite(cache: Cache, key: string, v: View)
    ensures Lookup(Appended(cache, key, v), key) == Some(Prior(cache, key) + [v])
  {
  }

  /** What a read returns and the cache it leaves behind. */
  datatype ReadResult = ReadResult(views: seq<View>, cache: Cache)

  /**
   * The read-through of the history page: on a hit, the cached list and no
   * write (the expiry is not refreshed); on a miss, the stored history, which
   * is also written to the cache with expiry Ttl.
   */
  function ReadThrough(cache: Cache, key: string, stored: seq<View>): (r: ReadResult)
    ensures key in cache ==> r.views == cache[key].history && r.cache == cache
    ensures key !in cache ==> r.views == stored && r.cache == cache[key := Entry(stored, Ttl)]
  {
    match Lookup(cache, key)
    case Some(history) => ReadResult(history, cache)
    case None => ReadResult(stored, cache[key := Entry(stored, Ttl)])
  }

  /** A read after the history page filled the cache hits, with what the page served. */
  lemma ReadAfterFill(cache: Cache, key: string, stored: seq<View>)
    ensures var r := ReadThrough(cache, key, stored);
            Lookup(r.cache, key) == Some(r.views)
  {
  }

  /** The cache backend after `seconds` pass with no write: each TTL runs down, spent entries vanish. */
  function Elapse(cache: Cache, seconds: nat): (c: Cache)
    ensures forall k :: k in c <==> k in cache && cache[k].ttl > seconds
    ensures forall k :: k in c ==> c[k] == Entry(cache[k].history, cache[k].ttl - seconds)
  {
    map k | k in cache && cache[k].ttl > seconds :: Entry(cache[k].history, cache[k].ttl - seconds)
  }

  /**
   * A written entry is served for Ttl seconds after its last write, and not
   * after, whatever time the entry had left before that write: the expiry
   * slides with every write.
   */
  lemma WriteLivesForTtl(cache: Cache, key: string, v: View, seconds: nat)
    ensures key in Elapse(Appended(cache, key, v), seconds) <==> seconds < Ttl
  {
  }

  /** Once the TTL has run out, the history page falls back to the stored history. */
  lemma ExpiredReadFallsBack(cache: Cache, key: string, v: View, seconds: nat, stored: seq<View>)
    requires seconds >= Ttl
    ensures ReadThrough(Elapse(Appended(cache, key, v), seconds), key, stored).views == stored
  {
  }

  /**
   * Two messages in opposite directions land in one entry, and a read from
   * either side returns both, in send order, after the earlier history.
   */
  lemma BothDirectionsShareHistory(cache: Cache, a: int, b: int, v1: View, v2: View,
                                                     s1: seq<View>, s2: seq<View>)
    ensures var c := Appended(Appended(cache, CacheKey(a, b), v1), CacheKey(b, a), v2);
            && ReadThrough(c, CacheKey(a, b), s1).views == Prior(cache, CacheKey(a, b)) + [v1, v2]
            && ReadThrough(c, CacheKey(b, a), s2).views == Prior(cache, CacheKey(a, b)) + [v1, v2]
  {
  }
}
