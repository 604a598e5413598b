/**
  The response cache and the registry of background refreshes, as objects updated
  in place under their locks. The functions say what each locked section does; the
  concurrent model is built from the same functions.
 */
module Cache {
  import opened Wrappers

  datatype Key = Key(id: nat)

  datatype Entry<V> = Entry(value: V, at: int, generation: nat)

  datatype Contents<V> = Contents(items: map<Key, Entry<V>>, generation: nat)

  datatype Hit<V> = Hit(value: V, stale: bool)

  // ---------------------------------------------------------- locked sections

  predicate Expired<V>(e: Entry<V>, now: int, ttl: int) {
    now - e.at > ttl
  }

  /** What get_entry answers. */
  function Found<V>(c: Contents<V>, key: Key, now: int, ttl: int): Option<Hit<V>> {
    if key !in c.items || Expired(c.items[key], now, ttl) then None
    else Some(Hit(c.items[key].value, c.items[key].generation != c.generation))
  }

  /** get_entry drops an expired entry. */
  function AfterGet<V>(c: Contents<V>, key: Key, now: int, ttl: int): Contents<V> {
    if key in c.items && Expired(c.items[key], now, ttl) then c.(items := c.items - {key}) else c
  }

  function AfterPut<V>(c: Contents<V>, key: Key, value: V, now: int): Contents<V> {
    c.(items := c.items[key := Entry(value, now, c.generation)])
  }

  function AfterPutIf<V>(c: Contents<V>, key: Key, value: V, now: int, token: nat): Contents<V> {
    if token == c.generation then AfterPut(c, key, value, now) else c
  }

  function AfterInvalidate<V>(c: Contents<V>): Contents<V> {
    c.(generation := c.generation + 1)
  }

  function AfterClear<V>(c: Contents<V>): Contents<V> {
    Contents(map[], c.generation + 1)
  }

  /** _TTLCache. */
  class TTLCache<V> {
    const ttl: int
    var items: map<Key, Entry<V>>
    var currentGeneration: nat

    function View(): Contents<V>
      reads this
    {
      Contents(items, currentGeneration)
    }

    constructor (ttl: int)
      ensures View() == Contents(map[], 0) && this.ttl == ttl
    {
      this.ttl, items, currentGeneration := ttl, map[], 0;
    }

    method GetEntry(key: Key, now: int) returns (hit: Option<Hit<V>>)
      modifies this`items
      ensures hit == Found(old(View()), key, now, ttl)
      ensures View() == AfterGet(old(View()), key, now, ttl)
    {
      if key !in items {
        return None;
      }
      var entry := items[key];
      if now - entry.at > ttl {
        items := items - {key};
        return None;
      }
      hit := Some(Hit(entry.value, entry.generation != currentGeneration));
    }

    method Put(key: Key, value: V, now: int)
      modifies this`items
      ensures View() == AfterPut(old(View()), key, value, now)
    {
      items := items[key := Entry(value, now, currentGeneration)];
    }

    method Invalidate()
      modifies this`currentGeneration
      ensures View() == AfterInvalidate(old(View()))
    {
      currentGeneration := currentGeneration + 1;
    }

    method PutIfGeneration(key: Key, value: V, now: int, token: nat) returns (published: bool)
      modifies this`items
      ensures published <==> token == old(View()).generation
      ensures View() == AfterPutIf(old(View()), key, value, now, token)
    {
      if token != currentGeneration {
        return false;
      }
      items := items[key := Entry(value, now, currentGeneration)];
      published := true;
    }

    method Clear()
      modifies this
      ensures View() == AfterClear(old(View()))
    {
      items := map[];
      currentGeneration := currentGeneration + 1;
    }
  }

  // ------------------------------------------------- what a token guarantees

  datatype Call<V> =
    | Get(key: Key, now: int)
    | Put(key: Key, value: V, now: int)
    | PutIf(key: Key, value: V, now: int, token: nat)
    | Invalidate
    | Clear

  function Apply<V>(c: Contents<V>, call: Call<V>, ttl: int): Contents<V> {
    match call
    case Get(key, now) => AfterGet(c, key, now, ttl)
    case Put(key, value, now) => AfterPut(c, key, value, now)
    case PutIf(key, value, now, token) => AfterPutIf(c, key, value, now, token)
    case Invalidate => AfterInvalidate(c)
    case Clear => AfterClear(c)
  }

  function ApplyAll<V>(c: Contents<V>, calls: seq<Call<V>>, ttl: int): Contents<V> {
    if calls == [] then c else Apply(ApplyAll(c, calls[..|calls| - 1], ttl), calls[|calls| - 1], ttl)
  }

  /** A refresh is published exactly when nothing was invalidated or cleared since its token was taken. */
  lemma {:induction false} TokenSurvivesIff<V>(c: Contents<V>, calls: seq<Call<V>>, ttl: int)
    ensures ApplyAll(c, calls, ttl).generation >= c.generation
    ensures ApplyAll(c, calls, ttl).generation == c.generation
       <==> forall i :: 0 <= i < |calls| ==> !calls[i].Invalidate? && !calls[i].Clear?
  {
    if calls != [] {
      var n := |calls| - 1;
      TokenSurvivesIff(c, calls[..n], ttl);
      assert forall i :: 0 <= i < n ==> calls[..n][i] == calls[i];
    }
  }

  /** A call that neither clears the cache nor stores under this key. */
  predicate Spares<V>(call: Call<V>, key: Key) {
    !call.Clear? && (call.Put? || call.PutIf? ==> call.key != key)
  }

  /** A lookup of this key that comes after the entry has expired. */
  predicate TooLate<V>(call: Call<V>, key: Key, e: Entry<V>, ttl: int) {
    call.Get? && call.key == key && Expired(e, call.now, ttl)
  }

  /** An invalidated entry that nobody replaces is still there exactly until a lookup finds it expired. */
  lemma {:induction false} InvalidatedStays<V>(c: Contents<V>, calls: seq<Call<V>>, ttl: int, key: Key)
    requires key in c.items && c.items[key].generation <= c.generation
    requires forall i :: 0 <= i < |calls| ==> Spares(calls[i], key)
    ensures var d := ApplyAll(AfterInvalidate(c), calls, ttl);
      && d.generation > c.generation
      && (key in d.items <==> forall i :: 0 <= i < |calls| ==> !TooLate(calls[i], key, c.items[key], ttl))
      && (key in d.items ==> d.items[key] == c.items[key])
  {
    if calls != [] {
      var n := |calls| - 1;
      assert forall i :: 0 <= i < n ==> calls[..n][i] == calls[i];
      InvalidatedStays(c, calls[..n], ttl, key);
    }
  }

  /** After an invalidation an entry is served on, and as stale, exactly as long as it has not expired. */
  lemma InvalidatedStaysStale<V>(c: Contents<V>, calls: seq<Call<V>>, ttl: int, key: Key, now: int)
    requires key in c.items && c.items[key].generation <= c.generation
    requires forall i :: 0 <= i < |calls| ==> Spares(calls[i], key)
    requires forall i :: 0 <= i < |calls| ==> !TooLate(calls[i], key, c.items[key], ttl)
    ensures var d := ApplyAll(AfterInvalidate(c), calls, ttl); var e := c.items[key];
      && key in d.items
      && (Found(d, key, now, ttl) == Some(Hit(e.value, true)) <==> now - e.at <= ttl)
      && (Found(d, key, now, ttl).None? <==> now - e.at > ttl)
  {
    InvalidatedStays(c, calls, ttl, key);
  }

  // ------------------------------------------------------ the refresh registry

  datatype Registry = Registry(refreshing: set<Key>, accepting: bool)

  function Discarded(r: Registry, key: Key): Registry {
    r.(refreshing := r.refreshing - {key})
  }

  /** _refreshing and _REFRESH_ACCEPTING, guarded by _registry_guard. */
  class RefreshRegistry {
    var refreshing: set<Key>
    var accepting: bool

    function View(): Registry
      reads this
    {
      Registry(refreshing, accepting)
    }

    constructor ()
      ensures View() == Registry({}, true)
    {
      refreshing, accepting := {}, true;
    }

    /** The first guarded section of _schedule_refresh. */
    method Claim(key: Key) returns (claimed: bool)
      modifies this`refreshing
      ensures claimed <==> key !in old(refreshing)
      ensures View() == old(View()).(refreshing := old(refreshing) + {key})
    {
      if key in refreshing {
        assert refreshing == refreshing + {key};
        return false;
      }
      refreshing := refreshing + {key};
      claimed := true;
    }

    /** The guarded section that ends a refresh, or takes back a claim whose submission was refused. */
    method Discard(key: Key)
      modifies this`refreshing
      ensures View() == Discarded(old(View()), key)
      ensures key !in refreshing && forall other :: other != key ==> (other in refreshing <==> other in old(refreshing))
    {
      refreshing := refreshing - {key};
    }

    method Stop()
      modifies this`accepting
      ensures View() == old(View()).(accepting := false)
    {
      accepting := false;
    }

    method Start()
      modifies this`accepting
      ensures View() == old(View()).(accepting := true)
    {
      accepting := true;
    }
  }
}
