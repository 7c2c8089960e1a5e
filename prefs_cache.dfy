/**
 The user-preference cache service: cache keys scoped by user id, and the
 eviction of every cached preference of one user. The generic
 string-to-string cache the service inherits is modelled by a `map` field
 that its operations read and update in place.
 */
module PrefsCache {

  /** The separator placed between a user id and a preference key. */
  const Underscore: string := "_"

  /** Java's `String.startsWith`: `prefix` is an initial segment of `s`. */
  predicate StartsWith(s: string, prefix: string)
  {
    |prefix| <= |s| && s[..|prefix|] == prefix
  }

  /** The prefix shared by every cache key of `userId`: the id and the separator. */
  function UserPrefix(userId: string): string
  {
    userId + Underscore
  }

  /**
   The cache key of preference `key` of user `userId`: it begins with the
   user's prefix, and what follows that prefix is exactly the preference key.
   */
  function GetCacheKey(userId: string, key: string): (r: string)
    ensures StartsWith(r, UserPrefix(userId))
    ensures r[|UserPrefix(userId)|..] == key
  {
    userId + Underscore + key
  }

  /**
   The keys of `m` that belong to `userId`: none for an empty (or absent)
   id, otherwise those that start with the user's prefix.
   */
  function KeysOfUser(m: map<string, string>, userId: string): set<string>
  {
    if userId == "" then {} else set k | k in m && StartsWith(k, UserPrefix(userId))
  }

  /** The cache contents once every entry of `userId` has been evicted from `m`. */
  function EvictUser(m: map<string, string>, userId: string): map<string, string>
  {
    m - KeysOfUser(m, userId)
  }

  /**
   The collect phase of the eviction: walks the snapshot `keys` in any order
   and lists each key that starts with `prefix`, once.
   */
  method CollectKeysToRemove(keys: set<string>, prefix: string) returns (listKeysToRemove: seq<string>)
    ensures forall k :: k in listKeysToRemove <==> k in keys && StartsWith(k, prefix)
    ensures forall i, j :: 0 <= i < j < |listKeysToRemove| ==> listKeysToRemove[i] != listKeysToRemove[j]
  {
    listKeysToRemove := [];
    var rest := keys;
    while rest != {}
      invariant rest <= keys
      invariant forall k :: k in listKeysToRemove <==> k in keys - rest && StartsWith(k, prefix)
      invariant forall i, j :: 0 <= i < j < |listKeysToRemove| ==> listKeysToRemove[i] != listKeysToRemove[j]
      decreases rest
    {
      var key :| key in rest;
      if StartsWith(key, prefix) {
        listKeysToRemove := listKeysToRemove + [key];
      }
      rest := rest - {key};
    }
  }

  class BaseUserPreferencesCacheService {
    /** The entries of the inherited string-to-string cache. */
    var cache: map<string, string>

    constructor ()
      ensures cache == map[]
    {
      cache := map[];
    }

    /** The keys currently in the cache (`getKeys`). */
    function GetKeys(): set<string>
      reads this
    {
      cache.Keys
    }

    /** The value cached under `key`, if any (`getFromCache`). */
    function Get(key: string): Option<string>
      reads this
    {
      if key in cache then Some(cache[key]) else None
    }

    /** Stores `value` under `key`, replacing any earlier value (`putInCache`). */
    method Put(key: string, value: string)
      modifies this
      ensures cache == old(cache)[key := value]
    {
      cache := cache[key := value];
    }

    /** Removes the entry of `key`; nothing happens when there is none (`remove`). */
    method Remove(key: string)
      modifies this
      ensures cache == old(cache) - {key}
    {
      cache := cache - {key};
    }

    /**
     Removes every value cached for `userId`. An empty id leaves the cache
     as it is; otherwise exactly the keys starting with the id followed by
     the separator are removed and every other entry keeps its value.
     */
    method RemoveCacheValuesOfUser(userId: string)
      modifies this
      ensures cache == EvictUser(old(cache), userId)
      ensures userId == "" ==> cache == old(cache)
      ensures userId != "" ==> forall k :: k in cache ==> !StartsWith(k, UserPrefix(userId))
      ensures forall k :: k in old(cache) && !(k in KeysOfUser(old(cache), userId)) ==>
                k in cache && cache[k] == old(cache)[k]
    {
      if userId != "" {
        var prefix := UserPrefix(userId);
        var listKeysToRemove := CollectKeysToRemove(GetKeys(), prefix);
        for i := 0 to |listKeysToRemove|
          invariant forall k :: k in cache <==> k in old(cache) && k !in listKeysToRemove[..i]
          invariant forall k :: k in cache ==> cache[k] == old(cache)[k]
        {
          Remove(listKeysToRemove[i]);
        }
        assert listKeysToRemove[..|listKeysToRemove|] == listKeysToRemove;
        assert cache.Keys == EvictUser(old(cache), userId).Keys;
      }
    }
  }

  datatype Option<+T> = None | Some(value: T)
}
