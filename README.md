# User-preference cache service

A model of Lutece's `BaseUserPreferencesCacheService`. This service stores user preferences in a generic string-to-string cache. Each cache key is scoped by user id: the id, an underscore, then the preference key. The service can also evict every cached preference of one user.

- `prefs_cache.dfy` (module `PrefsCache`) holds the model:
  - `GetCacheKey` builds a key.
  - `StartsWith` models Java's `String.startsWith`.
  - `KeysOfUser` and `EvictUser` specify the eviction as a function on the cache contents.
  - The class `BaseUserPreferencesCacheService` keeps the inherited cache as a `map<string, string>` field that its methods update in place.
  - `RemoveCacheValuesOfUser` follows the source's two phases. The collect loop (`CollectKeysToRemove`) walks a snapshot of the key set and lists the matching keys. A second loop removes them one by one. The method's postcondition ties the new cache to `EvictUser` of the old one.
- `eviction_lemmas.dfy` (module `EvictionLemmas`) proves the eviction's properties:
  - An empty id is a no-op.
  - Exactly the user's keys disappear, and every other entry keeps its value.
  - Every key built by `GetCacheKey` for the user is evicted.
  - Eviction is idempotent.
  - The separator is part of the prefix: evicting `al` keeps `alice_x`.
  - Cache keys of one user are injective.
  - When neither user id contains `_`, evicting one user never touches another user's keys.
  - When an id does contain `_`, users can collide: `a` + `b_c` and `a_b` + `c` give the same key. This is a limitation of the key scheme, shown by a concrete case.

A null user id is modelled as the empty string. The source's guard (`StringUtils.isNotEmpty`) treats null and empty the same way.

## Model

| member | source | states |
|---|---|---|
| PrefsCache.GetCacheKey | src/java/fr/paris/lutece/portal/service/prefs/BaseUserPreferencesCacheService.java:81-84 | the key starts with the user id followed by `_`, and what follows that prefix is exactly the preference key |
| PrefsCache.CollectKeysToRemove | src/java/fr/paris/lutece/portal/service/prefs/BaseUserPreferencesCacheService.java:97-105 | the collected list holds a key iff the key is in the snapshot and starts with the prefix, and holds no key twice |
| PrefsCache.BaseUserPreferencesCacheService.Remove | src/java/fr/paris/lutece/portal/service/prefs/BaseUserPreferencesCacheService.java:109 | the cache afterwards is the old cache without that key; an absent key changes nothing |
| PrefsCache.BaseUserPreferencesCacheService.RemoveCacheValuesOfUser | src/java/fr/paris/lutece/portal/service/prefs/BaseUserPreferencesCacheService.java:92-112 | the new cache is `EvictUser` of the old one: no change for an empty id; otherwise no key with the user's prefix remains, and every other entry keeps its value |
| EvictionLemmas.EvictEmptyUserIsNoop | src/java/fr/paris/lutece/portal/service/prefs/BaseUserPreferencesCacheService.java:94 | evicting the empty (or null) user id leaves the cache unchanged |
| EvictionLemmas.EvictRemovesEveryUserKey | src/java/fr/paris/lutece/portal/service/prefs/BaseUserPreferencesCacheService.java:96-110 | after evicting a non-empty id, no remaining key starts with the id followed by `_` |
| EvictionLemmas.EvictIsExactSubmap | src/java/fr/paris/lutece/portal/service/prefs/BaseUserPreferencesCacheService.java:97-110 | the remaining keys are the old keys minus those with the user's prefix; the result is a sub-map of the old cache, and every unmatched entry survives with its value |
| EvictionLemmas.EvictRemovesCacheKey | src/java/fr/paris/lutece/portal/service/prefs/BaseUserPreferencesCacheService.java:96-101 | a key built by `getCacheKey` (line 83) for a non-empty user is always among the removed keys, so it is absent afterwards |
| EvictionLemmas.EvictIdempotent | src/java/fr/paris/lutece/portal/service/prefs/BaseUserPreferencesCacheService.java:92-112 | evicting a user twice gives the same cache as evicting it once |
| EvictionLemmas.SeparatorBoundary | src/java/fr/paris/lutece/portal/service/prefs/BaseUserPreferencesCacheService.java:96-101 | the separator is part of the prefix: evicting `al` from {`al_x`, `alice_x`} removes `al_x` and keeps `alice_x` |
| EvictionLemmas.EvictAliceScenario | src/java/fr/paris/lutece/portal/service/prefs/BaseUserPreferencesCacheService.java:92-112 | evicting `alice` from {`alice_theme`, `alice_lang`, `bob_theme`} leaves exactly `bob_theme` with its value |
| EvictionLemmas.CacheKeyInjectiveForUser | src/java/fr/paris/lutece/portal/service/prefs/BaseUserPreferencesCacheService.java:81-84 | for one user, equal cache keys come from equal preference keys |
| EvictionLemmas.OtherUserKeyNotMatched | src/java/fr/paris/lutece/portal/service/prefs/BaseUserPreferencesCacheService.java:83-96 | when neither id contains `_`, a cache key of one user never starts with another user's eviction prefix |
| EvictionLemmas.OtherUserSurvives | src/java/fr/paris/lutece/portal/service/prefs/BaseUserPreferencesCacheService.java:92-112 | when neither id contains `_`, evicting one user keeps another user's cached preference with its value |
| EvictionLemmas.CrossUserCollision | src/java/fr/paris/lutece/portal/service/prefs/BaseUserPreferencesCacheService.java:81-84 | the key scheme is not injective across users whose ids contain `_`: `("a", "b_c")` and `("a_b", "c")` give the same key, and evicting `a` removes it |
| EvictionLemmas.TwoUserScenario | src/java/fr/paris/lutece/portal/service/prefs/BaseUserPreferencesCacheService.java:81-112 | on the service: after two users whose ids contain no `_` each store preference `p`, evicting the first makes its lookup absent and leaves the second's lookup at its stored value |

## Left out

- The lifecycle wiring: `init` (line 58), which calls `initCache`, and the empty startup observer `initializedService` (line 123). Neither has behaviour to state.
- `getName` (line 67) returns a constant name, so there is nothing to prove about it.
- `AbstractCacheableService` is not part of this model. The model leaves out its storage engine, capacity and eviction policy, enable/disable switch and metrics. `getKeys`, `remove`, `getFromCache` and `putInCache` are modelled as plain operations on a map, for a cache that is enabled.
- The order in which `getKeys` lists keys: the collect loop may pick keys in any order. The postconditions hold for every order.
- Java turns a null argument of `getCacheKey` into the text `"null"`. The model does not reproduce this: user ids and preference keys are non-null strings.
- Concurrency: other threads may write to the cache between the key snapshot and the removals. The model runs the eviction without interference. A key added concurrently, which the source might miss, is not modelled.
