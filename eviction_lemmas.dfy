/**
 Properties of the user-scoped cache keys and of the per-user eviction.
 */
module EvictionLemmas {
  import opened PrefsCache

  /** An empty (or absent) user id evicts nothing. */
  lemma EvictEmptyUserIsNoop(m: map<string, string>)
    ensures EvictUser(m, "") == m
  {
  }

  /** After the eviction of a non-empty user id, no key left starts with the user's prefix. */
  lemma EvictRemovesEveryUserKey(m: map<string, string>, userId: string)
    requires userId != ""
    ensures forall k :: k in EvictUser(m, userId) ==> !StartsWith(k, UserPrefix(userId))
  {
  }

  /**
   The eviction removes exactly the user's keys: the keys left are the old
   keys minus those starting with the user's prefix, and each keeps its value.
   */
  lemma EvictIsExactSubmap(m: map<string, string>, userId: string)
    ensures userId != "" ==>
      EvictUser(m, userId).Keys == m.Keys - set k | k in m && StartsWith(k, UserPrefix(userId))
    ensures forall k :: k in EvictUser(m, userId) ==> k in m && EvictUser(m, userId)[k] == m[k]
    ensures forall k :: k in m && (userId == "" || !StartsWith(k, UserPrefix(userId))) ==>
              k in EvictUser(m, userId) && EvictUser(m, userId)[k] == m[k]
  {
  }

  /** A key built by GetCacheKey for a non-empty user id never survives that user's eviction. */
  lemma EvictRemovesCacheKey(m: map<string, string>, userId: string, key: string)
    requires userId != ""
    ensures GetCacheKey(userId, key) !in EvictUser(m, userId)
    ensures GetCacheKey(userId, key) in m ==> GetCacheKey(userId, key) in KeysOfUser(m, userId)
  {
  }

  /** Evicting a user twice leaves the cache as evicting it once. */
  lemma EvictIdempotent(m: map<string, string>, userId: string)
    ensures EvictUser(EvictUser(m, userId), userId) == EvictUser(m, userId)
  {
  }

  /**
   The separator belongs to the prefix: evicting user "al" removes "al_x"
   but keeps "alice_x", which does not start with "al_".
   */
  lemma SeparatorBoundary()
    ensures EvictUser(map["al_x" := "1", "alice_x" := "2"], "al") == map["alice_x" := "2"]
  {
    var m := map["al_x" := "1", "alice_x" := "2"];
    assert StartsWith("al_x", "al_") by {
      assert "al_x"[..3] == "al_";
    }
    assert !StartsWith("alice_x", "al_") by {
      assert "alice_x"[2] == 'i';
    }
    assert KeysOfUser(m, "al") == {"al_x"};
  }

  /**
   Evicting "alice" from {alice_theme: dark, alice_lang: fr, bob_theme: light}
   leaves only bob_theme.
   */
  lemma EvictAliceScenario()
    ensures EvictUser(map["alice_theme" := "dark", "alice_lang" := "fr", "bob_theme" := "light"], "alice")
            == map["bob_theme" := "light"]
  {
    var m := map["alice_theme" := "dark", "alice_lang" := "fr", "bob_theme" := "light"];
    assert StartsWith("alice_theme", "alice_") by {
      assert "alice_theme"[..6] == "alice_";
    }
    assert StartsWith("alice_lang", "alice_") by {
      assert "alice_lang"[..6] == "alice_";
    }
    assert !StartsWith("bob_theme", "alice_") by {
      assert "bob_theme"[0] == 'b';
    }
    assert KeysOfUser(m, "alice") == {"alice_theme", "alice_lang"};
  }

  /** For one user id, distinct preference keys give distinct cache keys. */
  lemma CacheKeyInjectiveForUser(userId: string, key1: string, key2: string)
    requires GetCacheKey(userId, key1) == GetCacheKey(userId, key2)
    ensures key1 == key2
  {
  }

  /**
   When neither user id contains the separator, the prefix of one user never
   matches a cache key of another.
   */
  lemma OtherUserKeyNotMatched(u1: string, u2: string, key: string)
    requires u1 != "" && u1 != u2
    requires '_' !in u1 && '_' !in u2
    ensures !StartsWith(GetCacheKey(u2, key), UserPrefix(u1))
  {
    var ck, p := GetCacheKey(u2, key), UserPrefix(u1);
    if |p| <= |ck| {
      // an index below |p| where the key and the prefix disagree
      var i: nat;
      if |u1| < |u2| {
        i := |u1|;
        assert ck[i] == u2[i] != '_' == p[i];
      } else if |u1| > |u2| {
        i := |u2|;
        assert ck[i] == '_' != u1[i] == p[i];
      } else {
        i :| i < |u1| && u1[i] != u2[i];
        assert ck[i] == u2[i] && p[i] == u1[i];
      }
      assert ck[..|p|][i] != p[i];
    }
  }

  /**
   Evicting one user leaves another user's cached preference in place with
   its value, provided neither user id contains the separator.
   */
  lemma OtherUserSurvives(m: map<string, string>, u1: string, u2: string, key: string)
    requires u1 != u2
    requires '_' !in u1 && '_' !in u2
    requires GetCacheKey(u2, key) in m
    ensures GetCacheKey(u2, key) in EvictUser(m, u1)
    ensures EvictUser(m, u1)[GetCacheKey(u2, key)] == m[GetCacheKey(u2, key)]
  {
    if u1 != "" {
      OtherUserKeyNotMatched(u1, u2, key);
    }
  }

  /**
   A limitation of the key scheme: when a user id contains the separator, two
   users can share a cache key, and evicting user "a" also evicts the
   preference "c" of user "a_b".
   */
  lemma CrossUserCollision()
    ensures GetCacheKey("a", "b_c") == GetCacheKey("a_b", "c")
    ensures GetCacheKey("a_b", "c") !in EvictUser(map[GetCacheKey("a_b", "c") := "v"], "a")
  {
  }

  /**
   The two-user scenario on the service: after both users store preference
   "p", evicting the first removes its entry and keeps the second's value.
   */
  method TwoUserScenario(u1: string, u2: string, v1: string, v2: string)
    returns (got1: Option<string>, got2: Option<string>)
    requires u1 != "" && u1 != u2
    requires '_' !in u1 && '_' !in u2
    ensures got1 == None && got2 == Some(v2)
  {
    var service := new BaseUserPreferencesCacheService();
    service.Put(GetCacheKey(u1, "p"), v1);
    service.Put(GetCacheKey(u2, "p"), v2);
    service.RemoveCacheValuesOfUser(u1);
    OtherUserKeyNotMatched(u1, u2, "p");
    got1 := service.Get(GetCacheKey(u1, "p"));
    got2 := service.Get(GetCacheKey(u2, "p"));
  }
}
