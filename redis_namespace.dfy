/**
  The store keys of one cache region (RedisNamespace.cs). A namespace is
  built once from a prefix; it keeps the index-set key and the scan pattern
  it derived from the prefix and derives entry and lock keys per
  application key. Application keys are taken in their string form.
 */
module Namespace {
  import opened Glob

  predicate StartsWith(s: string, p: string) {
    |p| <= |s| && s[..|p|] == p
  }

  predicate EndsWith(s: string, p: string) {
    |p| <= |s| && s[|s| - |p|..] == p
  }

  datatype RedisNamespace = RedisNamespace(prefix: string, setOfActiveKeysKey: string, keyPattern: string)
  {
    /** The derived fields hold what construction computed from the prefix. */
    ghost predicate Valid() {
      setOfActiveKeysKey == prefix + ":keys" && keyPattern == prefix + ":*"
    }

    /** The part every key of this namespace starts with: the pattern without its `*`. */
    function KeyHead(): string {
      prefix + ":"
    }

    /** The key of the set that indexes the region's live entry keys. */
    function GetSetOfActiveKeysKey(): (r: string)
      requires Valid()
      ensures r == prefix + ":keys"
    {
      setOfActiveKeysKey
    }

    /** The pattern that enumerates every key of the region. */
    function GetKeyPattern(): (r: string)
      requires Valid()
      ensures r == KeyHead() + "*"
    {
      keyPattern
    }

    /** The entry key: the key head followed by the application key, which can be read back from it. */
    function GetKey(key: string): (r: string)
      ensures StartsWith(r, KeyHead())
      ensures |r| == |KeyHead()| + |key| && r[|KeyHead()|..] == key
    {
      prefix + ":" + key
    }

    /** The lock key: the entry key, as a strict prefix, followed by `:lock`. */
    function GetLockKey(key: string): (r: string)
      ensures StartsWith(r, GetKey(key)) && |GetKey(key)| < |r|
      ensures EndsWith(r, ":lock") && r[..|r| - 5] == GetKey(key)
    {
      GetKey(key) + ":lock"
    }
  }

  /** The constructor: the prefix is kept and the two fixed keys derived from it. */
  function New(prefix: string): (ns: RedisNamespace)
    ensures ns.Valid() && ns.prefix == prefix
  {
    RedisNamespace(prefix, prefix + ":keys", prefix + ":*")
  }

  /** Within one namespace, distinct application keys get distinct entry keys. */
  lemma GetKeyInjective(ns: RedisNamespace, a: string, b: string)
    ensures ns.GetKey(a) == ns.GetKey(b) <==> a == b
  {
  }

  /** Within one namespace, distinct application keys get distinct lock keys. */
  lemma GetLockKeyInjective(ns: RedisNamespace, a: string, b: string)
    ensures ns.GetLockKey(a) == ns.GetLockKey(b) <==> a == b
  {
  }

  /** Collision witness: the lock key of `k` is the entry key of `k + ":lock"`. */
  lemma LockKeyIsEntryKey(ns: RedisNamespace, k: string)
    ensures ns.GetKey(k + ":lock") == ns.GetLockKey(k)
  {
  }

  /** Collision witness: the index-set key is the entry key of `keys`. */
  lemma IndexKeyIsEntryKey(ns: RedisNamespace)
    requires ns.Valid()
    ensures ns.GetKey("keys") == ns.GetSetOfActiveKeysKey()
  {
  }

  /** An entry key equals a lock key exactly when the entry's key is the lock's key followed by `:lock`. */
  lemma EntryKeyIsLockKeyIff(ns: RedisNamespace, a: string, b: string)
    ensures ns.GetKey(a) == ns.GetLockKey(b) <==> a == b + ":lock"
  {
  }

  /** An entry key equals the index-set key exactly when its application key is `keys`. */
  lemma EntryKeyIsIndexKeyIff(ns: RedisNamespace, k: string)
    requires ns.Valid()
    ensures ns.GetKey(k) == ns.GetSetOfActiveKeysKey() <==> k == "keys"
  {
  }

  /** A lock key is never the index-set key: it is longer. */
  lemma LockKeyIsNotIndexKey(ns: RedisNamespace, k: string)
    requires ns.Valid()
    ensures ns.GetLockKey(k) != ns.GetSetOfActiveKeysKey()
  {
  }

  /**
    Across namespaces the encoding is not injective: a region whose prefix
    extends another's by `:` and a segment shares entry keys with it.
   */
  lemma GetKeyAcrossNamespaces(p: string, q: string, k: string)
    ensures New(p).GetKey(q + ":" + k) == New(p + ":" + q).GetKey(k)
    ensures p != p + ":" + q
  {
  }

  /** For one application key, distinct prefixes give distinct entry keys. */
  lemma GetKeySameKeyAcrossNamespaces(p1: string, p2: string, k: string)
    ensures New(p1).GetKey(k) == New(p2).GetKey(k) <==> p1 == p2
  {
    var r1, r2 := New(p1).GetKey(k), New(p2).GetKey(k);
    if r1 == r2 {
      assert |p1| == |p2|;
      assert p1 == r1[..|p1|] == r2[..|p2|] == p2;
    }
  }

  /** Distinct prefixes give distinct index-set keys. */
  lemma IndexKeyAcrossNamespaces(p1: string, p2: string)
    ensures New(p1).GetSetOfActiveKeysKey() == New(p2).GetSetOfActiveKeysKey() <==> p1 == p2
  {
    var r1, r2 := New(p1).GetSetOfActiveKeysKey(), New(p2).GetSetOfActiveKeysKey();
    if r1 == r2 {
      assert |p1| == |p2|;
      assert p1 == r1[..|p1|] == r2[..|p2|] == p2;
    }
  }

  /**
    When the prefix holds no pattern characters, the scan pattern matches
    exactly the entry keys of the namespace.
   */
  lemma PatternMatchesExactlyEntryKeys(ns: RedisNamespace, s: string)
    requires ns.Valid() && Literal(ns.prefix)
    ensures Matches(ns.GetKeyPattern(), s) <==> StartsWith(s, ns.KeyHead())
    ensures Matches(ns.GetKeyPattern(), s) <==> exists k :: s == ns.GetKey(k)
  {
    var head := ns.KeyHead();
    assert Literal(head) by {
      forall i | 0 <= i < |head| ensures !IsMeta(head[i]) {
        if i < |ns.prefix| {
          assert head[i] == ns.prefix[i];
        }
      }
    }
    PrefixStarMatches(head, s);
    if StartsWith(s, head) {
      var k := s[|head|..];
      assert s == head + k;
      assert s == ns.GetKey(k);
    }
  }

  /**
    Entry keys, lock keys and the index-set key all match the scan pattern,
    also when the prefix holds `*` or `?`. Prefixes holding `[` or `\`,
    which the store reads as a character class or an escape, are excluded.
   */
  lemma KeysMatchPattern(ns: RedisNamespace, k: string)
    requires ns.Valid() && NoClassOrEscape(ns.prefix)
    ensures Matches(ns.GetKeyPattern(), ns.GetKey(k))
    ensures Matches(ns.GetKeyPattern(), ns.GetLockKey(k))
    ensures Matches(ns.GetKeyPattern(), ns.GetSetOfActiveKeysKey())
  {
    forall key | true ensures Matches(ns.GetKeyPattern(), ns.GetKey(key)) {
      StarMatchesAll(key);
      assert Matches(":*", ":" + key) by {
        assert (":" + key)[1..] == key;
      }
      HeadMatchesItself(ns.prefix, ":*", ":" + key);
      assert ns.prefix + ":*" == ns.GetKeyPattern();
      assert ns.prefix + (":" + key) == ns.GetKey(key);
    }
    LockKeyIsEntryKey(ns, k);
    IndexKeyIsEntryKey(ns);
  }

  /**
    A prefix that holds a pattern character widens the scan pattern to other
    namespaces: the pattern of prefix `r?` matches the entry keys of prefix `rx`.
   */
  lemma PatternReachesOtherNamespace(k: string)
    ensures Matches(New("r?").GetKeyPattern(), New("rx").GetKey(k))
  {
    var s := New("rx").GetKey(k);
    assert s == ['r', 'x', ':'] + k;
    assert New("r?").GetKeyPattern() == ['r', '?', ':', '*'];
    assert s[1..] == ['x', ':'] + k;
    assert s[2..] == [':'] + k;
    assert s[3..] == k;
    StarMatchesAll(k);
    assert Matches([':', '*'], s[2..]);
    assert Matches(['?', ':', '*'], s[1..]);
  }
}
