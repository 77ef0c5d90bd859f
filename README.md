# NHibernate.Caches.Redis: key namespace and provider options

A Dafny model of two pieces of the Redis second-level cache provider for
NHibernate:

- **The key namespace** (`RedisNamespace`). It is built once from a region's
  prefix. It derives the index-set key `prefix:keys` and the scan pattern
  `prefix:*`, and per application key the entry key `prefix:key` and the
  lock key `prefix:key:lock`. The model is a datatype with pure functions
  (`redis_namespace.dfy`). Its lemmas prove these facts:
  - entry and lock keys are injective within one namespace;
  - for the same application key, distinct prefixes give distinct entry
    keys, and distinct prefixes give distinct index-set keys;
  - lock keys are never the index-set key;
  - the scan pattern matches exactly the namespace's entry keys, which
    include every lock key and the index-set key.

  The encoding does NOT keep the three key families apart. The lock key of
  `k` is the entry key of `k:lock`, and the index-set key is the entry key
  of `keys`. Prefixes keep apart the keys of one application key, but not
  the keys of different ones: prefix `a` with key `b:c` gives the same entry
  key as prefix `a:b` with key `c`. A prefix that holds a pattern character
  widens the scan to other namespaces. These collisions are proved as
  witness lemmas. They are the code's behaviour, although a caller might
  expect lock keys and entry keys never to coincide and distinct regions
  never to share keys.
- **The provider options** (`RedisCacheProviderOptions`). This is a mutable
  class (`provider_options.dfy`) with these members:
  - the default constructor;
  - the private copy constructor;
  - the validating clone `ShallowCloneAndValidate`;
  - the three event routers `OnException`, `OnLockFailed` and
    `OnUnlockFailed`.

  The copy constructor does not copy `CacheNamespacePrefix` or
  `DisableIndexSetOnKeys`. The model keeps this: the clone always holds the
  initial values `"NHibernate-Cache:"` and `false`.

`glob.dfy` models the store's key-pattern matching, as far as the scan
pattern needs it. `wrappers.dfy` holds `Option` (for C# null), `Result` and
`Outcome` (for a return or a thrown exception).

## Model

| member | source | states |
|---|---|---|
| `Namespace.New` | src/NHibernate.Caches.Redis/RedisNamespace.cs:11-16 | construction keeps the prefix and stores the index-set key and scan pattern derived from it |
| `Namespace.RedisNamespace.GetSetOfActiveKeysKey` | src/NHibernate.Caches.Redis/RedisNamespace.cs:18-21 | the index-set key is the prefix followed by `:keys`, the same on every call |
| `Namespace.RedisNamespace.GetKeyPattern` | src/NHibernate.Caches.Redis/RedisNamespace.cs:23-26 | the scan pattern is the key head `prefix:` followed by `*`, the same on every call |
| `Namespace.RedisNamespace.GetKey` | src/NHibernate.Caches.Redis/RedisNamespace.cs:28-31 | every entry key starts with `prefix:`, and the application key can be read back from what follows |
| `Namespace.RedisNamespace.GetLockKey` | src/NHibernate.Caches.Redis/RedisNamespace.cs:33-36 | the lock key has the entry key as a strict prefix and ends with `:lock` |
| `Namespace.GetKeyInjective` | src/NHibernate.Caches.Redis/RedisNamespace.cs:28-31 | within one namespace, two entry keys are equal if and only if their application keys are |
| `Namespace.GetLockKeyInjective` | src/NHibernate.Caches.Redis/RedisNamespace.cs:33-36 | within one namespace, two lock keys are equal if and only if their application keys are |
| `Namespace.LockKeyIsEntryKey` | src/NHibernate.Caches.Redis/RedisNamespace.cs:28-36 | collision: the lock key of `k` is the entry key of `k:lock` |
| `Namespace.IndexKeyIsEntryKey` | src/NHibernate.Caches.Redis/RedisNamespace.cs:14-31 | collision: the index-set key is the entry key of `keys` |
| `Namespace.EntryKeyIsLockKeyIff` | src/NHibernate.Caches.Redis/RedisNamespace.cs:28-36 | the entry key of `a` is the lock key of `b` if and only if `a` is `b:lock` |
| `Namespace.EntryKeyIsIndexKeyIff` | src/NHibernate.Caches.Redis/RedisNamespace.cs:14-31 | an entry key is the index-set key if and only if its application key is `keys` |
| `Namespace.LockKeyIsNotIndexKey` | src/NHibernate.Caches.Redis/RedisNamespace.cs:14-36 | no lock key equals the index-set key |
| `Namespace.GetKeyAcrossNamespaces` | src/NHibernate.Caches.Redis/RedisNamespace.cs:11-31 | distinct prefixes `p` and `p:q` share entry keys: key `q:k` under `p` equals key `k` under `p:q` |
| `Namespace.GetKeySameKeyAcrossNamespaces` | src/NHibernate.Caches.Redis/RedisNamespace.cs:11-31 | for one application key, the entry keys under two prefixes are equal if and only if the prefixes are |
| `Namespace.IndexKeyAcrossNamespaces` | src/NHibernate.Caches.Redis/RedisNamespace.cs:11-21 | the index-set keys of two namespaces are equal if and only if their prefixes are |
| `Namespace.PatternMatchesExactlyEntryKeys` | src/NHibernate.Caches.Redis/RedisNamespace.cs:15-31 | when the prefix holds no pattern character, the scan pattern matches a string if and only if it starts with `prefix:`, which holds if and only if it is an entry key of the namespace |
| `Namespace.KeysMatchPattern` | src/NHibernate.Caches.Redis/RedisNamespace.cs:14-36 | every entry key, every lock key and the index-set key match the scan pattern, for any prefix without `[` or `\` (a prefix holding `*` or `?` included) |
| `Namespace.PatternReachesOtherNamespace` | src/NHibernate.Caches.Redis/RedisNamespace.cs:15-31 | the scan pattern of prefix `r?` matches every entry key of prefix `rx` |
| `ProviderOptions.RedisCacheProviderOptions.constructor` | src/NHibernate.Caches.Redis/RedisCacheProviderOptions.cs:67-85 | default options: fresh serializer, retry strategy and lock value factory; no handlers; database 0; empty region list; prefix `NHibernate-Cache:`; index enabled |
| `ProviderOptions.RedisCacheProviderOptions.Copy` | src/NHibernate.Caches.Redis/RedisCacheProviderOptions.cs:88-98 | the copy shares the eight copied settings with the original and keeps the initial prefix and index flag |
| `ProviderOptions.RedisCacheProviderOptions.ShallowCloneAndValidate` | src/NHibernate.Caches.Redis/RedisCacheProviderOptions.cs:100-127 | fails if and only if a required setting is null, naming the first null in the checked order. On success it returns a new, validated object with the original's copied settings, the initial prefix and index flag, and leaves the original unchanged |
| `ProviderOptions.RedisCacheProviderOptions.OnException` | src/NHibernate.Caches.Redis/RedisCacheProviderOptions.cs:129-141 | without a handler the exception is marked to be thrown; with one, the Throw flag is exactly what the handler leaves |
| `ProviderOptions.RedisCacheProviderOptions.OnUnlockFailed` | src/NHibernate.Caches.Redis/RedisCacheProviderOptions.cs:143-155 | without a handler nothing is thrown and nothing changes; with one, the outcome is the handler's |
| `ProviderOptions.RedisCacheProviderOptions.OnLockFailed` | src/NHibernate.Caches.Redis/RedisCacheProviderOptions.cs:157-171 | without a handler a timeout carrying the key and the acquire timeout is thrown; with one, the outcome is the handler's and nothing else is thrown |
| `ProviderOptions.DefaultOptionsFreeze` | src/NHibernate.Caches.Redis/RedisCacheProviderOptions.cs:78-171 | default options pass validation, and their clone times out on a failed lock and ignores a failed release |
| `ProviderOptions.CloneResetsPrefix` | src/NHibernate.Caches.Redis/RedisCacheProviderOptions.cs:67-127 | whatever prefix and index flag the original holds, the validated clone holds `NHibernate-Cache:` and `false` |

## Left out

- Application keys are taken as strings. `object.ToString()` on non-string keys is not modelled, and neither is a null key.
- A null namespace prefix is not modelled. C# concatenation treats it as the empty string, so the caller passes `""`.
- The store's pattern syntax is modelled for `*`, `?` and literal characters. Character classes `[...]` and the `\` escape are not, so the pattern lemmas require a prefix without `[` and `\`. `Namespace.PatternMatchesExactlyEntryKeys` also excludes `*` and `?`, because with them the pattern matches more than the namespace's keys.
- Pattern matching is modelled over characters. The store compares the keys' UTF-8 bytes, so a `?` against a non-ASCII character is not modelled: there the store consumes one byte and the model one character.
- Event handlers are modelled as function values, and a missing handler as `None`. The following are not modelled:
  - the handlers' own code;
  - the `sender` argument;
  - .NET multicast delegates, where several handlers run in turn;
  - the thread-safe local copy of the delegate.
- `OnException`: an exception thrown from inside a registered Exception handler is not modelled. The handler is modelled only by the Throw flag it leaves.
- The event-argument classes are not part of this model. The model gives each only what its handler receives and this model needs: the exception and the `Throw` flag; the key and the acquire timeout; the key.
- Exception message texts are not modelled. Errors are the `CacheError` datatype, which names the missing setting or carries the key and the timeout.
- The serializer, retry strategy and lock value factory are opaque references (empty classes). Their implementations are not part of this model.
- `CacheConfigurations` is a value sequence. The model does not capture that the clone shares the same enumerable object with the original.
- `RedisCache` (locking, the retry loop, Get/Put/Remove, indexed and non-indexed Clear) and `RedisCacheProvider` are not part of this model. Neither is the use of `CacheNamespacePrefix` and `DisableIndexSetOnKeys` when a namespace is built.
- tests/NHibernate.Caches.Redis.Tests/RedisCacheLoadTests.cs is a concurrent timing test against a live server and states no checkable property.
