/**
  The provider's options (RedisCacheProviderOptions.cs): the pluggable
  policies, the three event channels and their default behaviour, and the
  validating clone the provider freezes before use.
 */
module ProviderOptions {
  import opened Wrappers

  /** The prefix every options object starts with, from the property initializer. */
  const DefaultNamespacePrefix := "NHibernate-Cache:"

  /** A serializer (ICacheSerializer); the default one is a NetDataContractCacheSerializer. */
  class CacheSerializer {
    constructor () {}
  }

  /** A lock retry policy (IAcquireLockRetryStrategy); the default one is exponential backoff with jitter. */
  class AcquireLockRetryStrategy {
    constructor () {}
  }

  /** A lock value source (ILockValueFactory); the default one hands out GUIDs. */
  class LockValueFactory {
    constructor () {}
  }

  /** The configuration of one region, as the provider receives it. */
  datatype RedisCacheConfiguration = RedisCacheConfiguration(
    RegionName: string,
    Expiration: int,
    DisableIndexSetOnKeys: bool)

  /** Why validation refused an options object: the first setting found missing. */
  datatype MissingSetting = NoSerializer | NoRetryStrategy | NoLockValueFactory | NoCacheConfigurations

  /** The exceptions this component throws, or that a registered handler throws. */
  datatype CacheError =
    | InvalidOperation(missing: MissingSetting)
    | Timeout(key: string, acquireLockTimeout: int)
    | HandlerError(message: string)

  /**
    What an Exception handler receives: the exception raised during a cache
    operation, and whether it is to be rethrown. The caller creates it.
   */
  class ExceptionEventArgs {
    const Exception: string
    var Throw: bool
  }

  /** What a LockFailed handler receives. */
  datatype LockFailedEventArgs = LockFailedEventArgs(Key: string, AcquireLockTimeout: int)

  /** What an UnlockFailed handler receives. */
  datatype UnlockFailedEventArgs = UnlockFailedEventArgs(Key: string)

  /** A registered Exception handler, by its effect: the Throw flag it leaves, given the exception and the flag it found. */
  type ExceptionHandler = (string, bool) -> bool

  /** A registered LockFailed handler: it returns, or throws an exception of its own. */
  type LockFailedHandler = LockFailedEventArgs -> Outcome<CacheError>

  /** A registered UnlockFailed handler: it returns, or throws an exception of its own. */
  type UnlockFailedHandler = UnlockFailedEventArgs -> Outcome<CacheError>

  class RedisCacheProviderOptions {
    var Serializer: CacheSerializer?
    var Exception: Option<ExceptionHandler>
    var AcquireLockRetryStrategy: AcquireLockRetryStrategy?
    var LockFailed: Option<LockFailedHandler>
    var UnlockFailed: Option<UnlockFailedHandler>
    var LockValueFactory: LockValueFactory?
    var Database: int
    var CacheConfigurations: Option<seq<RedisCacheConfiguration>>
    var CacheNamespacePrefix: Option<string>
    var DisableIndexSetOnKeys: bool

    /** The eight settings the copy constructor carries over are those of `other`. */
    ghost predicate CopiesSettingsOf(other: RedisCacheProviderOptions)
      reads this, other
    {
      Serializer == other.Serializer &&
      Exception == other.Exception &&
      AcquireLockRetryStrategy == other.AcquireLockRetryStrategy &&
      LockFailed == other.LockFailed &&
      UnlockFailed == other.UnlockFailed &&
      LockValueFactory == other.LockValueFactory &&
      Database == other.Database &&
      CacheConfigurations == other.CacheConfigurations
    }

    /** Every setting that validation demands is present. */
    ghost predicate Validated()
      reads this
    {
      Serializer != null && AcquireLockRetryStrategy != null &&
      LockValueFactory != null && CacheConfigurations.Some?
    }

    /** The default options: fresh default policies, no handlers, database 0, no regions. */
    constructor ()
      ensures Validated()
      ensures fresh(Serializer) && fresh(AcquireLockRetryStrategy) && fresh(LockValueFactory)
      ensures Exception.None? && LockFailed.None? && UnlockFailed.None?
      ensures Database == 0 && CacheConfigurations == Some([])
      ensures CacheNamespacePrefix == Some(DefaultNamespacePrefix) && !DisableIndexSetOnKeys
    {
      CacheNamespacePrefix := Some(DefaultNamespacePrefix);
      DisableIndexSetOnKeys := false;
      Exception := None;
      LockFailed := None;
      UnlockFailed := None;
      Serializer := new CacheSerializer();
      AcquireLockRetryStrategy := new AcquireLockRetryStrategy();
      LockValueFactory := new LockValueFactory();
      Database := 0;
      CacheConfigurations := Some([]);
    }

    /**
      The private copy constructor. It carries over eight settings; the
      namespace prefix and the index flag keep their initial values.
     */
    constructor Copy(options: RedisCacheProviderOptions)
      ensures CopiesSettingsOf(options)
      ensures CacheNamespacePrefix == Some(DefaultNamespacePrefix) && !DisableIndexSetOnKeys
    {
      CacheNamespacePrefix := Some(DefaultNamespacePrefix);
      DisableIndexSetOnKeys := false;
      Serializer := options.Serializer;
      Exception := options.Exception;
      AcquireLockRetryStrategy := options.AcquireLockRetryStrategy;
      LockFailed := options.LockFailed;
      UnlockFailed := options.UnlockFailed;
      LockValueFactory := options.LockValueFactory;
      Database := options.Database;
      CacheConfigurations := options.CacheConfigurations;
    }

    /**
      Copies the options and checks the copy: it fails exactly when a
      required setting is missing, naming the first one in the order
      serializer, retry strategy, lock value factory, region configurations.
      The original is not modified.
     */
    method ShallowCloneAndValidate() returns (r: Result<RedisCacheProviderOptions, CacheError>)
      ensures r.Failure? <==> !Validated()
      ensures Serializer == null ==> r == Failure(InvalidOperation(NoSerializer))
      ensures Serializer != null && AcquireLockRetryStrategy == null ==>
                r == Failure(InvalidOperation(NoRetryStrategy))
      ensures Serializer != null && AcquireLockRetryStrategy != null && LockValueFactory == null ==>
                r == Failure(InvalidOperation(NoLockValueFactory))
      ensures Serializer != null && AcquireLockRetryStrategy != null && LockValueFactory != null &&
              CacheConfigurations.None? ==>
                r == Failure(InvalidOperation(NoCacheConfigurations))
      ensures r.Success? ==> fresh(r.value) && r.value.CopiesSettingsOf(this) && r.value.Validated()
      ensures r.Success? ==>
                r.value.CacheNamespacePrefix == Some(DefaultNamespacePrefix) && !r.value.DisableIndexSetOnKeys
    {
      var clone := new RedisCacheProviderOptions.Copy(this);
      if clone.Serializer == null {
        return Failure(InvalidOperation(NoSerializer));
      }
      if clone.AcquireLockRetryStrategy == null {
        return Failure(InvalidOperation(NoRetryStrategy));
      }
      if clone.LockValueFactory == null {
        return Failure(InvalidOperation(NoLockValueFactory));
      }
      if clone.CacheConfigurations.None? {
        return Failure(InvalidOperation(NoCacheConfigurations));
      }
      return Success(clone);
    }

    /**
      Routes an exception: without a handler it is to be rethrown; with one,
      the handler alone decides the Throw flag.
     */
    method OnException(e: ExceptionEventArgs)
      modifies e
      ensures Exception.None? ==> e.Throw
      ensures Exception.Some? ==> e.Throw == Exception.value(e.Exception, old(e.Throw))
    {
      var onException := Exception;
      if onException.None? {
        e.Throw := true;
      } else {
        e.Throw := onException.value(e.Exception, e.Throw);
      }
    }

    /**
      Routes a failed release: without a handler nothing happens and nothing
      is thrown; with one, the handler's outcome is the call's outcome.
     */
    method OnUnlockFailed(e: UnlockFailedEventArgs) returns (r: Outcome<CacheError>)
      ensures UnlockFailed.None? ==> r == Pass
      ensures UnlockFailed.Some? ==> r == UnlockFailed.value(e)
    {
      var onUnlockFailed := UnlockFailed;
      if onUnlockFailed.None? {
        r := Pass;
      } else {
        r := onUnlockFailed.value(e);
      }
    }

    /**
      Routes a failed acquisition: without a handler a timeout carrying the
      key and the acquire timeout is thrown; with one, the handler's outcome
      is the call's outcome and nothing else is thrown.
     */
    method OnLockFailed(e: LockFailedEventArgs) returns (r: Outcome<CacheError>)
      ensures LockFailed.None? ==> r == Fail(Timeout(e.Key, e.AcquireLockTimeout))
      ensures LockFailed.Some? ==> r == LockFailed.value(e)
    {
      var onLockFailed := LockFailed;
      if onLockFailed.None? {
        r := Fail(Timeout(e.Key, e.AcquireLockTimeout));
      } else {
        r := onLockFailed.value(e);
      }
    }
  }

  /**
    The default options pass validation, and the frozen copy keeps the
    default policies: failed locks time out and failed releases are ignored.
   */
  method DefaultOptionsFreeze(key: string, timeout: int) returns (lockFailed: Outcome<CacheError>, unlockFailed: Outcome<CacheError>)
    ensures lockFailed == Fail(Timeout(key, timeout))
    ensures unlockFailed == Pass
  {
    var options := new RedisCacheProviderOptions();
    var frozen := options.ShallowCloneAndValidate();
    assert frozen.Success?;
    var clone := frozen.value;
    assert clone.Database == 0 && clone.CacheConfigurations == Some([]);
    lockFailed := clone.OnLockFailed(LockFailedEventArgs(key, timeout));
    unlockFailed := clone.OnUnlockFailed(UnlockFailedEventArgs(key));
  }

  /**
    A clone drops a configured namespace prefix and index flag: it carries
    the initial values whatever the original held.
   */
  method CloneResetsPrefix(prefix: Option<string>, disableIndex: bool) returns (clonePrefix: Option<string>, cloneDisableIndex: bool)
    ensures clonePrefix == Some(DefaultNamespacePrefix)
    ensures !cloneDisableIndex
  {
    var options := new RedisCacheProviderOptions();
    options.CacheNamespacePrefix := prefix;
    options.DisableIndexSetOnKeys := disableIndex;
    var frozen := options.ShallowCloneAndValidate();
    assert frozen.Success?;
    clonePrefix := frozen.value.CacheNamespacePrefix;
    cloneDisableIndex := frozen.value.DisableIndexSetOnKeys;
  }
}
