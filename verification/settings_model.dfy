/**
 The values, the catalog and the backend of Acquaint's typed settings store.

 The platform settings plugin is seen only through its two calls,
 GetValueOrDefault and AddOrUpdateValue, so its contents are modelled as a
 finite map from key strings to tagged values. Everything here is pure; the
 object that owns the map and the change event is in module AcquaintSettings.
 */
module SettingsModel {

  /** A raw value as the backend keeps it (the store uses strings, ints and bools). */
  datatype Value = Str(s: string) | Int(i: int) | Bool(b: bool)

  datatype Kind = StringKind | IntKind | BoolKind

  function KindOf(v: Value): Kind
  {
    match v
    case Str(_) => StringKind
    case Int(_) => IntKind
    case Bool(_) => BoolKind
  }

  /** The six settings the store exposes as typed properties. */
  datatype SettingId =
    | AzureAppServiceUrl
    | DataPartitionPhrase
    | ImageCacheDurationHours
    | DataIsSeeded
    | LocalDataResetIsRequested
    | ClearImageCacheIsRequested

  // Persistence keys.
  const AzureAppServiceUrlKey := "AzureAppServiceUrl_key"
  const DataPartitionPhraseKey := "DataPartitionPhrase_key"
  const ImageCacheDurationHoursKey := "ImageCacheDurationHours_key"
  const DataIsSeededKey := "DataIsSeeded_key"
  const LocalDataResetIsRequestedKey := "LocalDataResetIsRequested_key"
  const ClearImageCacheIsRequestedKey := "ClearImageCacheIsRequested_key"

  // Compile-time defaults.
  const AzureAppServiceUrlDefault := "https://app-acquaint.azurewebsites.net"
  const DataSeedPhraseDefault := ""
  const ImageCacheDurationHoursDefault := 1
  const DataIsSeededDefault := false
  const LocalDataResetIsRequestedDefault := false
  const ClearImageCacheIsRequestedDefault := false

  /** The partition phrase that selects the local data source. */
  const LocalDataSourcePhrase := "UseLocalDataSource"

  function Key(id: SettingId): string
  {
    match id
    case AzureAppServiceUrl => AzureAppServiceUrlKey
    case DataPartitionPhrase => DataPartitionPhraseKey
    case ImageCacheDurationHours => ImageCacheDurationHoursKey
    case DataIsSeeded => DataIsSeededKey
    case LocalDataResetIsRequested => LocalDataResetIsRequestedKey
    case ClearImageCacheIsRequested => ClearImageCacheIsRequestedKey
  }

  /** The type argument the property passes to the backend. */
  function DeclaredKind(id: SettingId): Kind
  {
    match id
    case AzureAppServiceUrl => StringKind
    case DataPartitionPhrase => StringKind
    case ImageCacheDurationHours => IntKind
    case DataIsSeeded => BoolKind
    case LocalDataResetIsRequested => BoolKind
    case ClearImageCacheIsRequested => BoolKind
  }

  /** The default a getter hands to GetValueOrDefault; it has the setting's declared type. */
  function Default(id: SettingId): (v: Value)
    ensures KindOf(v) == DeclaredKind(id)
  {
    match id
    case AzureAppServiceUrl => Str(AzureAppServiceUrlDefault)
    case DataPartitionPhrase => Str(DataSeedPhraseDefault)
    case ImageCacheDurationHours => Int(ImageCacheDurationHoursDefault)
    case DataIsSeeded => Bool(DataIsSeededDefault)
    case LocalDataResetIsRequested => Bool(LocalDataResetIsRequestedDefault)
    case ClearImageCacheIsRequested => Bool(ClearImageCacheIsRequestedDefault)
  }

  /** No two settings share a persistence key. */
  lemma KeysDistinct(a: SettingId, b: SettingId)
    ensures Key(a) == Key(b) <==> a == b
  {
  }

  /* ---------------------------------------------------------------------------
   The backend
   --------------------------------------------------------------------------- */

  type Store = map<string, Value>

  /** The plugin's lookup: the stored value, or the caller's default when the key is absent. */
  function GetValueOrDefault(store: Store, key: string, default: Value): Value
  {
    if key in store then store[key] else default
  }

  /** The plugin's write: the key now maps to the value, whether or not it was present. */
  function AddOrUpdateValue(store: Store, key: string, value: Value): Store
  {
    store[key := value]
  }

  /** Every setting that is present holds a value of its declared type. */
  ghost predicate WellTyped(store: Store)
  {
    forall id: SettingId :: Key(id) in store ==> KindOf(store[Key(id)]) == DeclaredKind(id)
  }

  /** The read a typed getter performs. */
  function Get(store: Store, id: SettingId): (v: Value)
    requires WellTyped(store)
    ensures KindOf(v) == DeclaredKind(id)
    ensures Key(id) !in store ==> v == Default(id)
    ensures Key(id) in store ==> v == store[Key(id)]
  {
    GetValueOrDefault(store, Key(id), Default(id))
  }

  /** The write a typed setter performs. */
  function Put(store: Store, id: SettingId, v: Value): Store
  {
    AddOrUpdateValue(store, Key(id), v)
  }

  /** On an empty backend every getter yields its declared default. */
  lemma FreshStoreDefaults()
    ensures WellTyped(map[])
    ensures Get(map[], AzureAppServiceUrl) == Str("https://app-acquaint.azurewebsites.net")
    ensures Get(map[], DataPartitionPhrase) == Str("")
    ensures Get(map[], ImageCacheDurationHours) == Int(1)
    ensures Get(map[], DataIsSeeded) == Bool(false)
    ensures Get(map[], LocalDataResetIsRequested) == Bool(false)
    ensures Get(map[], ClearImageCacheIsRequested) == Bool(false)
  {
  }

  /** A write of a value of the declared type keeps the store well typed and reads back. */
  lemma WriteThenRead(store: Store, id: SettingId, v: Value)
    requires WellTyped(store) && KindOf(v) == DeclaredKind(id)
    ensures WellTyped(Put(store, id, v))
    ensures Get(Put(store, id, v), id) == v
  {
  }

  /** A write to one setting leaves every other setting reading as before. */
  lemma WriteFrame(store: Store, id: SettingId, other: SettingId, v: Value)
    requires WellTyped(store) && KindOf(v) == DeclaredKind(id)
    requires other != id
    ensures WellTyped(Put(store, id, v))
    ensures Get(Put(store, id, v), other) == Get(store, other)
  {
  }

  /** Writing the same value twice leaves the same store as writing it once. */
  lemma WriteIdempotent(store: Store, id: SettingId, v: Value)
    ensures Put(Put(store, id, v), id, v) == Put(store, id, v)
  {
  }

  /** The data source is local exactly when the stored phrase is the sentinel; an absent phrase reads as "". */
  predicate IsUsingLocalDataSource(store: Store)
    requires WellTyped(store)
  {
    Get(store, DataPartitionPhrase) == Str(LocalDataSourcePhrase)
  }

  lemma LocalDataSourceIff(store: Store)
    requires WellTyped(store)
    ensures IsUsingLocalDataSource(store)
        <==> DataPartitionPhraseKey in store && store[DataPartitionPhraseKey] == Str("UseLocalDataSource")
  {
  }

  /** After writing phrase p, the data source is local iff p is the sentinel, character for character. */
  lemma LocalDataSourceAfterWrite(store: Store, p: string)
    requires WellTyped(store)
    ensures WellTyped(Put(store, DataPartitionPhrase, Str(p)))
    ensures IsUsingLocalDataSource(Put(store, DataPartitionPhrase, Str(p))) <==> p == "UseLocalDataSource"
  {
  }

  /* ---------------------------------------------------------------------------
   Reset to defaults
   --------------------------------------------------------------------------- */

  /** The values the reset stores, by key; LocalDataResetIsRequested is forced to true, not to its default. */
  const ResetValues: map<string, Value> := map[
    DataIsSeededKey := Bool(DataIsSeededDefault),
    LocalDataResetIsRequestedKey := Bool(true),
    AzureAppServiceUrlKey := Str(AzureAppServiceUrlDefault),
    ImageCacheDurationHoursKey := Int(ImageCacheDurationHoursDefault)]

  /** The store after a reset: the reset values override, every other key is kept. */
  function ResetStore(store: Store): Store
  {
    store + ResetValues
  }

  /** The four backend writes of the reset, in program order. */
  function ResetWrites(): seq<Event>
  {
    [ Wrote(DataIsSeededKey, Bool(DataIsSeededDefault)),
      Wrote(LocalDataResetIsRequestedKey, Bool(true)),
      Wrote(AzureAppServiceUrlKey, Str(AzureAppServiceUrlDefault)),
      Wrote(ImageCacheDurationHoursKey, Int(ImageCacheDurationHoursDefault)) ]
  }

  /** The four sequential writes produce exactly the reset store. */
  lemma ResetIsFourWrites(store: Store)
    ensures Put(Put(Put(Put(store, DataIsSeeded, Bool(false)), LocalDataResetIsRequested, Bool(true)),
                    AzureAppServiceUrl, Str(AzureAppServiceUrlDefault)),
                ImageCacheDurationHours, Int(1))
            == ResetStore(store)
  {
  }

  /** Replaying the reset's log entries from any store yields the reset store. */
  lemma ReplayResetWrites(store: Store)
    ensures Replay(store, ResetWrites()) == ResetStore(store)
  {
    var w := ResetWrites();
    var w1, w2, w3 := [w[0]], [w[0], w[1]], [w[0], w[1], w[2]];
    ReplayWrite(store, [], DataIsSeededKey, Bool(false));
    assert [] + [w[0]] == w1;
    ReplayWrite(store, w1, LocalDataResetIsRequestedKey, Bool(true));
    assert w1 + [w[1]] == w2;
    ReplayWrite(store, w2, AzureAppServiceUrlKey, Str(AzureAppServiceUrlDefault));
    assert w2 + [w[2]] == w3;
    ReplayWrite(store, w3, ImageCacheDurationHoursKey, Int(1));
    assert w3 + [w[3]] == w;
    ResetIsFourWrites(store);
  }

  /** The four writes appended one by one form the reset's log entries. */
  lemma ResetWritesAppended(log: seq<Event>)
    ensures log + ResetWrites()
         == log + [Wrote(DataIsSeededKey, Bool(DataIsSeededDefault))]
                + [Wrote(LocalDataResetIsRequestedKey, Bool(true))]
                + [Wrote(AzureAppServiceUrlKey, Str(AzureAppServiceUrlDefault))]
                + [Wrote(ImageCacheDurationHoursKey, Int(ImageCacheDurationHoursDefault))]
  {
  }

  /** The post-state the reset promises, and what it leaves alone. */
  lemma ResetPostState(store: Store)
    requires WellTyped(store)
    ensures WellTyped(ResetStore(store))
    ensures Get(ResetStore(store), DataIsSeeded) == Bool(false)
    ensures Get(ResetStore(store), LocalDataResetIsRequested) == Bool(true)
    ensures Get(ResetStore(store), LocalDataResetIsRequested) != Default(LocalDataResetIsRequested)
    ensures Get(ResetStore(store), AzureAppServiceUrl) == Str("https://app-acquaint.azurewebsites.net")
    ensures Get(ResetStore(store), ImageCacheDurationHours) == Int(1)
    ensures Get(ResetStore(store), DataPartitionPhrase) == Get(store, DataPartitionPhrase)
    ensures Get(ResetStore(store), ClearImageCacheIsRequested) == Get(store, ClearImageCacheIsRequested)
  {
  }

  /** Resetting twice leaves the same store as resetting once. */
  lemma ResetIdempotent(store: Store)
    ensures ResetStore(ResetStore(store)) == ResetStore(store)
  {
  }

  /* ---------------------------------------------------------------------------
   The change event and the log of effects
   --------------------------------------------------------------------------- */

  /** Identity of a delegate subscribed to the phrase-changed event. */
  type HandlerId = nat

  /** An observable effect: a backend write, or one handler invocation. */
  datatype Event = Wrote(key: string, value: Value) | Invoked(handler: HandlerId)

  /** The backend contents after the writes of a log, applied in order; invocations write nothing. */
  function Replay(store: Store, log: seq<Event>): Store
    decreases |log|
  {
    if log == [] then store
    else
      var before := Replay(store, log[..|log| - 1]);
      match log[|log| - 1]
      case Wrote(k, v) => before[k := v]
      case Invoked(_) => before
  }

  /** One invocation per handler in the invocation list, in order. */
  function Invocations(handlers: seq<HandlerId>): (r: seq<Event>)
    ensures |r| == |handlers|
    ensures forall i :: 0 <= i < |handlers| ==> r[i] == Invoked(handlers[i])
    decreases |handlers|
  {
    if handlers == [] then []
    else Invocations(handlers[..|handlers| - 1]) + [Invoked(handlers[|handlers| - 1])]
  }

  /** Invoking handlers does not change what the backend holds. */
  lemma {:induction false} ReplayIgnoresInvocations(store: Store, log: seq<Event>, handlers: seq<HandlerId>)
    ensures Replay(store, log + Invocations(handlers)) == Replay(store, log)
    decreases |handlers|
  {
    if handlers != [] {
      var front := handlers[..|handlers| - 1];
      var whole := log + Invocations(handlers);
      assert whole == (log + Invocations(front)) + [Invoked(handlers[|handlers| - 1])];
      assert whole[..|whole| - 1] == log + Invocations(front);
      ReplayIgnoresInvocations(store, log, front);
    } else {
      assert log + Invocations(handlers) == log;
    }
  }

  /** Replaying one more write updates that key. */
  lemma ReplayWrite(store: Store, log: seq<Event>, k: string, v: Value)
    ensures Replay(store, log + [Wrote(k, v)]) == Replay(store, log)[k := v]
  {
  }

  /** Position of the last subscription of h. */
  function LastIndexOf(handlers: seq<HandlerId>, h: HandlerId): (i: nat)
    requires h in handlers
    ensures i < |handlers| && handlers[i] == h
    ensures h !in handlers[i + 1..]
    decreases |handlers|
  {
    var n := |handlers|;
    if handlers[n - 1] == h then n - 1
    else
      assert handlers == handlers[..n - 1] + [handlers[n - 1]];
      LastIndexOf(handlers[..n - 1], h)
  }

  /**
   Unsubscribing: the last occurrence of h leaves the invocation list; a
   handler that is not subscribed leaves it unchanged.
   */
  function RemoveHandler(handlers: seq<HandlerId>, h: HandlerId): (r: seq<HandlerId>)
    ensures h !in handlers ==> r == handlers
    ensures h in handlers ==> r == handlers[..LastIndexOf(handlers, h)] + handlers[LastIndexOf(handlers, h) + 1..]
    decreases |handlers|
  {
    if handlers == [] then []
    else
      var n := |handlers|;
      var front := handlers[..n - 1];
      assert handlers == front + [handlers[n - 1]];
      if handlers[n - 1] == h then front
      else
        var r := RemoveHandler(front, h) + [handlers[n - 1]];
        assert h in front ==> LastIndexOf(handlers, h) == LastIndexOf(front, h) by {
          if h in front {
            var i := LastIndexOf(front, h);
            assert handlers[i] == h && handlers[i + 1..] == front[i + 1..] + [handlers[n - 1]];
          }
        }
        r
  }

  /** Unsubscribing from a list peels off its last entry first. */
  lemma RemoveHandlerLast(front: seq<HandlerId>, last: HandlerId, h: HandlerId)
    ensures RemoveHandler(front + [last], h) == if last == h then front else RemoveHandler(front, h) + [last]
  {
  }

  /** Unsubscribing removes exactly one subscription of h, if there is one. */
  lemma {:induction false} RemoveHandlerCount(handlers: seq<HandlerId>, h: HandlerId)
    ensures multiset(RemoveHandler(handlers, h)) == multiset(handlers) - multiset{h}
    ensures h in handlers ==> |RemoveHandler(handlers, h)| == |handlers| - 1
    decreases |handlers|
  {
    if handlers != [] {
      var front, last := handlers[..|handlers| - 1], handlers[|handlers| - 1];
      assert handlers == front + [last];
      RemoveHandlerLast(front, last, h);
      if last != h {
        RemoveHandlerCount(front, h);
      }
    }
  }
}
