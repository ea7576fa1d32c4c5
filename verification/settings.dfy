/**
 Acquaint's static Settings class, as one object that owns the backend
 contents, the invocation list of the phrase-changed event, the number of
 times that event was raised, and the ordered log of backend writes and
 handler invocations.
 */
module AcquaintSettings {
  import opened SettingsModel

  class Settings {
    /** Contents of the platform settings backend. */
    var store: Store
    /** Invocation list of OnDataPartitionPhraseChanged; empty when the event is null. */
    var subscribers: seq<HandlerId>
    /** How many times the phrase-changed event has been raised. */
    ghost var raised: nat
    /** Backend writes and handler invocations, in the order they happened. */
    ghost var log: seq<Event>
    /** Backend contents before the first logged event. */
    ghost const origin: Store

    /** The backend holds well-typed settings, and is exactly what the logged writes made of it. */
    ghost predicate Valid()
      reads this
    {
      WellTyped(store) && store == Replay(origin, log)
    }

    constructor (backend: Store)
      requires WellTyped(backend)
      ensures Valid()
      ensures store == backend && origin == backend
      ensures subscribers == [] && raised == 0 && log == []
    {
      store := backend;
      origin := backend;
      subscribers := [];
      raised := 0;
      log := [];
    }

    /* -------------------------------------------------------------------------
     Getters
     ------------------------------------------------------------------------- */

    function AzureAppServiceUrl(): (url: string)
      reads this
      requires Valid()
      ensures AzureAppServiceUrlKey !in store ==> url == "https://app-acquaint.azurewebsites.net"
      ensures AzureAppServiceUrlKey in store ==> store[AzureAppServiceUrlKey] == Str(url)
    {
      Get(store, SettingId.AzureAppServiceUrl).s
    }

    function DataPartitionPhrase(): (phrase: string)
      reads this
      requires Valid()
      ensures DataPartitionPhraseKey !in store ==> phrase == ""
      ensures DataPartitionPhraseKey in store ==> store[DataPartitionPhraseKey] == Str(phrase)
    {
      Get(store, SettingId.DataPartitionPhrase).s
    }

    function ImageCacheDurationHours(): (hours: int)
      reads this
      requires Valid()
      ensures ImageCacheDurationHoursKey !in store ==> hours == 1
      ensures ImageCacheDurationHoursKey in store ==> store[ImageCacheDurationHoursKey] == Int(hours)
    {
      Get(store, SettingId.ImageCacheDurationHours).i
    }

    function DataIsSeeded(): (seeded: bool)
      reads this
      requires Valid()
      ensures DataIsSeededKey !in store ==> !seeded
      ensures DataIsSeededKey in store ==> store[DataIsSeededKey] == Bool(seeded)
    {
      Get(store, SettingId.DataIsSeeded).b
    }

    function LocalDataResetIsRequested(): (requested: bool)
      reads this
      requires Valid()
      ensures LocalDataResetIsRequestedKey !in store ==> !requested
      ensures LocalDataResetIsRequestedKey in store ==> store[LocalDataResetIsRequestedKey] == Bool(requested)
    {
      Get(store, SettingId.LocalDataResetIsRequested).b
    }

    function ClearImageCacheIsRequested(): (requested: bool)
      reads this
      requires Valid()
      ensures ClearImageCacheIsRequestedKey !in store ==> !requested
      ensures ClearImageCacheIsRequestedKey in store ==> store[ClearImageCacheIsRequestedKey] == Bool(requested)
    {
      Get(store, SettingId.ClearImageCacheIsRequested).b
    }

    /** True exactly when the stored phrase is the sentinel; never for the default "". */
    function IsUsingLocalDataSource(): (local: bool)
      reads this
      requires Valid()
      ensures local <==> DataPartitionPhraseKey in store && store[DataPartitionPhraseKey] == Str("UseLocalDataSource")
    {
      SettingsModel.IsUsingLocalDataSource(store)
    }

    /* -------------------------------------------------------------------------
     The change event
     ------------------------------------------------------------------------- */

    /** `OnDataPartitionPhraseChanged += h`: h joins the end of the invocation list. */
    method Subscribe(h: HandlerId)
      requires Valid()
      modifies this
      ensures Valid()
      ensures subscribers == old(subscribers) + [h]
      ensures store == old(store) && raised == old(raised) && log == old(log)
    {
      subscribers := subscribers + [h];
    }

    /** `OnDataPartitionPhraseChanged -= h`: the last subscription of h, if any, is dropped. */
    method Unsubscribe(h: HandlerId)
      requires Valid()
      modifies this
      ensures Valid()
      ensures subscribers == RemoveHandler(old(subscribers), h)
      ensures multiset(subscribers) == multiset(old(subscribers)) - multiset{h}
      ensures store == old(store) && raised == old(raised) && log == old(log)
    {
      subscribers := RemoveHandler(subscribers, h);
      RemoveHandlerCount(old(subscribers), h);
    }

    /**
     Invokes every subscribed handler once, in order; with no subscriber nothing is invoked.
     The name keeps the source's own spelling ("Parition").
     */
    method RaiseDataParitionPhraseChangedEvent()
      requires Valid()
      modifies this
      ensures Valid()
      ensures raised == old(raised) + 1
      ensures log == old(log) + Invocations(subscribers)
      ensures old(subscribers) == [] ==> log == old(log)
      ensures store == old(store) && subscribers == old(subscribers)
    {
      raised := raised + 1;
      var handler := subscribers;
      if handler != [] {
        ReplayIgnoresInvocations(origin, log, handler);
        log := log + Invocations(handler);
      } else {
        assert log + Invocations(handler) == log;
      }
    }

    /* -------------------------------------------------------------------------
     Setters
     ------------------------------------------------------------------------- */

    /** One AddOrUpdateValue call on the backend, under the setting's key. */
    method Write(id: SettingId, v: Value)
      requires Valid() && KindOf(v) == DeclaredKind(id)
      modifies this
      ensures Valid()
      ensures store == Put(old(store), id, v)
      ensures log == old(log) + [Wrote(Key(id), v)]
      ensures subscribers == old(subscribers) && raised == old(raised)
      ensures Get(store, id) == v
      ensures forall other: SettingId :: other != id ==> Get(store, other) == Get(old(store), other)
    {
      ReplayWrite(origin, log, Key(id), v);
      WriteThenRead(store, id, v);
      forall other: SettingId | other != id
        ensures Get(Put(store, id, v), other) == Get(store, other)
      {
        WriteFrame(store, id, other, v);
      }
      store := AddOrUpdateValue(store, Key(id), v);
      log := log + [Wrote(Key(id), v)];
    }

    method SetAzureAppServiceUrl(url: string)
      requires Valid()
      modifies this
      ensures Valid()
      ensures store == Put(old(store), SettingId.AzureAppServiceUrl, Str(url))
      ensures log == old(log) + [Wrote(AzureAppServiceUrlKey, Str(url))]
      ensures subscribers == old(subscribers) && raised == old(raised)
      ensures AzureAppServiceUrl() == url
      ensures forall other: SettingId :: other != SettingId.AzureAppServiceUrl ==> Get(store, other) == Get(old(store), other)
    {
      Write(SettingId.AzureAppServiceUrl, Str(url));
    }

    /** The only setter that raises the change event, once, after the backend write. */
    method SetDataPartitionPhrase(phrase: string)
      requires Valid()
      modifies this
      ensures Valid()
      ensures store == Put(old(store), SettingId.DataPartitionPhrase, Str(phrase))
      ensures log == old(log) + [Wrote(DataPartitionPhraseKey, Str(phrase))] + Invocations(old(subscribers))
      ensures subscribers == old(subscribers) && raised == old(raised) + 1
      ensures DataPartitionPhrase() == phrase
      ensures IsUsingLocalDataSource() <==> phrase == "UseLocalDataSource"
      ensures forall other: SettingId :: other != SettingId.DataPartitionPhrase ==> Get(store, other) == Get(old(store), other)
    {
      LocalDataSourceAfterWrite(store, phrase);
      Write(SettingId.DataPartitionPhrase, Str(phrase));
      RaiseDataParitionPhraseChangedEvent();
    }

    method SetImageCacheDurationHours(hours: int)
      requires Valid()
      modifies this
      ensures Valid()
      ensures store == Put(old(store), SettingId.ImageCacheDurationHours, Int(hours))
      ensures log == old(log) + [Wrote(ImageCacheDurationHoursKey, Int(hours))]
      ensures subscribers == old(subscribers) && raised == old(raised)
      ensures ImageCacheDurationHours() == hours
      ensures forall other: SettingId :: other != SettingId.ImageCacheDurationHours ==> Get(store, other) == Get(old(store), other)
    {
      Write(SettingId.ImageCacheDurationHours, Int(hours));
    }

    method SetDataIsSeeded(seeded: bool)
      requires Valid()
      modifies this
      ensures Valid()
      ensures store == Put(old(store), SettingId.DataIsSeeded, Bool(seeded))
      ensures log == old(log) + [Wrote(DataIsSeededKey, Bool(seeded))]
      ensures subscribers == old(subscribers) && raised == old(raised)
      ensures DataIsSeeded() == seeded
      ensures forall other: SettingId :: other != SettingId.DataIsSeeded ==> Get(store, other) == Get(old(store), other)
    {
      Write(SettingId.DataIsSeeded, Bool(seeded));
    }

    method SetLocalDataResetIsRequested(requested: bool)
      requires Valid()
      modifies this
      ensures Valid()
      ensures store == Put(old(store), SettingId.LocalDataResetIsRequested, Bool(requested))
      ensures log == old(log) + [Wrote(LocalDataResetIsRequestedKey, Bool(requested))]
      ensures subscribers == old(subscribers) && raised == old(raised)
      ensures LocalDataResetIsRequested() == requested
      ensures forall other: SettingId :: other != SettingId.LocalDataResetIsRequested ==> Get(store, other) == Get(old(store), other)
    {
      Write(SettingId.LocalDataResetIsRequested, Bool(requested));
    }

    method SetClearImageCacheIsRequested(requested: bool)
      requires Valid()
      modifies this
      ensures Valid()
      ensures store == Put(old(store), SettingId.ClearImageCacheIsRequested, Bool(requested))
      ensures log == old(log) + [Wrote(ClearImageCacheIsRequestedKey, Bool(requested))]
      ensures subscribers == old(subscribers) && raised == old(raised)
      ensures ClearImageCacheIsRequested() == requested
      ensures forall other: SettingId :: other != SettingId.ClearImageCacheIsRequested ==> Get(store, other) == Get(old(store), other)
    {
      Write(SettingId.ClearImageCacheIsRequested, Bool(requested));
    }

    /* -------------------------------------------------------------------------
     Reset
     ------------------------------------------------------------------------- */

    /**
     Four backend writes in order: DataIsSeeded to its default, LocalDataResetIsRequested
     to true (not to its default), and the URL and cache duration to their defaults.
     The phrase and the clear-cache flag are not written, so no event is raised.
     */
    method ResetUserConfigurableSettingsToDefaults()
      requires Valid()
      modifies this
      ensures Valid()
      ensures store == ResetStore(old(store))
      ensures log == old(log) + ResetWrites()
      ensures subscribers == old(subscribers) && raised == old(raised)
      ensures !DataIsSeeded() && LocalDataResetIsRequested()
      ensures AzureAppServiceUrl() == "https://app-acquaint.azurewebsites.net"
      ensures ImageCacheDurationHours() == 1
      ensures DataPartitionPhrase() == old(DataPartitionPhrase())
      ensures ClearImageCacheIsRequested() == old(ClearImageCacheIsRequested())
    {
      ghost var before, logged := store, log;
      ResetIsFourWrites(before);
      ResetPostState(before);
      ResetWritesAppended(logged);
      SetDataIsSeeded(DataIsSeededDefault);
      SetLocalDataResetIsRequested(true);
      SetAzureAppServiceUrl(AzureAppServiceUrlDefault);
      SetImageCacheDurationHours(ImageCacheDurationHoursDefault);
    }
  }
}
