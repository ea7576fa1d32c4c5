# Acquaint settings store, modelled in Dafny

Acquaint keeps its application settings in one static class, `Acquaint.Util.Settings`. It
puts six strongly-typed properties over the untyped key/value store of the cross-platform
settings plugin:

- the Azure App Service URL (string);
- the data partition phrase (string);
- the image cache duration in hours (int);
- three flags: data is seeded, local data reset is requested, and clear image cache is requested.

Each property has a fixed persistence key and a compile-time default. A getter calls
`GetValueOrDefault(key, default)`. A setter calls `AddOrUpdateValue(key, value)`.

The setter of the partition phrase also raises `OnDataPartitionPhraseChanged` after its write.
`ResetUserConfigurableSettingsToDefaults` performs four writes in a fixed order. It forces
`LocalDataResetIsRequested` to `true`, not to its default `false`. `IsUsingLocalDataSource`
holds when the phrase is exactly `"UseLocalDataSource"`.

The project has two modules:

- `SettingsModel` (`settings_model.dfy`) is pure. It holds:
  - the tagged backend value (`Str | Int | Bool`) and the catalog of six settings with their keys, declared types and defaults;
  - the backend as a `map<string, Value>`, with the plugin's lookup and write;
  - the reset as a map override, `store + ResetValues`;
  - an ordered log of effects (backend writes and handler invocations) and `Replay`, which gives the backend contents a log produces;
  - the invocation-list operations of the event, and the lemmas.
- `AcquaintSettings` (`settings.dfy`) turns the static class into one object, `Settings`. Its fields are:
  - `store`, the backend contents;
  - `subscribers`, the invocation list of the event (empty means the event is `null`);
  - `raised` (ghost), how many times the event has been raised;
  - `log` (ghost), the backend writes and handler invocations in program order.

  `raised` and `log` have no counterpart in the source; they only record what happened, so that
  contracts can speak of it. The raise method keeps the source's name,
  `RaiseDataParitionPhraseChangedEvent`, spelling included.

  `Valid()` says two things. The store is well typed, and it equals the replay of the log from the
  contents the object started with. The getters and `IsUsingLocalDataSource` are functions.
  The setters, the event's add and remove, the raise and the reset are methods.

The reset's name does not match what it writes, and this model follows the code. The source file
groups the settings into two regions:

- "user-configurable": URL, phrase and cache hours;
- "non-user-configurable": the three flags.

Even so, `ResetUserConfigurableSettingsToDefaults` writes `DataIsSeeded` and
`LocalDataResetIsRequested`. It does not write `DataPartitionPhrase`, although that setting
sits in the user-configurable region. The model resets what the code resets: seeded, reset
requested, URL and cache hours. It leaves the phrase and the clear-cache flag alone.

## Model

| member | source | states |
|---|---|---|
| `SettingsModel.Default` | App/Common/Acquaint.Util/Settings.cs:43-86 | every setting's compile-time default has the type its property declares |
| `SettingsModel.KeysDistinct` | App/Common/Acquaint.Util/Settings.cs:43-85 | two settings share a persistence key iff they are the same setting |
| `SettingsModel.Get` | App/Common/Acquaint.Util/Settings.cs:52-104 | a typed read yields the stored value under the setting's key when present, else the setting's default, and always a value of the declared type |
| `SettingsModel.FreshStoreDefaults` | App/Common/Acquaint.Util/Settings.cs:43-104 | on an empty backend the reads give the URL `https://app-acquaint.azurewebsites.net`, phrase `""`, cache hours `1` and `false` for all three flags |
| `SettingsModel.WriteThenRead` | App/Common/Acquaint.Util/Settings.cs:52-104 | after writing `v` to a setting, reading that setting gives `v`, and the backend stays well typed |
| `SettingsModel.WriteFrame` | App/Common/Acquaint.Util/Settings.cs:43-104 | writing one setting leaves every other setting reading as before (the keys are distinct) |
| `SettingsModel.WriteIdempotent` | App/Common/Acquaint.Util/Settings.cs:52-104 | writing the same value twice leaves the same backend as writing it once |
| `SettingsModel.LocalDataSourceIff` | App/Common/Acquaint.Util/Settings.cs:25 | the data source is local iff the phrase key is present and holds exactly `"UseLocalDataSource"`, so never for the absent-key default `""` |
| `SettingsModel.LocalDataSourceAfterWrite` | App/Common/Acquaint.Util/Settings.cs:25-65 | after writing phrase `p`, the data source is local iff `p` is exactly `"UseLocalDataSource"` |
| `SettingsModel.ResetIsFourWrites` | App/Common/Acquaint.Util/Settings.cs:17-23 | the reset's four sequential writes produce the same backend as overriding it with the reset values |
| `SettingsModel.ReplayResetWrites` | App/Common/Acquaint.Util/Settings.cs:17-23 | replaying the reset's four log entries, in order, from any backend gives the reset backend |
| `SettingsModel.ResetPostState` | App/Common/Acquaint.Util/Settings.cs:17-23 | after a reset: seeded is false, reset-requested is true (unlike its default), the URL and cache hours are their defaults, and the phrase and clear-cache flag read as before |
| `SettingsModel.ResetIdempotent` | App/Common/Acquaint.Util/Settings.cs:17-23 | resetting twice leaves the same backend as resetting once |
| `SettingsModel.Invocations` | App/Common/Acquaint.Util/Settings.cs:33-39 | raising the event invokes each subscribed handler exactly once, in subscription order |
| `SettingsModel.ReplayIgnoresInvocations` | App/Common/Acquaint.Util/Settings.cs:33-39 | handler invocations change nothing in the backend |
| `SettingsModel.ReplayWrite` | App/Common/Acquaint.Util/Settings.cs:55-103 | a logged write updates exactly its key in the replayed backend |
| `SettingsModel.LastIndexOf` | App/Common/Acquaint.Util/Settings.cs:27 | finds the last subscription of a handler: it holds that handler and none follows it |
| `SettingsModel.RemoveHandler` | App/Common/Acquaint.Util/Settings.cs:27 | unsubscribing drops the last occurrence of the handler and keeps the rest in order; an absent handler leaves the list unchanged |
| `SettingsModel.RemoveHandlerCount` | App/Common/Acquaint.Util/Settings.cs:27 | unsubscribing removes exactly one subscription of the handler if there is one (multiset and length) |
| `AcquaintSettings.Settings.constructor` | App/Common/Acquaint.Util/Settings.cs:12-15 | the store starts as the given backend, with no subscriber, no raise and an empty log |
| `AcquaintSettings.Settings.AzureAppServiceUrl` | App/Common/Acquaint.Util/Settings.cs:54 | the stored URL, or `https://app-acquaint.azurewebsites.net` when never written |
| `AcquaintSettings.Settings.DataPartitionPhrase` | App/Common/Acquaint.Util/Settings.cs:60 | the stored phrase, or `""` when never written |
| `AcquaintSettings.Settings.ImageCacheDurationHours` | App/Common/Acquaint.Util/Settings.cs:70 | the stored hours, or `1` when never written |
| `AcquaintSettings.Settings.DataIsSeeded` | App/Common/Acquaint.Util/Settings.cs:102 | the stored flag, or `false` when never written |
| `AcquaintSettings.Settings.LocalDataResetIsRequested` | App/Common/Acquaint.Util/Settings.cs:90 | the stored flag, or `false` when never written |
| `AcquaintSettings.Settings.ClearImageCacheIsRequested` | App/Common/Acquaint.Util/Settings.cs:96 | the stored flag, or `false` when never written |
| `AcquaintSettings.Settings.IsUsingLocalDataSource` | App/Common/Acquaint.Util/Settings.cs:25 | true iff the backend holds exactly `"UseLocalDataSource"` under the phrase key |
| `AcquaintSettings.Settings.Subscribe` | App/Common/Acquaint.Util/Settings.cs:27 | adding a handler appends it to the invocation list and changes nothing else |
| `AcquaintSettings.Settings.Unsubscribe` | App/Common/Acquaint.Util/Settings.cs:27 | removing a handler drops one subscription of it (the last) and changes nothing else |
| `AcquaintSettings.Settings.RaiseDataParitionPhraseChangedEvent` | App/Common/Acquaint.Util/Settings.cs:33-39 | counts one raise and logs one invocation per subscriber; with no subscriber nothing is invoked; the backend is untouched |
| `AcquaintSettings.Settings.Write` | App/Common/Acquaint.Util/Settings.cs:55-103 | one backend write: logs it, makes the setting read back as written, keeps every other setting and the store's invariant |
| `AcquaintSettings.Settings.SetAzureAppServiceUrl` | App/Common/Acquaint.Util/Settings.cs:55 | writes only the URL key, reads back the new URL, raises no event |
| `AcquaintSettings.Settings.SetDataPartitionPhrase` | App/Common/Acquaint.Util/Settings.cs:61-65 | writes only the phrase key, then raises the event exactly once (log: the write, then one invocation per subscriber); reads back the phrase; local iff it is the sentinel |
| `AcquaintSettings.Settings.SetImageCacheDurationHours` | App/Common/Acquaint.Util/Settings.cs:71 | writes only the cache-hours key, reads back the new hours, raises no event |
| `AcquaintSettings.Settings.SetDataIsSeeded` | App/Common/Acquaint.Util/Settings.cs:103 | writes only the seeded key, reads back the new flag, raises no event |
| `AcquaintSettings.Settings.SetLocalDataResetIsRequested` | App/Common/Acquaint.Util/Settings.cs:91 | writes only the reset-requested key, reads back the new flag, raises no event |
| `AcquaintSettings.Settings.SetClearImageCacheIsRequested` | App/Common/Acquaint.Util/Settings.cs:97 | writes only the clear-cache key, reads back the new flag, raises no event |
| `AcquaintSettings.Settings.ResetUserConfigurableSettingsToDefaults` | App/Common/Acquaint.Util/Settings.cs:17-23 | the backend becomes the reset store; the log gains the four writes in source order; no event is raised; seeded false, reset requested true, URL and hours at their defaults, phrase and clear-cache flag as before |

## Left out

- The plugin backend: how it persists values, how durable it is, any caching it does and how it coerces types. It is a map with the ordinary lookup and update semantics.
- Values of the wrong type in the backend. `AcquaintSettings.Settings.constructor` requires a well-typed backend, and every write keeps it well typed. The source does not handle a mismatch either.
- Null string values. In C# the URL and phrase setters accept `null` and pass it to the backend, and the phrase setter still raises the event. What the plugin stores for `null` is backend behaviour, and the model's strings are never null. So the read-back contracts of the string setters cover only non-null values.
- Backend I/O failures and exceptions. They would propagate to the caller, and no operation here fails.
- What event handlers do, including a handler that writes the phrase again. An invocation is a log entry carrying the handler's identity. The `sender` (`null`) and `EventArgs` (`null`) arguments are not modelled.
- Concurrency: interleaved callers and last-writer-wins across threads.
- The 32-bit range of `ImageCacheDurationHours`. It is an unbounded `int`, because the code does no arithmetic on it.
- Adding a `null` delegate to the event, a no-op in C#. Handlers are identities here and are never null.
- The Xamarin.Forms floating action button view is not part of this model. It only declares bindable properties and delegates.
