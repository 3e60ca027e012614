# General settings store

This project models the general-settings context of a browser-extension settings panel. The provider holds one five-field settings record:

- the analytics opt-in,
- the pet decorations switch,
- the selected pet tags,
- a name per pet tag,
- the timezone.

When it mounts, the provider reads the stored record once and lays it over the compile-time defaults. It then raises its `isInitialized` flag, and it renders nothing before that. It hands its consumers the record and six setters. Each setter builds a new record and writes the whole record under the single storage key `generalSettings`. A consumer under a provider that is not yet initialized is not rendered. A rendered consumer's hook fails when no provider encloses it.

The model has four modules:

- `Wrappers` (`wrappers.dfy`) holds `Option` and `Result`.
- `Settings` (`settings.dfy`) holds the record `GeneralData`, the pet tags, `DefaultSettings` and the storage key. It also holds the pure record constructions: `Merge` (the spread overlay at load time), `WithField` (the spread with a computed key in `updateSetting`) and `WithPetName` (the nested spread in `setPetName`). Fields are accessed uniformly through `Get(d, k)`, which lets contracts say "field `k` changes and no other does".
- `Session` (`session.dfy`) turns each setter call into a value. `Step` is what one call does to the record. `Run` is what a sequence of calls does. `Trace` is the list of storage writes a sequence issues.
- `GeneralSettingContext` (`general_setting_context.dfy`) holds the provider as a class. Its fields are `settings`, `isInitialized` and a ghost log `writes` that stands for the `setToStorage` calls. It has a `LoadGeneralSettings(outcome)` method and one method per setter. `Apply` and `ApplyAll` drive the provider through one call or a sequence of calls. They tie its `settings` and `writes` to `Session.Step`, `Session.Run` and `Session.Trace`. It also holds the consumer hook `UseGeneralSetting` and `ConsumerIn`, which says what happens to a consumer component: it is not rendered, it fails, or it obtains the settings. `Valid()` is the provider's invariant. Before initialization the provider still holds the defaults and has written nothing. Every write goes to `generalSettings`.

The load runs once, on a provider that is not yet initialized, because the effect has no dependencies. The setters run only on an initialized provider, because consumers reach them only through the value the provider publishes after initialization.

The result of the storage read is an input: the read is rejected, it yields a falsy value, or it yields a partial record. Storage writes are appended to the ghost log and not performed.

Three points about the code:

- `updateSetting`'s key type admits `petNames` too. In that case the whole map is replaced.
- Nothing guarantees that every pet tag has a name after a load. A stored `petNames` map may miss a tag. The load replaces the map wholesale, so the default name for that tag is lost (`Settings.MergeReplacesPetNamesWholesale`). The setters do keep a total map total.
- The load overlays the stored record onto the defaults, not onto the current record.

## Model

| member | source | states |
|---|---|---|
| `Settings.RecordsEqualByFields` | src/context/general-setting.context.tsx:6-12 | the five keys cover the record: two records that agree on every field are equal |
| `Settings.DefaultNamesTotal` | src/context/general-setting.context.tsx:23-29 | the default record names both pet tags |
| `Settings.Merge` | src/context/general-setting.context.tsx:43-46 | after the overlay, each field equals the stored value when that field is present and the default otherwise |
| `Settings.MergeUnique` | src/context/general-setting.context.tsx:43-46 | the per-field rule above determines the overlaid record completely |
| `Settings.MergeNothingStored` | src/context/general-setting.context.tsx:42-46 | a stored record with no fields leaves the defaults exactly as they are |
| `Settings.MergeReplacesPetNamesWholesale` | src/context/general-setting.context.tsx:44-45 | a stored `petNames` replaces the default map whole: a tag the stored map lacks has no name afterwards |
| `Settings.Snapshot` | src/context/general-setting.context.tsx:63 | the stored form of a full record has every field present with the record's value |
| `Settings.MergeSnapshotRoundTrip` | src/context/general-setting.context.tsx:40-46 | reading back a full record that a setter wrote yields that record, whatever the defaults |
| `Settings.WithField` | src/context/general-setting.context.tsx:58-61 | field `key` becomes `value` (for `petNames`, the whole map) and the other four fields are unchanged |
| `Settings.WithFieldUnique` | src/context/general-setting.context.tsx:58-61 | any record with that one field replaced and the other four kept is the updated record |
| `Settings.WithFieldOwnValue` | src/context/general-setting.context.tsx:58-61 | writing a field's own value back leaves the record unchanged |
| `Settings.WithFieldOverrides` | src/context/general-setting.context.tsx:58-61 | a second update of the same field overrides the first |
| `Settings.WithFieldCommutes` | src/context/general-setting.context.tsx:58-61 | updates of two different fields commute |
| `Settings.WithPetName` | src/context/general-setting.context.tsx:78-79 | `petNames[pet]` becomes `value`, the other tag's entry is kept, no entry is removed, and every other field is unchanged |
| `Settings.WithPetNameIsWithField` | src/context/general-setting.context.tsx:76-79 | the nested overwrite equals replacing the whole map by the old map with one entry changed |
| `Settings.WithPetNameKeepsTotal` | src/context/general-setting.context.tsx:78 | overwriting a name keeps a map that names both tags naming both |
| `Session.Step` | src/context/general-setting.context.tsx:56-91 | one setter call changes only the field it names: a replacing setter sets that field to its argument; `setPetName` changes one entry of `petNames` |
| `Session.ConvenienceSetterDelegates` | src/context/general-setting.context.tsx:68-91 | `setEnablePets`, `setAnalyticsEnabled`, `setSelectedPets` and `setTimezone` each equal `updateSetting` with their key |
| `Session.SetPetNameDelegates` | src/context/general-setting.context.tsx:76-83 | `setPetName` equals `updateSetting('petNames', …)` with the old map and one entry changed |
| `Session.StepKeepsTotalNames` | src/context/general-setting.context.tsx:56-83 | a setter call with type-correct values keeps both tags named |
| `Session.Trace` | src/context/general-setting.context.tsx:63-64 | a sequence of n setter calls issues exactly n writes, all under `generalSettings`, and the last write is the final record |
| `Session.TraceAt` | src/context/general-setting.context.tsx:63-81 | the i-th write is the full record after the first i+1 calls, since each setter's updater writes the record it returns (`updateSetting` at 63-64, which the four convenience setters reach, and `setPetName` at 80-81) |
| `Session.TraceSnoc` | src/context/general-setting.context.tsx:57-65 | one more setter call performs one more `Step` and issues exactly one more write, holding the record that call produced |
| `Session.RunAppend` | src/context/general-setting.context.tsx:57-65 | each setter builds on the record the previous one produced: running two call sequences in turn equals running their concatenation |
| `Session.RunUntouched` | src/context/general-setting.context.tsx:58-61 | a field that no call in a sequence names keeps its value |
| `Session.LastCallWins` | src/context/general-setting.context.tsx:56-65 | a field's final value is the one given by the last replacing call on it |
| `Session.RunKeepsTotalNames` | src/context/general-setting.context.tsx:76-83 | any sequence of type-correct setter calls keeps both tags named |
| `GeneralSettingContext.GeneralSettingProvider.constructor` | src/context/general-setting.context.tsx:34-35 | a new provider holds the defaults, is not initialized and has written nothing |
| `GeneralSettingContext.GeneralSettingProvider.LoadGeneralSettings` | src/context/general-setting.context.tsx:37-54 | runs on an uninitialized provider; a found record gives the defaults overlaid with it; a rejected read or a falsy value leaves exactly the defaults; the flag is true afterwards in every case; nothing is written |
| `GeneralSettingContext.GeneralSettingProvider.UpdateSetting` | src/context/general-setting.context.tsx:56-66 | on an initialized provider, the record becomes the old record with field `key` replaced; exactly one write is appended, under `generalSettings`, and it holds the new record; the flag is unchanged |
| `GeneralSettingContext.GeneralSettingProvider.SetEnablePets` | src/context/general-setting.context.tsx:68-70 | same as `UpdateSetting` with the `enablePets` key |
| `GeneralSettingContext.GeneralSettingProvider.SetAnalyticsEnabled` | src/context/general-setting.context.tsx:72-74 | same as `UpdateSetting` with the `analyticsEnabled` key |
| `GeneralSettingContext.GeneralSettingProvider.SetPetName` | src/context/general-setting.context.tsx:76-83 | on an initialized provider, the record becomes `WithPetName` of the old one; exactly one write is appended and it holds the new record; the flag is unchanged |
| `GeneralSettingContext.GeneralSettingProvider.SetSelectedPets` | src/context/general-setting.context.tsx:85-87 | same as `UpdateSetting` with the `selectedPets` key |
| `GeneralSettingContext.GeneralSettingProvider.SetTimezone` | src/context/general-setting.context.tsx:89-91 | same as `UpdateSetting` with the `timezone` key |
| `GeneralSettingContext.Apply` | src/context/general-setting.context.tsx:56-91 | calling any one setter on an initialized provider changes the record exactly as `Session.Step` says and appends exactly one full-record write |
| `GeneralSettingContext.ApplyAll` | src/context/general-setting.context.tsx:56-91 | a session of setter calls leaves the provider with the record `Session.Run` gives and appends exactly the writes `Session.Trace` gives, so the sequence lemmas hold of the provider |
| `GeneralSettingContext.UseGeneralSetting` | src/context/general-setting.context.tsx:114-121 | the hook fails with the misuse message exactly when there is no context value, and otherwise returns that value |
| `GeneralSettingContext.GeneralSettingProvider.ProvidedValue` | src/context/general-setting.context.tsx:93-105 | the published context value: absent exactly while the render gate `RendersChildren` is closed, and otherwise the current record |
| `GeneralSettingContext.ConsumerIn` | src/context/general-setting.context.tsx:93-121 | a consumer under a provider whose render gate `RendersChildren` (the `isInitialized` check) is closed is not rendered; a rendered consumer reads its context value through `ContextIn` (the `useContext` lookup, lines 31 and 115, whose default is `null`) and fails with the misuse message exactly when no provider encloses it, and otherwise obtains the provider's current record |
| `GeneralSettingContext.LoadStoredTimezone` | src/context/general-setting.context.tsx:40-46 | when the stored record holds only a timezone, the loaded record is the defaults with only the timezone replaced |
| `GeneralSettingContext.LoadRejected` | src/context/general-setting.context.tsx:39-50 | a rejected read leaves exactly the defaults and still initializes the provider |
| `GeneralSettingContext.SelectPetsThenRename` | src/context/general-setting.context.tsx:76-87 | after selecting both pets and then renaming the cat, both changes are present and the dog keeps its default name; exactly two full records were written, the last equal to the final record |
| `GeneralSettingContext.ConsumeAroundLoad` | src/context/general-setting.context.tsx:93-95 | before the load attempt finishes the provider renders no consumer; after it, a consumer obtains the loaded record |
| `GeneralSettingContext.ConsumeOutsideProvider` | src/context/general-setting.context.tsx:117-119 | a consumer outside every provider fails with the misuse message |

## Left out

- React machinery (`createContext`, `useState`, `useEffect`, JSX rendering). The provider is a plain object. The render gate is the published value being absent.
- The model assumes React calls each state updater once and runs the mount effect once. Under React StrictMode in development, updaters and mount effects are invoked twice. Each setter would then issue two identical writes (the `setToStorage` calls at 63 and 80 sit inside the updaters), and the store would be loaded twice. "Exactly one write per setter" and "the load runs once" hold only without that double invocation.
- The context value's setter functions are not modelled as values. They are the provider object's methods. `ConsumerIn` hands a consumer the record only.
- `getFromStorage` and `setToStorage` (`@/common/storage`) are not part of this model. The read's outcome is an input to `LoadGeneralSettings`. Writes are appended to a ghost log.
- Asynchronous timing is not modelled. This covers the order in which fire-and-forget writes complete, and the rejection that escapes the unawaited load call. Only the resulting state is modelled.
- The untyped storage value is restricted to the five typed fields, each present or absent. Extra keys, wrongly typed field values and truthy non-object values are outside the model. A stored `petNames` map may miss tags.
- Timezone validity is not modelled: the timezone is an arbitrary string, as in the code.
- "Every setter yields a new record reference" has no meaning over Dafny values. The old record can never be changed, because records are immutable values.
- The settings tab (`src/layouts/setting/tabs/general/general.tsx`) is left out. It only forwards props to widgets whose sources are not part of this model.
