/** The settings provider as a state object: the record it holds, the flag that gates rendering,
    and a log of the storage writes it issues; plus the consumer hook that fails outside a
    provider. */
module GeneralSettingContext {
  import opened Wrappers
  import opened Settings
  import opened Session

  /** What the one-shot read of the stored record yields: the read fails (the promise rejects),
      it yields a falsy value (nothing stored), or it yields a record. */
  datatype LoadOutcome = LoadFailed | NothingFound | Found(stored: StoredSettings)

  /** The error the consumer hook raises when no provider value is in scope. */
  const MisuseMessage: string := "useGeneralSetting must be used within a GeneralSettingProvider"

  class GeneralSettingProvider {
    /** The record every consumer sees. */
    var settings: GeneralData
    /** Set once the load attempt has finished, whatever its outcome; never cleared. */
    var isInitialized: bool
    /** The `setToStorage` calls issued so far, oldest first. */
    ghost var writes: seq<Write>

    /** Before the load attempt finishes the provider still holds the defaults and has written
        nothing (its setters reach no consumer yet); every write goes to the one storage key. */
    ghost predicate Valid()
      reads this
    {
      && (!isInitialized ==> settings == DefaultSettings && writes == [])
      && (forall i :: 0 <= i < |writes| ==> writes[i].key == StorageKey)
    }

    /** The render gate: the provider renders its children only once it is initialized. */
    predicate RendersChildren()
      reads this
    {
      isInitialized
    }

    /** A freshly mounted provider: defaults, not initialized, nothing written. */
    constructor ()
      ensures Valid()
      ensures settings == DefaultSettings && !isInitialized && writes == []
    {
      settings := DefaultSettings;
      isInitialized := false;
      writes := [];
    }

    /** The value the provider publishes to its subtree: none until it is initialized, then the
        current record (the setters are this object's methods). */
    function ProvidedValue(): (v: Option<GeneralData>)
      reads this
      ensures v.Some? <==> RendersChildren()
      ensures v.Some? ==> v.value == settings
    {
      if isInitialized then Some(settings) else None
    }

    /** The load effect, run once on mount. A found record is overlaid onto the defaults; a
        failed read or a falsy value leaves the defaults. The flag is set in every case.
        Loading writes nothing. */
    method LoadGeneralSettings(outcome: LoadOutcome)
      requires Valid() && !isInitialized
      modifies this
      ensures Valid()
      ensures isInitialized
      ensures writes == old(writes)
      ensures outcome.Found? ==> settings == Merge(DefaultSettings, outcome.stored)
      ensures !outcome.Found? ==> settings == old(settings) == DefaultSettings
    {
      match outcome {
        case Found(stored) =>
          settings := Merge(DefaultSettings, stored);
        case NothingFound =>
        case LoadFailed =>
      }
      isInitialized := true;
    }

    /** Replaces one top-level field (for `PetNamesKey` the whole map) and writes the full new
        record under the storage key. */
    method UpdateSetting(key: Key, value: Value)
      requires Valid() && isInitialized && WellTyped(key, value)
      modifies this
      ensures Valid()
      ensures settings == WithField(old(settings), key, value)
      ensures writes == old(writes) + [Write(StorageKey, settings)]
      ensures isInitialized == old(isInitialized)
    {
      var newSettings := WithField(settings, key, value);
      writes := writes + [Write(StorageKey, newSettings)];
      settings := newSettings;
    }

    method SetEnablePets(value: bool)
      requires Valid() && isInitialized
      modifies this
      ensures Valid()
      ensures settings == WithField(old(settings), EnablePetsKey, BoolValue(value))
      ensures writes == old(writes) + [Write(StorageKey, settings)]
      ensures isInitialized == old(isInitialized)
    {
      UpdateSetting(EnablePetsKey, BoolValue(value));
    }

    method SetAnalyticsEnabled(value: bool)
      requires Valid() && isInitialized
      modifies this
      ensures Valid()
      ensures settings == WithField(old(settings), AnalyticsEnabledKey, BoolValue(value))
      ensures writes == old(writes) + [Write(StorageKey, settings)]
      ensures isInitialized == old(isInitialized)
    {
      UpdateSetting(AnalyticsEnabledKey, BoolValue(value));
    }

    /** Overwrites one pet's name, keeping the other entries, and writes the full new record. */
    method SetPetName(pet: PetType, value: string)
      requires Valid() && isInitialized
      modifies this
      ensures Valid()
      ensures settings == WithPetName(old(settings), pet, value)
      ensures writes == old(writes) + [Write(StorageKey, settings)]
      ensures isInitialized == old(isInitialized)
    {
      var newSettings := WithPetName(settings, pet, value);
      writes := writes + [Write(StorageKey, newSettings)];
      settings := newSettings;
    }

    method SetSelectedPets(pets: seq<PetType>)
      requires Valid() && isInitialized
      modifies this
      ensures Valid()
      ensures settings == WithField(old(settings), SelectedPetsKey, PetsValue(pets))
      ensures writes == old(writes) + [Write(StorageKey, settings)]
      ensures isInitialized == old(isInitialized)
    {
      UpdateSetting(SelectedPetsKey, PetsValue(pets));
    }

    method SetTimezone(value: string)
      requires Valid() && isInitialized
      modifies this
      ensures Valid()
      ensures settings == WithField(old(settings), TimezoneKey, TextValue(value))
      ensures writes == old(writes) + [Write(StorageKey, settings)]
      ensures isInitialized == old(isInitialized)
    {
      UpdateSetting(TimezoneKey, TextValue(value));
    }
  }

  /** A user interaction: one call of the setter `c` names, on an initialized provider. Its effect
      on the record is `Step`, and it appends exactly one full-record write. */
  method Apply(provider: GeneralSettingProvider, c: Call)
    requires provider.Valid() && provider.isInitialized && WellFormed(c)
    modifies provider
    ensures provider.Valid() && provider.isInitialized
    ensures provider.settings == Step(old(provider.settings), c)
    ensures provider.writes == old(provider.writes) + [Write(StorageKey, provider.settings)]
  {
    match c {
      case UpdateSetting(k, v) => provider.UpdateSetting(k, v);
      case SetEnablePets(b) => provider.SetEnablePets(b);
      case SetAnalyticsEnabled(b) => provider.SetAnalyticsEnabled(b);
      case SetPetName(pet, name) => provider.SetPetName(pet, name);
      case SetSelectedPets(pets) => provider.SetSelectedPets(pets);
      case SetTimezone(t) => provider.SetTimezone(t);
    }
  }

  /** A session of user interactions, in order: the provider ends with the record `Run` gives and
      has appended exactly the writes `Trace` gives, so the lemmas about `Run` and `Trace` hold of
      the provider itself. */
  method ApplyAll(provider: GeneralSettingProvider, cs: seq<Call>)
    requires provider.Valid() && provider.isInitialized && AllWellFormed(cs)
    modifies provider
    ensures provider.Valid() && provider.isInitialized
    ensures provider.settings == Run(old(provider.settings), cs)
    ensures provider.writes == old(provider.writes) + Trace(old(provider.settings), cs)
  {
    ghost var start, log := provider.settings, provider.writes;
    var i := 0;
    while i < |cs|
      invariant 0 <= i <= |cs|
      invariant provider.Valid() && provider.isInitialized
      invariant AllWellFormed(cs[..i])
      invariant provider.settings == Run(start, cs[..i])
      invariant provider.writes == log + Trace(start, cs[..i])
    {
      TraceSnoc(start, cs[..i], cs[i]);
      assert cs[..i] + [cs[i]] == cs[..i + 1];
      Apply(provider, cs[i]);
      i := i + 1;
    }
    assert cs[..i] == cs;
  }

  /** The consumer hook over the context value in scope: it fails with the misuse error when there
      is none, and otherwise hands out the published record. */
  function UseGeneralSetting(context: Option<GeneralData>): (r: Result<GeneralData, string>)
    ensures r.Failure? <==> context.None?
    ensures r.Failure? ==> r.error == MisuseMessage
    ensures r.Success? ==> r.value == context.value
  {
    match context
    case None => Failure(MisuseMessage)
    case Some(value) => Success(value)
  }

  /** What happens to a consumer component: the enclosing provider does not render it yet, or it
      runs the hook, which fails or yields the settings. */
  datatype Consumer = NotRendered | Failed(error: string) | Obtained(settings: GeneralData)

  /** The context value a rendered consumer sees: the context's default (none) when no provider
      encloses it, the enclosing provider's published value otherwise. */
  function ContextIn(provider: GeneralSettingProvider?): Option<GeneralData>
    reads provider
  {
    if provider == null then None else provider.ProvidedValue()
  }

  /** A consumer under an uninitialized provider is not rendered at all. A rendered consumer fails
      with the misuse error exactly when no provider encloses it, and otherwise obtains the
      provider's current record. */
  function ConsumerIn(provider: GeneralSettingProvider?): (r: Consumer)
    reads provider
    ensures r.NotRendered? <==> provider != null && !provider.RendersChildren()
    ensures r.Failed? <==> provider == null
    ensures r.Failed? ==> r.error == MisuseMessage
    ensures r.Obtained? ==> provider != null && r.settings == provider.settings
  {
    if provider != null && !provider.RendersChildren() then NotRendered
    else match UseGeneralSetting(ContextIn(provider))
      case Failure(e) => Failed(e)
      case Success(d) => Obtained(d)
  }

  /** Stored `{timezone: 'Europe/Berlin'}`: the loaded record is the defaults with only the
      timezone replaced, and the provider is initialized. */
  method LoadStoredTimezone() returns (s: GeneralData, initialized: bool)
    ensures s == DefaultSettings.(timezone := "Europe/Berlin")
    ensures initialized
  {
    var provider := new GeneralSettingProvider();
    provider.LoadGeneralSettings(Found(NothingStored.(timezone := Some("Europe/Berlin"))));
    s, initialized := provider.settings, provider.isInitialized;
  }

  /** A rejected read: the record stays exactly the defaults and the provider is initialized. */
  method LoadRejected() returns (s: GeneralData, initialized: bool)
    ensures s == DefaultSettings
    ensures initialized
  {
    var provider := new GeneralSettingProvider();
    provider.LoadGeneralSettings(LoadFailed);
    s, initialized := provider.settings, provider.isInitialized;
  }

  /** Selecting both pets and then renaming the cat: both changes are in the final record, the
      dog keeps its default name, and two full records were written, the last equal to the
      final record. */
  method SelectPetsThenRename() returns (s: GeneralData, ghost written: seq<Write>)
    ensures s == DefaultSettings.(selectedPets := [Dog, Cat], petNames := map[Dog := "آکیتا", Cat := "Gorbe"])
    ensures written == [Write(StorageKey, DefaultSettings.(selectedPets := [Dog, Cat])), Write(StorageKey, s)]
  {
    var provider := new GeneralSettingProvider();
    provider.LoadGeneralSettings(NothingFound);
    provider.SetSelectedPets([Dog, Cat]);
    provider.SetPetName(Cat, "Gorbe");
    s, written := provider.settings, provider.writes;
  }

  /** Before its load attempt finishes a provider renders no consumer; after it, a consumer
      obtains the loaded record. */
  method ConsumeAroundLoad(outcome: LoadOutcome) returns (before: Consumer, after: Consumer)
    ensures before == NotRendered
    ensures after.Obtained?
    ensures outcome.Found? ==> after.settings == Merge(DefaultSettings, outcome.stored)
    ensures !outcome.Found? ==> after.settings == DefaultSettings
  {
    var provider := new GeneralSettingProvider();
    before := ConsumerIn(provider);
    provider.LoadGeneralSettings(outcome);
    after := ConsumerIn(provider);
  }

  /** A consumer outside every provider fails with the misuse error. */
  method ConsumeOutsideProvider() returns (r: Consumer)
    ensures r == Failed(MisuseMessage)
  {
    r := ConsumerIn(null);
  }
}
