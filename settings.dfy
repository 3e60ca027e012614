/** The general settings record, its defaults, and the pure record constructions the store is
    built from: the load-time overlay of a stored partial record onto the defaults (`Merge`),
    the replacement of one top-level field (`WithField`) and the overwrite of one pet's name
    (`WithPetName`). */
module Settings {
  import opened Wrappers

  /** The closed enumeration of pet tags. */
  datatype PetType = Dog | Cat

  /** A name per pet tag. The record's static type makes it total (see `TotalNames`); storage is
      untyped, so a record read back from storage may hold a map that misses a tag. */
  type PetNames = map<PetType, string>

  ghost predicate TotalNames(names: PetNames) {
    Dog in names && Cat in names
  }

  /** The five-field settings record. */
  datatype GeneralData = GeneralData(
    analyticsEnabled: bool,
    enablePets: bool,
    selectedPets: seq<PetType>,
    petNames: PetNames,
    timezone: string)

  /** The record stored under this key, always in full. */
  const StorageKey: string := "generalSettings"

  /** The compile-time defaults. */
  const DefaultSettings: GeneralData := GeneralData(
    analyticsEnabled := true,
    enablePets := true,
    selectedPets := [Dog],
    petNames := map[Dog := "آکیتا", Cat := "گربه"],
    timezone := "Asia/Tehran")

  /** The keys of the record. */
  datatype Key = AnalyticsEnabledKey | EnablePetsKey | SelectedPetsKey | PetNamesKey | TimezoneKey

  /** A value of some field of the record. */
  datatype Value =
    | BoolValue(flag: bool)
    | PetsValue(pets: seq<PetType>)
    | NamesValue(names: PetNames)
    | TextValue(text: string)

  /** `v` has the type the record declares for field `k`. */
  predicate WellTyped(k: Key, v: Value) {
    match k
    case AnalyticsEnabledKey => v.BoolValue?
    case EnablePetsKey => v.BoolValue?
    case SelectedPetsKey => v.PetsValue?
    case PetNamesKey => v.NamesValue?
    case TimezoneKey => v.TextValue?
  }

  /** A value the record's static type admits for field `k`: well typed, and for `petNames` a
      map with an entry for every tag. */
  ghost predicate Admissible(k: Key, v: Value) {
    WellTyped(k, v) && (v.NamesValue? ==> TotalNames(v.names))
  }

  /** The value of field `k`. */
  function Get(d: GeneralData, k: Key): (v: Value)
    ensures WellTyped(k, v)
  {
    match k
    case AnalyticsEnabledKey => BoolValue(d.analyticsEnabled)
    case EnablePetsKey => BoolValue(d.enablePets)
    case SelectedPetsKey => PetsValue(d.selectedPets)
    case PetNamesKey => NamesValue(d.petNames)
    case TimezoneKey => TextValue(d.timezone)
  }

  /** Two records that agree on every field are the same record: the five keys cover the record. */
  lemma RecordsEqualByFields(a: GeneralData, b: GeneralData)
    requires forall k :: Get(a, k) == Get(b, k)
    ensures a == b
  {
    assert Get(a, AnalyticsEnabledKey) == Get(b, AnalyticsEnabledKey);
    assert Get(a, EnablePetsKey) == Get(b, EnablePetsKey);
    assert Get(a, SelectedPetsKey) == Get(b, SelectedPetsKey);
    assert Get(a, PetNamesKey) == Get(b, PetNamesKey);
    assert Get(a, TimezoneKey) == Get(b, TimezoneKey);
  }

  /** The shallow copy of `d` with field `k` replaced by `v`. For `PetNamesKey` the whole map is
      replaced. */
  function WithField(d: GeneralData, k: Key, v: Value): (r: GeneralData)
    requires WellTyped(k, v)
    ensures Get(r, k) == v
    ensures forall k' :: k' != k ==> Get(r, k') == Get(d, k')
  {
    match k
    case AnalyticsEnabledKey => d.(analyticsEnabled := v.flag)
    case EnablePetsKey => d.(enablePets := v.flag)
    case SelectedPetsKey => d.(selectedPets := v.pets)
    case PetNamesKey => d.(petNames := v.names)
    case TimezoneKey => d.(timezone := v.text)
  }

  /** The contract of `WithField` determines its result: any record with field `k` equal to `v`
      and every other field equal to `d`'s is `WithField(d, k, v)`. */
  lemma WithFieldUnique(d: GeneralData, k: Key, v: Value, e: GeneralData)
    requires WellTyped(k, v)
    requires Get(e, k) == v
    requires forall k' :: k' != k ==> Get(e, k') == Get(d, k')
    ensures e == WithField(d, k, v)
  {
    var r := WithField(d, k, v);
    forall k' ensures Get(e, k') == Get(r, k') {
      if k' != k {
        assert Get(r, k') == Get(d, k');
      }
    }
    RecordsEqualByFields(e, r);
  }

  /** Replacing a field by its own value gives back the record. */
  lemma WithFieldOwnValue(d: GeneralData, k: Key)
    ensures WithField(d, k, Get(d, k)) == d
  {
  }

  /** A later replacement of the same field overrides an earlier one. */
  lemma WithFieldOverrides(d: GeneralData, k: Key, v: Value, w: Value)
    requires WellTyped(k, v) && WellTyped(k, w)
    ensures WithField(WithField(d, k, v), k, w) == WithField(d, k, w)
  {
  }

  /** Replacements of two different fields commute. */
  lemma WithFieldCommutes(d: GeneralData, k: Key, v: Value, j: Key, w: Value)
    requires WellTyped(k, v) && WellTyped(j, w) && k != j
    ensures WithField(WithField(d, k, v), j, w) == WithField(WithField(d, j, w), k, v)
  {
  }

  /** The nested overwrite of one pet's name: the other tags' entries and every other field are
      kept. */
  function WithPetName(d: GeneralData, pet: PetType, name: string): (r: GeneralData)
    ensures pet in r.petNames && r.petNames[pet] == name
    ensures r.petNames.Keys == d.petNames.Keys + {pet}
    ensures forall p :: p != pet && p in d.petNames ==> r.petNames[p] == d.petNames[p]
    ensures forall k :: k != PetNamesKey ==> Get(r, k) == Get(d, k)
  {
    d.(petNames := d.petNames[pet := name])
  }

  /** Overwriting one name is replacing the whole map by the old map with that entry changed. */
  lemma WithPetNameIsWithField(d: GeneralData, pet: PetType, name: string)
    ensures WithPetName(d, pet, name) == WithField(d, PetNamesKey, NamesValue(d.petNames[pet := name]))
  {
  }

  /** Overwriting a name never removes one, so a total map stays total. */
  lemma WithPetNameKeepsTotal(d: GeneralData, pet: PetType, name: string)
    requires TotalNames(d.petNames)
    ensures TotalNames(WithPetName(d, pet, name).petNames)
  {
  }

  /** A partial record as read back from storage: each of the five typed fields is present or
      absent. A present field may hold any value, including `false` or an empty sequence. */
  datatype StoredSettings = StoredSettings(
    analyticsEnabled: Option<bool>,
    enablePets: Option<bool>,
    selectedPets: Option<seq<PetType>>,
    petNames: Option<PetNames>,
    timezone: Option<string>)

  /** The stored record that holds none of the fields. */
  const NothingStored: StoredSettings := StoredSettings(None, None, None, None, None)

  /** The value field `k` holds in the stored record, if it is present. */
  function StoredGet(p: StoredSettings, k: Key): (v: Option<Value>)
    ensures v.Some? ==> WellTyped(k, v.value)
  {
    match k
    case AnalyticsEnabledKey => if p.analyticsEnabled.Some? then Some(BoolValue(p.analyticsEnabled.value)) else None
    case EnablePetsKey => if p.enablePets.Some? then Some(BoolValue(p.enablePets.value)) else None
    case SelectedPetsKey => if p.selectedPets.Some? then Some(PetsValue(p.selectedPets.value)) else None
    case PetNamesKey => if p.petNames.Some? then Some(NamesValue(p.petNames.value)) else None
    case TimezoneKey => if p.timezone.Some? then Some(TextValue(p.timezone.value)) else None
  }

  /** The stored form of a full record: every field present. This is what every setter writes. */
  function Snapshot(d: GeneralData): (p: StoredSettings)
    ensures forall k :: StoredGet(p, k) == Some(Get(d, k))
  {
    StoredSettings(Some(d.analyticsEnabled), Some(d.enablePets), Some(d.selectedPets),
                   Some(d.petNames), Some(d.timezone))
  }

  /** The shallow overlay of a stored partial record onto `defaults`: a present field wins, an
      absent one keeps the default. Fields are replaced whole, `petNames` included. */
  function Merge(defaults: GeneralData, p: StoredSettings): (r: GeneralData)
    ensures forall k :: Get(r, k) == StoredGet(p, k).GetOr(Get(defaults, k))
  {
    GeneralData(
      p.analyticsEnabled.GetOr(defaults.analyticsEnabled),
      p.enablePets.GetOr(defaults.enablePets),
      p.selectedPets.GetOr(defaults.selectedPets),
      p.petNames.GetOr(defaults.petNames),
      p.timezone.GetOr(defaults.timezone))
  }

  /** The overlay is characterised by its per-field contract: a record that agrees with it on every
      field is the overlay. */
  lemma MergeUnique(defaults: GeneralData, p: StoredSettings, e: GeneralData)
    requires forall k :: Get(e, k) == StoredGet(p, k).GetOr(Get(defaults, k))
    ensures e == Merge(defaults, p)
  {
    var r := Merge(defaults, p);
    forall k ensures Get(e, k) == Get(r, k) {
      assert Get(r, k) == StoredGet(p, k).GetOr(Get(defaults, k));
    }
    RecordsEqualByFields(e, r);
  }

  /** Overlaying a record with no fields leaves the defaults exactly as they are. */
  lemma MergeNothingStored(defaults: GeneralData)
    ensures Merge(defaults, NothingStored) == defaults
  {
  }

  /** A stored `petNames` replaces the default map wholesale: a tag that the stored map lacks has
      no name afterwards, even though the defaults name it. */
  lemma MergeReplacesPetNamesWholesale(defaults: GeneralData, p: StoredSettings, pet: PetType)
    requires p.petNames.Some? && pet !in p.petNames.value
    ensures pet !in Merge(defaults, p).petNames
  {
  }

  /** Reading back a full record that a setter wrote gives that record, whatever the defaults. */
  lemma MergeSnapshotRoundTrip(defaults: GeneralData, d: GeneralData)
    ensures Merge(defaults, Snapshot(d)) == d
  {
  }

  /** The defaults name every pet. */
  lemma DefaultNamesTotal()
    ensures TotalNames(DefaultSettings.petNames)
  {
  }
}
