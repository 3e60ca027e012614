/** The six setters of the store as values, what one call does to the record (`Step`), what a
    sequence of calls does (`Run`), and the storage writes such a sequence issues (`Trace`): one
    full-record write under the storage key per call. */
module Session {
  import opened Wrappers
  import opened Settings

  /** One call of a setter the store exposes. */
  datatype Call =
    | UpdateSetting(key: Key, value: Value)
    | SetEnablePets(enabled: bool)
    | SetAnalyticsEnabled(enabled: bool)
    | SetPetName(pet: PetType, name: string)
    | SetSelectedPets(pets: seq<PetType>)
    | SetTimezone(timezone: string)

  /** One call of `setToStorage`: a key and the record written under it. */
  datatype Write = Write(key: string, value: GeneralData)

  /** The call is type correct: `updateSetting`'s value has the type of its key's field. */
  predicate WellFormed(c: Call) {
    c.UpdateSetting? ==> WellTyped(c.key, c.value)
  }

  /** The call passes values the record's static type admits (a total `petNames` map). */
  ghost predicate AdmissibleCall(c: Call) {
    c.UpdateSetting? ==> Admissible(c.key, c.value)
  }

  /** The one top-level field the call changes. */
  function Touches(c: Call): Key {
    match c
    case UpdateSetting(k, _) => k
    case SetEnablePets(_) => EnablePetsKey
    case SetAnalyticsEnabled(_) => AnalyticsEnabledKey
    case SetPetName(_, _) => PetNamesKey
    case SetSelectedPets(_) => SelectedPetsKey
    case SetTimezone(_) => TimezoneKey
  }

  /** The value a replacing call (every setter except `setPetName`) gives its field. */
  function Assigned(c: Call): (v: Value)
    requires WellFormed(c) && !c.SetPetName?
    ensures WellTyped(Touches(c), v)
  {
    match c
    case UpdateSetting(_, v) => v
    case SetEnablePets(b) => BoolValue(b)
    case SetAnalyticsEnabled(b) => BoolValue(b)
    case SetSelectedPets(s) => PetsValue(s)
    case SetTimezone(t) => TextValue(t)
  }

  /** The record after one call. */
  function Step(d: GeneralData, c: Call): (r: GeneralData)
    requires WellFormed(c)
    ensures !c.SetPetName? ==> Get(r, Touches(c)) == Assigned(c)
    ensures c.SetPetName? ==> r.petNames == d.petNames[c.pet := c.name]
    ensures forall k :: k != Touches(c) ==> Get(r, k) == Get(d, k)
  {
    match c
    case UpdateSetting(k, v) => WithField(d, k, v)
    case SetEnablePets(b) => WithField(d, EnablePetsKey, BoolValue(b))
    case SetAnalyticsEnabled(b) => WithField(d, AnalyticsEnabledKey, BoolValue(b))
    case SetPetName(pet, name) => WithPetName(d, pet, name)
    case SetSelectedPets(s) => WithField(d, SelectedPetsKey, PetsValue(s))
    case SetTimezone(t) => WithField(d, TimezoneKey, TextValue(t))
  }

  /** Each convenience setter is `updateSetting` with its own key. */
  lemma ConvenienceSetterDelegates(d: GeneralData, c: Call)
    requires !c.UpdateSetting? && !c.SetPetName?
    ensures Step(d, c) == Step(d, UpdateSetting(Touches(c), Assigned(c)))
  {
  }

  /** `setPetName` is `updateSetting` of the whole map with one entry changed. */
  lemma SetPetNameDelegates(d: GeneralData, pet: PetType, name: string)
    ensures Step(d, SetPetName(pet, name)) == Step(d, UpdateSetting(PetNamesKey, NamesValue(d.petNames[pet := name])))
  {
  }

  /** A call with admissible values keeps a total `petNames` map total. */
  lemma StepKeepsTotalNames(d: GeneralData, c: Call)
    requires WellFormed(c) && AdmissibleCall(c) && TotalNames(d.petNames)
    ensures TotalNames(Step(d, c).petNames)
  {
  }

  ghost predicate AllWellFormed(cs: seq<Call>) {
    forall i :: 0 <= i < |cs| ==> WellFormed(cs[i])
  }

  /** The record after a sequence of calls, in call order. */
  function Run(d: GeneralData, cs: seq<Call>): GeneralData
    requires AllWellFormed(cs)
    decreases |cs|
  {
    if cs == [] then d else Run(Step(d, cs[0]), cs[1..])
  }

  /** The writes a sequence of calls issues, in call order: each call writes the full record it
      produced, under the storage key. */
  function Trace(d: GeneralData, cs: seq<Call>): (w: seq<Write>)
    requires AllWellFormed(cs)
    ensures |w| == |cs|
    ensures forall i :: 0 <= i < |w| ==> w[i].key == StorageKey
    ensures cs != [] ==> w[|w| - 1].value == Run(d, cs)
    decreases |cs|
  {
    if cs == [] then [] else [Write(StorageKey, Step(d, cs[0]))] + Trace(Step(d, cs[0]), cs[1..])
  }

  /** Running two sequences one after the other is running their concatenation. */
  lemma {:induction false} RunAppend(d: GeneralData, a: seq<Call>, b: seq<Call>)
    requires AllWellFormed(a) && AllWellFormed(b)
    ensures AllWellFormed(a + b)
    ensures Run(d, a + b) == Run(Run(d, a), b)
    decreases |a|
  {
    assert AllWellFormed(a + b) by {
      forall i | 0 <= i < |a + b| ensures WellFormed((a + b)[i]) {
        if i < |a| { assert (a + b)[i] == a[i]; } else { assert (a + b)[i] == b[i - |a|]; }
      }
    }
    if a != [] {
      assert (a + b)[0] == a[0];
      assert (a + b)[1..] == a[1..] + b;
      RunAppend(Step(d, a[0]), a[1..], b);
    } else {
      assert a + b == b;
    }
  }

  /** A field no call touches keeps its value through the whole sequence. */
  lemma {:induction false} RunUntouched(d: GeneralData, cs: seq<Call>, k: Key)
    requires AllWellFormed(cs)
    requires forall i :: 0 <= i < |cs| ==> Touches(cs[i]) != k
    ensures Get(Run(d, cs), k) == Get(d, k)
    decreases |cs|
  {
    if cs != [] {
      RunUntouched(Step(d, cs[0]), cs[1..], k);
    }
  }

  /** The last replacing call on a field decides its final value. */
  lemma LastCallWins(d: GeneralData, cs: seq<Call>, i: nat)
    requires AllWellFormed(cs)
    requires i < |cs| && !cs[i].SetPetName?
    requires forall j :: i < j < |cs| ==> Touches(cs[j]) != Touches(cs[i])
    ensures Get(Run(d, cs), Touches(cs[i])) == Assigned(cs[i])
  {
    var before, rest := cs[..i + 1], cs[i + 1..];
    assert cs == before + rest;
    assert AllWellFormed(before) && AllWellFormed(rest);
    RunAppend(d, before, rest);
    RunAppend(d, cs[..i], [cs[i]]);
    assert cs[..i] + [cs[i]] == before;
    assert AllWellFormed(cs[..i]);
    ghost var mid := Run(Run(d, cs[..i]), [cs[i]]);
    assert mid == Step(Run(d, cs[..i]), cs[i]);
    RunUntouched(mid, rest, Touches(cs[i]));
  }

  /** The i-th write holds the record after the first i + 1 calls. */
  lemma {:induction false} TraceAt(d: GeneralData, cs: seq<Call>, i: nat)
    requires AllWellFormed(cs) && i < |cs|
    ensures AllWellFormed(cs[..i + 1])
    ensures Trace(d, cs)[i] == Write(StorageKey, Run(d, cs[..i + 1]))
    decreases |cs|
  {
    if i > 0 {
      TraceAt(Step(d, cs[0]), cs[1..], i - 1);
      assert cs[1..][..i] == cs[..i + 1][1..];
    } else {
      assert cs[..1][1..] == [];
    }
  }

  /** One more call performs one more `Step` and issues exactly one more write, of the record
      that call produced. */
  lemma {:induction false} TraceSnoc(d: GeneralData, cs: seq<Call>, c: Call)
    requires AllWellFormed(cs) && WellFormed(c)
    ensures AllWellFormed(cs + [c])
    ensures Run(d, cs + [c]) == Step(Run(d, cs), c)
    ensures Trace(d, cs + [c]) == Trace(d, cs) + [Write(StorageKey, Step(Run(d, cs), c))]
    decreases |cs|
  {
    assert AllWellFormed(cs + [c]) by {
      forall i | 0 <= i < |cs + [c]| ensures WellFormed((cs + [c])[i]) {
        if i < |cs| { assert (cs + [c])[i] == cs[i]; }
      }
    }
    if cs == [] {
      assert cs + [c] == [c];
    } else {
      assert (cs + [c])[0] == cs[0];
      assert (cs + [c])[1..] == cs[1..] + [c];
      TraceSnoc(Step(d, cs[0]), cs[1..], c);
    }
  }

  /** Calls with admissible values keep a total `petNames` map total. */
  lemma {:induction false} RunKeepsTotalNames(d: GeneralData, cs: seq<Call>)
    requires AllWellFormed(cs) && TotalNames(d.petNames)
    requires forall i :: 0 <= i < |cs| ==> AdmissibleCall(cs[i])
    ensures TotalNames(Run(d, cs).petNames)
    decreases |cs|
  {
    if cs != [] {
      StepKeepsTotalNames(d, cs[0]);
      RunKeepsTotalNames(Step(d, cs[0]), cs[1..]);
    }
  }
}
