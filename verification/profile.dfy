/**
 * The profile form: loading the stored user with its defaults, the save
 * payload's age normalisation, and editing the medical-condition list.
 */
module Profile {
  import opened Wrappers
  import JsText

  /** The age field holds the typed text, or the number loaded from the store. */
  datatype AgeValue = AgeText(text: string) | AgeNumber(n: int)

  /** JavaScript truthiness of the age field: "" and 0 are falsy. */
  predicate AgeTruthy(v: AgeValue) {
    match v
    case AgeText(t) => t != ""
    case AgeNumber(n) => n != 0
  }

  datatype ProfileForm = ProfileForm(
    age: AgeValue,
    gender: string,
    preferredLanguage: string,
    locationState: string,
    medicalConditions: seq<string>,
    emergencyContact: string)

  /** The user record as returned by the store; any field may be missing. */
  datatype StoredUser = StoredUser(
    age: Option<int>,
    gender: Option<string>,
    preferredLanguage: Option<string>,
    locationState: Option<string>,
    medicalConditions: Option<seq<string>>,
    emergencyContact: Option<string>)

  /** The form before anything is loaded. */
  const InitialForm := ProfileForm(AgeText(""), "", "english", "", [], "")

  /** The form after the load: `me` is the stored user, or None when the lookup threw. */
  function LoadProfile(form: ProfileForm, me: Option<StoredUser>): (r: ProfileForm)
    ensures me.None? ==> r == form
    ensures me.Some? ==> r.preferredLanguage == OrElse(me.value.preferredLanguage, "english")
    ensures me.Some? ==> r.medicalConditions == me.value.medicalConditions.GetOr([])
    ensures me.Some? ==> (r.gender == OrElse(me.value.gender, "")
      && r.locationState == OrElse(me.value.locationState, "")
      && r.emergencyContact == OrElse(me.value.emergencyContact, ""))
    ensures me.Some? ==> (AgeTruthy(r.age) <==> me.value.age.Some? && me.value.age.value != 0)
    ensures me.Some? ==> (r.age ==
      if me.value.age.Some? && me.value.age.value != 0 then AgeNumber(me.value.age.value) else AgeText(""))
    ensures me.Some? ==> r.preferredLanguage != ""
    ensures form.preferredLanguage != "" ==> r.preferredLanguage != ""
  {
    match me
    case None => form
    case Some(u) =>
      ProfileForm(
        if u.age.Some? && u.age.value != 0 then AgeNumber(u.age.value) else AgeText(""),
        OrElse(u.gender, ""),
        OrElse(u.preferredLanguage, "english"),
        OrElse(u.locationState, ""),
        u.medicalConditions.GetOr([]),
        OrElse(u.emergencyContact, ""))
  }

  /** The age sent on save: null for a falsy field, otherwise `parseInt` of the field's value. */
  datatype SavedAge = NullAge | ParseIntOf(value: AgeValue)

  datatype ProfileUpdate = ProfileUpdate(
    age: SavedAge,
    gender: string,
    preferredLanguage: string,
    locationState: string,
    medicalConditions: seq<string>,
    emergencyContact: string)

  /** The payload of the save call: every field of the form, with the age normalised. */
  function SaveRequest(form: ProfileForm): (u: ProfileUpdate)
    ensures u.age == NullAge <==> !AgeTruthy(form.age)
    ensures u.age.ParseIntOf? ==> u.age.value == form.age
    ensures u.gender == form.gender && u.preferredLanguage == form.preferredLanguage
    ensures u.locationState == form.locationState && u.medicalConditions == form.medicalConditions
    ensures u.emergencyContact == form.emergencyContact
  {
    ProfileUpdate(
      if AgeTruthy(form.age) then ParseIntOf(form.age) else NullAge,
      form.gender, form.preferredLanguage, form.locationState, form.medicalConditions, form.emergencyContact)
  }

  /** Saving before anything is loaded sends a null age and English. */
  lemma SaveBeforeLoad()
    ensures SaveRequest(InitialForm) == ProfileUpdate(NullAge, "", "english", "", [], "")
    ensures SaveRequest(LoadProfile(InitialForm, None)) == SaveRequest(InitialForm)
  {
  }

  /** Loading a fully filled-in user and saving it at once writes back the same values. */
  lemma LoadThenSave(form: ProfileForm, u: StoredUser)
    requires u.age.Some? && u.age.value != 0
    requires Truthy(u.gender) && Truthy(u.preferredLanguage) && Truthy(u.locationState) && Truthy(u.emergencyContact)
    requires u.medicalConditions.Some?
    ensures SaveRequest(LoadProfile(form, Some(u))) == ProfileUpdate(
      ParseIntOf(AgeNumber(u.age.value)), u.gender.value, u.preferredLanguage.value,
      u.locationState.value, u.medicalConditions.value, u.emergencyContact.value)
  {
  }

  /** The condition editor: the current list and the text of the "add" field. */
  datatype ConditionEditor = ConditionEditor(conditions: seq<string>, newCondition: string)

  predicate NoDuplicates(xs: seq<string>) {
    forall i, j :: 0 <= i < j < |xs| ==> xs[i] != xs[j]
  }

  /**
   * The add button: the trimmed text is appended and the field cleared when
   * it is non-empty and not yet listed; otherwise nothing changes.
   */
  function AddMedicalCondition(e: ConditionEditor): (r: ConditionEditor)
    ensures var c := JsText.Trim(e.newCondition);
      if c != "" && c !in e.conditions then
        r.conditions == e.conditions + [c] && r.newCondition == ""
      else r == e
    ensures forall x :: x in r.conditions ==> x in e.conditions || x == JsText.Trim(e.newCondition)
    ensures NoDuplicates(e.conditions) ==> NoDuplicates(r.conditions)
  {
    var c := JsText.Trim(e.newCondition);
    if c != "" && c !in e.conditions then ConditionEditor(e.conditions + [c], "") else e
  }

  /** The remove button: every occurrence of `c` is dropped, the rest kept in order. */
  function RemoveMedicalCondition(xs: seq<string>, c: string): (r: seq<string>)
    ensures forall x :: x in r <==> x in xs && x != c
    ensures |r| <= |xs|
    ensures c !in xs ==> r == xs
  {
    if xs == [] then []
    else if xs[0] != c then [xs[0]] + RemoveMedicalCondition(xs[1..], c)
    else RemoveMedicalCondition(xs[1..], c)
  }

  /** Removal works element by element: it distributes over concatenation, so the order of the kept elements is that of the list. */
  lemma {:induction false} RemoveDistributes(xs: seq<string>, ys: seq<string>, c: string)
    ensures RemoveMedicalCondition(xs + ys, c) == RemoveMedicalCondition(xs, c) + RemoveMedicalCondition(ys, c)
  {
    if xs == [] {
      assert xs + ys == ys;
    } else {
      assert (xs + ys)[0] == xs[0];
      assert (xs + ys)[1..] == xs[1..] + ys;
      RemoveDistributes(xs[1..], ys, c);
    }
  }

  /** Removing a condition just added restores the list as it was. */
  lemma RemoveUndoesAdd(e: ConditionEditor)
    requires JsText.Trim(e.newCondition) != "" && JsText.Trim(e.newCondition) !in e.conditions
    ensures RemoveMedicalCondition(AddMedicalCondition(e).conditions, JsText.Trim(e.newCondition)) == e.conditions
  {
    var c := JsText.Trim(e.newCondition);
    RemoveDistributes(e.conditions, [c], c);
    assert RemoveMedicalCondition([c], c) == [];
  }

  /** Removal keeps a duplicate-free list duplicate-free. */
  lemma {:induction false} RemoveKeepsNoDuplicates(xs: seq<string>, c: string)
    requires NoDuplicates(xs)
    ensures NoDuplicates(RemoveMedicalCondition(xs, c))
  {
    if xs != [] {
      RemoveKeepsNoDuplicates(xs[1..], c);
      var rest := RemoveMedicalCondition(xs[1..], c);
      if xs[0] != c {
        assert xs[0] !in xs[1..];
        assert xs[0] !in rest;
        var r := [xs[0]] + rest;
        forall i, j | 0 <= i < j < |r| ensures r[i] != r[j] {
          if i == 0 {
            assert r[j] == rest[j - 1];
          } else {
            assert r[i] == rest[i - 1] && r[j] == rest[j - 1];
          }
        }
      }
    }
  }
}
