/** The profile form: its fields, the dirty flag that enables Save, the sync
    from the stored profile, and the validation and normalisation applied
    before the profile row is updated. */
module Profile {

  import opened Common
  import opened Text

  /** The stored profile row; every column is nullable. */
  datatype StoredProfile = StoredProfile(
    fullName: Option<string>, age: Option<int>, hairType: Option<string>, familyHistory: Option<bool>)

  /** The update sent to the profile row: nulls where the form was empty. */
  datatype ProfileUpdate = ProfileUpdate(
    fullName: Option<string>, age: Option<int>, hairType: Option<string>, familyHistory: bool)

  const AGE_ERROR: string := "Age must be between 1 and 120"
  const MAX_NAME: nat := 100

  // ---------------------------------------------------------------- validation

  /** The age box: empty means no age; otherwise `parseInt` must give a number
      from 1 to 120. */
  function ParseAge(age: string): Result<Option<int>, string>
  {
    if age == "" then Ok(None)
    else
      var parsed := ParseInt(age);
      if parsed.None? || parsed.value < 1 || parsed.value > 120 then Err(AGE_ERROR)
      else Ok(Some(parsed.value))
  }

  /** An empty box is accepted as no age; any other text is accepted exactly
      when `parseInt` reads a number in 1..120 from it, and then that number is
      the age. */
  lemma ParseAgeCases(age: string)
    ensures ParseAge(age) == Ok(None) <==> age == ""
    ensures ParseAge(age).Err? <==>
      age != "" && (ParseInt(age).None? || ParseInt(age).value < 1 || ParseInt(age).value > 120)
    ensures ParseAge(age).Err? ==> ParseAge(age).error == AGE_ERROR
    ensures ParseAge(age).Ok? && ParseAge(age).value.Some? ==>
      1 <= ParseAge(age).value.value <= 120 && ParseInt(age) == Some(ParseAge(age).value.value)
  {
  }

  /** The saved name: trimmed, cut to its first 100 characters, null when empty. */
  function NormalizeName(name: string): Option<string>
  {
    var t := Trim(name);
    var cut := if |t| <= MAX_NAME then t else t[..MAX_NAME];
    if cut == "" then None else Some(cut)
  }

  /** The saved name is the start of the trimmed input, at most 100 characters
      long and never empty; it is null exactly when the input is all white
      space; a trimmed name of at most 100 characters is saved whole. */
  lemma NormalizeNameShape(name: string)
    ensures NormalizeName(name).Some? ==>
      var n := NormalizeName(name).value;
      && n != "" && |n| <= MAX_NAME && n <= Trim(name) && !IsSpace(n[0])
    ensures NormalizeName(name).None? <==> forall i :: 0 <= i < |name| ==> IsSpace(name[i])
    ensures |Trim(name)| <= MAX_NAME && Trim(name) != "" ==> NormalizeName(name) == Some(Trim(name))
  {
    var t := Trim(name);
    if |t| > MAX_NAME {
      assert t[..MAX_NAME][0] == t[0];
    }
  }

  /** `hairType || null`. */
  function EmptyToNull(s: string): (r: Option<string>)
    ensures r.None? <==> s == ""
    ensures r.Some? ==> r.value == s
  {
    if s == "" then None else Some(s)
  }

  /** The form's text fields and switch, as `mutationFn` reads them. */
  datatype FormValues = FormValues(fullName: string, age: string, hairType: string, familyHistory: bool)

  /** `mutationFn`: the age check, then the update it sends. */
  function Validate(v: FormValues): Result<ProfileUpdate, string>
  {
    var age := ParseAge(v.age);
    if age.Err? then Err(age.error)
    else Ok(ProfileUpdate(NormalizeName(v.fullName), age.value, EmptyToNull(v.hairType), v.familyHistory))
  }

  /** A bad age stops the save with the age message and no update; otherwise
      the update carries the normalised name, the parsed age, the hair type or
      null, and the family-history switch as it is. */
  lemma ValidateCases(v: FormValues)
    ensures Validate(v).Err? <==> ParseAge(v.age).Err?
    ensures Validate(v).Err? ==> Validate(v).error == AGE_ERROR
    ensures Validate(v).Ok? ==>
      var u := Validate(v).value;
      && u.fullName == NormalizeName(v.fullName)
      && Ok(u.age) == ParseAge(v.age)
      && (u.hairType.None? <==> v.hairType == "")
      && (u.hairType.Some? ==> u.hairType.value == v.hairType)
      && u.familyHistory == v.familyHistory
  {
    ParseAgeCases(v.age);
  }

  // ---------------------------------------------------------------- sync from the stored row

  /** `profile.full_name || ""`, and likewise for the other fields. */
  function FormOf(p: StoredProfile): FormValues
  {
    FormValues(
      if p.fullName.Some? then p.fullName.value else "",
      if p.age.Some? then IntToString(p.age.value) else "",
      if p.hairType.Some? then p.hairType.value else "",
      if p.familyHistory.Some? then p.familyHistory.value else false)
  }

  /** A profile the form can hold unchanged: its name needs no trimming and
      fits, its age is in range, and its texts are not empty strings. */
  predicate Normalized(p: StoredProfile)
  {
    && (p.fullName.Some? ==> p.fullName.value != "" && |p.fullName.value| <= MAX_NAME
                             && !IsSpace(p.fullName.value[0])
                             && !IsSpace(p.fullName.value[|p.fullName.value| - 1]))
    && (p.age.Some? ==> 1 <= p.age.value <= 120)
    && (p.hairType.Some? ==> p.hairType.value != "")
  }

  lemma TrimKeepsTrimmed(s: string)
    requires s != [] && !IsSpace(s[0]) && !IsSpace(s[|s| - 1])
    ensures Trim(s) == s
  {
    assert TrimStart(s) == s;
    assert TrimEnd(s) == s;
  }

  /** A stored name that needs no trimming and fits is saved back as it is. */
  lemma NameRoundTrip(name: Option<string>)
    requires name.Some? ==> name.value != "" && |name.value| <= MAX_NAME
                            && !IsSpace(name.value[0]) && !IsSpace(name.value[|name.value| - 1])
    ensures NormalizeName(if name.Some? then name.value else "") == name
  {
    if name.Some? {
      TrimKeepsTrimmed(name.value);
    } else {
      assert Trim("") == "";
    }
  }

  /** A stored age in range, written into the box and read back, is the same age. */
  lemma AgeRoundTrip(age: Option<int>)
    requires age.Some? ==> 1 <= age.value <= 120
    ensures ParseAge(if age.Some? then IntToString(age.value) else "") == Ok(age)
  {
    if age.Some? {
      ParseIntRoundTrip(age.value);
    }
  }

  /** Loading a normalised profile and saving it untouched writes the same
      values back; a missing family-history flag is written as false. */
  lemma LoadThenSave(p: StoredProfile)
    requires Normalized(p)
    ensures Validate(FormOf(p)) == Ok(ProfileUpdate(
      p.fullName, p.age, p.hairType, p.familyHistory.Some? && p.familyHistory.value))
  {
    NameRoundTrip(p.fullName);
    AgeRoundTrip(p.age);
  }

  // ---------------------------------------------------------------- the form

  /** The form's state. `pending` is the save request in flight. */
  class ProfileForm {
    var fullName: string
    var age: string
    var hairType: string
    var familyHistory: bool
    var weeklyReminder: bool
    var dirty: bool
    var pending: bool

    function Values(): FormValues
      reads this
    {
      FormValues(fullName, age, hairType, familyHistory)
    }

    /** The first render: empty fields, reminders on, nothing to save. */
    constructor ()
      ensures Values() == FormValues("", "", "", false)
      ensures weeklyReminder && !dirty && !pending
    {
      fullName := "";
      age := "";
      hairType := "";
      familyHistory := false;
      weeklyReminder := true;
      dirty := false;
      pending := false;
    }

    /** Save is enabled when something changed and no save is in flight. */
    predicate CanSave()
      reads this
    {
      dirty && !pending
    }

    /** The sync effect when the profile (re)loads. */
    method Load(p: StoredProfile)
      modifies this
      ensures Values() == FormOf(p) && !dirty
      ensures weeklyReminder == old(weeklyReminder) && pending == old(pending)
    {
      var f := FormOf(p);
      fullName := f.fullName;
      age := f.age;
      hairType := f.hairType;
      familyHistory := f.familyHistory;
      dirty := false;
    }

    /** The name, age, hair type and family-history inputs go through
        `handleChange`, which marks the form dirty. */
    method EditName(v: string)
      modifies this
      ensures Values() == old(Values()).(fullName := v) && dirty
      ensures weeklyReminder == old(weeklyReminder) && pending == old(pending)
    {
      fullName := v;
      dirty := true;
    }

    method EditAge(v: string)
      modifies this
      ensures Values() == old(Values()).(age := v) && dirty
      ensures weeklyReminder == old(weeklyReminder) && pending == old(pending)
    {
      age := v;
      dirty := true;
    }

    method EditHairType(v: string)
      modifies this
      ensures Values() == old(Values()).(hairType := v) && dirty
      ensures weeklyReminder == old(weeklyReminder) && pending == old(pending)
    {
      hairType := v;
      dirty := true;
    }

    method EditFamilyHistory(v: bool)
      modifies this
      ensures Values() == old(Values()).(familyHistory := v) && dirty
      ensures weeklyReminder == old(weeklyReminder) && pending == old(pending)
    {
      familyHistory := v;
      dirty := true;
    }

    /** The reminder switch sets its value directly and leaves the dirty flag alone. */
    method SetWeeklyReminder(v: bool)
      modifies this
      ensures weeklyReminder == v
      ensures Values() == old(Values()) && dirty == old(dirty) && pending == old(pending)
    {
      weeklyReminder := v;
    }

    /** Save: a bad age fails at once and sends nothing; a valid form sends its
        update, which stays in flight until `Settle`. */
    method Save() returns (request: Result<ProfileUpdate, string>)
      requires CanSave()
      modifies this
      ensures request == Validate(old(Values()))
      ensures pending <==> request.Ok?
      ensures Values() == old(Values()) && dirty == old(dirty) && weeklyReminder == old(weeklyReminder)
    {
      request := Validate(Values());
      pending := request.Ok?;
    }

    /** The reply to the update: success marks the form clean; an error keeps it dirty. */
    method Settle(succeeded: bool)
      requires pending
      modifies this
      ensures !pending
      ensures dirty == (old(dirty) && !succeeded)
      ensures Values() == old(Values()) && weeklyReminder == old(weeklyReminder)
    {
      pending := false;
      if succeeded {
        dirty := false;
      }
    }
  }

  /** The inputs stay editable while a save is in flight, and its success
      clears the dirty flag whatever was typed meanwhile: a name typed during
      the save is not the one saved, yet Save is left disabled. */
  method EditDuringSave(first: string, second: string) returns (saved: Option<string>, shown: string, canSave: bool)
    requires first != "" && |first| <= MAX_NAME && !IsSpace(first[0]) && !IsSpace(first[|first| - 1])
    requires second != first
    ensures saved == Some(first) && shown == second && saved != Some(shown) && !canSave
  {
    var form := new ProfileForm();
    form.EditName(first);
    var request := form.Save();
    form.EditName(second);
    form.Settle(true);
    NameRoundTrip(Some(first));
    saved := request.value.fullName;
    shown := form.fullName;
    canSave := form.CanSave();
  }
}
