/**
 * Two pieces of the restaurants app's serializers: the rider's minimum-age check, and the
 * restaurant's nested-representative `create` and `update`, where uploaded files named
 * "representative.photo" and "restaurant_image" take the place of the submitted values.
 *
 * `today` is a parameter, and so are the uploaded files: `None` when the serializer has no
 * request, otherwise the request's file map.
 */
module RestaurantSerializers {
  import opened Wrappers
  import opened Json
  import opened Entities
  import opened ModelRows

  const TooYoung: string := "Rider must be at least 18 years old."
  const MinimumAge: int := 18
  const NotAMapping: string := "TypeError: 'representative' is not a mapping"

  // ---- RiderSerializer.validate_date_of_birth -----------------------------------------------

  /** `(a.month, a.day) < (b.month, b.day)` on Python tuples. */
  predicate MonthDayBefore(a: Date, b: Date)
  {
    a.month < b.month || (a.month == b.month && a.day < b.day)
  }

  /** Completed years: the year difference, less one while this year's birthday is still ahead. */
  function Age(dob: Date, today: Date): int
  {
    today.year - dob.year - (if MonthDayBefore(today, dob) then 1 else 0)
  }

  /** The date is rejected when the age is below 18; an empty value is not checked; a kept value is returned as given. */
  function ValidateDateOfBirth(value: Option<Date>, today: Date): (r: Result<Option<Date>>)
    ensures r.Ok? ==> r.value == value
    ensures r.Err? ==> r.error == TooYoung
    ensures value.None? ==> r == Ok(None)
    ensures value.Some? ==> (r.Err? <==> Age(value.value, today) < MinimumAge)
  {
    match value
    case None => Ok(None)
    case Some(dob) => if Age(dob, today) < MinimumAge then Err(TooYoung) else Ok(value)
  }

  /** Dates compared year first, then month, then day. */
  predicate DateLe(a: Date, b: Date)
  {
    a.year < b.year || (a.year == b.year && (a.month < b.month || (a.month == b.month && a.day <= b.day)))
  }

  /**
   * The check, stated without arithmetic: a birth date is accepted exactly when its 18th
   * anniversary, taken as the same month and day 18 years later, is today or earlier.
   */
  lemma AcceptedIffEighteenthBirthdayPassed(dob: Date, today: Date)
    ensures ValidateDateOfBirth(Some(dob), today).Ok? <==>
              DateLe(Date(dob.year + MinimumAge, dob.month, dob.day), today)
  {
  }

  /** A rider whose 18th birthday is today is accepted; the day before, they are not. */
  lemma EighteenthBirthday(dob: Date)
    requires dob.day > 1
    ensures ValidateDateOfBirth(Some(dob), Date(dob.year + 18, dob.month, dob.day)) == Ok(Some(dob))
    ensures ValidateDateOfBirth(Some(dob), Date(dob.year + 18, dob.month, dob.day - 1)) == Err(TooYoung)
  {
  }

  // ---- RestaurantSerializer.create / update ------------------------------------------------

  /**
   * `validated_data.pop("representative", {})`, with the uploaded photo put in; `None` when
   * the submitted value is not a dict.
   */
  function RepData(validated: map<string, Json>, files: Option<map<string, Json>>): (r: Option<map<string, Json>>)
    ensures r.None? <==> "representative" in validated && !validated["representative"].JObj?
    ensures r.Some? && files.Some? && "representative.photo" in files.value ==>
              r.value == (if "representative" in validated then validated["representative"].fields else map[])
                           ["photo" := files.value["representative.photo"]]
    ensures r.Some? && (files.None? || "representative.photo" !in files.value) ==>
              r.value == (if "representative" in validated then validated["representative"].fields else map[])
  {
    var given := if "representative" in validated then validated["representative"] else JObj(map[]);
    if !given.JObj? then None
    else if files.Some? && "representative.photo" in files.value then
      Some(given.fields["photo" := files.value["representative.photo"]])
    else Some(given.fields)
  }

  /** The remaining validated data, with the uploaded restaurant image put in. */
  function RestaurantData(validated: map<string, Json>, files: Option<map<string, Json>>): (r: map<string, Json>)
    ensures "representative" !in r
    ensures files.Some? && "restaurant_image" in files.value ==>
              r == (validated - {"representative"})["restaurant_image" := files.value["restaurant_image"]]
    ensures files.None? || "restaurant_image" !in files.value ==> r == validated - {"representative"}
  {
    var rest := validated - {"representative"};
    if files.Some? && "restaurant_image" in files.value then rest["restaurant_image" := files.value["restaurant_image"]]
    else rest
  }

  /**
   * `update`: with representative data (after the photo), an existing representative gets
   * exactly those attributes overwritten, and a missing one is created from them; without
   * any, the representative is left alone. Then exactly the remaining attributes (after
   * the image) are overwritten on the restaurant.
   */
  function UpdatePlan(s: Stored, validated: map<string, Json>, files: Option<map<string, Json>>): (r: Result<Stored>)
    ensures r.Ok? <==> RepData(validated, files).Some?
    ensures r.Ok? ==> r.value.own == s.own + RestaurantData(validated, files)
    ensures r.Ok? && RepData(validated, files).value == map[] ==> r.value.link == s.link
    ensures r.Ok? && RepData(validated, files).value != map[] ==>
              r.value.link == Some(if s.link.Some? then s.link.value + RepData(validated, files).value
                                   else RepData(validated, files).value)
  {
    match RepData(validated, files)
    case None => Err(NotAMapping)
    case Some(rep) =>
      var link := if rep == map[] then s.link
                  else if s.link.Some? then Some(s.link.value + rep)
                  else Some(rep);
      Ok(Stored(s.own + RestaurantData(validated, files), link))
  }

  /** Uploaded files win: after an update the stored photo and image are the uploaded ones. */
  lemma UploadedFilesWin(s: Stored, validated: map<string, Json>, files: map<string, Json>)
    requires UpdatePlan(s, validated, Some(files)).Ok?
    ensures "restaurant_image" in files ==>
              UpdatePlan(s, validated, Some(files)).value.own["restaurant_image"] == files["restaurant_image"]
    ensures "representative.photo" in files ==>
              var link := UpdatePlan(s, validated, Some(files)).value.link;
              link.Some? && link.value["photo"] == files["representative.photo"]
  {
    if "representative.photo" in files {
      var rep := RepData(validated, Some(files)).value;
      assert "photo" in rep && rep["photo"] == files["representative.photo"];
    }
  }

  /** Without representative data or files, only the restaurant's own supplied columns change. */
  lemma UpdateWithoutRepresentative(s: Stored, validated: map<string, Json>)
    requires "representative" !in validated
    ensures UpdatePlan(s, validated, None) == Ok(Stored(s.own + validated, s.link))
  {
    assert validated - {"representative"} == validated;
  }

  /** Carry out `update` on the stored rows; a new representative row is linked when needed. */
  method Update(instance: Linked, validated: map<string, Json>, files: Option<map<string, Json>>)
    returns (outcome: Outcome)
    requires instance.Valid()
    modifies instance, instance.own, instance.link
    ensures instance.Valid()
    ensures var plan := UpdatePlan(old(StoredOf(instance)), validated, files);
            && (plan.Ok? ==> outcome == Pass && StoredOf(instance) == plan.value)
            && (plan.Err? ==> outcome == Fail(plan.error) && StoredOf(instance) == old(StoredOf(instance)))
    ensures old(instance.link) == null && instance.link != null ==> fresh(instance.link)
  {
    var rep := RepData(validated, files);
    if rep.None? {
      return Fail(NotAMapping);
    }
    if rep.value != map[] {
      if instance.link != null {
        instance.link.SetAttributes(rep.value);
      } else {
        var created := new Row(rep.value);
        instance.SetLink(created);
      }
    }
    instance.own.SetAttributes(RestaurantData(validated, files));
    outcome := Pass;
  }

  /**
   * `create`: a representative row is always created, from the representative data (empty
   * when none was sent), and the new restaurant is linked to it.
   */
  function CreatePlan(validated: map<string, Json>, files: Option<map<string, Json>>): (r: Result<Rows>)
    ensures r.Ok? <==> RepData(validated, files).Some?
    ensures r.Ok? ==> r.value.nested == RepData(validated, files).value
    ensures r.Ok? ==> r.value.parent == RestaurantData(validated, files)
  {
    match RepData(validated, files)
    case None => Err(NotAMapping)
    case Some(rep) => Ok(Rows(RestaurantData(validated, files), rep))
  }

  method Create(validated: map<string, Json>, files: Option<map<string, Json>>) returns (outcome: Outcome, created: Linked?)
    ensures var plan := CreatePlan(validated, files);
            && (plan.Err? ==> outcome == Fail(plan.error) && created == null)
            && (plan.Ok? ==> outcome == Pass && created != null && fresh(created) && fresh(created.own)
                             && created.link != null && fresh(created.link) && created.Valid()
                             && StoredOf(created) == Stored(plan.value.parent, Some(plan.value.nested)))
  {
    match CreatePlan(validated, files)
    case Err(e) =>
      outcome, created := Fail(e), null;
    case Ok(rows) =>
      var rep := new Row(rows.nested);
      var restaurant := new Row(rows.parent);
      created := new Linked(restaurant, rep);
      outcome := Pass;
  }
}
