/**
 * The citizen's five-step complaint form (multi-step-form.tsx): its
 * field values, its per-field error messages and the current step, with
 * the per-step validation, step navigation, field merging, the category
 * picker and the PIN input filter.
 *
 * JavaScript's `Number` and `new URL` are left to the oracles
 * `isNumeric` and `isUrl`, which the operations take as parameters.
 */
module ComplaintForm {
  import opened Wrappers
  import opened Text

  datatype Field =
    | CategoryId | SubCategory | Pin | District | City | Locality | Street
    | Latitude | Longitude | Description | AttachmentUrl | Urgency | IsPublic
    | ComplainantId | AssignedDepartment

  const AllFields: set<Field> :=
    {CategoryId, SubCategory, Pin, District, City, Locality, Street, Latitude, Longitude,
     Description, AttachmentUrl, Urgency, IsPublic, ComplainantId, AssignedDepartment}

  lemma EveryFieldListed(f: Field)
    ensures f in AllFields
  {
  }

  datatype Value = Text(text: string) | Flag(flag: bool)

  /** Index of the last step ("Review & Submit"). */
  const LastStep: int := 4
  const MaxDescription: int := 500
  const PinLength: int := 6

  datatype CatalogEntry = CatalogEntry(id: string, name: string, subCategories: seq<string>)

  /** The form's built-in category list. */
  const Catalog: seq<CatalogEntry> := [
    CatalogEntry("cat1", "Infrastructure", ["Roads", "Water Supply", "Electricity", "Drainage"]),
    CatalogEntry("cat2", "Public Health", ["Sanitation", "Hospital Services", "Waste Management"]),
    CatalogEntry("cat3", "Transportation", ["Public Transport", "Traffic Management", "Parking"]),
    CatalogEntry("cat4", "Education", ["School Infrastructure", "Teacher Shortage", "Educational Resources"]),
    CatalogEntry("cat5", "Environment", ["Air Pollution", "Noise Pollution", "Tree Cutting", "Water Pollution"])
  ]

  function EntryId(e: CatalogEntry): string {
    e.id
  }

  /** `categories.find(cat => cat.id === id)`: the first catalog entry with that id. */
  function CatalogEntryFor(id: string): (r: Option<CatalogEntry>)
    ensures r.None? <==> forall i :: 0 <= i < |Catalog| ==> Catalog[i].id != id
    ensures forall i :: 0 <= i < |Catalog| && Catalog[i].id == id && (forall j :: 0 <= j < i ==> Catalog[j].id != id) ==>
                        r == Some(Catalog[i])
    ensures r.Some? ==> r.value in Catalog && r.value.id == id
  {
    forall i | 0 <= i < |Catalog| && Catalog[i].id == id && (forall j :: 0 <= j < i ==> Catalog[j].id != id)
      ensures Find(Catalog, EntryId, id) == Some(Catalog[i])
    {
      FindIsFirstHit(Catalog, EntryId, id, i);
    }
    Find(Catalog, EntryId, id)
  }

  /** The text of a field; "" for a field that is absent or not text. */
  function Str(data: map<Field, Value>, f: Field): string {
    if f in data && data[f].Text? then data[f].text else ""
  }

  /** `getAvailableSubCategories`: the sub-categories of the selected catalog entry, or none. */
  function AvailableSubCategories(data: map<Field, Value>): (r: seq<string>)
    ensures (forall i :: 0 <= i < |Catalog| ==> Catalog[i].id != Str(data, CategoryId)) ==> r == []
    ensures forall i :: 0 <= i < |Catalog| && Catalog[i].id == Str(data, CategoryId) &&
                        (forall j :: 0 <= j < i ==> Catalog[j].id != Str(data, CategoryId)) ==>
                        r == Catalog[i].subCategories
  {
    match CatalogEntryFor(Str(data, CategoryId))
    case None => []
    case Some(entry) => entry.subCategories
  }

  /** The department a category id selects: the catalog name, or "" for an unknown id. */
  function DepartmentFor(categoryId: string): (r: string)
    ensures r == "" <==> forall i :: 0 <= i < |Catalog| ==> Catalog[i].id != categoryId
    ensures forall i :: 0 <= i < |Catalog| && Catalog[i].id == categoryId &&
                        (forall j :: 0 <= j < i ==> Catalog[j].id != categoryId) ==>
                        r == Catalog[i].name
  {
    var entry := CatalogEntryFor(categoryId);
    DepartmentEmptyIffUnknown(categoryId, entry);
    if entry.None? then "" else entry.value.name
  }

  /** The name of the entry `find` returns is empty exactly when there is no entry. */
  lemma DepartmentEmptyIffUnknown(categoryId: string, entry: Option<CatalogEntry>)
    requires entry == CatalogEntryFor(categoryId)
    ensures (if entry.None? then "" else entry.value.name) == "" <==>
            forall i :: 0 <= i < |Catalog| ==> Catalog[i].id != categoryId
  {
    if entry.Some? {
      CatalogNamed();
      var k :| 0 <= k < |Catalog| && Catalog[k] == entry.value;
    }
  }

  /** Every catalog entry has a department name. */
  lemma CatalogNamed()
    ensures forall i :: 0 <= i < |Catalog| ==> |Catalog[i].name| > 0
  {
  }

  /** Step 0 ("Category & Type"): a category, and a sub-category once a category is set. */
  function CategoryError(f: Field, data: map<Field, Value>): (r: Option<string>)
    ensures r.Some? ==> f == CategoryId || f == SubCategory
  {
    match f
    case CategoryId => if Str(data, CategoryId) == "" then Some("Please select a category") else None
    case SubCategory =>
      if Str(data, CategoryId) != "" && Str(data, SubCategory) == "" then Some("Please select a sub-category") else None
    case _ => None
  }

  /** Step 1 ("Location Details"): a 6-character PIN, district, city, and numeric coordinates where given. */
  function LocationError(f: Field, data: map<Field, Value>, isNumeric: string -> bool): (r: Option<string>)
    ensures r.Some? ==> f == Pin || f == District || f == City || f == Latitude || f == Longitude
  {
    match f
    case Pin =>
      var pin := Str(data, Pin);
      if pin == "" || |pin| != PinLength then Some("Enter a valid 6-digit PIN code") else None
    case District => if Str(data, District) == "" then Some("Enter a district") else None
    case City => if Str(data, City) == "" then Some("Enter a city") else None
    case Latitude =>
      var v := Str(data, Latitude);
      if v != "" && !isNumeric(v) then Some("Enter a valid latitude") else None
    case Longitude =>
      var v := Str(data, Longitude);
      if v != "" && !isNumeric(v) then Some("Enter a valid longitude") else None
    case _ => None
  }

  /** Step 2 ("Complaint Details"): a description of at most 500 characters and a parsable URL where given. */
  function DetailError(f: Field, data: map<Field, Value>, isUrl: string -> bool): (r: Option<string>)
    ensures r.Some? ==> f == Description || f == AttachmentUrl
  {
    match f
    case Description =>
      var desc := Str(data, Description);
      if |desc| > MaxDescription then Some("Description cannot exceed 500 characters")
      else if desc == "" then Some("Provide a description")
      else None
    case AttachmentUrl =>
      var u := Str(data, AttachmentUrl);
      if u != "" && !isUrl(u) then Some("Enter a valid URL") else None
    case _ => None
  }

  /** Step 3 ("Visibility & Urgency"): an urgency level. */
  function UrgencyError(f: Field, data: map<Field, Value>): (r: Option<string>)
    ensures r.Some? ==> f == Urgency
  {
    match f
    case Urgency => if Str(data, Urgency) == "" then Some("Select an urgency level") else None
    case _ => None
  }

  /** The first four checks of step 4 ("Review & Submit"): category, sub-category, PIN and district. */
  function ReviewRequiredError(f: Field, data: map<Field, Value>): (r: Option<string>)
    ensures r.Some? ==> f == CategoryId || f == SubCategory || f == Pin || f == District
  {
    match f
    case CategoryId => if Str(data, CategoryId) == "" then Some("Category is required") else None
    case SubCategory => if Str(data, SubCategory) == "" then Some("Sub-category is required") else None
    case Pin =>
      var pin := Str(data, Pin);
      if pin == "" || |pin| != PinLength then Some("Valid 6-digit PIN code is required") else None
    case District => if Str(data, District) == "" then Some("District is required") else None
    case _ => None
  }

  /** Step 4 ("Review & Submit"): the required fields again, without the length and coordinate checks. */
  function ReviewError(f: Field, data: map<Field, Value>): (r: Option<string>)
    ensures r.Some? ==> f in {CategoryId, SubCategory, Pin, District, City, Description, Urgency}
  {
    match f
    case City => if Str(data, City) == "" then Some("City is required") else None
    case Description => if Str(data, Description) == "" then Some("Description is required") else None
    case Urgency => if Str(data, Urgency) == "" then Some("Urgency level is required") else None
    case _ => ReviewRequiredError(f, data)
  }

  /** The error message `validateStep(step)` records for field `f`, if any; other step numbers record none. */
  function FieldError(step: int, f: Field, data: map<Field, Value>,
                      isNumeric: string -> bool, isUrl: string -> bool): (r: Option<string>)
    ensures !(0 <= step <= LastStep) ==> r.None?
    ensures step == 0 && r.Some? ==> f == CategoryId || f == SubCategory
    ensures step == 1 && r.Some? ==> f == Pin || f == District || f == City || f == Latitude || f == Longitude
    ensures step == 2 && r.Some? ==> f == Description || f == AttachmentUrl
    ensures step == 3 && r.Some? ==> f == Urgency
    ensures step == LastStep && r.Some? ==> f in {CategoryId, SubCategory, Pin, District, City, Description, Urgency}
  {
    if step == 0 then CategoryError(f, data)
    else if step == 1 then LocationError(f, data, isNumeric)
    else if step == 2 then DetailError(f, data, isUrl)
    else if step == 3 then UrgencyError(f, data)
    else if step == LastStep then ReviewError(f, data)
    else None
  }

  /** Whether `validateStep(step)` passes on `data`. */
  predicate StepPasses(step: int, data: map<Field, Value>, isNumeric: string -> bool, isUrl: string -> bool): (ok: bool)
    ensures !(0 <= step <= LastStep) ==> ok
    ensures step == 2 ==>
      (ok <==> 0 < |Str(data, Description)| <= MaxDescription
               && (Str(data, AttachmentUrl) == "" || isUrl(Str(data, AttachmentUrl))))
    ensures step == 3 ==> (ok <==> Str(data, Urgency) != "")
  {
    DetailAndUrgencyFields(step, data, isNumeric, isUrl);
    forall f: Field :: FieldError(step, f, data, isNumeric, isUrl).None?
  }

  /** Steps 2 and 3 are decided by the fields they check. */
  lemma DetailAndUrgencyFields(step: int, data: map<Field, Value>, isNumeric: string -> bool, isUrl: string -> bool)
    ensures step == 2 ==>
      ((forall f: Field :: FieldError(step, f, data, isNumeric, isUrl).None?) <==>
       DetailError(Description, data, isUrl).None? && DetailError(AttachmentUrl, data, isUrl).None?)
    ensures step == 3 ==>
      ((forall f: Field :: FieldError(step, f, data, isNumeric, isUrl).None?) <==> UrgencyError(Urgency, data).None?)
  {
    if step == 2 {
      assert FieldError(step, Description, data, isNumeric, isUrl) == DetailError(Description, data, isUrl);
      assert FieldError(step, AttachmentUrl, data, isNumeric, isUrl) == DetailError(AttachmentUrl, data, isUrl);
      if DetailError(Description, data, isUrl).None? && DetailError(AttachmentUrl, data, isUrl).None? {
        forall f: Field ensures FieldError(step, f, data, isNumeric, isUrl).None? {
          if f != Description && f != AttachmentUrl {
            assert DetailError(f, data, isUrl).None?;
          }
        }
      }
    } else if step == 3 {
      assert FieldError(step, Urgency, data, isNumeric, isUrl) == UrgencyError(Urgency, data);
      if UrgencyError(Urgency, data).None? {
        forall f: Field ensures FieldError(step, f, data, isNumeric, isUrl).None? {
          if f != Urgency {
            assert UrgencyError(f, data).None?;
          }
        }
      }
    }
  }

  /** Step 4 passes exactly when the seven required fields are filled in and the PIN has 6 characters. */
  lemma ReviewStepPassesIff(data: map<Field, Value>, isNumeric: string -> bool, isUrl: string -> bool)
    ensures StepPasses(LastStep, data, isNumeric, isUrl) <==>
      && Str(data, CategoryId) != "" && Str(data, SubCategory) != ""
      && |Str(data, Pin)| == PinLength && Str(data, District) != "" && Str(data, City) != ""
      && Str(data, Description) != "" && Str(data, Urgency) != ""
  {
    if StepPasses(LastStep, data, isNumeric, isUrl) {
      assert FieldError(LastStep, CategoryId, data, isNumeric, isUrl).None?;
      assert FieldError(LastStep, SubCategory, data, isNumeric, isUrl).None?;
      assert FieldError(LastStep, Pin, data, isNumeric, isUrl).None?;
      assert FieldError(LastStep, District, data, isNumeric, isUrl).None?;
      assert FieldError(LastStep, City, data, isNumeric, isUrl).None?;
      assert FieldError(LastStep, Description, data, isNumeric, isUrl).None?;
      assert FieldError(LastStep, Urgency, data, isNumeric, isUrl).None?;
    }
  }

  /** Step 1 passes exactly on a 6-character PIN, a district, a city and numeric coordinates where given. */
  lemma LocationStepPassesIff(data: map<Field, Value>, isNumeric: string -> bool, isUrl: string -> bool)
    ensures StepPasses(1, data, isNumeric, isUrl) <==>
      && |Str(data, Pin)| == PinLength
      && Str(data, District) != "" && Str(data, City) != ""
      && (Str(data, Latitude) == "" || isNumeric(Str(data, Latitude)))
      && (Str(data, Longitude) == "" || isNumeric(Str(data, Longitude)))
  {
    if StepPasses(1, data, isNumeric, isUrl) {
      assert FieldError(1, Pin, data, isNumeric, isUrl).None?;
      assert FieldError(1, District, data, isNumeric, isUrl).None?;
      assert FieldError(1, City, data, isNumeric, isUrl).None?;
      assert FieldError(1, Latitude, data, isNumeric, isUrl).None?;
      assert FieldError(1, Longitude, data, isNumeric, isUrl).None?;
    }
  }

  /** Step 0 asks for a sub-category only once a category is chosen. */
  lemma CategoryStepPassesIff(data: map<Field, Value>, isNumeric: string -> bool, isUrl: string -> bool)
    ensures StepPasses(0, data, isNumeric, isUrl) <==> Str(data, CategoryId) != "" && Str(data, SubCategory) != ""
    ensures Str(data, CategoryId) == "" ==> FieldError(0, SubCategory, data, isNumeric, isUrl).None?
  {
    if StepPasses(0, data, isNumeric, isUrl) {
      assert FieldError(0, CategoryId, data, isNumeric, isUrl).None?;
      assert FieldError(0, SubCategory, data, isNumeric, isUrl).None?;
    }
  }

  /**
   * The final review re-checks the category and urgency steps but not the
   * description length or the coordinates: a description of 501
   * characters passes it while failing step 2.
   */
  lemma ReviewStepIsWeaker(data: map<Field, Value>, isNumeric: string -> bool, isUrl: string -> bool)
    ensures StepPasses(LastStep, data, isNumeric, isUrl) ==>
      StepPasses(0, data, isNumeric, isUrl) && StepPasses(3, data, isNumeric, isUrl)
    ensures |Str(data, Description)| > MaxDescription ==>
      !StepPasses(2, data, isNumeric, isUrl) && FieldError(LastStep, Description, data, isNumeric, isUrl).None?
  {
    ReviewStepPassesIff(data, isNumeric, isUrl);
    CategoryStepPassesIff(data, isNumeric, isUrl);
  }

  /** The characters `replace(/\D/g, "")` keeps: ASCII decimal digits. */
  function StripNonDigits(s: string): (r: string)
    ensures forall i :: 0 <= i < |r| ==> IsDigit(r[i])
    ensures |r| <= |s|
    ensures (forall i :: 0 <= i < |s| ==> IsDigit(s[i])) ==> r == s
    ensures |s| == 1 ==> r == (if IsDigit(s[0]) then s else "")
  {
    if |s| == 0 then ""
    else if IsDigit(s[0]) then [s[0]] + StripNonDigits(s[1..])
    else StripNonDigits(s[1..])
  }

  /**
   * The filter works character by character: the result for `a + b` is the
   * result for `a` followed by the result for `b`. With the one-character
   * case, this says exactly the input's digits are kept, in order.
   */
  lemma {:induction false} StripNonDigitsAppend(a: string, b: string)
    ensures StripNonDigits(a + b) == StripNonDigits(a) + StripNonDigits(b)
  {
    if |a| > 0 {
      assert (a + b)[0] == a[0];
      assert (a + b)[1..] == a[1..] + b;
      StripNonDigitsAppend(a[1..], b);
    } else {
      assert a + b == b;
    }
  }

  /** A PIN the input filter can produce: digits only, at most six of them. */
  predicate WellFormedPin(p: string) {
    |p| <= PinLength && forall i :: 0 <= i < |p| ==> IsDigit(p[i])
  }

  /** The message recorded for `f` in an error map, if any. */
  function Lookup(e: map<Field, string>, f: Field): (r: Option<string>)
    ensures r.Some? <==> f in e
  {
    if f in e then Some(e[f]) else None
  }

  /** The checks of step 0, one field after another. */
  method CategoryStepErrors(data: map<Field, Value>) returns (e: map<Field, string>)
    ensures forall f :: Lookup(e, f) == CategoryError(f, data)
  {
    e := map[];
    var cat := Str(data, CategoryId);
    if cat == "" { e := e[CategoryId := "Please select a category"]; }
    if cat != "" && Str(data, SubCategory) == "" { e := e[SubCategory := "Please select a sub-category"]; }
  }

  /** The checks of step 1, one field after another. */
  method LocationStepErrors(data: map<Field, Value>, isNumeric: string -> bool) returns (e: map<Field, string>)
    ensures forall f :: Lookup(e, f) == LocationError(f, data, isNumeric)
  {
    e := map[];
    var pin := Str(data, Pin);
    if pin == "" || |pin| != PinLength { e := e[Pin := "Enter a valid 6-digit PIN code"]; }
    if Str(data, District) == "" { e := e[District := "Enter a district"]; }
    if Str(data, City) == "" { e := e[City := "Enter a city"]; }
    if Str(data, Latitude) != "" && !isNumeric(Str(data, Latitude)) { e := e[Latitude := "Enter a valid latitude"]; }
    if Str(data, Longitude) != "" && !isNumeric(Str(data, Longitude)) { e := e[Longitude := "Enter a valid longitude"]; }
  }

  /** The checks of step 2; the length message overwrites the empty one. */
  method DetailStepErrors(data: map<Field, Value>, isUrl: string -> bool) returns (e: map<Field, string>)
    ensures forall f :: Lookup(e, f) == DetailError(f, data, isUrl)
  {
    e := map[];
    var desc := Str(data, Description);
    if desc == "" { e := e[Description := "Provide a description"]; }
    if |desc| > MaxDescription { e := e[Description := "Description cannot exceed 500 characters"]; }
    if Str(data, AttachmentUrl) != "" && !isUrl(Str(data, AttachmentUrl)) { e := e[AttachmentUrl := "Enter a valid URL"]; }
  }

  /** The check of step 3. */
  method UrgencyStepErrors(data: map<Field, Value>) returns (e: map<Field, string>)
    ensures forall f :: Lookup(e, f) == UrgencyError(f, data)
  {
    e := map[];
    if Str(data, Urgency) == "" { e := e[Urgency := "Select an urgency level"]; }
  }

  /** The first four checks of the review step. */
  method ReviewRequiredErrors(data: map<Field, Value>) returns (e: map<Field, string>)
    ensures forall f :: Lookup(e, f) == ReviewRequiredError(f, data)
  {
    e := map[];
    var pin := Str(data, Pin);
    if Str(data, CategoryId) == "" { e := e[CategoryId := "Category is required"]; }
    if Str(data, SubCategory) == "" { e := e[SubCategory := "Sub-category is required"]; }
    if pin == "" || |pin| != PinLength { e := e[Pin := "Valid 6-digit PIN code is required"]; }
    if Str(data, District) == "" { e := e[District := "District is required"]; }
  }

  /** The checks of the review step, one field after another. */
  method ReviewStepErrors(data: map<Field, Value>) returns (e: map<Field, string>)
    ensures forall f :: Lookup(e, f) == ReviewError(f, data)
  {
    var required := ReviewRequiredErrors(data);
    e := required;
    if Str(data, City) == "" { e := e[City := "City is required"]; }
    if Str(data, Description) == "" { e := e[Description := "Description is required"]; }
    if Str(data, Urgency) == "" { e := e[Urgency := "Urgency level is required"]; }
    forall f
      ensures Lookup(e, f) == ReviewError(f, data)
    {
      assert Lookup(required, f) == ReviewRequiredError(f, data);
    }
  }

  /** Merging a three-entry map is three successive updates, and removes exactly its three keys from a key set. */
  lemma MergeThree<K, V>(m: map<K, V>, a: K, b: K, c: K, va: V, vb: V, vc: V)
    requires a != b && a != c && b != c
    ensures m + map[a := va, b := vb, c := vc] == m[a := va][b := vb][c := vc]
    ensures map[a := va, b := vb, c := vc].Keys == {a, b, c}
  {
  }

  class Form {
    var data: map<Field, Value>
    var errors: map<Field, string>
    var currentStep: int

    predicate Valid()
      reads this
    {
      0 <= currentStep <= LastStep
    }

    /** The initial state: empty text fields, a public complaint, step 0 and no errors. */
    constructor()
      ensures Valid() && currentStep == 0 && errors == map[]
      ensures forall f :: f in data && (data[f] == if f == IsPublic then Flag(true) else Text(""))
      ensures WellFormedPin(Str(data, Pin))
    {
      var initial := map f | f in AllFields :: if f == IsPublic then Flag(true) else Text("");
      forall f: Field
        ensures f in initial
      {
        EveryFieldListed(f);
      }
      data := initial;
      errors := map[];
      currentStep := 0;
    }

    /** `updateFields`: the given fields override the data, and their errors are deleted one key at a time. */
    method UpdateFields(fields: map<Field, Value>)
      modifies this
      ensures data == old(data) + fields
      ensures errors == old(errors) - fields.Keys
      ensures currentStep == old(currentStep)
    {
      data := data + fields;
      var todo := fields.Keys;
      while todo != {}
        invariant todo <= fields.Keys
        invariant errors == old(errors) - (fields.Keys - todo)
        invariant data == old(data) + fields && currentStep == old(currentStep)
        decreases todo
      {
        var key :| key in todo;
        errors := errors - {key};
        todo := todo - {key};
      }
    }

    /** `validateStep`: the error map becomes exactly the step's errors, and the answer says whether there are none. */
    method ValidateStep(step: int, isNumeric: string -> bool, isUrl: string -> bool) returns (ok: bool)
      modifies this
      ensures data == old(data) && currentStep == old(currentStep)
      ensures forall f :: Lookup(errors, f) == FieldError(step, f, data, isNumeric, isUrl)
      ensures ok <==> errors == map[]
      ensures ok <==> StepPasses(step, data, isNumeric, isUrl)
    {
      var e: map<Field, string>;
      if step == 0 {
        e := CategoryStepErrors(data);
      } else if step == 1 {
        e := LocationStepErrors(data, isNumeric);
      } else if step == 2 {
        e := DetailStepErrors(data, isUrl);
      } else if step == 3 {
        e := UrgencyStepErrors(data);
      } else if step == LastStep {
        e := ReviewStepErrors(data);
      } else {
        e := map[];
      }
      errors := e;
      ok := |e| == 0;
      if !ok {
        var f :| f in e;
        assert Lookup(e, f).Some?;
      }
    }

    /** `nextStep`: advance by one, never past the last step, only when the current step validates. */
    method NextStep(isNumeric: string -> bool, isUrl: string -> bool)
      requires Valid()
      modifies this
      ensures Valid()
      ensures data == old(data)
      ensures currentStep == if StepPasses(old(currentStep), data, isNumeric, isUrl)
                             then (if old(currentStep) + 1 < LastStep then old(currentStep) + 1 else LastStep)
                             else old(currentStep)
      ensures forall f :: Lookup(errors, f) == FieldError(old(currentStep), f, data, isNumeric, isUrl)
    {
      var ok := ValidateStep(currentStep, isNumeric, isUrl);
      if ok {
        currentStep := if currentStep + 1 < LastStep then currentStep + 1 else LastStep;
      }
    }

    /** `prevStep`: go back one step, never before the first, and clear every error. */
    method PrevStep()
      requires Valid()
      modifies this
      ensures Valid()
      ensures data == old(data) && errors == map[]
      ensures currentStep == if old(currentStep) - 1 > 0 then old(currentStep) - 1 else 0
    {
      currentStep := if currentStep - 1 > 0 then currentStep - 1 else 0;
      errors := map[];
    }

    /** `handleSubmit`: submits exactly when the review step validates; otherwise its errors are shown. */
    method Submit(isNumeric: string -> bool, isUrl: string -> bool) returns (submitted: bool)
      modifies this
      ensures data == old(data) && currentStep == old(currentStep)
      ensures submitted <==> StepPasses(LastStep, data, isNumeric, isUrl)
      ensures forall f :: Lookup(errors, f) == FieldError(LastStep, f, data, isNumeric, isUrl)
    {
      submitted := ValidateStep(LastStep, isNumeric, isUrl);
    }

    /** `handleCategoryChange`: set the category, clear the sub-category and set the department to the catalog name. */
    method CategoryChange(categoryId: string)
      modifies this
      ensures data == old(data)[CategoryId := Text(categoryId)][SubCategory := Text("")]
                                [AssignedDepartment := Text(DepartmentFor(categoryId))]
      ensures errors == old(errors) - {CategoryId, SubCategory, AssignedDepartment}
      ensures currentStep == old(currentStep)
      ensures Str(data, SubCategory) == ""
      ensures (forall i :: 0 <= i < |Catalog| ==> Catalog[i].id != categoryId) ==> Str(data, AssignedDepartment) == ""
    {
      var department := Text(DepartmentFor(categoryId));
      var fields := map[CategoryId := Text(categoryId), SubCategory := Text(""), AssignedDepartment := department];
      MergeThree(data, CategoryId, SubCategory, AssignedDepartment, Text(categoryId), Text(""), department);
      UpdateFields(fields);
    }

    /** The PIN input's `onChange`: keep the digits, and accept them only when there are at most six. */
    method PinInput(typed: string)
      modifies this
      ensures var digits := StripNonDigits(typed);
              if |digits| <= PinLength then data == old(data)[Pin := Text(digits)] && errors == old(errors) - {Pin}
              else data == old(data) && errors == old(errors)
      ensures currentStep == old(currentStep)
      ensures WellFormedPin(Str(old(data), Pin)) ==> WellFormedPin(Str(data, Pin))
    {
      var value := StripNonDigits(typed);
      if |value| <= PinLength {
        UpdateFields(map[Pin := Text(value)]);
        assert map[Pin := Text(value)].Keys == {Pin};
        assert data == old(data)[Pin := Text(value)];
      }
    }
  }
}
