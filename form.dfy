/** The create/edit form for a feature request: five text fields, their
    validation, and saving through the store. */
module Form {
  import opened JsValues
  import opened ApiTypes
  import Store

  /** The five fields of the form, in the order `Object.keys(formData)`
      lists them. */
  datatype Field = When | Want | How | SoThat | FeatureRequests

  const Fields: seq<Field> := [When, Want, How, SoThat, FeatureRequests]

  /** The key of a field in `formData`, which is also the name the error
      messages start with. */
  function Name(f: Field): string {
    match f
    case When => "when"
    case Want => "want"
    case How => "how"
    case SoThat => "soThat"
    case FeatureRequests => "featureRequests"
  }

  /** Where a field stands in `Fields`: every field is listed there. */
  function Position(f: Field): (r: nat)
    ensures r < |Fields| && Fields[r] == f
  {
    match f
    case When => 0
    case Want => 1
    case How => 2
    case SoThat => 3
    case FeatureRequests => 4
  }

  /** The longest value a field may hold, counted in UTF-16 code units. */
  const MaxLength: nat := 5000

  const RequiredSuffix: string := " обязательно для заполнения"
  const TooLongSuffix: string := " не может быть длиннее 5000 символов"

  /** `formData`: the text of each field. */
  datatype FormData = FormData(when: string, want: string, how: string, soThat: string, featureRequests: string)

  const EmptyForm: FormData := FormData("", "", "", "", "")

  function Get(d: FormData, f: Field): string {
    match f
    case When => d.when
    case Want => d.want
    case How => d.how
    case SoThat => d.soThat
    case FeatureRequests => d.featureRequests
  }

  /** `{ ...prev, [field]: value }`. */
  function With(d: FormData, f: Field, value: string): (r: FormData)
    ensures Get(r, f) == value
    ensures forall g | g != f :: Get(r, g) == Get(d, g)
  {
    match f
    case When => d.(when := value)
    case Want => d.(want := value)
    case How => d.(how := value)
    case SoThat => d.(soThat := value)
    case FeatureRequests => d.(featureRequests := value)
  }

  // ---------------------------------------------------------------------
  // Validation

  /** `validateField`: required first, then the length limit. The
      required test `!value.trim()` is written as `IsBlank(value)`, which
      `TrimEmptyIffBlank` shows to be the same condition. */
  function ValidateField(name: string, value: string): (r: string)
    ensures r == "" <==> !IsBlank(value) && Utf16Length(value) <= MaxLength
    ensures IsBlank(value) ==> r == name + RequiredSuffix
    ensures !IsBlank(value) && Utf16Length(value) > MaxLength ==> r == name + TooLongSuffix
  {
    if IsBlank(value) then name + RequiredSuffix
    else if Utf16Length(value) > MaxLength then name + TooLongSuffix
    else ""
  }

  /** A non-blank value exactly 5000 UTF-16 code units long is accepted,
      and adding any one character to it makes it refused. */
  lemma LengthLimitIsInclusive(name: string, value: string, c: char)
    requires !IsBlank(value) && Utf16Length(value) == MaxLength
    ensures ValidateField(name, value) == ""
    ensures ValidateField(name, value + [c]) == name + TooLongSuffix
  {
    var longer := value + [c];
    Utf16LengthConcat(value, [c]);
    Utf16LengthOfChar(c);
    assert !IsBlank(longer) by {
      var k :| 0 <= k < |value| && !IsWhiteSpace(value[k]);
      assert longer[k] == value[k];
    }
  }

  /** The error `validateForm` records for one field: in create mode that of
      `validateField`; in edit mode only the length error, and only for a
      value that is not blank. */
  function FieldError(editing: bool, f: Field, value: string): (r: Option<string>)
    ensures !editing ==> (r.None? <==> ValidateField(Name(f), value) == "")
    ensures !editing && r.Some? ==> r.value == ValidateField(Name(f), value)
    ensures editing ==> (r.None? <==> IsBlank(value) || Utf16Length(value) <= MaxLength)
    ensures editing && r.Some? ==> r.value == Name(f) + TooLongSuffix
  {
    if !editing then
      var error := ValidateField(Name(f), value);
      if error != "" then Some(error) else None
    else
      if !IsBlank(value) && Utf16Length(value) > MaxLength then Some(Name(f) + TooLongSuffix) else None
  }

  /** Edit mode accepts every value create mode accepts, and every blank
      value besides. */
  lemma EditModeIsMoreLenient(f: Field, value: string)
    ensures FieldError(false, f, value).None? ==> FieldError(true, f, value).None?
    ensures IsBlank(value) ==> FieldError(true, f, value).None? && FieldError(false, f, value).Some?
  {
  }

  /** The `forEach` of `validateForm` over the fields: collects the errors
      and whether there were none. */
  method CollectErrors(formData: FormData, editing: bool) returns (newErrors: map<Field, string>, isValid: bool)
    ensures isValid <==> forall f: Field :: FieldError(editing, f, Get(formData, f)).None?
    ensures forall f: Field :: f in newErrors <==> FieldError(editing, f, Get(formData, f)).Some?
    ensures forall f | f in newErrors :: newErrors[f] == FieldError(editing, f, Get(formData, f)).value
  {
    newErrors := map[];
    isValid := true;
    var i := 0;
    while i < |Fields|
      invariant 0 <= i <= |Fields|
      invariant forall f: Field :: f in newErrors <==> Position(f) < i && FieldError(editing, f, Get(formData, f)).Some?
      invariant forall f | f in newErrors :: newErrors[f] == FieldError(editing, f, Get(formData, f)).value
      invariant isValid <==> forall f: Field | Position(f) < i :: FieldError(editing, f, Get(formData, f)).None?
    {
      var key := Fields[i];
      assert Position(key) == i;
      var value := Get(formData, key);
      if !editing {
        var error := ValidateField(Name(key), value);
        assert FieldError(editing, key, value).Some? <==> error != "";
        if error != "" {
          newErrors := newErrors[key := error];
          isValid := false;
        }
      } else {
        if !IsBlank(value) {
          if Utf16Length(value) > MaxLength {
            newErrors := newErrors[key := Name(key) + TooLongSuffix];
            isValid := false;
          }
        }
      }
      i := i + 1;
    }
  }

  // ---------------------------------------------------------------------
  // Loading and saving

  /** `initialData.x || ""`: a missing or empty text becomes "". */
  function TextOrEmpty(o: Option<string>): (r: string)
    ensures o.Some? ==> r == o.value
    ensures o.None? ==> r == ""
  {
    match o
    case Some(s) => s
    case None => ""
  }

  /** The form filled in from a stored record. */
  function FromRecord(d: FeatureRequest): (r: FormData)
    ensures r.when == (if d.when.Some? then d.when.value else "")
    ensures r.want == (if d.want.Some? then d.want.value else "")
    ensures r.how == (if d.how.Some? then d.how.value else "")
    ensures r.soThat == (if d.soThat.Some? then d.soThat.value else "")
    ensures r.featureRequests == (if d.featureRequests.Some? then d.featureRequests.value else "")
  {
    FormData(TextOrEmpty(d.when), TextOrEmpty(d.want), TextOrEmpty(d.how),
             TextOrEmpty(d.soThat), TextOrEmpty(d.featureRequests))
  }

  /** Saving a record that was loaded and not edited sends its texts back
      unchanged, with "" for each text the record lacks. */
  lemma LoadThenSaveKeepsTexts(d: FeatureRequest)
    ensures var u := UpdateDtoOf(FromRecord(d));
      && (d.when.Some? ==> u.when == d.when.value) && (d.when.None? ==> u.when == "")
      && (d.want.Some? ==> u.want == d.want.value) && (d.want.None? ==> u.want == "")
      && (d.how.Some? ==> u.how == d.how.value) && (d.how.None? ==> u.how == "")
      && (d.soThat.Some? ==> u.soThat == d.soThat.value) && (d.soThat.None? ==> u.soThat == "")
      && (d.featureRequests.Some? ==> u.featureRequests == d.featureRequests.value)
      && (d.featureRequests.None? ==> u.featureRequests == "")
  {
  }

  /** The record `handleSave` creates: no customer, the five texts. */
  function CreateDtoOf(d: FormData): (r: CreateDto)
    ensures r.customer == ""
    ensures r.when == Get(d, When) && r.want == Get(d, Want) && r.how == Get(d, How)
    ensures r.soThat == Get(d, SoThat) && r.featureRequests == Get(d, FeatureRequests)
  {
    CreateDto("", d.when, d.want, d.how, d.soThat, d.featureRequests)
  }

  /** The changes `handleSave` sends for an existing record. */
  function UpdateDtoOf(d: FormData): (r: UpdateDto)
    ensures r.when == Get(d, When) && r.want == Get(d, Want) && r.how == Get(d, How)
    ensures r.soThat == Get(d, SoThat) && r.featureRequests == Get(d, FeatureRequests)
  {
    UpdateDto(d.when, d.want, d.how, d.soThat, d.featureRequests)
  }

  /** What `handleSave` sends to the server. */
  datatype SaveRequest = CreateRequest(dto: CreateDto) | UpdateRequest(id: string, changes: UpdateDto)

  /** The form's state. `initialData` is present when a record is being
      edited. */
  class FeatureRequestForm {
    var formData: FormData
    var errors: map<Field, string>
    var touched: map<Field, bool>
    var initialData: Option<FeatureRequest>

    /** The first render followed by the effect that loads `initialData`. */
    constructor (initialData: Option<FeatureRequest>)
      ensures this.initialData == initialData
      ensures initialData.Some? ==> formData == FromRecord(initialData.value)
      ensures initialData.None? ==> formData == EmptyForm
      ensures errors == map[] && touched == map[]
    {
      this.initialData := initialData;
      formData := EmptyForm;
      errors := map[];
      touched := map[];
      if initialData.Some? {
        formData := FromRecord(initialData.value);
      }
    }

    /** The effect that runs whenever the `initialData` prop changes: a
        present record is loaded into the form, keeping `errors` and
        `touched`; an absent one leaves the form as it is. */
    method LoadInitialData(d: Option<FeatureRequest>)
      modifies this`initialData, this`formData
      ensures initialData == d
      ensures d.Some? ==> formData == FromRecord(d.value)
      ensures d.None? ==> formData == old(formData)
      ensures errors == old(errors) && touched == old(touched)
    {
      initialData := d;
      if d.Some? {
        formData := FromRecord(d.value);
      }
    }

    /** `validateForm`: replaces `errors` with the errors of the current
        data and reports whether there were none. */
    method ValidateForm() returns (isValid: bool)
      modifies this`errors
      ensures isValid <==> forall f: Field :: FieldError(initialData.Some?, f, Get(formData, f)).None?
      ensures forall f: Field :: f in errors <==> FieldError(initialData.Some?, f, Get(formData, f)).Some?
      ensures forall f | f in errors :: errors[f] == FieldError(initialData.Some?, f, Get(formData, f)).value
    {
      var newErrors;
      newErrors, isValid := CollectErrors(formData, initialData.Some?);
      errors := newErrors;
      assert formData == old(formData);
    }

    /** `handleFormChange`: stores the new text; an error shown for that
        field is cleared to "". */
    method HandleFormChange(field: Field, value: string)
      modifies this`formData, this`errors
      ensures formData == With(old(formData), field, value)
      ensures field in old(errors) && old(errors)[field] != "" ==> errors == old(errors)[field := ""]
      ensures !(field in old(errors) && old(errors)[field] != "") ==> errors == old(errors)
    {
      formData := With(formData, field, value);
      if field in errors && errors[field] != "" {
        errors := errors[field := ""];
      }
    }

    /** `handleFieldBlur`: marks the field touched and shows its
        `validateField` result, even when editing. */
    method HandleFieldBlur(field: Field)
      modifies this`touched, this`errors
      ensures touched == old(touched)[field := true]
      ensures errors == old(errors)[field := ValidateField(Name(field), Get(formData, field))]
    {
      touched := touched[field := true];
      var error := ValidateField(Name(field), Get(formData, field));
      errors := errors[field := error];
    }

    /** `handleSave`, given the server's answers. Returns what was sent and
        how many times `onSuccess` is called. */
    method HandleSave(
      store: Store.FeatureRequestStore,
      created: ApiResult<FeatureRequest>, updated: ApiResult<FeatureRequest>,
      listed: ApiResult<seq<FeatureRequest>>)
      returns (sent: Option<SaveRequest>, onSuccessCalls: nat)
      modifies this`formData, this`errors, this`touched, store
      ensures
        var valid := forall f: Field :: FieldError(initialData.Some?, f, Get(old(formData), f)).None?;
        && (valid ==> errors == map[])
        && (!valid ==>
              && (forall f: Field :: f in errors <==> FieldError(initialData.Some?, f, Get(formData, f)).Some?)
              && (forall f | f in errors :: errors[f] == FieldError(initialData.Some?, f, Get(formData, f)).value)
              && sent.None? && onSuccessCalls == 0
              && formData == old(formData) && touched == old(touched)
              && store.featureRequests == old(store.featureRequests))
        && (valid && initialData.None? ==>
              && sent == Some(CreateRequest(CreateDtoOf(old(formData))))
              && store.featureRequests == Store.Refreshed(Store.Created(old(store.featureRequests), created), listed)
              && formData == EmptyForm && touched == map[] && errors == map[]
              && onSuccessCalls == 1)
        && (valid && initialData.Some? ==>
              var id := NumberText(initialData.value.id);
              && sent == Some(UpdateRequest(id, UpdateDtoOf(old(formData))))
              && (updated.Failure? ==> store.featureRequests == old(store.featureRequests))
              && (updated.Success? ==>
                    store.featureRequests == Store.Refreshed(Store.Updated(old(store.featureRequests), id, updated), listed))
              && formData == old(formData) && touched == old(touched)
              && onSuccessCalls == (if updated.Success? then 2 else 0))
    {
      sent, onSuccessCalls := None, 0;
      var isValid := ValidateForm();
      if !isValid {
        return;
      }
      // try
      match initialData
      case Some(record) =>
        var id := NumberText(record.id);
        sent := Some(UpdateRequest(id, UpdateDtoOf(formData)));
        var thrown := store.UpdateFeatureRequest(id, UpdateDtoOf(formData), updated);
        if thrown.Some? {
          // catch: logged only
          return;
        }
        store.GetFeatureRequests(listed);
        onSuccessCalls := onSuccessCalls + 1;
        onSuccessCalls := onSuccessCalls + 1;
      case None =>
        sent := Some(CreateRequest(CreateDtoOf(formData)));
        store.CreateFeatureRequest(CreateDtoOf(formData), created);
        store.GetFeatureRequests(listed);
        formData := EmptyForm;
        touched := map[];
        errors := map[];
        onSuccessCalls := onSuccessCalls + 1;
    }
  }
}
