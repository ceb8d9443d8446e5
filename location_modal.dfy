/**
 * The add/edit form: its six editable fields, how they are initialised and edited,
 * the payload it submits, and which controls it offers.
 */
module LocationModal {
  import opened Types

  /** The form's state record (`formData`). */
  datatype FormData = FormData(
    title: string,
    category: Category,
    description: string,
    phoneNumber: string,
    image: string,
    openHours: string)

  /** What the form hands to `onSubmit`: the six fields plus the coordinates, and nothing else. */
  datatype Payload = Payload(
    title: string,
    category: Category,
    description: string,
    phoneNumber: string,
    image: string,
    openHours: string,
    x: real,
    y: real)

  /** The form's initial state: every text empty, category FOOD. */
  const EmptyForm: FormData := FormData("", FOOD, "", "", "", "")

  /** The form filled from the record being edited; a missing (or empty) optional text becomes ''. */
  function FormFor(loc: Location): (f: FormData)
    ensures f.title == loc.title && f.category == loc.category && f.description == loc.description
    ensures f.phoneNumber == OrElse(loc.phoneNumber, "")
    ensures f.image == OrElse(loc.image, "")
    ensures f.openHours == OrElse(loc.openHours, "")
    ensures loc.phoneNumber.None? ==> f.phoneNumber == ""
    ensures loc.image.None? ==> f.image == ""
    ensures loc.openHours.None? ==> f.openHours == ""
  {
    FormData(loc.title, loc.category, loc.description,
             OrElse(loc.phoneNumber, ""), OrElse(loc.image, ""), OrElse(loc.openHours, ""))
  }

  /**
   * `handleSubmit`'s payload: the form's fields, with the edited record's coordinates
   * when editing, else the tapped point, else (50, 50).
   */
  function SubmitPayload(form: FormData, initialData: Option<Location>, initialCoords: Option<Coords>): (p: Payload)
    ensures p.title == form.title && p.category == form.category && p.description == form.description
    ensures p.phoneNumber == form.phoneNumber && p.image == form.image && p.openHours == form.openHours
    ensures initialData.Some? ==> p.x == initialData.value.x && p.y == initialData.value.y
    ensures initialData.None? && initialCoords.Some? ==> p.x == initialCoords.value.x && p.y == initialCoords.value.y
    ensures initialData.None? && initialCoords.None? ==> p.x == 50.0 && p.y == 50.0
  {
    var x := if initialData.Some? then initialData.value.x
             else if initialCoords.Some? then initialCoords.value.x else 50.0;
    var y := if initialData.Some? then initialData.value.y
             else if initialCoords.Some? then initialCoords.value.y else 50.0;
    Payload(form.title, form.category, form.description, form.phoneNumber, form.image, form.openHours, x, y)
  }

  /** Submitting an edit form that was loaded and not changed reproduces the record's own fields. */
  lemma UnchangedEditReproducesRecord(loc: Location, coords: Option<Coords>)
    ensures var p := SubmitPayload(FormFor(loc), Some(loc), coords);
      p.title == loc.title && p.category == loc.category && p.description == loc.description &&
      p.x == loc.x && p.y == loc.y &&
      (Truthy(loc.image) ==> p.image == loc.image.value) &&
      (Truthy(loc.phoneNumber) ==> p.phoneNumber == loc.phoneNumber.value) &&
      (Truthy(loc.openHours) ==> p.openHours == loc.openHours.value)
  {
  }

  /** The translation key of the submit button. */
  function SubmitLabelKey(isEditMode: bool, isAdmin: bool): (k: string)
    ensures isEditMode ==> k == "form_update"
    ensures !isEditMode && isAdmin ==> k == "form_create"
    ensures !isEditMode && !isAdmin ==> k == "form_submit"
  {
    if isEditMode then "form_update" else if isAdmin then "form_create" else "form_submit"
  }

  /** The translation key of the dialog title. */
  function TitleKey(isEditMode: bool): (k: string)
    ensures isEditMode ==> k == "form_edit_title"
    ensures !isEditMode ==> k == "form_add_title"
  {
    if isEditMode then "form_edit_title" else "form_add_title"
  }

  /** The Move button is rendered only in edit mode, for an admin, when a handler is given. */
  predicate ShowsMoveButton(isEditMode: bool, isAdmin: bool, hasOnStartMove: bool)
  {
    isEditMode && isAdmin && hasOnStartMove
  }

  /** The Delete button is rendered only in edit mode, for an admin, when a handler is given. */
  predicate ShowsDeleteButton(isEditMode: bool, isAdmin: bool, hasOnDelete: bool)
  {
    isEditMode && isAdmin && hasOnDelete
  }

  /** A guest, or anyone adding a new point, is offered neither Move nor Delete. */
  lemma GuestsAndNewFormsCannotMoveOrDelete(isEditMode: bool, isAdmin: bool, hasHandlers: bool)
    ensures !isAdmin || !isEditMode ==>
      !ShowsMoveButton(isEditMode, isAdmin, hasHandlers) && !ShowsDeleteButton(isEditMode, isAdmin, hasHandlers)
  {
  }

  /** The mounted dialog: its props and its `formData` state. */
  class Form {
    const initialData: Option<Location>
    const initialCoords: Option<Coords>
    const isAdmin: bool
    var formData: FormData

    /** Mounting: the state starts as the empty form. */
    constructor (initialData: Option<Location>, initialCoords: Option<Coords>, isAdmin: bool)
      ensures this.initialData == initialData && this.initialCoords == initialCoords && this.isAdmin == isAdmin
      ensures formData == EmptyForm
    {
      this.initialData := initialData;
      this.initialCoords := initialCoords;
      this.isAdmin := isAdmin;
      formData := EmptyForm;
    }

    /** `isEditMode = !!initialData`. */
    predicate IsEditMode()
    {
      initialData.Some?
    }

    /** The effect on `initialData`: load the edited record into the form; nothing happens without one. */
    method LoadInitialData()
      modifies this`formData
      ensures initialData.Some? ==> formData == FormFor(initialData.value)
      ensures initialData.None? ==> formData == old(formData)
    {
      if initialData.Some? {
        formData := FormFor(initialData.value);
      }
    }

    method EditTitle(value: string)
      modifies this`formData
      ensures formData == old(formData).(title := value)
    {
      formData := formData.(title := value);
    }

    method EditCategory(value: Category)
      modifies this`formData
      ensures formData == old(formData).(category := value)
    {
      formData := formData.(category := value);
    }

    method EditPhoneNumber(value: string)
      modifies this`formData
      ensures formData == old(formData).(phoneNumber := value)
    {
      formData := formData.(phoneNumber := value);
    }

    method EditDescription(value: string)
      modifies this`formData
      ensures formData == old(formData).(description := value)
    {
      formData := formData.(description := value);
    }

    /** A picked photo, once read as a data-URL, becomes the image field. */
    method SetImage(dataUrl: string)
      modifies this`formData
      ensures formData == old(formData).(image := dataUrl)
    {
      formData := formData.(image := dataUrl);
    }

    /** The remove-photo button clears the image and nothing else. */
    method RemoveImage()
      modifies this`formData
      ensures formData == old(formData).(image := "")
    {
      formData := formData.(image := "");
    }

    /**
     * Submitting the form: the browser blocks the submit while the `required` name
     * field is empty, so nothing reaches `onSubmit`; otherwise `handleSubmit` hands over
     * the payload. The form's state does not change either way.
     */
    method Submit() returns (p: Option<Payload>)
      ensures formData.title == "" ==> p.None?
      ensures formData.title != "" ==> p == Some(SubmitPayload(formData, initialData, initialCoords))
      ensures p.Some? ==> p.value.title != ""
    {
      if formData.title == "" {
        p := None;
      } else {
        p := Some(SubmitPayload(formData, initialData, initialCoords));
      }
    }
  }
}
