/** The report form (`src/components/UploadLostItemForm.js`): field edits,
    the image choice, and the submission that runs the three-step upload. */
module UploadForm {
  import opened Common
  import opened Service

  const LOST := "lost"
  const FOUND := "found"
  const SELECT_IMAGE := "Please select an image first!"
  const UPLOAD_FALLBACK := "Upload failed. Please try again."

  /** The empty form the page starts with and returns to after a submission. */
  const EMPTY_DRAFT := Draft(LOST, "", "", "", "")

  /** The `name` of a form input. */
  datatype Field = ItemTypeField | ItemNameField | DescriptionField | LocationField | DateLostField

  function FieldValue(d: Draft, f: Field): string {
    match f
    case ItemTypeField => d.itemType
    case ItemNameField => d.itemName
    case DescriptionField => d.description
    case LocationField => d.location
    case DateLostField => d.dateLost
  }

  /** `{ ...prev, [name]: value }`. */
  function WithField(d: Draft, f: Field, value: string): Draft {
    match f
    case ItemTypeField => d.(itemType := value)
    case ItemNameField => d.(itemName := value)
    case DescriptionField => d.(description := value)
    case LocationField => d.(location := value)
    case DateLostField => d.(dateLost := value)
  }

  /** An edit sets its own field and leaves every other field as it was. */
  lemma WithFieldSpec(d: Draft, f: Field, value: string)
    ensures FieldValue(WithField(d, f, value), f) == value
    ensures forall g :: g != f ==> FieldValue(WithField(d, f, value), g) == FieldValue(d, g)
  {
  }

  /** Edits of different fields commute; a later edit of the same field wins. */
  lemma WithFieldCommutes(d: Draft, f: Field, v: string, g: Field, w: string)
    ensures f != g ==> WithField(WithField(d, f, v), g, w) == WithField(WithField(d, g, w), f, v)
    ensures WithField(WithField(d, f, v), f, w) == WithField(d, f, w)
  {
  }

  /** The form the page opens with, and returns to after a successful
      submission, reports a lost item and has every text field empty; its
      confirmation would read as a lost report. */
  lemma EmptyDraftIsBlankLostReport(f: Field)
    ensures FieldValue(EMPTY_DRAFT, f) == if f == ItemTypeField then LOST else ""
    ensures SuccessMessage(EMPTY_DRAFT.itemType) == SuccessMessage(LOST)
  {
  }

  /** The confirmation after a successful upload: any type other than `lost` reads as found. */
  function SuccessMessage(itemType: string): string {
    "Item " + (if itemType == LOST then LOST else FOUND) + " report submitted successfully!"
  }

  lemma SuccessMessageByType(itemType: string)
    ensures itemType == LOST <==> SuccessMessage(itemType) == SuccessMessage(LOST)
    ensures SuccessMessage(LOST) != SuccessMessage(FOUND)
  {
    assert SuccessMessage(LOST)[5] != SuccessMessage(FOUND)[5];
  }

  /** `submitStatus`. */
  datatype SubmitStatus = SubmitStatus(success: bool, message: string)

  class Form {
    var formData: Draft
    var file: Option<File>
    /** The data URL of the chosen image, once the file reader has produced it. */
    var preview: Option<string>
    var isSubmitting: bool
    var submitStatus: Option<SubmitStatus>
    /** `undefined` when the backend sent no code is `None`. */
    var verificationCode: Option<string>

    constructor ()
      ensures formData == EMPTY_DRAFT && file == None && preview == None && !isSubmitting && submitStatus == None
      ensures verificationCode == Some("")
    {
      formData, file, preview, isSubmitting := EMPTY_DRAFT, None, None, false;
      submitStatus, verificationCode := None, Some("");
    }

    method HandleInputChange(name: Field, value: string)
      modifies this`formData
      ensures formData == WithField(old(formData), name, value)
    {
      formData := WithField(formData, name, value);
    }

    /** The two type buttons. */
    method ChooseType(itemType: string)
      requires itemType == LOST || itemType == FOUND
      modifies this`formData
      ensures formData == old(formData).(itemType := itemType)
    {
      formData := formData.(itemType := itemType);
    }

    /** `handleFileChange`: the first selected file, or none. The preview of a
        chosen file arrives later, from the file reader (`PreviewLoaded`). */
    method HandleFileChange(selected: Option<File>)
      modifies this`file, this`preview
      ensures file == selected
      ensures selected.None? ==> preview == None
      ensures selected.Some? ==> preview == old(preview)
    {
      file := selected;
      if selected.None? {
        preview := None;
      }
    }

    /** The file reader's `onloadend`. */
    method PreviewLoaded(dataUrl: string)
      modifies this`preview
      ensures preview == Some(dataUrl)
    {
      preview := Some(dataUrl);
    }

    /** `handleSubmit`; `newId` stands for the id the upload draws. */
    method HandleSubmit(net: Network, session: AuthSession, newId: string)
      modifies this`formData, this`file, this`preview, this`isSubmitting, this`submitStatus, this`verificationCode, net
      ensures !isSubmitting
      ensures old(file).None? ==>
                submitStatus == Some(SubmitStatus(false, SELECT_IMAGE)) && verificationCode == Some("") &&
                formData == old(formData) && file == old(file) && preview == old(preview) &&
                net.trace == old(net.trace)
      ensures old(file).Some? ==>
                var n := |old(net.trace)|;
                var run := SavePlan(GetAuthToken(session), old(formData), old(file), newId,
                                    net.ReplyAt(n), net.ReplyAt(n + 1), net.ReplyAt(n + 2));
                net.trace == old(net.trace) + run.calls &&
                (run.result.Ok? ==>
                   submitStatus == Some(SubmitStatus(true, SuccessMessage(old(formData).itemType))) &&
                   verificationCode == run.result.value.verificationCode &&
                   formData == EMPTY_DRAFT && file == None && preview == None) &&
                (run.result.Err? ==>
                   submitStatus == Some(SubmitStatus(false, OrElse(Some(run.result.message), UPLOAD_FALLBACK))) &&
                   verificationCode == Some("") && formData == old(formData) && file == old(file) &&
                   preview == old(preview))
    {
      isSubmitting := true;
      submitStatus := None;
      verificationCode := Some("");
      if file.None? {
        submitStatus := Some(SubmitStatus(false, SELECT_IMAGE));
        isSubmitting := false;
        return;
      }
      var saved := SaveItem(net, session, formData, file, newId);
      if saved.Ok? {
        submitStatus := Some(SubmitStatus(true, SuccessMessage(formData.itemType)));
        verificationCode := saved.value.verificationCode;
        formData := EMPTY_DRAFT;
        file := None;
        preview := None;
      } else {
        submitStatus := Some(SubmitStatus(false, OrElse(Some(saved.message), UPLOAD_FALLBACK)));
      }
      isSubmitting := false;
    }
  }

  /** A successful submission always sent the image and then the metadata,
      in three requests, and the metadata carries the form as it was. */
  lemma SubmittedRecordCarriesForm(token: Option<string>, d: Draft, file: File, newId: string,
                                   r1: Reply, r2: Reply, r3: Reply)
    requires SavePlan(token, d, Some(file), newId, r1, r2, r3).result.Ok?
    ensures var run := SavePlan(token, d, Some(file), newId, r1, r2, r3);
            |run.calls| == 3 && run.calls[1].S3Put? && run.calls[1].file == file &&
            run.calls[2].MetadataPost? && run.calls[2].record.itemId == newId &&
            run.calls[2].record.status == ACTIVE &&
            run.calls[2].record.itemName == d.itemName && run.calls[2].record.description == d.description &&
            run.calls[2].record.location == d.location && run.calls[2].record.createdAt == d.dateLost &&
            run.calls[2].record.itemType == d.itemType
  {
  }
}
