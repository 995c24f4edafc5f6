/**
 * The completion form a technician fills in before an order is marked Completed: a note and a
 * photo, both required.
 */
module Completion {
  import opened Options
  import Text

  /** What pressing Submit does: the form refuses (and alerts), or hands the note and the photo
      on to the detail screen. */
  datatype Submission = Rejected | Accepted(note: string, mediaUrl: string)

  /** A JavaScript string condition: neither null nor empty. */
  predicate Present(url: Option<string>)
  {
    url.Some? && url.value != ""
  }

  /** The Submit button is greyed out while the note is blank or the photo is missing. */
  predicate SubmitDisabled(note: string, mediaUrl: Option<string>)
  {
    Text.IsBlank(note) || !Present(mediaUrl)
  }

  /** `handleSubmit`: refuses a note made only of whitespace or a missing photo; otherwise hands
      on the note exactly as typed, untrimmed, and the photo unchanged. */
  function Review(note: string, mediaUrl: Option<string>): (r: Submission)
    ensures r.Rejected? <==> Text.AllWhitespace(note) || mediaUrl.None? || mediaUrl == Some("")
    ensures r.Accepted? ==> r.note == note && mediaUrl == Some(r.mediaUrl) && r.mediaUrl != ""
  {
    if Text.IsBlank(note) || !Present(mediaUrl) then Rejected else Accepted(note, mediaUrl.value)
  }

  /** The button is disabled exactly when pressing it would be refused. */
  lemma DisabledIffRejected(note: string, mediaUrl: Option<string>)
    ensures SubmitDisabled(note, mediaUrl) <==> Review(note, mediaUrl).Rejected?
  {
  }

  /** The form's own state: the note being typed and the photo read so far. */
  class CompletionForm {
    var note: string
    var mediaUrl: Option<string>

    constructor()
      ensures note == "" && mediaUrl == None
    {
      note := "";
      mediaUrl := None;
    }

    method EditNote(text: string)
      modifies this`note
      ensures note == text
    {
      note := text;
    }

    /** The photo, once read into a data url. */
    method PhotoLoaded(url: string)
      modifies this`mediaUrl
      ensures mediaUrl == Some(url)
    {
      mediaUrl := Some(url);
    }

    /** The remove button on the preview. */
    method RemovePhoto()
      modifies this`mediaUrl
      ensures mediaUrl == None
    {
      mediaUrl := None;
    }

    /** Pressing Submit changes nothing in the form. */
    method Submit() returns (r: Submission)
      ensures r == Review(note, mediaUrl)
      ensures r.Rejected? <==> SubmitDisabled(note, mediaUrl)
    {
      if Text.IsBlank(note) || !Present(mediaUrl) {
        r := Rejected;
      } else {
        r := Accepted(note, mediaUrl.value);
      }
    }
  }
}
