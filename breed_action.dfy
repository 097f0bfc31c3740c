/** The server action behind the breed identifier: it checks that the
    submitted photo is an image data URI, hands it to the hosted identifier,
    and reports one of three results: a validation error, success with the
    identifier's answer, or a generic failure. */
module BreedAction {
  import opened Firestore

  /** The identifier's answer; its confidence is passed through unchecked. */
  datatype BreedGuess = BreedGuess(identifiedBreed: string, confidence: real)

  /** One call to the hosted identifier: an answer, or an exception. */
  datatype ModelReply = Answered(guess: BreedGuess) | Threw

  /** `ActionState`: `data` and `error` are absent unless set. */
  datatype ActionState = ActionState(success: bool, data: Option<BreedGuess>, error: Option<string>)

  const ImagePrefix := "data:image/"
  const InvalidImageMessage := "Invalid image format. Please upload a valid image."
  const UnexpectedErrorMessage := "An unexpected error occurred."

  /** `IdentifyPetBreedSchema`: a string starting with `data:image/`. */
  predicate IsImageDataUri(s: string) {
    |ImagePrefix| <= |s| && s[..|ImagePrefix|] == ImagePrefix
  }

  /** `identifyBreedAction` on the form field `photoDataUri` (absent when the
      form lacks it), with `identify` standing for the hosted identifier.
      Besides the state it returns the inputs the identifier was called with. */
  function IdentifyBreed(photoDataUri: Option<string>, identify: string -> ModelReply): (out: (ActionState, seq<string>))
    ensures out.0.success <==> out.0.error.None?
    ensures out.0.success <==> out.0.data.Some?
    ensures |out.1| <= 1
    ensures !(photoDataUri.Some? && IsImageDataUri(photoDataUri.value)) ==>
      out.0 == ActionState(false, None, Some(InvalidImageMessage)) && out.1 == []
    ensures photoDataUri.Some? && IsImageDataUri(photoDataUri.value) ==>
      && out.1 == [photoDataUri.value]
      && (identify(photoDataUri.value).Answered? ==> out.0 == ActionState(true, Some(identify(photoDataUri.value).guess), None))
      && (identify(photoDataUri.value).Threw? ==> out.0 == ActionState(false, None, Some(UnexpectedErrorMessage)))
  {
    if photoDataUri.None? || !IsImageDataUri(photoDataUri.value) then
      (ActionState(false, None, Some(InvalidImageMessage)), [])
    else
      var uri := photoDataUri.value;
      match identify(uri)
      case Answered(guess) => (ActionState(true, Some(guess), None), [uri])
      case Threw => (ActionState(false, None, Some(UnexpectedErrorMessage)), [uri])
  }

  /** What `FileReader.readAsDataURL` yields for an image file is accepted;
      a data URI of any other media type is rejected. */
  lemma DataUriPrefix(subtype: string, payload: string)
    ensures IsImageDataUri(ImagePrefix + subtype + ";base64," + payload)
    ensures !IsImageDataUri("data:text/" + subtype)
  {
    var s := ImagePrefix + subtype + ";base64," + payload;
    assert s[..|ImagePrefix|] == ImagePrefix;
    var t := "data:text/" + subtype;
    if |ImagePrefix| <= |t| {
      assert t[5] != ImagePrefix[5];
    }
  }
}
