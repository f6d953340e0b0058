/**
 * The wrapper around the handwriting-recognition service
 * (`extract_text_from_image`). Reading the image file and the service call
 * itself are outside the model: their combined result for an image path is
 * given as a `Recogniser`, a function from the path to what came back.
 * The wrapper never raises; a failure becomes diagnostic text.
 */
module Ocr {
  import opened Blank

  /** What reading the file and calling the service produced: the response
      text, or an exception with its message (file not readable, transport,
      authentication, quota or a response without text). */
  datatype Reply = Recognised(text: string) | Raised(message: string)

  /** The recognition service as seen from one "generate" action. */
  type Recogniser = string -> Reply

  const ErrorPrefix: string := "Error extracting text: "

  /** The text the wrapper returns for the image at `imagePath`: the service's
      text on success, otherwise `ErrorPrefix` followed by the error message. */
  function ExtractTextFromImage(recognise: Recogniser, imagePath: string): (r: string)
    ensures recognise(imagePath).Recognised? ==> r == recognise(imagePath).text
    ensures recognise(imagePath).Raised? ==>
      |ErrorPrefix| <= |r| && r[..|ErrorPrefix|] == ErrorPrefix &&
      r[|ErrorPrefix|..] == recognise(imagePath).message
  {
    match recognise(imagePath)
    case Recognised(text) => text
    case Raised(message) => ErrorPrefix + message
  }

  /** A failed call still yields report text that passes the blank test,
      whatever the error message is (even an empty one). */
  lemma {:induction false} DiagnosticNeverBlank(recognise: Recogniser, imagePath: string)
    requires recognise(imagePath).Raised?
    ensures !IsBlank(ExtractTextFromImage(recognise, imagePath))
    ensures !IsBlank(ExtractTextFromImage(recognise, imagePath) + "\n")
  {
    var r := ExtractTextFromImage(recognise, imagePath);
    assert r[0] == ErrorPrefix[0] == 'E';
    NotBlankWitness(r, 0);
    BlankIgnoresFinalNewline(r);
  }
}
