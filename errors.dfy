/** The error taxonomy of the transform engine. Every failure carries exactly
    one tag; the tag's text is what the error message contains. */
module Errors {

  /** Which descriptor an `[invalid-properties]` error is about. */
  datatype Culprit = OfTransform | OfPlugin

  datatype ErrorTag =
    | InvalidProperties(culprit: Culprit)  // a malformed transform or plugin descriptor
    | ItemsInvalid                         // a transform function returned non-object items
    | TransformFunctionInvalid             // a transform function returned neither array nor collection
    | PluginReturnInvalid                  // a plugin handler returned something other than an array of objects

  /** The bracketed tag carried by the error's message. */
  function TagText(e: ErrorTag): (s: string)
    ensures |s| >= 2 && s[0] == '[' && s[|s| - 1] == ']'
  {
    match e
    case InvalidProperties(_) => "[invalid-properties]"
    case ItemsInvalid => "[items-invalid]"
    case TransformFunctionInvalid => "[transform-function-invalid]"
    case PluginReturnInvalid => "[plugin-return-invalid]"
  }

  /** Two errors carry the same tag exactly when they are of the same kind:
      the culprit of an `[invalid-properties]` error is not part of the tag. */
  lemma TagTextIdentifiesKind(a: ErrorTag, b: ErrorTag)
    ensures TagText(a) == TagText(b) <==> (a.InvalidProperties? && b.InvalidProperties?) || a == b
  {
  }
}
