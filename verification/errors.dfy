/**
  The kinds of failure the orchestrator reports, and the message each one
  carries.  A provider's own failure is passed on with its message unchanged.
*/
module Errors {
  import opened Text

  datatype Error =
    | ProviderNotFound
    | JobNotFound
    | ProviderError(reason: string)
    | UnsupportedFormat(format: string)

  const PROVIDER_NOT_FOUND := "Provider not found"
  const JOB_NOT_FOUND := "Job doesn't exist"
  const UNSUPPORTED_FORMAT := "Unable to generate a transcript for caption format: "

  /** The text the caller sees for an error. */
  function Message(e: Error): string {
    match e
    case ProviderNotFound => PROVIDER_NOT_FOUND
    case JobNotFound => JOB_NOT_FOUND
    case ProviderError(reason) => reason
    case UnsupportedFormat(format) => UNSUPPORTED_FORMAT + format
  }

  /**
    The message of an unsupported-format error names the format: it is the
    fixed prefix followed by the tag, so the tag can be read back from it.
  */
  lemma UnsupportedFormatNamesTag(format: string)
    ensures StartsWith(Message(UnsupportedFormat(format)), UNSUPPORTED_FORMAT)
    ensures Message(UnsupportedFormat(format))[|UNSUPPORTED_FORMAT|..] == format
  {
    var m := UNSUPPORTED_FORMAT + format;
    assert m[..|UNSUPPORTED_FORMAT|] == UNSUPPORTED_FORMAT;
    assert m[|UNSUPPORTED_FORMAT|..] == format;
  }

  /** Two unsupported-format errors with the same message are about the same tag. */
  lemma UnsupportedFormatMessageInjective(a: string, b: string)
    requires Message(UnsupportedFormat(a)) == Message(UnsupportedFormat(b))
    ensures a == b
  {
    UnsupportedFormatNamesTag(a);
    UnsupportedFormatNamesTag(b);
  }
}
