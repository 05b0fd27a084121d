/** Failure-compatible wrappers shared by the modules of this model. */
module Wrappers {

  /** A value that may be absent, like a missing dictionary key. */
  datatype Option<+T> = None | Some(value: T) {

    /** The wrapped value, or `default` when there is none (Python's `dict.get(key, default)`). */
    function GetOr(default: T): (r: T)
      ensures Some? ==> r == value
      ensures None? ==> r == default
    {
      match this
      case Some(v) => v
      case None => default
    }
  }

  /** Either a successful value or an error. */
  datatype Result<+R, +E> = Success(value: R) | Failure(error: E)
}

/** HTTP errors as the web layer reports them: a status code and a detail text. */
module Http {

  datatype HttpError = HttpError(status: nat, detail: string)

  const BadRequest: nat := 400
  const InternalServerError: nat := 500

  /** What the web framework answers when an endpoint raises an exception it does not handle. */
  const UnhandledError := HttpError(InternalServerError, "Internal Server Error")

  /** The rejection of an upload whose filename is not a PDF name. */
  const UnsupportedFile := HttpError(BadRequest, "Only PDF files supported")

  /** The catch-all wrapper of the chat endpoint: any failure becomes a 500 carrying its message. */
  function ChatFailure(message: string): (e: HttpError)
    ensures e.status == InternalServerError
    ensures |e.detail| == |"Error processing chat: "| + |message|
    ensures e.detail[..|"Error processing chat: "|] == "Error processing chat: "
    ensures e.detail[|"Error processing chat: "|..] == message
  {
    HttpError(InternalServerError, "Error processing chat: " + message)
  }

  /** How Python renders a `KeyError` for a string key: the key between single quotes. */
  function KeyErrorText(key: string): (t: string)
    ensures |t| == |key| + 2
    ensures t[0] == '\'' && t[|t| - 1] == '\''
    ensures t[1..|t| - 1] == key
  {
    "'" + key + "'"
  }
}
