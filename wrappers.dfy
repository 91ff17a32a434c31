/** Option and Result, the failure-carrying values used throughout the model. */
module Wrappers {

  datatype Option<+T> = None | Some(value: T) {
    /** The value inside `Some`, or `default` for `None`, as Python's `dict.get(key, default)`. */
    function GetOr(default: T): T {
      match this
      case Some(v) => v
      case None => default
    }
  }

  datatype Result<+T, +E> = Ok(value: T) | Err(error: E)
}

/** Why a window, or the whole run, stops. */
module Errors {

  datatype Error =
    | ApiFailure          // generate_content or response.text raised
    | InvalidJson         // json.loads failed, or the payload is not a JSON object
    | NullChunkSummary    // "chunk_summary": null makes list.extend raise TypeError
    | MissingMessageId    // message['id'] raised KeyError
    | UnhashableDict      // the checkpoint literal as written builds a set holding a dict
}
