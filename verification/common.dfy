/** Values shared by the streaming engines. */
module Common {
  datatype Option<+T> = None | Some(value: T)

  type Message = string

  /** The texts the engines put into the errors they raise themselves; Text is any other. */
  datatype Details =
    | Text(text: string)
    | SendInitMdFailed | RecvInitMdFailed | WriteFailed | SendFailed | ReadFailed
    | ReadStartFailed | CloseFailed | StreamInitFailed | RecvStatusFailed
    | ClientStreamingInitFailed | ServerReadFailed | ReaderInitFailed

  /** A gRPC status: code 0 is OK, code 13 is INTERNAL. */
  datatype Status = Status(code: nat, details: Details) {
    predicate Ok() {
      code == 0
    }
  }

  const OK := Status(0, Text(""))

  function InternalError(details: Details): Status {
    Status(13, details)
  }

  /** xs without its last element; used to walk a log from its newest entry. */
  function Front<T>(xs: seq<T>): (ys: seq<T>)
    requires xs != []
    ensures |ys| == |xs| - 1
  {
    xs[..|xs| - 1]
  }

  function Last<T>(xs: seq<T>): T
    requires xs != []
  {
    xs[|xs| - 1]
  }
}
