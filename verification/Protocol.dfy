/** The browser-facing message vocabulary that the flash session's parts share. */
module Protocol {

  datatype Option<+T> = None | Some(value: T)

  /** The crate's error kinds, as far as they reach the wire as an `error` code. */
  datatype Code = InvalidRequest | Daemon | Grpc | Cancelled | Resource | Io

  /** What a response may carry. Any number of Log, Progress and MonitorData may come under an id; a Result or an Error
      normally ends it; an Event belongs to no request. */
  datatype Body =
    | Log(chunk: string)
    | Progress(phase: string, percent: real)
    | Result(payload: string)
    | Error(code: Code, message: string)
    | MonitorData(data: string)
    | Event(notice: string)

  datatype Response = Response(id: string, body: Body)

  /** Streamed text, the only bodies the writer may hold back and merge. */
  predicate IsBatchable(body: Body) {
    body.Log? || body.MonitorData?
  }

  predicate IsTerminal(body: Body) {
    body.Result? || body.Error?
  }

  function Last<T>(s: seq<T>): T
    requires s != []
  {
    s[|s| - 1]
  }

  function Front<T>(s: seq<T>): seq<T>
    requires s != []
  {
    s[..|s| - 1]
  }
}
