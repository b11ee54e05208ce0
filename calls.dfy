/**
 * The HTTP collaborator of the script, reduced to what the script reads
 * from it. Requests themselves (session, URLs, timeouts) are not modelled;
 * each call is given to the model as its outcome.
 */
module Calls {
  import opened Wrappers

  /** One object of the JSON array returned by getConsumptionOffsets. */
  datatype Entry = Entry(offsetName: string, offsetValue: real, offsetUnit: string)

  type Listing = seq<Entry>

  /**
   * What the script reads from a response object: `status_code`,
   * `elapsed` (in microseconds, the resolution of a timedelta) and the
   * value of `response.json()`, which is None when the body is not JSON.
   */
  datatype Reply = Reply(statusCode: int, elapsed: nat, json: Option<Listing>)

  /** A call that returned a response, or one that raised Timeout or ConnectionError. */
  datatype CallOutcome = Ok(reply: Reply) | TransportFailed

  /**
   * The value `getOffsets` returns for the outcome of its GET: the decoded
   * listing, or None for Python's `False` (no response, or a body that
   * does not parse). `Values.GetOffsets` is proved against it.
   */
  function JsonOut(o: CallOutcome): Option<Listing> {
    match o
    case Ok(reply) => reply.json
    case TransportFailed => None
  }
}
