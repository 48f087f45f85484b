/**
 * The blockchain service as the pages see it. Each awaited call either
 * returns a value or throws an error carrying a message; which one happens
 * is decided outside the pages, so a handler receives the replies as inputs
 * and reports the calls it made, in order.
 */
module Gateway {
  import opened Types
  import Js

  /** What one awaited service call produced. */
  datatype Reply<T> = Returned(value: T) | Threw(message: string)

  /** A call a handler makes on the blockchain service. */
  datatype Call =
    | Connect
    | GetBatch(id: nat)
    | GetBatchHistory(id: nat)
    | RecordEvent(id: nat, eventType: Js.Number, dataHash: string)

  /** The message a handler stores for a thrown error: `err.message || fallback`. */
  function ErrorText(message: string, fallback: string): (r: string)
    ensures message != [] ==> r == message
    ensures message == [] ==> r == fallback
    ensures fallback != [] ==> Js.Truthy(Some(r))
  {
    if message != [] then message else fallback
  }
}
