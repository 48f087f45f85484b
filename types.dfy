/**
 * The shared domain types of the two pages: the event-type enumeration with
 * its ledger codes, the batch and event records the ledger returns, and the
 * signed-in user's profile.
 */
module Types {

  datatype Option<T> = None | Some(value: T)

  /** The kinds of supply-chain event the ledger records. */
  datatype EventType = Harvest | Shipment | Processing | QualityCheck | Sale

  /** The integer the ledger uses for each event type. */
  function Code(e: EventType): (n: nat)
    ensures n < 5
  {
    match e
    case Harvest => 0
    case Shipment => 1
    case Processing => 2
    case QualityCheck => 3
    case Sale => 4
  }

  /** The event type a ledger code stands for; codes outside 0..4 stand for none. */
  function FromCode(n: int): (r: Option<EventType>)
    ensures r.Some? <==> 0 <= n < 5
    ensures r.Some? ==> Code(r.value) == n
  {
    if n == 0 then Some(Harvest)
    else if n == 1 then Some(Shipment)
    else if n == 2 then Some(Processing)
    else if n == 3 then Some(QualityCheck)
    else if n == 4 then Some(Sale)
    else None
  }

  /** Decoding a code recovers the event type, so distinct types have distinct codes. */
  lemma CodeRoundTrip(e: EventType)
    ensures FromCode(Code(e)) == Some(e)
  {
  }

  /** A batch as the ledger describes it; `creator` is an account address. */
  datatype Batch = Batch(id: nat, productType: string, creator: string, creationTimestamp: int)

  /**
   * One entry of a batch's history as the ledger returns it. The event type
   * is kept as the raw code, since a view must cope with codes it does not know.
   */
  datatype SupplyChainEvent = SupplyChainEvent(
    batchId: nat, eventType: int, actor: string, timestamp: int, dataHash: string)

  /** The signed-in user: a display name and a numeric role (1 producer, 2 processor, 3 retailer, 4 certifier). */
  datatype UserProfile = UserProfile(name: string, role: int)
}
