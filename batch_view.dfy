/**
 * The batch page: loading a batch and its history from the blockchain
 * service, choosing what to show, and presenting the history as a timeline
 * whose last entry is marked as the latest.
 */
module BatchView {
  import opened Types
  import opened Gateway
  import Js

  /** The display names of the known event codes. */
  const EventNames: map<int, string> := map[
    Code(Harvest) := "Harvest",
    Code(Shipment) := "Shipment",
    Code(Processing) := "Processing",
    Code(QualityCheck) := "Quality Check",
    Code(Sale) := "Sale"
  ]

  /** The name shown for an event code: `eventNames[code] || 'Unknown'`. */
  function EventTypeName(code: int): (r: string)
    ensures 0 <= code < 5 ==> r == ["Harvest", "Shipment", "Processing", "Quality Check", "Sale"][code]
    ensures !(0 <= code < 5) ==> r == "Unknown"
  {
    if code in EventNames && EventNames[code] != [] then EventNames[code] else "Unknown"
  }

  /** "Unknown" is shown exactly for the codes that name no event type. */
  lemma UnknownIffNoEventType(code: int)
    ensures EventTypeName(code) == "Unknown" <==> FromCode(code).None?
  {
  }

  /** The colour of an event's badge. */
  datatype Badge = GreenBadge | BlueBadge | PurpleBadge | YellowBadge | RedBadge

  /**
   * Harvest green, Shipment blue, Processing purple, Quality Check yellow,
   * and red for everything else: Sale and every unknown code alike.
   */
  function BadgeOf(code: int): (b: Badge)
    ensures b == RedBadge <==> FromCode(code).None? || FromCode(code) == Some(Sale)
    ensures FromCode(code).Some? && FromCode(code) != Some(Sale) ==>
      b == [GreenBadge, BlueBadge, PurpleBadge, YellowBadge][code]
  {
    if code == Code(Harvest) then GreenBadge
    else if code == Code(Shipment) then BlueBadge
    else if code == Code(Processing) then PurpleBadge
    else if code == Code(QualityCheck) then YellowBadge
    else RedBadge
  }

  /**
   * An account address shortened for display:
   * `` `${address.slice(0, 6)}...${address.slice(-4)}` ``.
   */
  function FormatAddress(address: string): (r: string)
    ensures r == address[..Js.Min(6, |address|)] + "..." + address[Js.Max(0, |address| - 4)..]
    ensures |address| >= 10 ==>
      |r| == 13 && r[..6] == address[..6] && r[6..9] == "..." && r[9..] == address[|address| - 4..]
  {
    Js.Slice(address, 0, 6) + "..." + Js.SliceFrom(address, -4)
  }

  /** The dot beside a timeline entry: green for the latest event, blue for the earlier ones. */
  datatype Dot = GreenDot | BlueDot

  /** One rendered timeline entry. */
  datatype Entry = Entry(
    event: SupplyChainEvent, dot: Dot, connector: bool, badge: Badge, title: string,
    recordedBy: string, reference: string)

  /**
   * The timeline: one entry per event, in the order the ledger returned them.
   * Only the last entry is the latest, and every entry but the last has a
   * connector below it. Each card shows the event's badge and name, who
   * recorded it, and its data reference or a placeholder when it has none.
   */
  function Timeline(events: seq<SupplyChainEvent>): (r: seq<Entry>)
    ensures |r| == |events|
    ensures forall i :: 0 <= i < |r| ==> r[i].event == events[i]
    ensures forall i :: 0 <= i < |r| ==> (r[i].dot == GreenDot <==> i == |r| - 1)
    ensures forall i :: 0 <= i < |r| ==> (r[i].connector <==> i + 1 < |r|)
    ensures forall i :: 0 <= i < |r| ==>
      && r[i].badge == BadgeOf(events[i].eventType)
      && r[i].title == EventTypeName(events[i].eventType)
      && r[i].recordedBy == FormatAddress(events[i].actor)
      && r[i].reference == (if events[i].dataHash != [] then events[i].dataHash else "No additional data")
  {
    seq(|events|, i requires 0 <= i < |events| =>
      Entry(events[i],
            if i == |events| - 1 then GreenDot else BlueDot,
            i < |events| - 1,
            BadgeOf(events[i].eventType),
            EventTypeName(events[i].eventType),
            FormatAddress(events[i].actor),
            if events[i].dataHash != [] then events[i].dataHash else "No additional data"))
  }

  function Trues(bs: seq<bool>): nat
  {
    if bs == [] then 0 else (if bs[0] then 1 else 0) + Trues(bs[1..])
  }

  /** When exactly the first `k` flags are set, `k` flags are set. */
  lemma {:induction false} TruesOfPrefix(bs: seq<bool>, k: nat)
    requires k <= |bs|
    requires forall i :: 0 <= i < |bs| ==> (bs[i] <==> i < k)
    ensures Trues(bs) == k
  {
    if bs != [] {
      TruesOfPrefix(bs[1..], if k == 0 then 0 else k - 1);
    }
  }

  /** When exactly the flag at `j` is set, one flag is set. */
  lemma {:induction false} TruesOfSingle(bs: seq<bool>, j: nat)
    requires j < |bs|
    requires forall i :: 0 <= i < |bs| ==> (bs[i] <==> i == j)
    ensures Trues(bs) == 1
  {
    if j == 0 {
      TruesOfPrefix(bs[1..], 0);
    } else {
      TruesOfSingle(bs[1..], j - 1);
    }
  }

  function LatestFlags(entries: seq<Entry>): (bs: seq<bool>)
    ensures |bs| == |entries| && forall i :: 0 <= i < |entries| ==> (bs[i] <==> entries[i].dot == GreenDot)
  {
    seq(|entries|, i requires 0 <= i < |entries| => entries[i].dot == GreenDot)
  }

  function ConnectorFlags(entries: seq<Entry>): (bs: seq<bool>)
    ensures |bs| == |entries| && forall i :: 0 <= i < |entries| ==> (bs[i] <==> entries[i].connector)
  {
    seq(|entries|, i requires 0 <= i < |entries| => entries[i].connector)
  }

  /**
   * A non-empty timeline has exactly one latest entry and one connector
   * fewer than it has entries; an empty one has neither.
   */
  lemma TimelineCounts(events: seq<SupplyChainEvent>)
    ensures Trues(LatestFlags(Timeline(events))) == if events == [] then 0 else 1
    ensures Trues(ConnectorFlags(Timeline(events))) == if events == [] then 0 else |events| - 1
  {
    var r := Timeline(events);
    if events == [] {
      TruesOfPrefix(LatestFlags(r), 0);
      TruesOfPrefix(ConnectorFlags(r), 0);
    } else {
      TruesOfSingle(LatestFlags(r), |r| - 1);
      TruesOfPrefix(ConnectorFlags(r), |r| - 1);
    }
  }

  /** The history part of the page: a notice when there are no events, the timeline otherwise. */
  datatype History = HistoryUnavailable | HistoryTimeline(entries: seq<Entry>)

  function HistoryOf(events: seq<SupplyChainEvent>): (h: History)
    ensures h.HistoryUnavailable? <==> events == []
    ensures h.HistoryTimeline? ==> h.entries == Timeline(events) && |h.entries| > 0
  {
    if |events| == 0 then HistoryUnavailable else HistoryTimeline(Timeline(events))
  }

  /** What the page shows. */
  datatype Screen =
    | LoadingScreen
    | ErrorScreen(message: string)
    | NotFoundScreen
    | DetailsScreen(batch: Batch, creator: string, eventCount: nat, history: History)

  /**
   * The page for the given state, by priority: loading first, then an error,
   * then a missing batch, and only then the batch with its history.
   */
  function ScreenOf(loading: bool, error: Option<string>, batch: Option<Batch>, events: seq<SupplyChainEvent>): (s: Screen)
    ensures s.LoadingScreen? <==> loading
    ensures s.ErrorScreen? <==> !loading && Js.Truthy(error)
    ensures s.ErrorScreen? ==> error == Some(s.message)
    ensures s.NotFoundScreen? <==> !loading && !Js.Truthy(error) && batch.None?
    ensures s.DetailsScreen? ==>
      && batch == Some(s.batch)
      && s.creator == FormatAddress(s.batch.creator)
      && s.eventCount == |events|
      && s.history == HistoryOf(events)
  {
    if loading then LoadingScreen
    else if Js.Truthy(error) then ErrorScreen(error.value)
    else if batch.None? then NotFoundScreen
    else DetailsScreen(batch.value, FormatAddress(batch.value.creator), |events|, HistoryOf(events))
  }

  const LoadFailed: string := "Failed to load batch data"

  /** The page's state, updated in place by its loader. */
  class BatchViewPage {
    var batch: Option<Batch>
    var events: seq<SupplyChainEvent>
    var loading: bool
    var error: Option<string>

    constructor ()
      ensures batch == None && events == [] && loading && error == None
    {
      batch, events, loading, error := None, [], true, None;
    }

    function View(): Screen
      reads this
    {
      ScreenOf(loading, error, batch, events)
    }

    /**
     * Loads the batch named by the route's id and then its history.
     * Without an id nothing happens. Otherwise the error is cleared; the
     * service connects first when it has no contract yet; the batch is stored
     * as soon as `getBatch` returns, and the history is fetched only then; the
     * first call that throws stops the run and leaves its message as the
     * error; loading ends false in every case.
     */
    method LoadBatchData(id: Option<nat>, contractReady: bool, connectReply: Reply<()>,
                         batchReply: Reply<Batch>, historyReply: Reply<seq<SupplyChainEvent>>)
      returns (calls: seq<Call>)
      modifies this
      ensures id.None? ==> calls == [] && unchanged(this)
      ensures id.Some? ==>
        var connected := contractReady || connectReply.Returned?;
        var loaded := connected && batchReply.Returned?;
        && !loading
        && calls == (if contractReady then [] else [Connect])
                    + (if connected then [GetBatch(id.value)] else [])
                    + (if loaded then [GetBatchHistory(id.value)] else [])
        && batch == (if loaded then Some(batchReply.value) else old(batch))
        && events == (if loaded && historyReply.Returned? then historyReply.value else old(events))
        && error == (if !connected then Some(ErrorText(connectReply.message, LoadFailed))
                     else if batchReply.Threw? then Some(ErrorText(batchReply.message, LoadFailed))
                     else if historyReply.Threw? then Some(ErrorText(historyReply.message, LoadFailed))
                     else None)
        && (View().ErrorScreen? <==> error.Some?)
      ensures id.Some? && (contractReady || connectReply.Returned?) && batchReply.Returned? && historyReply.Threw? ==>
        batch == Some(batchReply.value) && View().ErrorScreen?
    {
      if id.None? {
        return [];
      }
      loading := true;
      error := None;
      calls := [];
      var failure: Option<string> := None;
      if !contractReady {
        calls := calls + [Connect];
        if connectReply.Threw? {
          failure := Some(connectReply.message);
        }
      }
      if failure.None? {
        calls := calls + [GetBatch(id.value)];
        match batchReply {
          case Threw(message) =>
            failure := Some(message);
          case Returned(b) =>
            batch := Some(b);
            calls := calls + [GetBatchHistory(id.value)];
            match historyReply {
              case Threw(message) =>
                failure := Some(message);
              case Returned(es) =>
                events := es;
            }
        }
      }
      if failure.Some? {
        error := Some(ErrorText(failure.value, LoadFailed));
      }
      loading := false;
    }
  }
}
