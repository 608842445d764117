/**
 * The read side of fog_handler.py: the snapshot a joining viewer receives
 * (`connect`, lines 34-41), the dashboard page data (lines 77-81), and the
 * `/data` and `/gateways` routes (lines 84-89).
 */
module Views {
  import opened Wrappers
  import opened Telemetry
  import opened History
  import opened Handler
  import opened GatewayOrder

  /** Entries in a snapshot: `message_history[-25:]`. */
  const SnapshotSize: nat := 25

  /** `message_history[-25:]`: the newest entries, oldest first, never more than 25. */
  function RecentMessages(s: State): (r: seq<Observation>)
    ensures |r| == if |s.history| < SnapshotSize then |s.history| else SnapshotSize
    ensures forall k :: 0 <= k < |r| ==> r[k] == s.history[|s.history| - |r| + k]
  {
    Last(s.history, SnapshotSize)
  }

  /** The `init` event sent to a joining viewer. */
  datatype InitEvent = InitEvent(messages: seq<Observation>, gateways: seq<string>)

  /** `/gateways` and the gateway part of `init`: `sorted(list(gateways_seen))`. */
  method GatewayList(s: State) returns (r: seq<string>)
    ensures StrictlySorted(r)
    ensures forall g :: g in r <==> g in s.gateways
    ensures |r| == |s.gateways|
    ensures forall i, j :: 0 <= i < j < |r| ==> r[i] != r[j]
  {
    r := SortedNames(s.gateways);
  }

  /** `connect`: the recent entries and the sorted gateway list, read under one lock. */
  method Join(s: State) returns (e: InitEvent)
    ensures e.messages == RecentMessages(s)
    ensures |e.messages| <= SnapshotSize
    ensures StrictlySorted(e.gateways)
    ensures forall g :: g in e.gateways <==> g in s.gateways
  {
    var names := GatewayList(s);
    e := InitEvent(RecentMessages(s), names);
  }

  /** After an accepted message the snapshot slides by one: the new entry is its newest element. */
  lemma {:induction false} SnapshotAfterAccept(s: State, raw: RawMessage, clock: string)
    requires |s.history| <= HistoryCap
    requires Observe(raw, clock).Ok?
    ensures var o := Observe(raw, clock).value;
      var r := RecentMessages(Handle(s, raw, clock).state);
      && r == Last(RecentMessages(s) + [o], SnapshotSize)
      && r[|r| - 1] == o
  {
    var o := Observe(raw, clock).value;
    AppendIsWindow(s.history, o);
    LastOfLast(s.history + [o], SnapshotSize, HistoryCap);
    LastAppend(s.history, o, SnapshotSize);
  }

  /**
   * A viewer that joins between two batches of deliveries gets the snapshot of the state at
   * that instant, and then exactly one update per message accepted afterwards, in order:
   * no gap, no duplicate.
   */
  lemma JoinSeesEveryLaterUpdate(s: State, before: seq<Delivery>, after: seq<Delivery>)
    requires |s.history| <= HistoryCap
    ensures var joined := Run(s, before);
      var all := Run(s, before + after);
      && RecentMessages(joined.state) == Last(s.history + Accepted(before), SnapshotSize)
      && |joined.updates| <= |all.updates|
      && all.updates[|joined.updates|..] == UpdatesOf(Accepted(after))
  {
    var joined := Run(s, before);
    RunHistory(s, before);
    LastOfLast(s.history + Accepted(before), SnapshotSize, HistoryCap);
    RunSplit(s, before, after);
    RunEvents(joined.state, after);
  }
}
