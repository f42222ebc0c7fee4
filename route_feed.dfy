/** The test page my-app/src/app/route/page.tsx: it inserts a sample row into
    the `dataset` table and lists every change notification on that table,
    without deduplication. */
module RouteFeed {
  import opened Rows

  /** A row of the `dataset` table. */
  datatype DatasetRow = DatasetRow(
    transactionDate: string,
    cc: string,
    merchant: string,
    category: string,
    amount: real,
    firstName: string,
    lastName: string,
    long: real,
    lat: real,
    merchLong: real,
    merchLat: real,
    transNum: int,
    isFraud: bool)

  /** The record `insertData` sends. `now` is `new Date().toISOString()` and
      `random` is the value `Math.random()` returned, in [0, 1). */
  function SampleRow(now: string, random: real): (r: DatasetRow)
    requires 0.0 <= random < 1.0
    ensures 0 <= r.transNum < 1000000
    ensures !r.isFraud && r.amount == 100.0 && r.cc == "4111 1111 1111 1111"
    ensures r.transactionDate == now
  {
    DatasetRow(now, "4111 1111 1111 1111", "Example Merchant", "Retail", 100.0,
               "John", "Doe", -122.4194, 37.7749, -122.4194, 37.7749,
               (random * 1000000.0).Floor, false)
  }

  /** The page's list after the notifications `events`: the channel uses
      `event: "*"`, so every kind is appended, a DELETE as its empty payload. */
  function Feed(events: seq<ChangeEvent<DatasetRow>>): (list: seq<Record<DatasetRow>>)
    ensures |list| == |events|
    ensures forall i :: 0 <= i < |events| ==> list[i] == events[i].payload
    decreases |events|
  {
    if events == [] then [] else Feed(events[..|events| - 1]) + [events[|events| - 1].payload]
  }

  /** One notification adds exactly one entry, at the end, and changes no other. */
  lemma FeedAppends(events: seq<ChangeEvent<DatasetRow>>, e: ChangeEvent<DatasetRow>)
    ensures Feed(events + [e]) == Feed(events) + [e.payload]
  {
    assert (events + [e])[..|events|] == events;
  }
}
