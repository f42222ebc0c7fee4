/** The dashboard home page's live transaction list (my-app/src/app/page.tsx):
    it subscribes to INSERT notifications on `transaction` only and merges
    each new row with the trans_num-deduplicating reducer. */
module LiveFeed {
  import opened Rows

  /** The channel is opened with `event: "INSERT"`: other kinds never reach the handler. */
  predicate Delivered(e: ChangeEvent<Transaction>) {
    e.kind == Insert
  }

  /** The list after the table's notifications `events`, oldest first; the
      list starts empty. */
  function Feed(events: seq<ChangeEvent<Transaction>>): seq<Record<Transaction>>
    decreases |events|
  {
    if events == [] then []
    else
      var prev := Feed(events[..|events| - 1]);
      var e := events[|events| - 1];
      if Delivered(e) then MergeUnique(prev, e.payload) else prev
  }

  /** Some delivered notification among `events` carries trans_num `key`. */
  predicate InsertedKey(events: seq<ChangeEvent<Transaction>>, key: Option<string>) {
    exists i :: 0 <= i < |events| && Delivered(events[i]) && KeyOf(events[i].payload) == key
  }

  function CountDelivered(events: seq<ChangeEvent<Transaction>>): (n: nat)
    ensures n <= |events|
    decreases |events|
  {
    if events == [] then 0
    else CountDelivered(events[..|events| - 1]) + (if Delivered(events[|events| - 1]) then 1 else 0)
  }

  /** The list never holds two entries with one trans_num, lists exactly the
      trans_nums of the INSERT notifications, and is no longer than they are many. */
  lemma {:induction false} FeedInvariant(events: seq<ChangeEvent<Transaction>>)
    ensures UniqueKeys(Feed(events))
    ensures forall k :: HasKey(Feed(events), k) <==> InsertedKey(events, k)
    ensures |Feed(events)| <= CountDelivered(events)
    decreases |events|
  {
    if events != [] {
      var init := events[..|events| - 1];
      var e := events[|events| - 1];
      FeedInvariant(init);
      if Delivered(e) {
        MergeKeepsUnique(Feed(init), e.payload);
      }
      forall k ensures InsertedKey(events, k) <==> InsertedKey(init, k) || (Delivered(e) && KeyOf(e.payload) == k) {
        if InsertedKey(events, k) {
          var i :| 0 <= i < |events| && Delivered(events[i]) && KeyOf(events[i].payload) == k;
          if i < |init| {
            assert init[i] == events[i];
          }
        }
        if InsertedKey(init, k) {
          var i :| 0 <= i < |init| && Delivered(init[i]) && KeyOf(init[i].payload) == k;
          assert events[i] == init[i];
        }
      }
    }
  }

  /** Entries are only ever added at the end: a later list extends an earlier one. */
  lemma {:induction false} FeedGrowsAtEnd(events: seq<ChangeEvent<Transaction>>, more: seq<ChangeEvent<Transaction>>)
    ensures |Feed(events)| <= |Feed(events + more)|
    ensures Feed(events + more)[..|Feed(events)|] == Feed(events)
    decreases |more|
  {
    if more != [] {
      var init := more[..|more| - 1];
      assert (events + more)[..|events + more| - 1] == events + init;
      FeedGrowsAtEnd(events, init);
    } else {
      assert events + more == events;
    }
  }

  /** An INSERT with a new trans_num is appended (length plus one, earlier
      entries unchanged); one with a listed trans_num, and any other kind of
      notification, leaves the list as it was. */
  lemma FeedStep(events: seq<ChangeEvent<Transaction>>, e: ChangeEvent<Transaction>)
    ensures var before, after := Feed(events), Feed(events + [e]);
            if Delivered(e) && !HasKey(before, KeyOf(e.payload))
            then after == before + [e.payload]
            else after == before
  {
    assert (events + [e])[..|events + [e]| - 1] == events;
  }
}
