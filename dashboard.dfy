/** The aggregations behind the admin dashboard's charts
    (my-app/src/app/admin/page.tsx): spending per category, volume and average
    risk per category, average risk per day, the five-bin risk histogram and
    the high-risk gauge. Amounts and scores are reals. */
module Dashboard {
  import Decimal

  datatype Option<T> = None | Some(value: T)

  /** The columns of a `transaction` row the charts select. */
  datatype Tx = Tx(category: string, amt: real, riskFact: real, transDate: string)

  /** Both charts segment by category (the segmentation state is fixed at
      "category"); a falsy category is grouped as "Unknown". */
  function CategoryKey(category: string): string {
    if category == "" then "Unknown" else category
  }

  // ---------------------------------------------------------------------------
  // Grouping: the `forEach` loops that fill a keyed object

  /** One row's contribution: the key it is grouped under and the value it adds. */
  datatype Entry = Entry(key: string, value: real)

  /** A group's accumulator: how many rows and the sum of their values. */
  datatype Bucket = Bucket(count: nat, total: real)

  predicate Distinct(labels: seq<string>) {
    forall i, j :: 0 <= i < j < |labels| ==> labels[i] != labels[j]
  }

  predicate Occurs(entries: seq<Entry>, key: string) {
    exists i :: 0 <= i < |entries| && entries[i].key == key
  }

  /** How many entries have the key. */
  function CountOf(entries: seq<Entry>, key: string): nat
    decreases |entries|
  {
    if entries == [] then 0
    else CountOf(entries[..|entries| - 1], key) + (if entries[|entries| - 1].key == key then 1 else 0)
  }

  /** The sum of the values of the entries with the key. */
  function TotalOf(entries: seq<Entry>, key: string): real
    decreases |entries|
  {
    if entries == [] then 0.0
    else TotalOf(entries[..|entries| - 1], key) + (if entries[|entries| - 1].key == key then entries[|entries| - 1].value else 0.0)
  }

  /** The sum of all values. */
  function TotalAll(entries: seq<Entry>): real
    decreases |entries|
  {
    if entries == [] then 0.0 else TotalAll(entries[..|entries| - 1]) + entries[|entries| - 1].value
  }

  function SumNat(s: seq<nat>): nat
    decreases |s|
  {
    if s == [] then 0 else SumNat(s[..|s| - 1]) + s[|s| - 1]
  }

  function SumReal(s: seq<real>): real
    decreases |s|
  {
    if s == [] then 0.0 else SumReal(s[..|s| - 1]) + s[|s| - 1]
  }

  predicate Listed(labels: seq<string>, groups: map<string, Bucket>) {
    forall l :: l in labels ==> l in groups
  }

  /** The sum of the listed groups' counts. */
  function SumCounts(labels: seq<string>, groups: map<string, Bucket>): nat
    requires Listed(labels, groups)
    decreases |labels|
  {
    if labels == [] then 0
    else SumCounts(labels[..|labels| - 1], groups) + groups[labels[|labels| - 1]].count
  }

  /** The sum of the listed groups' totals. */
  function SumTotals(labels: seq<string>, groups: map<string, Bucket>): real
    requires Listed(labels, groups)
    decreases |labels|
  {
    if labels == [] then 0.0
    else SumTotals(labels[..|labels| - 1], groups) + groups[labels[|labels| - 1]].total
  }

  /** Changing an unlisted group changes neither sum. */
  lemma {:induction false} SumsFrame(labels: seq<string>, groups: map<string, Bucket>, k: string, b: Bucket)
    requires Listed(labels, groups) && k !in labels
    ensures SumCounts(labels, groups[k := b]) == SumCounts(labels, groups)
    ensures SumTotals(labels, groups[k := b]) == SumTotals(labels, groups)
    decreases |labels|
  {
    if labels != [] {
      var init := labels[..|labels| - 1];
      assert k !in init by { assert forall l :: l in init ==> l in labels; }
      SumsFrame(init, groups, k, b);
    }
  }

  /** Changing a listed group replaces its count and total in the sums. */
  lemma {:induction false} SumsUpdate(labels: seq<string>, groups: map<string, Bucket>, k: string, b: Bucket)
    requires Listed(labels, groups) && Distinct(labels) && k in labels
    ensures SumCounts(labels, groups[k := b]) == SumCounts(labels, groups) - groups[k].count + b.count
    ensures SumTotals(labels, groups[k := b]) == SumTotals(labels, groups) - groups[k].total + b.total
    decreases |labels|
  {
    var n := |labels| - 1;
    var init := labels[..n];
    assert Distinct(init);
    if labels[n] == k {
      assert k !in init by {
        forall i | 0 <= i < |init| ensures init[i] != k { assert init[i] == labels[i]; }
      }
      SumsFrame(init, groups, k, b);
    } else {
      assert k in init by {
        var i :| 0 <= i < |labels| && labels[i] == k;
        assert init[i] == k;
      }
      SumsUpdate(init, groups, k, b);
    }
  }

  lemma SumsAppend(labels: seq<string>, groups: map<string, Bucket>, k: string)
    requires Listed(labels, groups) && k in groups
    ensures Listed(labels + [k], groups)
    ensures SumCounts(labels + [k], groups) == SumCounts(labels, groups) + groups[k].count
    ensures SumTotals(labels + [k], groups) == SumTotals(labels, groups) + groups[k].total
  {
    assert (labels + [k])[..|labels|] == labels;
  }

  /** The grouping loop's invariant: `labels` lists each key of `entries`
      once, `groups` holds a bucket for each, and a bucket's count and total
      are those of its key's entries. */
  ghost predicate Grouped(entries: seq<Entry>, labels: seq<string>, groups: map<string, Bucket>) {
    && Distinct(labels)
    && (forall k :: k in groups <==> k in labels)
    && (forall k :: k in labels <==> Occurs(entries, k))
    && (forall k :: k in groups ==> groups[k].count >= 1)
    && (forall k :: k in groups ==> groups[k].count == CountOf(entries, k) && groups[k].total == TotalOf(entries, k))
    && SumCounts(labels, groups) == |entries|
    && SumTotals(labels, groups) == TotalAll(entries)
  }

  lemma OccursStep(entries: seq<Entry>, e: Entry)
    ensures forall k :: Occurs(entries + [e], k) <==> Occurs(entries, k) || k == e.key
  {
    var after := entries + [e];
    forall k | Occurs(after, k) ensures Occurs(entries, k) || k == e.key {
      var j :| 0 <= j < |after| && after[j].key == k;
      if j < |entries| { assert entries[j] == after[j]; }
    }
    forall k | Occurs(entries, k) ensures Occurs(after, k) {
      var j :| 0 <= j < |entries| && entries[j].key == k;
      assert after[j] == entries[j];
    }
    assert after[|entries|] == e;
  }

  lemma TotalsStep(entries: seq<Entry>, e: Entry)
    ensures forall k :: CountOf(entries + [e], k) == CountOf(entries, k) + (if k == e.key then 1 else 0)
    ensures forall k :: TotalOf(entries + [e], k) == TotalOf(entries, k) + (if k == e.key then e.value else 0.0)
    ensures TotalAll(entries + [e]) == TotalAll(entries) + e.value
  {
    assert (entries + [e])[..|entries|] == entries;
  }

  /** A listed key: its bucket gains one entry and the value. */
  lemma SumsStepListed(labels: seq<string>, groups: map<string, Bucket>, e: Entry, b: Bucket)
    requires Distinct(labels) && Listed(labels, groups) && e.key in labels
    requires b == Bucket(groups[e.key].count + 1, groups[e.key].total + e.value)
    ensures Listed(labels, groups[e.key := b])
    ensures SumCounts(labels, groups[e.key := b]) == SumCounts(labels, groups) + 1
    ensures SumTotals(labels, groups[e.key := b]) == SumTotals(labels, groups) + e.value
  {
    SumsUpdate(labels, groups, e.key, b);
  }

  /** A new key: it is listed last with a bucket holding just this entry. */
  lemma SumsStepNew(labels: seq<string>, groups: map<string, Bucket>, e: Entry)
    requires Distinct(labels) && Listed(labels, groups) && e.key !in labels
    ensures Distinct(labels + [e.key])
    ensures Listed(labels + [e.key], groups[e.key := Bucket(1, e.value)])
    ensures SumCounts(labels + [e.key], groups[e.key := Bucket(1, e.value)]) == SumCounts(labels, groups) + 1
    ensures SumTotals(labels + [e.key], groups[e.key := Bucket(1, e.value)]) == SumTotals(labels, groups) + e.value
  {
    var g' := groups[e.key := Bucket(1, e.value)];
    SumsFrame(labels, groups, e.key, Bucket(1, e.value));
    SumsAppend(labels, g', e.key);
  }

  /** An entry whose key is already grouped keeps the invariant. */
  lemma GroupedStepListed(entries: seq<Entry>, labels: seq<string>, groups: map<string, Bucket>, e: Entry)
    requires Grouped(entries, labels, groups) && e.key in groups
    ensures Grouped(entries + [e], labels,
                    groups[e.key := Bucket(groups[e.key].count + 1, groups[e.key].total + e.value)])
  {
    OccursStep(entries, e);
    TotalsStep(entries, e);
    SumsStepListed(labels, groups, e, Bucket(groups[e.key].count + 1, groups[e.key].total + e.value));
  }

  /** An entry with a new key keeps the invariant once the key is listed last
      with a bucket of its own. */
  lemma GroupedStepNew(entries: seq<Entry>, labels: seq<string>, groups: map<string, Bucket>, e: Entry)
    requires Grouped(entries, labels, groups) && e.key !in groups
    ensures Grouped(entries + [e], labels + [e.key], groups[e.key := Bucket(1, e.value)])
  {
    KeysStepNew(entries, labels, groups, e);
    BucketsStepNew(entries, groups, e);
    SumsStepNew(labels, groups, e);
    TotalsStep(entries, e);
  }

  /** A new key: listed last, with a bucket, and occurring in the entries. */
  lemma KeysStepNew(entries: seq<Entry>, labels: seq<string>, groups: map<string, Bucket>, e: Entry)
    requires forall k :: k in groups <==> k in labels
    requires forall k :: k in labels <==> Occurs(entries, k)
    requires forall k :: k in groups ==> groups[k].count >= 1
    requires e.key !in groups
    ensures var g := groups[e.key := Bucket(1, e.value)];
            && (forall k :: k in g <==> k in labels + [e.key])
            && (forall k :: k in labels + [e.key] <==> Occurs(entries + [e], k))
            && (forall k :: k in g ==> g[k].count >= 1)
  {
    OccursStep(entries, e);
  }

  /** A new key's bucket holds just the new entry; the others are unchanged. */
  lemma BucketsStepNew(entries: seq<Entry>, groups: map<string, Bucket>, e: Entry)
    requires forall k :: k in groups ==> groups[k].count == CountOf(entries, k) && groups[k].total == TotalOf(entries, k)
    requires !Occurs(entries, e.key)
    ensures var g := groups[e.key := Bucket(1, e.value)];
            forall k :: k in g ==> g[k].count == CountOf(entries + [e], k) && g[k].total == TotalOf(entries + [e], k)
  {
    TotalsStep(entries, e);
    NotOccursZero(entries, e.key);
  }

  /** What the grouping loop builds: keys in first-seen order and a bucket
      per key. */
  function Group(entries: seq<Entry>): (seq<string>, map<string, Bucket>)
    decreases |entries|
  {
    if entries == [] then ([], map[])
    else
      var (labels, groups) := Group(entries[..|entries| - 1]);
      var e := entries[|entries| - 1];
      if e.key in groups then (labels, groups[e.key := Bucket(groups[e.key].count + 1, groups[e.key].total + e.value)])
      else (labels + [e.key], groups[e.key := Bucket(1, e.value)])
  }

  /** The grouping lists each key once, holds a bucket for exactly the listed
      keys, and each bucket counts and sums its key's entries. */
  lemma {:induction false} GroupSpec(entries: seq<Entry>)
    ensures Grouped(entries, Group(entries).0, Group(entries).1)
    decreases |entries|
  {
    if entries != [] {
      var init, e := entries[..|entries| - 1], entries[|entries| - 1];
      GroupSpec(init);
      assert init + [e] == entries;
      var (labels, groups) := Group(init);
      if e.key in groups {
        assert Group(entries) == (labels, groups[e.key := Bucket(groups[e.key].count + 1, groups[e.key].total + e.value)]);
        GroupedStepListed(init, labels, groups, e);
      } else {
        assert Group(entries) == (labels + [e.key], groups[e.key := Bucket(1, e.value)]);
        GroupedStepNew(init, labels, groups, e);
      }
    }
  }

  /** The grouping loop: for each entry, create its key's bucket the first time
      the key is seen (keys are listed in first-seen order, as `Object.keys`
      lists them) and add one to its count and the value to its total. */
  method GroupBy(entries: seq<Entry>) returns (labels: seq<string>, groups: map<string, Bucket>)
    ensures (labels, groups) == Group(entries)
    ensures Distinct(labels)
    ensures forall k :: k in groups <==> k in labels
    ensures forall k :: k in labels <==> Occurs(entries, k)
    ensures forall k :: k in groups ==> groups[k].count >= 1
    ensures forall k :: k in groups ==> groups[k].count == CountOf(entries, k) && groups[k].total == TotalOf(entries, k)
    // The groups partition the entries: counts add up to the number of
    // entries and totals to the sum of all values.
    ensures SumCounts(labels, groups) == |entries|
    ensures SumTotals(labels, groups) == TotalAll(entries)
  {
    labels, groups := [], map[];
    for i := 0 to |entries|
      invariant (labels, groups) == Group(entries[..i])
    {
      var e := entries[i];
      assert entries[..i + 1][..i] == entries[..i];
      assert Group(entries[..i + 1]) ==
             if e.key in groups then (labels, groups[e.key := Bucket(groups[e.key].count + 1, groups[e.key].total + e.value)])
             else (labels + [e.key], groups[e.key := Bucket(1, e.value)]);
      ghost var before := groups;
      if e.key !in groups {
        labels := labels + [e.key];
        groups := groups[e.key := Bucket(0, 0.0)];
        assert groups[e.key := Bucket(groups[e.key].count + 1, groups[e.key].total + e.value)]
               == before[e.key := Bucket(1, e.value)];
      }
      groups := groups[e.key := Bucket(groups[e.key].count + 1, groups[e.key].total + e.value)];
    }
    assert entries[..|entries|] == entries;
    GroupSpec(entries);
  }

  /** A key no entry has is counted zero times and adds nothing. */
  lemma {:induction false} NotOccursZero(entries: seq<Entry>, key: string)
    requires !Occurs(entries, key)
    ensures CountOf(entries, key) == 0 && TotalOf(entries, key) == 0.0
    decreases |entries|
  {
    if entries != [] {
      var init := entries[..|entries| - 1];
      assert !Occurs(init, key) by {
        forall j | 0 <= j < |init| ensures init[j].key != key {
          assert init[j] == entries[j];
        }
      }
      NotOccursZero(init, key);
    }
  }

  /** `Object.values` / `labels.map(label => groups[label].count)`. */
  function Counts(labels: seq<string>, groups: map<string, Bucket>): (r: seq<nat>)
    requires Listed(labels, groups)
    ensures |r| == |labels| && forall i :: 0 <= i < |labels| ==> r[i] == groups[labels[i]].count
    decreases |labels|
  {
    if labels == [] then [] else Counts(labels[..|labels| - 1], groups) + [groups[labels[|labels| - 1]].count]
  }

  /** `Object.values` / `labels.map(label => groups[label].total)`. */
  function Totals(labels: seq<string>, groups: map<string, Bucket>): (r: seq<real>)
    requires Listed(labels, groups)
    ensures |r| == |labels| && forall i :: 0 <= i < |labels| ==> r[i] == groups[labels[i]].total
    decreases |labels|
  {
    if labels == [] then [] else Totals(labels[..|labels| - 1], groups) + [groups[labels[|labels| - 1]].total]
  }

  lemma {:induction false} SumOfCounts(labels: seq<string>, groups: map<string, Bucket>)
    requires Listed(labels, groups)
    ensures SumNat(Counts(labels, groups)) == SumCounts(labels, groups)
    ensures SumReal(Totals(labels, groups)) == SumTotals(labels, groups)
    decreases |labels|
  {
    if labels != [] {
      var init := labels[..|labels| - 1];
      SumOfCounts(init, groups);
      assert Counts(labels, groups)[..|labels| - 1] == Counts(init, groups);
      assert Totals(labels, groups)[..|labels| - 1] == Totals(init, groups);
    }
  }

  // ---------------------------------------------------------------------------
  // Transaction breakdown pie chart (amount spent per category)

  function BreakdownEntries(rows: seq<Tx>): (es: seq<Entry>)
    ensures |es| == |rows|
    ensures forall i :: 0 <= i < |rows| ==> es[i] == Entry(CategoryKey(rows[i].category), rows[i].amt)
  {
    seq(|rows|, i requires 0 <= i < |rows| => Entry(CategoryKey(rows[i].category), rows[i].amt))
  }

  /** Some row falls in category `c`. */
  predicate HasCategory(rows: seq<Tx>, c: string) {
    exists i :: 0 <= i < |rows| && CategoryKey(rows[i].category) == c
  }

  lemma BreakdownKeys(rows: seq<Tx>)
    ensures forall c :: Occurs(BreakdownEntries(rows), c) <==> HasCategory(rows, c)
  {
    var entries := BreakdownEntries(rows);
    forall c | Occurs(entries, c) ensures HasCategory(rows, c) {
      var i :| 0 <= i < |entries| && entries[i].key == c;
      assert CategoryKey(rows[i].category) == c;
    }
    forall c | HasCategory(rows, c) ensures Occurs(entries, c) {
      var i :| 0 <= i < |rows| && CategoryKey(rows[i].category) == c;
      assert entries[i].key == c;
    }
  }

  /** The amount spent per category: the pie's labels and slice values. */
  method Breakdown(rows: seq<Tx>) returns (labels: seq<string>, amounts: seq<real>)
    // One slice per category present, each category once.
    ensures Distinct(labels)
    ensures forall c :: c in labels <==> HasCategory(rows, c)
    // A slice is the sum of its category's amounts, and the slices add up to
    // the sum of all amounts.
    ensures |amounts| == |labels|
    ensures forall i :: 0 <= i < |labels| ==> amounts[i] == TotalOf(BreakdownEntries(rows), labels[i])
    ensures SumReal(amounts) == TotalAll(BreakdownEntries(rows))
  {
    var entries := BreakdownEntries(rows);
    var groups;
    labels, groups := GroupBy(entries);
    BreakdownKeys(rows);
    amounts := Totals(labels, groups);
    SumOfCounts(labels, groups);
  }

  // ---------------------------------------------------------------------------
  // Transaction volume bar chart (count and average risk per category)

  const RiskThreshold: real := 0.5
  const HighRiskColour: string := "#FF6384"
  const LowRiskColour: string := "#36A2EB"

  function VolumeEntries(rows: seq<Tx>): (es: seq<Entry>)
    ensures |es| == |rows|
    ensures forall i :: 0 <= i < |rows| ==> es[i] == Entry(CategoryKey(rows[i].category), rows[i].riskFact)
  {
    seq(|rows|, i requires 0 <= i < |rows| => Entry(CategoryKey(rows[i].category), rows[i].riskFact))
  }

  lemma VolumeKeys(rows: seq<Tx>)
    ensures forall c :: Occurs(VolumeEntries(rows), c) <==> HasCategory(rows, c)
  {
    var entries := VolumeEntries(rows);
    forall c | Occurs(entries, c) ensures HasCategory(rows, c) {
      var i :| 0 <= i < |entries| && entries[i].key == c;
      assert CategoryKey(rows[i].category) == c;
    }
    forall c | HasCategory(rows, c) ensures Occurs(entries, c) {
      var i :| 0 <= i < |rows| && CategoryKey(rows[i].category) == c;
      assert entries[i].key == c;
    }
  }

  /** The mean of a group: its total over its count (never zero for a listed group). */
  function Averages(labels: seq<string>, groups: map<string, Bucket>): (r: seq<real>)
    requires forall l :: l in labels ==> l in groups && groups[l].count >= 1
    ensures |r| == |labels|
    ensures forall i :: 0 <= i < |labels| ==> r[i] == groups[labels[i]].total / groups[labels[i]].count as real
    decreases |labels|
  {
    if labels == [] then []
    else
      var b := groups[labels[|labels| - 1]];
      Averages(labels[..|labels| - 1], groups) + [b.total / b.count as real]
  }

  function BarColour(avg: real): (c: string)
    ensures c == HighRiskColour <==> avg >= RiskThreshold
    ensures c == LowRiskColour <==> avg < RiskThreshold
  {
    if avg >= RiskThreshold then HighRiskColour else LowRiskColour
  }

  /** `avgRisks.map(avg => avg >= riskThreshold ? "#FF6384" : "#36A2EB")`. */
  function Colours(avgs: seq<real>): (r: seq<string>)
    ensures |r| == |avgs|
    ensures forall i :: 0 <= i < |avgs| ==> r[i] == BarColour(avgs[i])
  {
    seq(|avgs|, i requires 0 <= i < |avgs| => BarColour(avgs[i]))
  }

  /** The bars: per category, the number of transactions, their mean risk and
      the bar colour (red at or above the threshold, blue below). */
  method Volume(rows: seq<Tx>) returns (labels: seq<string>, counts: seq<nat>, avgRisks: seq<real>, colours: seq<string>)
    ensures Distinct(labels)
    ensures forall c :: c in labels <==> HasCategory(rows, c)
    ensures |counts| == |avgRisks| == |colours| == |labels|
    // Every bar has at least one transaction and the bars count every row once.
    ensures forall i :: 0 <= i < |labels| ==> counts[i] == CountOf(VolumeEntries(rows), labels[i]) >= 1
    ensures SumNat(counts) == |rows|
    // The mean risk is the category's total risk over its count.
    ensures forall i :: 0 <= i < |labels| ==>
              avgRisks[i] == TotalOf(VolumeEntries(rows), labels[i]) / counts[i] as real
    // Red at or above the threshold, blue below (see BarColour).
    ensures forall i :: 0 <= i < |labels| ==> colours[i] == BarColour(avgRisks[i])
  {
    var entries := VolumeEntries(rows);
    var groups;
    labels, groups := GroupBy(entries);
    VolumeKeys(rows);
    counts := Counts(labels, groups);
    avgRisks := Averages(labels, groups);
    colours := Colours(avgRisks);
    SumOfCounts(labels, groups);
    forall i | 0 <= i < |labels|
      ensures counts[i] == CountOf(entries, labels[i]) >= 1
      ensures avgRisks[i] == TotalOf(entries, labels[i]) / counts[i] as real
    {
      var b := groups[labels[i]];
      assert counts[i] == b.count && avgRisks[i] == b.total / b.count as real;
    }
  }

  // ---------------------------------------------------------------------------
  // Live risk trend line chart (average risk per day, in date order)

  /** Labels ordered by `rank`, lowest first. */
  predicate SortedByRank(s: seq<string>, rank: string -> int) {
    forall i, j :: 0 <= i < j < |s| ==> rank(s[i]) <= rank(s[j])
  }

  lemma SortedCons(h: string, rest: seq<string>, rank: string -> int)
    requires SortedByRank(rest, rank)
    requires forall i :: 0 <= i < |rest| ==> rank(h) <= rank(rest[i])
    ensures SortedByRank([h] + rest, rank)
  {
    var r := [h] + rest;
    forall i, j | 0 <= i < j < |r| ensures rank(r[i]) <= rank(r[j]) {
      assert r[j] == rest[j - 1];
      if i > 0 { assert r[i] == rest[i - 1]; }
    }
  }

  /** The head of a sorted sequence is ranked no higher than any element. */
  lemma HeadLeast(s: seq<string>, rank: string -> int)
    requires s != [] && SortedByRank(s, rank)
    ensures forall y :: y in s[1..] ==> rank(s[0]) <= rank(y)
  {
    forall y | y in s[1..] ensures rank(s[0]) <= rank(y) {
      var j :| 0 <= j < |s[1..]| && s[1..][j] == y;
      assert s[j + 1] == y;
    }
  }

  /** Keeping the head in front of `x` inserted into the tail. */
  lemma InsertAfterHead(x: string, s: seq<string>, rest: seq<string>, rank: string -> int)
    requires s != [] && SortedByRank(s, rank) && rank(s[0]) <= rank(x)
    requires SortedByRank(rest, rank) && multiset(rest) == multiset(s[1..]) + multiset{x}
    requires forall i :: 0 <= i < |rest| ==> rest[i] == x || rest[i] in s[1..]
    ensures SortedByRank([s[0]] + rest, rank)
    ensures multiset([s[0]] + rest) == multiset(s) + multiset{x}
    ensures forall i :: 0 <= i < |[s[0]] + rest| ==> ([s[0]] + rest)[i] == x || ([s[0]] + rest)[i] in s
  {
    HeadLeast(s, rank);
    SortedCons(s[0], rest, rank);
    assert s == [s[0]] + s[1..];
    var r := [s[0]] + rest;
    forall i | 0 <= i < |r| ensures r[i] == x || r[i] in s {
      if i > 0 { assert r[i] == rest[i - 1]; }
    }
  }

  /** Inserts `x` after every element of the sorted `s` not ranked above it. */
  function InsertByRank(x: string, s: seq<string>, rank: string -> int): (r: seq<string>)
    requires SortedByRank(s, rank)
    ensures SortedByRank(r, rank)
    ensures multiset(r) == multiset(s) + multiset{x}
    ensures forall i :: 0 <= i < |r| ==> r[i] == x || r[i] in s
    decreases |s|
  {
    if s == [] then [x]
    else if rank(x) < rank(s[0]) then
      SortedCons(x, s, rank);
      [x] + s
    else
      var rest := InsertByRank(x, s[1..], rank);
      InsertAfterHead(x, s, rest, rank);
      [s[0]] + rest
  }

  /** The stable order `Array.prototype.sort` produces with comparator
      `rank(a) - rank(b)`: insertion of each label in turn. */
  function SortByRank(labels: seq<string>, rank: string -> int): (r: seq<string>)
    ensures SortedByRank(r, rank)
    ensures multiset(r) == multiset(labels)
    decreases |labels|
  {
    if labels == [] then []
    else
      var init := labels[..|labels| - 1];
      assert labels == init + [labels[|labels| - 1]];
      InsertByRank(labels[|labels| - 1], SortByRank(init, rank), rank)
  }

  /** Each element occurs at most once exactly when no value repeats. */
  lemma {:induction false} DistinctMultiset(s: seq<string>)
    ensures Distinct(s) <==> forall x :: multiset(s)[x] <= 1
    decreases |s|
  {
    if s != [] {
      var init, last := s[..|s| - 1], s[|s| - 1];
      assert s == init + [last];
      DistinctMultiset(init);
      if Distinct(s) {
        assert Distinct(init);
        assert last !in init by {
          forall i | 0 <= i < |init| ensures init[i] != last { assert init[i] == s[i]; }
        }
      }
      if forall x :: multiset(s)[x] <= 1 {
        assert forall x :: multiset(init)[x] <= multiset(s)[x];
        assert multiset(init)[last] == 0;
        forall i, j | 0 <= i < j < |s| ensures s[i] != s[j] {
          if j < |init| {
            assert s[i] == init[i] && s[j] == init[j];
          } else {
            assert s[i] == init[i];
            assert s[i] in init;
          }
        }
      }
    }
  }

  function TrendEntries(rows: seq<Tx>): (es: seq<Entry>)
    ensures |es| == |rows|
    ensures forall i :: 0 <= i < |rows| ==> es[i] == Entry(rows[i].transDate, rows[i].riskFact)
  {
    seq(|rows|, i requires 0 <= i < |rows| => Entry(rows[i].transDate, rows[i].riskFact))
  }

  /** Some row has trans_date `d`. */
  predicate HasDate(rows: seq<Tx>, d: string) {
    exists i :: 0 <= i < |rows| && rows[i].transDate == d
  }

  lemma TrendKeys(rows: seq<Tx>)
    ensures forall d :: Occurs(TrendEntries(rows), d) <==> HasDate(rows, d)
  {
    var entries := TrendEntries(rows);
    forall d | Occurs(entries, d) ensures HasDate(rows, d) {
      var i :| 0 <= i < |entries| && entries[i].key == d;
      assert rows[i].transDate == d;
    }
    forall d | HasDate(rows, d) ensures Occurs(entries, d) {
      var i :| 0 <= i < |rows| && rows[i].transDate == d;
      assert entries[i].key == d;
    }
  }

  /** The line: one point per distinct `trans_date`, in order of `rank` (the
      date's `getTime()`), at the mean risk of that day's transactions. */
  method Trend(rows: seq<Tx>, rank: string -> int) returns (labels: seq<string>, averages: seq<real>)
    ensures Distinct(labels)
    ensures forall d :: d in labels <==> HasDate(rows, d)
    ensures SortedByRank(labels, rank)
    ensures |averages| == |labels|
    ensures forall i :: 0 <= i < |labels| ==>
              var n := CountOf(TrendEntries(rows), labels[i]);
              n >= 1 && averages[i] == TotalOf(TrendEntries(rows), labels[i]) / n as real
  {
    var entries := TrendEntries(rows);
    var keys, groups := GroupBy(entries);
    TrendKeys(rows);
    labels := SortByRank(keys, rank);
    DistinctMultiset(keys);
    DistinctMultiset(labels);
    assert forall d :: d in labels <==> d in keys by {
      forall d ensures d in labels <==> d in keys {
        assert d in labels <==> d in multiset(labels);
        assert d in keys <==> d in multiset(keys);
      }
    }
    averages := Averages(labels, groups);
  }

  // ---------------------------------------------------------------------------
  // Risk distribution histogram

  /** The bin edges: bin `i` holds scores in [Bins[i], Bins[i + 1]). */
  const Bins: seq<real> := [0.0, 0.2, 0.4, 0.6, 0.8, 1.0]

  /** The first bin from `i` on that holds `score`, as the inner `for` loop
      with its `break` finds it. */
  function FirstBin(score: real, i: nat): (r: Option<nat>)
    requires i < |Bins|
    ensures r.Some? <==> Bins[i] <= score < Bins[|Bins| - 1]
    ensures r.Some? ==> i <= r.value < |Bins| - 1 && Bins[r.value] <= score < Bins[r.value + 1]
    decreases |Bins| - i
  {
    if i == |Bins| - 1 then None
    else if Bins[i] <= score < Bins[i + 1] then Some(i)
    else FirstBin(score, i + 1)
  }

  /** The bin a score is counted in, if any. */
  function BinOf(score: real): Option<nat> {
    FirstBin(score, 0)
  }

  /** A score is counted exactly when it lies in [0, 1), and then in the bin
      whose edges enclose it. */
  lemma BinOfSpec(score: real)
    ensures BinOf(score).Some? <==> 0.0 <= score < 1.0
    ensures BinOf(score).Some? ==>
              var b := BinOf(score).value;
              b < 5 && Bins[b] <= score < Bins[b + 1]
  {
  }

  /** How many scores fall in bin `b`. */
  function CountInBin(scores: seq<real>, b: nat): nat
    decreases |scores|
  {
    if scores == [] then 0
    else CountInBin(scores[..|scores| - 1], b) + (if BinOf(scores[|scores| - 1]) == Some(b) then 1 else 0)
  }

  /** How many scores fall in no bin (negative, or 1.0 and above). */
  function CountOutside(scores: seq<real>): nat
    decreases |scores|
  {
    if scores == [] then 0
    else CountOutside(scores[..|scores| - 1]) + (if BinOf(scores[|scores| - 1]).None? then 1 else 0)
  }

  /** Adding one to a bar adds one to the sum of the bars. */
  lemma {:induction false} SumNatIncrement(s: seq<nat>, b: nat)
    requires b < |s|
    ensures SumNat(s[b := s[b] + 1]) == SumNat(s) + 1
    decreases |s|
  {
    var n := |s| - 1;
    if b < n {
      assert s[b := s[b] + 1][..n] == s[..n][b := s[..n][b] + 1];
      SumNatIncrement(s[..n], b);
    } else {
      assert s[b := s[b] + 1][..n] == s[..n];
    }
  }

  lemma {:induction false} NoScoresNoBars(s: seq<nat>)
    requires forall i :: 0 <= i < |s| ==> s[i] == 0
    ensures SumNat(s) == 0
    decreases |s|
  {
    if s != [] {
      NoScoresNoBars(s[..|s| - 1]);
    }
  }

  /** The bars after counting one more score. */
  function Bump(bars: seq<nat>, score: real): seq<nat> {
    match BinOf(score)
    case Some(b) => if b < |bars| then bars[b := bars[b] + 1] else bars
    case None => bars
  }

  /** The bars count the scores `prefix`, per bin and in total. */
  predicate Counted(bars: seq<nat>, prefix: seq<real>) {
    && |bars| == |Bins| - 1
    && (forall b :: 0 <= b < |bars| ==> bars[b] == CountInBin(prefix, b))
    && SumNat(bars) + CountOutside(prefix) == |prefix|
  }

  /** Counting one more score keeps the bars in step with the scores. */
  lemma CountedStep(bars: seq<nat>, prefix: seq<real>, score: real)
    requires Counted(bars, prefix)
    ensures Counted(Bump(bars, score), prefix + [score])
  {
    var next := prefix + [score];
    assert next[..|prefix|] == prefix;
    var bin := BinOf(score);
    BinOfSpec(score);
    if bin.Some? {
      var k := bin.value;
      assert Bump(bars, score) == bars[k := bars[k] + 1];
      SumNatIncrement(bars, k);
      forall b | 0 <= b < |bars| ensures bars[k := bars[k] + 1][b] == CountInBin(next, b) {
        assert CountInBin(next, b) == CountInBin(prefix, b) + (if k == b then 1 else 0);
      }
      assert CountOutside(next) == CountOutside(prefix);
    } else {
      assert Bump(bars, score) == bars;
      forall b | 0 <= b < |bars| ensures bars[b] == CountInBin(next, b) {
        assert CountInBin(next, b) == CountInBin(prefix, b);
      }
      assert CountOutside(next) == CountOutside(prefix) + 1;
    }
  }

  /** The `forEach` callback: the first bin whose edges hold the score
      gains one, and no other bar changes. */
  method CountScore(distribution: array<nat>, score: real)
    requires distribution.Length == |Bins| - 1
    modifies distribution
    ensures distribution[..] == Bump(old(distribution[..]), score)
  {
    ghost var before := distribution[..];
    var i := 0;
    while i < |Bins| - 1
      invariant 0 <= i < |Bins|
      invariant BinOf(score) == FirstBin(score, i)
      invariant distribution[..] == before
    {
      if score >= Bins[i] && score < Bins[i + 1] {
        distribution[i] := distribution[i] + 1;
        assert distribution[..] == before[i := before[i] + 1];
        assert FirstBin(score, i) == Some(i);
        break;
      }
      i := i + 1;
    }
    assert distribution[..] == Bump(before, score) by {
      if i == |Bins| - 1 {
        assert FirstBin(score, i) == None;
      }
    }
  }

  /** The histogram's bars: per bin, how many scores it holds. Every score
      is counted in at most one bin, and exactly the out-of-range ones in none. */
  method Distribution(scores: seq<real>) returns (dist: seq<nat>)
    ensures |dist| == |Bins| - 1
    ensures forall b :: 0 <= b < |dist| ==> dist[b] == CountInBin(scores, b)
    ensures SumNat(dist) + CountOutside(scores) == |scores|
  {
    var distribution := new nat[|Bins| - 1](_ => 0);
    NoScoresNoBars(distribution[..]);
    for k := 0 to |scores|
      invariant Counted(distribution[..], scores[..k])
    {
      CountedStep(distribution[..], scores[..k], scores[k]);
      CountScore(distribution, scores[k]);
      assert scores[..k + 1] == scores[..k] + [scores[k]];
    }
    assert scores[..|scores|] == scores;
    dist := distribution[..];
  }

  /** `x.toFixed(1)` for a non-negative `x` with at most one decimal. */
  function Fixed1(x: real): string
    requires x >= 0.0
  {
    var tenths := (x * 10.0 + 0.5).Floor;
    Decimal.NatToString(tenths / 10) + "." + Decimal.NatToString(tenths % 10)
  }

  /** `bins.slice(0, -1).map((b, i) => b.toFixed(1) + " - " + bins[i + 1].toFixed(1))`. */
  function BinLabels(): (r: seq<string>)
    ensures |r| == |Bins| - 1
  {
    seq(|Bins| - 1, i requires 0 <= i < |Bins| - 1 => Fixed1(Bins[i]) + " - " + Fixed1(Bins[i + 1]))
  }

  /** The five labels, one per bar. */
  lemma BinLabelsText()
    ensures BinLabels() == ["0.0 - 0.2", "0.2 - 0.4", "0.4 - 0.6", "0.6 - 0.8", "0.8 - 1.0"]
  {
    assert Fixed1(0.0) == "0.0";
    assert Fixed1(0.2) == "0.2";
    assert Fixed1(0.4) == "0.4";
    assert Fixed1(0.6) == "0.6";
    assert Fixed1(0.8) == "0.8";
    assert Fixed1(1.0) == "1.0";
    var r := BinLabels();
    assert r[0] == "0.0 - 0.2" && r[1] == "0.2 - 0.4" && r[2] == "0.4 - 0.6";
    assert r[3] == "0.6 - 0.8" && r[4] == "0.8 - 1.0";
  }

  // ---------------------------------------------------------------------------
  // Risk gauge

  /** `data.filter(tx => tx.risk_fact >= riskThreshold).length`. */
  function CountHighRisk(scores: seq<real>): (n: nat)
    ensures n <= |scores|
    ensures n == |scores| <==> forall i :: 0 <= i < |scores| ==> scores[i] >= RiskThreshold
    ensures n == 0 <==> forall i :: 0 <= i < |scores| ==> scores[i] < RiskThreshold
    decreases |scores|
  {
    if scores == [] then 0
    else
      var init := scores[..|scores| - 1];
      assert forall i :: 0 <= i < |init| ==> init[i] == scores[i];
      CountHighRisk(init) + (if scores[|scores| - 1] >= RiskThreshold then 1 else 0)
  }

  /** The share of high-risk transactions, in percent; 0 when there are none. */
  function HighRiskPercentage(scores: seq<real>): (p: real)
    ensures 0.0 <= p <= 100.0
    ensures |scores| == 0 ==> p == 0.0
    ensures |scores| > 0 ==> p * |scores| as real == 100.0 * CountHighRisk(scores) as real
    // All at or above the threshold reads 100, all below reads 0.
    ensures |scores| > 0 ==> (p == 100.0 <==> forall i :: 0 <= i < |scores| ==> scores[i] >= RiskThreshold)
    ensures p == 0.0 <==> forall i :: 0 <= i < |scores| ==> scores[i] < RiskThreshold
  {
    var total := |scores|;
    var high := CountHighRisk(scores);
    if total == 0 then 0.0
    else
      PercentageBounds(high, total);
      (high as real / total as real) * 100.0
  }

  lemma PercentageBounds(high: nat, total: nat)
    requires 0 < total && high <= total
    ensures var p := (high as real / total as real) * 100.0;
            && 0.0 <= p <= 100.0
            && p * total as real == 100.0 * high as real
            && (p == 100.0 <==> high == total)
            && (p == 0.0 <==> high == 0)
  {
    var h, t := high as real, total as real;
    var q := h / t;
    var p := q * 100.0;
    assert q * t == h;
    assert 0.0 <= q;
    assert q <= 1.0;
    assert p * t == 100.0 * (q * t);
    assert p == 100.0 ==> q == 1.0;
    if high == total {
      assert q == t / t == 1.0;
    }
    assert p == 0.0 ==> q == 0.0;
  }

  /** The doughnut's two slices: high risk, then low risk; together 100. */
  function GaugeSlices(scores: seq<real>): (r: seq<real>)
    ensures |r| == 2 && r[0] == HighRiskPercentage(scores)
    ensures 0.0 <= r[0] <= 100.0 && 0.0 <= r[1] <= 100.0 && r[0] + r[1] == 100.0
  {
    var p := HighRiskPercentage(scores);
    [p, 100.0 - p]
  }
}
