/** The seed page my-app/src/app/dbTest/page.tsx: `uploadBulkData` inserts
    seed customers and their transactions into the `customer` and
    `transaction` tables, each only when no matching row exists; the page's
    list is refreshed by `fetchTransactions` and by the realtime reducer.
    The tables are in memory; which backend calls fail, the ids the database
    assigns, `crypto.randomUUID()` and `new Date().toISOString()` are inputs. */
module SeedUpload {
  import opened Rows

  /** A seed customer (a row of `customer` without its id). */
  datatype Customer = Customer(
    firstName: string,
    lastName: string,
    cc: string,
    street: string,
    city: string,
    state: string,
    zip: int,
    lat: real,
    long: real,
    job: string,
    dob: string,
    gender: string,
    isLocked: string)

  /** A stored customer: the database assigns `id`. */
  datatype CustomerRow = CustomerRow(id: int, customer: Customer)

  /** The fields a seed transaction gives; the rest are filled in on insert. */
  datatype SeedTx = SeedTx(merchant: string, category: string, amt: real, merchLat: real, merchLong: real)

  /** One card's seed transactions (an element of `transactionsData`). */
  datatype SeedGroup = SeedGroup(ccNum: string, transactions: seq<SeedTx>)

  /** The two tables and the next id the customer table assigns. */
  datatype Tables = Tables(customers: seq<CustomerRow>, transactions: seq<Transaction>, nextId: int)

  /** What one run meets: the calls that fail (by seed customer index, by
      group index, by (group, transaction) index), and the values of
      `crypto.randomUUID()` and `new Date().toISOString()` at each
      transaction. The card lookup before a group's transactions does not
      read its error; a failed one answers null data. */
  datatype Env = Env(
    customerLookupFails: set<nat>,
    customerInsertFails: set<nat>,
    cardLookupFails: set<nat>,
    txLookupFails: set<(nat, nat)>,
    txInsertFails: set<(nat, nat)>,
    uuid: (nat, nat) -> string,
    clock: (nat, nat) -> string)

  predicate NoFaults(env: Env) {
    && env.customerLookupFails == {}
    && env.customerInsertFails == {}
    && env.cardLookupFails == {}
    && env.txLookupFails == {}
    && env.txInsertFails == {}
  }

  /** A query's answer: an error, or the data (null when no row matched). */
  datatype Answer<T> = Failed | Answered(data: Option<T>)

  // ---------------------------------------------------------------------------
  // The queries

  /** `.from("customer").select(...).eq("cc", cc).maybeSingle()` finds the
      customer with the card, if any. */
  function FindCustomer(rows: seq<CustomerRow>, cc: string): (r: Option<CustomerRow>)
    ensures r.Some? <==> exists i :: 0 <= i < |rows| && rows[i].customer.cc == cc
    ensures r.Some? ==> r.value in rows && r.value.customer.cc == cc
    decreases |rows|
  {
    if rows == [] then None
    else if rows[0].customer.cc == cc then Some(rows[0])
    else
      var r := FindCustomer(rows[1..], cc);
      assert forall i :: 1 <= i < |rows| ==> rows[i] == rows[1..][i - 1];
      r
  }

  /** `.from("transaction").eq("cc_num", cc).eq("merchant", m).eq("amt", amt)`
      finds a row. */
  predicate HasTx(txs: seq<Transaction>, cc: string, merchant: string, amt: real) {
    exists i :: 0 <= i < |txs| && txs[i].ccNum == cc && txs[i].merchant == merchant && txs[i].amt == amt
  }

  /** `s.split("T")[0]`: the part before the first "T" (all of `s` without one). */
  function DatePart(s: string): (r: string)
    ensures r <= s && 'T' !in r
    ensures |r| < |s| ==> s[|r|] == 'T'
    decreases |s|
  {
    if s == [] || s[0] == 'T' then [] else [s[0]] + DatePart(s[1..])
  }

  /** The record inserted for a seed transaction: the seed's fields, a fresh
      trans_num, the date and time, not fraud, the group's card and the
      found customer's id. */
  function NewTransaction(seed: SeedTx, ccNum: string, userId: int, transNum: string, transTime: string): Transaction {
    Transaction(seed.merchant, seed.category, transNum, DatePart(transTime), transTime,
                seed.amt, seed.merchLat, seed.merchLong, "no", ccNum, userId)
  }

  // ---------------------------------------------------------------------------
  // The run, step by step

  /** Seed customer `i`: skipped when its lookup fails or a customer with its
      card exists, or when its insert fails; otherwise stored with the next id. */
  function CustomerStep(t: Tables, i: nat, c: Customer, env: Env): Tables {
    if i in env.customerLookupFails then t
    else if FindCustomer(t.customers, c.cc).Some? then t
    else if i in env.customerInsertFails then t
    else t.(customers := t.customers + [CustomerRow(t.nextId, c)], nextId := t.nextId + 1)
  }

  function CustomerPhase(t: Tables, seeds: seq<Customer>, env: Env): Tables
    decreases |seeds|
  {
    if seeds == [] then t
    else CustomerStep(CustomerPhase(t, seeds[..|seeds| - 1], env), |seeds| - 1, seeds[|seeds| - 1], env)
  }

  /** Transaction `ti` of group `gi`: skipped when its lookup fails or a row
      with the card, merchant and amount exists, or when its insert fails. */
  function TxStep(t: Tables, gi: nat, ti: nat, cc: string, userId: int, seed: SeedTx, env: Env): Tables {
    if (gi, ti) in env.txLookupFails then t
    else if HasTx(t.transactions, cc, seed.merchant, seed.amt) then t
    else if (gi, ti) in env.txInsertFails then t
    else t.(transactions := t.transactions + [NewTransaction(seed, cc, userId, env.uuid(gi, ti), env.clock(gi, ti))])
  }

  function GroupTxs(t: Tables, gi: nat, cc: string, userId: int, seeds: seq<SeedTx>, env: Env): Tables
    decreases |seeds|
  {
    if seeds == [] then t
    else TxStep(GroupTxs(t, gi, cc, userId, seeds[..|seeds| - 1], env), gi, |seeds| - 1, cc, userId, seeds[|seeds| - 1], env)
  }

  /** Group `gi`: all of its transactions are skipped when no customer with
      its card is found. */
  function GroupStep(t: Tables, gi: nat, g: SeedGroup, env: Env): Tables {
    if gi in env.cardLookupFails then t
    else match FindCustomer(t.customers, g.ccNum)
      case None => t
      case Some(row) => GroupTxs(t, gi, g.ccNum, row.id, g.transactions, env)
  }

  function TxPhase(t: Tables, groups: seq<SeedGroup>, env: Env): Tables
    decreases |groups|
  {
    if groups == [] then t
    else GroupStep(TxPhase(t, groups[..|groups| - 1], env), |groups| - 1, groups[|groups| - 1], env)
  }

  /** A whole run: the customers first, then (after the wait) the transactions. */
  function Upload(t: Tables, customers: seq<Customer>, groups: seq<SeedGroup>, env: Env): Tables {
    TxPhase(CustomerPhase(t, customers, env), groups, env)
  }

  // ---------------------------------------------------------------------------
  // The customer phase

  /** No two customers share a card. */
  predicate UniqueCards(rows: seq<CustomerRow>) {
    forall i, j :: 0 <= i < j < |rows| ==> rows[i].customer.cc != rows[j].customer.cc
  }

  /** One customer step: the seed is skipped exactly when its lookup fails,
      a customer with its card exists, or its insert fails; otherwise it is
      appended with the next id. It keeps every card found before, never adds
      a second customer for a card, and leaves the seed present when its calls
      succeed. */
  lemma CustomerStepSpec(t: Tables, i: nat, c: Customer, env: Env)
    ensures var r := CustomerStep(t, i, c, env);
            && r.transactions == t.transactions
            && (r == t <==> i in env.customerLookupFails || FindCustomer(t.customers, c.cc).Some? || i in env.customerInsertFails)
            && (r != t ==> r.customers == t.customers + [CustomerRow(t.nextId, c)] && r.nextId == t.nextId + 1)
            && t.customers <= r.customers
            && (UniqueCards(t.customers) ==> UniqueCards(r.customers))
            && (forall cc :: FindCustomer(t.customers, cc).Some? ==> FindCustomer(r.customers, cc).Some?)
            && (i !in env.customerLookupFails && i !in env.customerInsertFails ==> FindCustomer(r.customers, c.cc).Some?)
  {
    var r := CustomerStep(t, i, c, env);
    if i !in env.customerLookupFails && FindCustomer(t.customers, c.cc).None? && i !in env.customerInsertFails {
      assert r.customers == t.customers + [CustomerRow(t.nextId, c)];
      assert |r.customers| != |t.customers|;
      forall cc | FindCustomer(t.customers, cc).Some? ensures FindCustomer(r.customers, cc).Some? {
        var j :| 0 <= j < |t.customers| && t.customers[j].customer.cc == cc;
        assert r.customers[j] == t.customers[j];
      }
      assert r.customers[|t.customers|].customer.cc == c.cc;
      if UniqueCards(t.customers) {
        forall a, b | 0 <= a < b < |r.customers| ensures r.customers[a].customer.cc != r.customers[b].customer.cc {
          assert r.customers[a] == t.customers[a];
          if b < |t.customers| {
            assert r.customers[b] == t.customers[b];
          }
        }
      }
    }
  }

  /** `row` stores some seed customer whose lookup and insert both succeeded. */
  predicate FromSeeds(row: CustomerRow, seeds: seq<Customer>, env: Env) {
    exists i :: 0 <= i < |seeds| && i !in env.customerLookupFails && i !in env.customerInsertFails && row.customer == seeds[i]
  }

  lemma FromSeedsGrows(row: CustomerRow, seeds: seq<Customer>, env: Env)
    requires seeds != [] && FromSeeds(row, seeds[..|seeds| - 1], env)
    ensures FromSeeds(row, seeds, env)
  {
    var init := seeds[..|seeds| - 1];
    var i :| 0 <= i < |init| && i !in env.customerLookupFails && i !in env.customerInsertFails && row.customer == init[i];
    assert init[i] == seeds[i];
  }

  /** The customer phase only appends customers, each a seed customer whose
      calls succeeded, numbered on from the next id; it never stores two with
      one card (given none before) and leaves the transactions alone; every
      seed customer whose calls succeed is present afterwards. */
  lemma CustomerPhaseSpec(t: Tables, seeds: seq<Customer>, env: Env)
    ensures var r := CustomerPhase(t, seeds, env);
            && r.transactions == t.transactions
            && t.customers <= r.customers
            && |r.customers| <= |t.customers| + |seeds|
            && r.nextId == t.nextId + (|r.customers| - |t.customers|)
            && (forall k :: |t.customers| <= k < |r.customers| ==>
                  r.customers[k].id == t.nextId + (k - |t.customers|) && FromSeeds(r.customers[k], seeds, env))
            && (UniqueCards(t.customers) ==> UniqueCards(r.customers))
            && (forall i :: 0 <= i < |seeds| && i !in env.customerLookupFails && i !in env.customerInsertFails ==>
                  FindCustomer(r.customers, seeds[i].cc).Some?)
  {
    CustomerPhaseKeeps(t, seeds, env);
    CustomerPhaseAdds(t, seeds, env);
  }

  lemma {:induction false} CustomerPhaseKeeps(t: Tables, seeds: seq<Customer>, env: Env)
    ensures var r := CustomerPhase(t, seeds, env);
            && r.transactions == t.transactions
            && t.customers <= r.customers
            && (UniqueCards(t.customers) ==> UniqueCards(r.customers))
            && (forall i :: 0 <= i < |seeds| && i !in env.customerLookupFails && i !in env.customerInsertFails ==>
                  FindCustomer(r.customers, seeds[i].cc).Some?)
    decreases |seeds|
  {
    if seeds != [] {
      var n := |seeds| - 1;
      var init := seeds[..n];
      CustomerPhaseKeeps(t, init, env);
      var mid := CustomerPhase(t, init, env);
      var r := CustomerStep(mid, n, seeds[n], env);
      assert CustomerPhase(t, seeds, env) == r;
      CustomerStepSpec(mid, n, seeds[n], env);
      forall i | 0 <= i < n && i !in env.customerLookupFails && i !in env.customerInsertFails
        ensures FindCustomer(r.customers, seeds[i].cc).Some?
      {
        assert init[i] == seeds[i];
      }
    }
  }

  lemma {:induction false} CustomerPhaseAdds(t: Tables, seeds: seq<Customer>, env: Env)
    ensures var r := CustomerPhase(t, seeds, env);
            && t.customers <= r.customers
            && |r.customers| <= |t.customers| + |seeds|
            && r.nextId == t.nextId + (|r.customers| - |t.customers|)
            && (forall k :: |t.customers| <= k < |r.customers| ==>
                  r.customers[k].id == t.nextId + (k - |t.customers|) && FromSeeds(r.customers[k], seeds, env))
    decreases |seeds|
  {
    if seeds != [] {
      var n := |seeds| - 1;
      CustomerPhaseAdds(t, seeds[..n], env);
      var mid := CustomerPhase(t, seeds[..n], env);
      var r := CustomerStep(mid, n, seeds[n], env);
      assert CustomerPhase(t, seeds, env) == r;
      CustomerStepSpec(mid, n, seeds[n], env);
      forall k | |t.customers| <= k < |r.customers|
        ensures r.customers[k].id == t.nextId + (k - |t.customers|) && FromSeeds(r.customers[k], seeds, env)
      {
        if k < |mid.customers| {
          assert r.customers[k] == mid.customers[k];
          FromSeedsGrows(mid.customers[k], seeds, env);
        } else {
          assert r.customers[k] == CustomerRow(mid.nextId, seeds[n]);
        }
      }
    }
  }

  // ---------------------------------------------------------------------------
  // The transaction phase

  /** No two transactions share card, merchant and amount. */
  predicate UniqueTriples(txs: seq<Transaction>) {
    forall i, j :: 0 <= i < j < |txs| ==>
      !(txs[i].ccNum == txs[j].ccNum && txs[i].merchant == txs[j].merchant && txs[i].amt == txs[j].amt)
  }

  /** What every transaction the phase adds satisfies: not fraud, its date the
      date part of its time, its user the customer found for its card, and no
      earlier row with its card, merchant and amount. */
  predicate WellFormedAdded(customers: seq<CustomerRow>, txs: seq<Transaction>, from: nat)
    requires from <= |txs|
  {
    forall k :: from <= k < |txs| ==>
      && txs[k].isFraud == "no"
      && txs[k].transDate == DatePart(txs[k].transTime)
      && FindCustomer(customers, txs[k].ccNum).Some?
      && FindCustomer(customers, txs[k].ccNum).value.id == txs[k].userId
      && !HasTx(txs[..k], txs[k].ccNum, txs[k].merchant, txs[k].amt)
  }

  lemma UniqueTriplesStep(txs: seq<Transaction>, x: Transaction)
    requires UniqueTriples(txs) && !HasTx(txs, x.ccNum, x.merchant, x.amt)
    ensures UniqueTriples(txs + [x])
  {
    var s := txs + [x];
    forall i, j | 0 <= i < j < |s|
      ensures !(s[i].ccNum == s[j].ccNum && s[i].merchant == s[j].merchant && s[i].amt == s[j].amt)
    {
      assert s[i] == txs[i];
      if j < |txs| { assert s[j] == txs[j]; }
    }
  }

  /** One transaction step: the seed is skipped exactly when its lookup
      fails, a row with its card, merchant and amount exists, or its insert
      fails; otherwise exactly the record built from the seed, the card and
      the card's customer is appended. It keeps the customers and the
      invariants. */
  lemma TxStepSpec(t: Tables, gi: nat, ti: nat, cc: string, seed: SeedTx, env: Env, from: nat)
    requires from <= |t.transactions|
    requires FindCustomer(t.customers, cc).Some?
    requires WellFormedAdded(t.customers, t.transactions, from)
    ensures var id := FindCustomer(t.customers, cc).value.id;
            var r := TxStep(t, gi, ti, cc, id, seed, env);
            && r.customers == t.customers && r.nextId == t.nextId
            && (r == t <==> (gi, ti) in env.txLookupFails || HasTx(t.transactions, cc, seed.merchant, seed.amt) || (gi, ti) in env.txInsertFails)
            && (r != t ==> r.transactions == t.transactions + [NewTransaction(seed, cc, id, env.uuid(gi, ti), env.clock(gi, ti))])
            && t.transactions <= r.transactions
            && |r.transactions| <= |t.transactions| + 1
            && WellFormedAdded(r.customers, r.transactions, from)
            && (UniqueTriples(t.transactions) ==> UniqueTriples(r.transactions))
  {
    var id := FindCustomer(t.customers, cc).value.id;
    var r := TxStep(t, gi, ti, cc, id, seed, env);
    if (gi, ti) !in env.txLookupFails && !HasTx(t.transactions, cc, seed.merchant, seed.amt) && (gi, ti) !in env.txInsertFails {
      var x := NewTransaction(seed, cc, id, env.uuid(gi, ti), env.clock(gi, ti));
      assert r.transactions == t.transactions + [x];
      assert |r.transactions| != |t.transactions|;
      assert r.transactions[..|t.transactions|] == t.transactions;
      forall k | from <= k < |t.transactions| ensures r.transactions[..k] == t.transactions[..k] && r.transactions[k] == t.transactions[k] {
      }
      if UniqueTriples(t.transactions) {
        UniqueTriplesStep(t.transactions, x);
      }
    }
  }

  /** `x` is the record built for one of the seeds of group `gi`, with the
      group's card `cc` and its customer's id. */
  predicate FromGroup(x: Transaction, gi: nat, cc: string, userId: int, seeds: seq<SeedTx>, env: Env) {
    exists ti :: 0 <= ti < |seeds| && x == NewTransaction(seeds[ti], cc, userId, env.uuid(gi, ti), env.clock(gi, ti))
  }

  lemma FromGroupGrows(x: Transaction, gi: nat, cc: string, userId: int, seeds: seq<SeedTx>, env: Env)
    requires seeds != [] && FromGroup(x, gi, cc, userId, seeds[..|seeds| - 1], env)
    ensures FromGroup(x, gi, cc, userId, seeds, env)
  {
    var init := seeds[..|seeds| - 1];
    var ti :| 0 <= ti < |init| && x == NewTransaction(init[ti], cc, userId, env.uuid(gi, ti), env.clock(gi, ti));
    assert init[ti] == seeds[ti];
  }

  /** A group's transactions: at most one row per seed, each the record built
      for one of its seeds with the group's card and customer. */
  lemma {:induction false} GroupTxsSpec(t: Tables, gi: nat, cc: string, seeds: seq<SeedTx>, env: Env, from: nat)
    requires from <= |t.transactions|
    requires FindCustomer(t.customers, cc).Some?
    requires WellFormedAdded(t.customers, t.transactions, from)
    ensures var id := FindCustomer(t.customers, cc).value.id;
            var r := GroupTxs(t, gi, cc, id, seeds, env);
            && r.customers == t.customers && r.nextId == t.nextId
            && t.transactions <= r.transactions
            && |r.transactions| <= |t.transactions| + |seeds|
            && (forall k :: |t.transactions| <= k < |r.transactions| ==> FromGroup(r.transactions[k], gi, cc, id, seeds, env))
            && WellFormedAdded(r.customers, r.transactions, from)
            && (UniqueTriples(t.transactions) ==> UniqueTriples(r.transactions))
    decreases |seeds|
  {
    if seeds != [] {
      var id := FindCustomer(t.customers, cc).value.id;
      var n := |seeds| - 1;
      var init := seeds[..n];
      GroupTxsSpec(t, gi, cc, init, env, from);
      var mid := GroupTxs(t, gi, cc, id, init, env);
      TxStepSpec(mid, gi, n, cc, seeds[n], env, from);
      var r := TxStep(mid, gi, n, cc, id, seeds[n], env);
      assert GroupTxs(t, gi, cc, id, seeds, env) == r;
      forall k | |t.transactions| <= k < |r.transactions| ensures FromGroup(r.transactions[k], gi, cc, id, seeds, env) {
        if k < |mid.transactions| {
          assert r.transactions[k] == mid.transactions[k];
          FromGroupGrows(r.transactions[k], gi, cc, id, seeds, env);
        } else {
          assert r.transactions[k] == NewTransaction(seeds[n], cc, id, env.uuid(gi, n), env.clock(gi, n));
        }
      }
    }
  }

  /** `x` is the record built for a seed of some group whose card lookup
      succeeded and found a customer. */
  predicate FromSeedGroups(x: Transaction, customers: seq<CustomerRow>, groups: seq<SeedGroup>, env: Env) {
    exists gi :: 0 <= gi < |groups| && gi !in env.cardLookupFails && FindCustomer(customers, groups[gi].ccNum).Some?
      && FromGroup(x, gi, groups[gi].ccNum, FindCustomer(customers, groups[gi].ccNum).value.id, groups[gi].transactions, env)
  }

  lemma FromSeedGroupsGrows(x: Transaction, customers: seq<CustomerRow>, groups: seq<SeedGroup>, env: Env)
    requires groups != [] && FromSeedGroups(x, customers, groups[..|groups| - 1], env)
    ensures FromSeedGroups(x, customers, groups, env)
  {
    var init := groups[..|groups| - 1];
    var gi :| 0 <= gi < |init| && gi !in env.cardLookupFails && FindCustomer(customers, init[gi].ccNum).Some?
      && FromGroup(x, gi, init[gi].ccNum, FindCustomer(customers, init[gi].ccNum).value.id, init[gi].transactions, env);
    assert init[gi] == groups[gi];
  }

  /** The transaction phase keeps the customers and only appends
      transactions, each the record built for a seed of a group whose card has
      a customer, with that card and that customer's id; every transaction it
      adds is well formed and new, so it never creates two rows with one card,
      merchant and amount. */
  lemma {:induction false} TxPhaseSpec(t: Tables, groups: seq<SeedGroup>, env: Env)
    ensures var r := TxPhase(t, groups, env);
            && r.customers == t.customers && r.nextId == t.nextId
            && t.transactions <= r.transactions
            && (forall k :: |t.transactions| <= k < |r.transactions| ==> FromSeedGroups(r.transactions[k], t.customers, groups, env))
            && WellFormedAdded(r.customers, r.transactions, |t.transactions|)
            && (UniqueTriples(t.transactions) ==> UniqueTriples(r.transactions))
    decreases |groups|
  {
    if groups != [] {
      var n := |groups| - 1;
      TxPhaseSpec(t, groups[..n], env);
      var mid := TxPhase(t, groups[..n], env);
      var r := GroupStep(mid, n, groups[n], env);
      assert TxPhase(t, groups, env) == r;
      if n !in env.cardLookupFails && FindCustomer(mid.customers, groups[n].ccNum).Some? {
        GroupTxsSpec(mid, n, groups[n].ccNum, groups[n].transactions, env, |t.transactions|);
      }
      forall k | |t.transactions| <= k < |r.transactions| ensures FromSeedGroups(r.transactions[k], t.customers, groups, env) {
        if k < |mid.transactions| {
          assert r.transactions[k] == mid.transactions[k];
          FromSeedGroupsGrows(r.transactions[k], t.customers, groups, env);
        }
      }
    }
  }

  // ---------------------------------------------------------------------------
  // Running the upload twice

  /** Each seed transaction of a group whose card has a customer. */
  predicate SeedTxsPresent(t: Tables, groups: seq<SeedGroup>) {
    forall gi, ti ::
      (0 <= gi < |groups| && 0 <= ti < |groups[gi].transactions| && FindCustomer(t.customers, groups[gi].ccNum).Some?) ==>
      HasTx(t.transactions, groups[gi].ccNum, groups[gi].transactions[ti].merchant, groups[gi].transactions[ti].amt)
  }

  lemma HasTxGrows(a: seq<Transaction>, b: seq<Transaction>, cc: string, merchant: string, amt: real)
    requires a <= b && HasTx(a, cc, merchant, amt)
    ensures HasTx(b, cc, merchant, amt)
  {
    var i :| 0 <= i < |a| && a[i].ccNum == cc && a[i].merchant == merchant && a[i].amt == amt;
    assert b[i] == a[i];
  }

  /** Without faults, a group's run leaves each of its transactions present. */
  lemma {:induction false} GroupTxsComplete(t: Tables, gi: nat, cc: string, userId: int, seeds: seq<SeedTx>, env: Env)
    requires NoFaults(env)
    ensures var r := GroupTxs(t, gi, cc, userId, seeds, env);
            && r.customers == t.customers
            && t.transactions <= r.transactions
            && forall ti :: 0 <= ti < |seeds| ==> HasTx(r.transactions, cc, seeds[ti].merchant, seeds[ti].amt)
    decreases |seeds|
  {
    if seeds != [] {
      var n := |seeds| - 1;
      var init := seeds[..n];
      GroupTxsComplete(t, gi, cc, userId, init, env);
      var mid := GroupTxs(t, gi, cc, userId, init, env);
      var r := GroupTxs(t, gi, cc, userId, seeds, env);
      assert mid.transactions <= r.transactions;
      forall ti | 0 <= ti < |seeds| ensures HasTx(r.transactions, cc, seeds[ti].merchant, seeds[ti].amt) {
        if ti < n {
          assert init[ti] == seeds[ti];
          HasTxGrows(mid.transactions, r.transactions, cc, seeds[ti].merchant, seeds[ti].amt);
        } else if !HasTx(mid.transactions, cc, seeds[n].merchant, seeds[n].amt) {
          assert r.transactions[|mid.transactions|].merchant == seeds[n].merchant;
        }
      }
    }
  }

  /** The last group's transactions added to tables holding the earlier
      groups' ones, keeping the customers: all groups' are present. */
  lemma PresentGrows(mid: Tables, r: Tables, groups: seq<SeedGroup>)
    requires groups != [] && SeedTxsPresent(mid, groups[..|groups| - 1])
    requires r.customers == mid.customers && mid.transactions <= r.transactions
    requires var g := groups[|groups| - 1];
             FindCustomer(r.customers, g.ccNum).Some? ==>
               forall ti :: 0 <= ti < |g.transactions| ==> HasTx(r.transactions, g.ccNum, g.transactions[ti].merchant, g.transactions[ti].amt)
    ensures SeedTxsPresent(r, groups)
  {
    var n := |groups| - 1;
    forall gi, ti | 0 <= gi < |groups| && 0 <= ti < |groups[gi].transactions| &&
                    FindCustomer(r.customers, groups[gi].ccNum).Some?
      ensures HasTx(r.transactions, groups[gi].ccNum, groups[gi].transactions[ti].merchant, groups[gi].transactions[ti].amt)
    {
      if gi < n {
        assert groups[..n][gi] == groups[gi];
        HasTxGrows(mid.transactions, r.transactions, groups[gi].ccNum, groups[gi].transactions[ti].merchant, groups[gi].transactions[ti].amt);
      }
    }
  }

  /** Without faults, the transaction phase leaves every seed transaction of
      every group with a customer present. */
  lemma {:induction false} TxPhaseComplete(t: Tables, groups: seq<SeedGroup>, env: Env)
    requires NoFaults(env)
    ensures var r := TxPhase(t, groups, env);
            r.customers == t.customers && t.transactions <= r.transactions && SeedTxsPresent(r, groups)
    decreases |groups|
  {
    if groups != [] {
      var n := |groups| - 1;
      var init := groups[..n];
      TxPhaseComplete(t, init, env);
      var mid := TxPhase(t, init, env);
      var r := TxPhase(t, groups, env);
      var found := FindCustomer(mid.customers, groups[n].ccNum);
      assert r == GroupStep(mid, n, groups[n], env);
      if found.Some? {
        GroupTxsComplete(mid, n, groups[n].ccNum, found.value.id, groups[n].transactions, env);
      }
      PresentGrows(mid, r, groups);
    }
  }

  /** Customer phase against tables that already hold every seed card: nothing changes. */
  lemma {:induction false} CustomerPhaseNoOp(t: Tables, seeds: seq<Customer>, env: Env)
    requires NoFaults(env)
    requires forall i :: 0 <= i < |seeds| ==> FindCustomer(t.customers, seeds[i].cc).Some?
    ensures CustomerPhase(t, seeds, env) == t
    decreases |seeds|
  {
    if seeds != [] {
      var n := |seeds| - 1;
      var init := seeds[..n];
      assert forall i :: 0 <= i < n ==> init[i] == seeds[i];
      CustomerPhaseNoOp(t, init, env);
      CustomerStepSpec(t, n, seeds[n], env);
    }
  }

  lemma {:induction false} GroupTxsNoOp(t: Tables, gi: nat, cc: string, userId: int, seeds: seq<SeedTx>, env: Env)
    requires NoFaults(env)
    requires forall ti :: 0 <= ti < |seeds| ==> HasTx(t.transactions, cc, seeds[ti].merchant, seeds[ti].amt)
    ensures GroupTxs(t, gi, cc, userId, seeds, env) == t
    decreases |seeds|
  {
    if seeds != [] {
      var n := |seeds| - 1;
      assert forall ti :: 0 <= ti < n ==> seeds[..n][ti] == seeds[ti];
      GroupTxsNoOp(t, gi, cc, userId, seeds[..n], env);
    }
  }

  lemma {:induction false} TxPhaseNoOp(t: Tables, groups: seq<SeedGroup>, env: Env)
    requires NoFaults(env) && SeedTxsPresent(t, groups)
    ensures TxPhase(t, groups, env) == t
    decreases |groups|
  {
    if groups != [] {
      var n := |groups| - 1;
      var init := groups[..n];
      assert SeedTxsPresent(t, init) by {
        forall gi, ti | 0 <= gi < |init| && 0 <= ti < |init[gi].transactions| &&
                        FindCustomer(t.customers, init[gi].ccNum).Some?
          ensures HasTx(t.transactions, init[gi].ccNum, init[gi].transactions[ti].merchant, init[gi].transactions[ti].amt)
        {
          assert init[gi] == groups[gi];
        }
      }
      TxPhaseNoOp(t, init, env);
      var found := FindCustomer(t.customers, groups[n].ccNum);
      if found.Some? {
        GroupTxsNoOp(t, n, groups[n].ccNum, found.value.id, groups[n].transactions, env);
      }
    }
  }

  /** Uploading again after a run without faults, again without faults,
      inserts no customer and no transaction: the tables are unchanged. */
  lemma UploadTwiceInsertsNothing(t: Tables, customers: seq<Customer>, groups: seq<SeedGroup>, env1: Env, env2: Env)
    requires NoFaults(env1) && NoFaults(env2)
    ensures var once := Upload(t, customers, groups, env1);
            Upload(once, customers, groups, env2) == once
  {
    var mid := CustomerPhase(t, customers, env1);
    CustomerPhaseSpec(t, customers, env1);
    TxPhaseComplete(mid, groups, env1);
    var once := TxPhase(mid, groups, env1);
    CustomerPhaseNoOp(once, customers, env2);
    TxPhaseNoOp(once, groups, env2);
  }

  // ---------------------------------------------------------------------------
  // The tables as the page changes them

  class Backend {
    var customers: seq<CustomerRow>
    var transactions: seq<Transaction>
    var nextId: int

    constructor (customers: seq<CustomerRow>, transactions: seq<Transaction>, nextId: int)
      ensures this.customers == customers && this.transactions == transactions && this.nextId == nextId
    {
      this.customers := customers;
      this.transactions := transactions;
      this.nextId := nextId;
    }

    function State(): Tables
      reads this
    {
      Tables(customers, transactions, nextId)
    }

    /** The customer lookup by card: an error, or the customer (null data if none). */
    function SelectCustomer(cc: string, fails: bool): (r: Answer<CustomerRow>)
      reads this
      ensures r.Failed? <==> fails
      ensures r.Answered? ==> r.data == FindCustomer(customers, cc)
    {
      if fails then Failed else Answered(FindCustomer(customers, cc))
    }

    /** The duplicate check: an error, or whether a row with the card,
        merchant and amount exists. */
    function SelectTransaction(cc: string, merchant: string, amt: real, fails: bool): (r: Answer<bool>)
      reads this
      ensures r.Failed? <==> fails
      ensures r.Answered? ==> r.data == Some(HasTx(transactions, cc, merchant, amt))
    {
      if fails then Failed else Answered(Some(HasTx(transactions, cc, merchant, amt)))
    }

    /** `.from("customer").insert([c])`: on success the customer is stored
        with the next id. */
    method InsertCustomer(c: Customer, fails: bool) returns (ok: bool)
      modifies this
      ensures ok == !fails
      ensures customers == if fails then old(customers) else old(customers) + [CustomerRow(old(nextId), c)]
      ensures nextId == if fails then old(nextId) else old(nextId) + 1
      ensures transactions == old(transactions)
    {
      ok := !fails;
      if ok {
        customers := customers + [CustomerRow(nextId, c)];
        nextId := nextId + 1;
      }
    }

    /** `.from("transaction").insert([x])`: on success the row is appended. */
    method InsertTransaction(x: Transaction, fails: bool) returns (ok: bool)
      modifies this
      ensures ok == !fails
      ensures transactions == if fails then old(transactions) else old(transactions) + [x]
      ensures customers == old(customers) && nextId == old(nextId)
    {
      ok := !fails;
      if ok {
        transactions := transactions + [x];
      }
    }
  }

  /** `uploadBulkData`: the customer loop, then the per-card transaction
      loops, each call skipping on error exactly as the page does. The tables
      end as `Upload` says. */
  method UploadBulkData(db: Backend, customers: seq<Customer>, groups: seq<SeedGroup>, env: Env)
    modifies db
    ensures db.State() == Upload(old(db.State()), customers, groups, env)
  {
    ghost var start := db.State();
    for i := 0 to |customers|
      invariant db.State() == CustomerPhase(start, customers[..i], env)
    {
      assert customers[..i + 1][..i] == customers[..i];
      var customer := customers[i];
      var existingCustomer := db.SelectCustomer(customer.cc, i in env.customerLookupFails);
      if existingCustomer.Failed? {
        continue;
      }
      if existingCustomer.data.None? {
        var ok := db.InsertCustomer(customer, i in env.customerInsertFails);
        if !ok {
          continue;
        }
      }
    }
    assert customers[..|customers|] == customers;
    ghost var mid := db.State();
    for gi := 0 to |groups|
      invariant db.State() == TxPhase(mid, groups[..gi], env)
    {
      assert groups[..gi + 1][..gi] == groups[..gi];
      var user := groups[gi];
      var customerExists := db.SelectCustomer(user.ccNum, gi in env.cardLookupFails);
      if customerExists.Failed? || customerExists.data.None? {
        continue;
      }
      var userId := customerExists.data.value.id;
      ghost var groupStart := db.State();
      for ti := 0 to |user.transactions|
        invariant db.State() == GroupTxs(groupStart, gi, user.ccNum, userId, user.transactions[..ti], env)
      {
        assert user.transactions[..ti + 1][..ti] == user.transactions[..ti];
        var transaction := user.transactions[ti];
        var existingTransaction := db.SelectTransaction(user.ccNum, transaction.merchant, transaction.amt, (gi, ti) in env.txLookupFails);
        if existingTransaction.Failed? {
          continue;
        }
        if existingTransaction.data == Some(true) {
          continue;
        }
        var transTime := env.clock(gi, ti);
        var newTransaction := NewTransaction(transaction, user.ccNum, userId, env.uuid(gi, ti), transTime);
        var ok := db.InsertTransaction(newTransaction, (gi, ti) in env.txInsertFails);
        if !ok {
          continue;
        }
      }
      assert user.transactions[..|user.transactions|] == user.transactions;
    }
    assert groups[..|groups|] == groups;
  }

  // ---------------------------------------------------------------------------
  // The page's list

  /** The answer of `.from("transaction").select("*")`. */
  datatype Fetched = FetchFailed | FetchedRows(rows: seq<Transaction>)

  function AsRecords(rows: seq<Transaction>): (r: seq<Record<Transaction>>)
    ensures |r| == |rows| && forall i :: 0 <= i < |rows| ==> r[i] == Row(rows[i])
  {
    seq(|rows|, i requires 0 <= i < |rows| => Row(rows[i]))
  }

  class TransactionList {
    var updates: seq<Record<Transaction>>

    constructor ()
      ensures updates == []
    {
      updates := [];
    }

    /** `fetchTransactions`: the fetched rows replace the list; on an error
        the list stays as it was. */
    method FetchTransactions(answer: Fetched)
      modifies this
      ensures answer.FetchFailed? ==> updates == old(updates)
      ensures answer.FetchedRows? ==> updates == AsRecords(answer.rows)
    {
      if answer.FetchFailed? {
        return;
      }
      updates := AsRecords(answer.rows);
    }

    /** The realtime handler (channel `event: "*"`, so every kind, a DELETE
        carrying the empty record): the dedup merge. It keeps trans_nums unique. */
    method Receive(e: ChangeEvent<Transaction>)
      modifies this
      ensures updates == MergeUnique(old(updates), e.payload)
      ensures UniqueKeys(old(updates)) ==> UniqueKeys(updates)
    {
      if UniqueKeys(updates) {
        MergeKeepsUnique(updates, e.payload);
      }
      updates := MergeUnique(updates, e.payload);
    }
  }
}
