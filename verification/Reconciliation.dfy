/**
 * The reconciliation cycle as the code runs it: a snapshot of each consumer's old pending payments,
 * then a loop that settles them one by one. The cycle is proved to be a pointwise map over the
 * snapshot, so neither the order of payments nor Go's random order of consumers matters.
 */
module Reconciliation {
  import opened Base
  import opened Domain
  import opened Ledger
  import opened Balances
  import opened Tables
  import opened Steps
  import opened Machine
  import opened Schedules
  import opened Store
  import opened Workers

  // Everything outside the service that decides one payment's fate in a cycle: whether its
  // credentials load, what Daraja answers, the clock, and which of the settlement's calls succeed.
  datatype Answer = Answer(credentials: bool, status: Option<TxStatus>, at: int, row: bool, event: bool, post: TxFaults)

  // The settlement a payment gets; None when its own errors leave it alone.
  function Resolution(db: Db, row: Payment, a: Answer): Option<Settlement> {
    if a.credentials && CanQuery(db, row.client) && a.status.Some? && a.row then Some(Verdict(a.status.value)) else None
  }

  function FateOf(a: Answer): SettleFate {
    SettleFate(a.row, a.event, TxRuns(a.post, 2))
  }

  // One payment reconciled against the current tables.
  function Reconciled(db: Db, row: Payment, a: Answer): Db {
    if a.credentials && CanQuery(db, row.client) && a.status.Some?
    then Finish(db, a.at, AtRow(row.id, Verdict(a.status.value)), FateOf(a)).db
    else db
  }

  // ---- The pointwise specification -----------------------------------------------------

  function PaymentAfter(db: Db, id: string, a: Answer): Payment
    requires id in db.payments
  {
    match Resolution(db, db.payments[id], a)
    case None => db.payments[id]
    case Some(s) => SettledRow(db.payments[id], s, a.at)
  }

  predicate Posts(db: Db, id: string, a: Answer)
    requires id in db.payments
  {
    match Resolution(db, db.payments[id], a)
    case None => false
    case Some(s) => s.Completion? && TxRuns(a.post, 2) && Postable(db, Template(db.payments[id]))
  }

  // How many copies of this row the cycle adds to the journal.
  function RowsAdded(db: Db, ids: set<string>, answers: string -> Answer, r: JournalRow): nat {
    if r.payment in ids && r.payment in db.payments && Posts(db, r.payment, answers(r.payment))
       && r in Template(db.payments[r.payment]) then 1 else 0
  }

  function EventsAdded(db: Db, ids: set<string>, answers: string -> Answer, e: Event): nat {
    if e.payment in ids && e.payment in db.payments && answers(e.payment).event then
      (match Resolution(db, db.payments[e.payment], answers(e.payment))
       case None => 0
       case Some(s) => if e == SettledEvent(e.payment, s) then 1 else 0)
    else 0
  }

  ghost predicate SameClients(a: Db, b: Db) {
    a.clients == b.clients && a.credentials == b.credentials && a.paystack == b.paystack && a.accounts == b.accounts
  }

  ghost predicate PaymentsSwept(db: Db, v: Db, ids: set<string>, answers: string -> Answer) {
    && (forall id :: id in v.payments <==> id in db.payments)
    && (forall id :: id in db.payments ==>
          v.payments[id] == if id in ids then PaymentAfter(db, id, answers(id)) else db.payments[id])
  }

  ghost predicate JournalSwept(db: Db, journal: seq<JournalRow>, ids: set<string>, answers: string -> Answer) {
    forall r: JournalRow :: multiset(journal)[r] == multiset(db.journal)[r] + RowsAdded(db, ids, answers, r)
  }

  ghost predicate EventsSwept(db: Db, events: seq<Event>, ids: set<string>, answers: string -> Answer) {
    forall e: Event :: multiset(events)[e] == multiset(db.events)[e] + EventsAdded(db, ids, answers, e)
  }

  // v is db with exactly the payments in ids reconciled: each is unchanged or settled by its own
  // answer, every other payment is untouched, and the journal and the events gain exactly the rows
  // of the settled ones.
  ghost predicate Swept(db: Db, v: Db, ids: set<string>, answers: string -> Answer) {
    && SameClients(db, v)
    && PaymentsSwept(db, v, ids, answers)
    && JournalSwept(db, v.journal, ids, answers)
    && EventsSwept(db, v.events, ids, answers)
  }

  lemma SweptNothing(db: Db, answers: string -> Answer)
    ensures Swept(db, db, {}, answers)
  {
  }

  lemma TemplateCount(p: Payment, r: JournalRow)
    ensures multiset(Template(p))[r] == if r in Template(p) then 1 else 0
    ensures r in Template(p) ==> r.payment == p.id
  {
    var t := Template(p);
    assert t == [t[0], t[1]] && t[0].entry != t[1].entry;
  }

  lemma EventsStep(db: Db, events: seq<Event>, ids: set<string>, answers: string -> Answer, id: string, s: Settlement)
    requires id in db.payments && id !in ids && Resolution(db, db.payments[id], answers(id)) == Some(s)
    requires EventsSwept(db, events, ids, answers)
    ensures EventsSwept(db, events + (if answers(id).event then [SettledEvent(id, s)] else []), ids + {id}, answers)
  {
    assert SettledEvent(id, s).payment == id;
  }

  lemma JournalStep(db: Db, journal: seq<JournalRow>, ids: set<string>, answers: string -> Answer, id: string)
    requires id in db.payments && id !in ids && db.payments[id].id == id
    requires JournalSwept(db, journal, ids, answers)
    ensures JournalSwept(db, journal + (if Posts(db, id, answers(id)) then Template(db.payments[id]) else []), ids + {id}, answers)
  {
    var t := Template(db.payments[id]);
    forall r: JournalRow ensures multiset(t)[r] == (if r in t then 1 else 0) && (r in t ==> r.payment == id) {
      TemplateCount(db.payments[id], r);
    }
  }

  lemma PaymentsStep(db: Db, v: Db, next: Db, ids: set<string>, answers: string -> Answer, id: string)
    requires PaymentsSwept(db, v, ids, answers) && id in db.payments && id !in ids
    requires next.payments == v.payments[id := PaymentAfter(db, id, answers(id))]
    ensures PaymentsSwept(db, next, ids + {id}, answers)
  {
  }

  // What one settlement does to the tables of a state that is already partly swept.
  lemma StepPostable(db: Db, v: Db, ids: set<string>, answers: string -> Answer, p: Payment, q: Payment)
    requires SameClients(db, v) && PaymentsSwept(db, v, ids, answers) && Core(p) == Core(q)
    ensures Template(p) == Template(q)
    ensures Postable(v, Template(q)) <==> Postable(db, Template(p))
  {
    assert Template(p) == Template(Core(p)) && Template(q) == Template(Core(q));
    var t := Template(p);
    assert forall k :: 0 <= k < |t| ==> (RowInsertable(v, t[k]) <==> RowInsertable(db, t[k]));
  }

  // The tables after one settled payment, in terms of the tables the cycle started from.
  lemma ReconciledIs(db: Db, v: Db, ids: set<string>, answers: string -> Answer, id: string, s: Settlement)
    requires SameClients(db, v) && PaymentsSwept(db, v, ids, answers)
    requires id in db.payments && id !in ids && db.payments[id].id == id
    requires Resolution(db, db.payments[id], answers(id)) == Some(s)
    ensures var next := Reconciled(v, db.payments[id], answers(id));
            && SameClients(db, next)
            && next.payments == v.payments[id := PaymentAfter(db, id, answers(id))]
            && next.journal == v.journal + (if Posts(db, id, answers(id)) then Template(db.payments[id]) else [])
            && next.events == v.events + (if answers(id).event then [SettledEvent(id, s)] else [])
  {
    var a, row := answers(id), db.payments[id];
    assert v.payments[id] == row;
    FinishIs(v, a.at, id, s, FateOf(a));
    StepPostable(db, v, ids, answers, row, SettledRow(row, s, a.at));
  }

  // Reconciling one more payment of the snapshot extends the sweep by exactly that payment.
  lemma SweptStep(db: Db, v: Db, ids: set<string>, answers: string -> Answer, id: string)
    requires Swept(db, v, ids, answers) && id in db.payments && db.payments[id].id == id && id !in ids
    ensures Swept(db, Reconciled(v, db.payments[id], answers(id)), ids + {id}, answers)
  {
    match Resolution(db, db.payments[id], answers(id))
    case None =>
      SweptStepIdle(db, v, ids, answers, id);
    case Some(s) =>
      ReconciledIs(db, v, ids, answers, id, s);
      EventsStep(db, v.events, ids, answers, id, s);
      JournalStep(db, v.journal, ids, answers, id);
      PaymentsStep(db, v, Reconciled(v, db.payments[id], answers(id)), ids, answers, id);
  }

  lemma SweptStepIdle(db: Db, v: Db, ids: set<string>, answers: string -> Answer, id: string)
    requires Swept(db, v, ids, answers) && id in db.payments && db.payments[id].id == id && id !in ids
    requires Resolution(db, db.payments[id], answers(id)).None?
    ensures Swept(db, Reconciled(v, db.payments[id], answers(id)), ids + {id}, answers)
  {
    var a, row := answers(id), db.payments[id];
    if a.credentials && CanQuery(v, row.client) && a.status.Some? {
      FinishIs(v, a.at, id, Verdict(a.status.value), FateOf(a));
    }
    assert Reconciled(v, row, a) == v;
    assert forall r: JournalRow :: RowsAdded(db, ids + {id}, answers, r) == RowsAdded(db, ids, answers, r);
    assert forall e: Event :: EventsAdded(db, ids + {id}, answers, e) == EventsAdded(db, ids, answers, e);
  }

  // A cycle adds only debits and credits.
  lemma SweptIsTwoSided(db: Db, u: Db, ids: set<string>, answers: string -> Answer)
    requires JournalSwept(db, u.journal, ids, answers) && TwoSided(db.journal)
    ensures TwoSided(u.journal)
  {
    forall k | 0 <= k < |u.journal| ensures u.journal[k].entry == Debit || u.journal[k].entry == Credit {
      var r := u.journal[k];
      assert multiset(u.journal)[r] > 0;
      if multiset(db.journal)[r] > 0 {
        var j :| 0 <= j < |db.journal| && db.journal[j] == r;
      } else {
        assert RowsAdded(db, ids, answers, r) == 1;
        assert r in Template(db.payments[r.payment]);
      }
    }
  }

  // Two cycles over the same snapshot with the same answers agree, whatever their order: the same
  // payments, the same journal and events as multisets, and the same account_balances row for
  // every client and account.
  lemma OrderDoesNotMatter(db: Db, u: Db, v: Db, ids: set<string>, answers: string -> Answer)
    requires Swept(db, u, ids, answers) && Swept(db, v, ids, answers)
    requires TwoSided(db.journal)
    ensures u.payments == v.payments
    ensures multiset(u.journal) == multiset(v.journal) && multiset(u.events) == multiset(v.events)
    ensures forall client, account :: Find(Group(u.journal), client, account) == Find(Group(v.journal), client, account)
  {
    assert u.payments.Keys == v.payments.Keys;
    SweptIsTwoSided(db, u, ids, answers);
    forall client, account ensures Find(Group(u.journal), client, account) == Find(Group(v.journal), client, account) {
      SameRowsSameBalances(u.journal, v.journal, client, account);
    }
  }

  lemma SameOccurrences(a: seq<JournalRow>, b: seq<JournalRow>, client: string, account: string)
    requires multiset(a) == multiset(b) && Occurs(a, client, account)
    ensures Occurs(b, client, account)
  {
    var k :| 0 <= k < |a| && a[k].client == client && a[k].account == account;
    assert a[k] in multiset(b);
    var j :| 0 <= j < |b| && b[j] == a[k];
  }

  lemma SameSides(a: seq<JournalRow>, b: seq<JournalRow>)
    requires multiset(a) == multiset(b) && TwoSided(a)
    ensures TwoSided(b)
  {
    forall k | 0 <= k < |b| ensures b[k].entry == Debit || b[k].entry == Credit {
      assert b[k] in multiset(a);
    }
  }

  lemma SameSums(a: seq<JournalRow>, b: seq<JournalRow>, client: string, account: string)
    requires multiset(a) == multiset(b)
    ensures Total(a, Query(client, Some(account), Debit)) == Total(b, Query(client, Some(account), Debit))
    ensures Total(a, Query(client, Some(account), Credit)) == Total(b, Query(client, Some(account), Credit))
  {
    TotalOfMultiset(a, b, Query(client, Some(account), Debit));
    TotalOfMultiset(a, b, Query(client, Some(account), Credit));
  }

  lemma SameAccountsOccur(a: seq<JournalRow>, b: seq<JournalRow>, client: string, account: string)
    requires multiset(a) == multiset(b)
    ensures Occurs(a, client, account) <==> Occurs(b, client, account)
  {
    if Occurs(a, client, account) { SameOccurrences(a, b, client, account); }
    if Occurs(b, client, account) { SameOccurrences(b, a, client, account); }
  }

  lemma SameSumsSameBalance(a: seq<JournalRow>, b: seq<JournalRow>, client: string, account: string)
    requires TwoSided(a) && TwoSided(b) && (Occurs(a, client, account) <==> Occurs(b, client, account))
    requires Total(a, Query(client, Some(account), Debit)) == Total(b, Query(client, Some(account), Debit))
    requires Total(a, Query(client, Some(account), Credit)) == Total(b, Query(client, Some(account), Credit))
    ensures Find(Group(a), client, account) == Find(Group(b), client, account)
  {
    GroupIsFilteredSums(a, client, account);
    GroupIsFilteredSums(b, client, account);
  }

  lemma SameRowsSameBalances(a: seq<JournalRow>, b: seq<JournalRow>, client: string, account: string)
    requires multiset(a) == multiset(b) && TwoSided(a)
    ensures Find(Group(a), client, account) == Find(Group(b), client, account)
  {
    SameSides(a, b);
    SameAccountsOccur(a, b, client, account);
    SameSums(a, b, client, account);
    SameSumsSameBalance(a, b, client, account);
  }

  // ---- The loops -----------------------------------------------------------------------

  // The credentials load and every secret in them decrypts.
  ghost predicate Queryable(db: Db, client: string) {
    && client in db.credentials
    && var c := db.credentials[client];
       && c.consumerKey.Sealed? && c.consumerSecret.Sealed? && c.passkey.Sealed?
       && (c.security.Some? ==> c.security.value.Sealed?)
  }

  // An answer that means the payment went through.
  ghost predicate Succeeded(status: TxStatus) {
    status.code == "0" || status.status == "completed"
  }

  // Loading and decrypting everything the status query needs.
  method OpenCredentials(db: ConsumerDb, client: string, ok: bool) returns (usable: bool)
    ensures usable == (ok && CanQuery(db.Tables(), client))
    ensures usable <==> ok && Queryable(db.Tables(), client)
  {
    var creds := db.GetActiveCredentials(client, ok);
    if creds.None? { return false; }
    if Decrypt(creds.value.consumerKey).None? { return false; }
    if Decrypt(creds.value.consumerSecret).None? { return false; }
    if Decrypt(creds.value.passkey).None? { return false; }
    if creds.value.security.Some? && Decrypt(creds.value.security.value).None? { return false; }
    usable := true;
  }

  // reconcilePayment. `asked` is the transaction id of the query it made, if it got that far.
  method ReconcilePayment(db: ConsumerDb, row: Payment, a: Answer) returns (ok: bool, asked: Option<string>)
    requires db.Valid()
    modifies db`payments, db`events, db`journal
    ensures db.Valid() && db.Tables() == Reconciled(old(db.Tables()), row, a)
    ensures ok <==> Resolution(old(db.Tables()), row, a).Some? && row.id in old(db.payments)
    ensures asked == if a.credentials && CanQuery(old(db.Tables()), row.client) then Some(SentId(row)) else None
    ensures asked.Some? ==> asked.value == (if row.requestId.Some? then row.requestId.value else "")
    ensures ok <==> a.credentials && Queryable(old(db.Tables()), row.client) && a.status.Some? && a.row && row.id in old(db.payments)
    ensures !ok ==> db.Tables() == old(db.Tables())
    ensures ok ==>
              && row.id in db.payments
              && (db.payments[row.id].status == Completed <==> a.status.value.code == "0" || a.status.value.status == "completed")
              && (if Succeeded(a.status.value)
                  then CompletedIn(old(db.Tables()), db.Tables(), row.id, a.status.value.receipt, a.status.value.conversation,
                                   a.at, a.event, TxRuns(a.post, 2))
                  else FailedIn(old(db.Tables()), db.Tables(), row.id,
                                "reconciliation: daraja returned result code " + a.status.value.code, a.event))
  {
    var usable := OpenCredentials(db, row.client, a.credentials);
    if !usable { return false, None; }
    var txId := "";
    if row.requestId.Some? { txId := row.requestId.value; }
    asked := Some(txId);
    if a.status.None? { return false, asked; }
    var status := a.status.value;
    if status.code == "0" || status.status == "completed" {
      ok := SettleIn(db, row.id, Completion(status.receipt, status.conversation), a.at, a.row, a.event, a.post);
    } else {
      ok := SettleIn(db, row.id, Failure("reconciliation: daraja returned result code " + status.code),
                     a.at, a.row, a.event, a.post);
    }
  }

  function ListedIds(db: Db, cutoff: int): set<string> {
    set id | id in db.payments && Listed(db.payments[id], cutoff)
  }

  function IdSet(batch: seq<Payment>): set<string> {
    set k | 0 <= k < |batch| :: batch[k].id
  }

  lemma NextIsNew(db: Db, cutoff: int, batch: seq<Payment>, i: nat)
    requires IsPendingList(db, cutoff, batch) && i < |batch|
    ensures batch[i].id in db.payments && db.payments[batch[i].id] == batch[i] && batch[i].id !in IdSet(batch[..i])
    ensures IdSet(batch[..i + 1]) == IdSet(batch[..i]) + {batch[i].id}
  {
  }

  lemma WholeListIsListed(db: Db, cutoff: int, batch: seq<Payment>)
    requires IsPendingList(db, cutoff, batch) && forall id :: id in db.payments ==> db.payments[id].id == id
    ensures IdSet(batch) == ListedIds(db, cutoff)
  {
    forall id | id in ListedIds(db, cutoff) ensures id in IdSet(batch) {
      var k :| 0 <= k < |batch| && batch[k] == db.payments[id];
      assert batch[k].id == id;
    }
  }

  // What a swept payment looks like: an old pending one whose query was answered is completed or
  // failed by its own answer, every other one is as it was.
  ghost predicate EndsRight(db: Db, v: Db, id: string, listed: bool, a: Answer)
    requires id in db.payments
  {
    && id in v.payments
    && var p, q := db.payments[id], v.payments[id];
       if listed && a.credentials && Queryable(db, p.client) && a.status.Some? && a.row then
         if Succeeded(a.status.value) then CompletedFrom(p, q, a.status.value.receipt, a.status.value.conversation, a.at)
         else FailedFrom(p, q)
       else q == p
  }

  lemma SweptEndsRight(db: Db, v: Db, ids: set<string>, answers: string -> Answer, id: string)
    requires PaymentsSwept(db, v, ids, answers) && id in db.payments
    ensures EndsRight(db, v, id, id in ids, answers(id))
  {
    var p, a := db.payments[id], answers(id);
    assert Queryable(db, p.client) <==> CanQuery(db, p.client);
    if a.status.Some? { SettledColumns(p, Verdict(a.status.value), a.at); }
  }

  // reconcileConsumer: list, then settle one by one; an error of one payment does not stop the rest.
  method ReconcileConsumer(db: ConsumerDb, now: int, listOk: bool, answers: string -> Answer)
    requires db.Valid()
    modifies db`payments, db`events, db`journal
    ensures db.Valid()
    ensures Swept(old(db.Tables()), db.Tables(), CycleIds(old(db.Tables()), now, listOk), answers)
    ensures forall id :: id in old(db.payments) ==>
              var p := old(db.payments)[id];
              EndsRight(old(db.Tables()), db.Tables(), id, listOk && p.status == Pending && p.createdAt < now - 120, answers(id))
  {
    ghost var before := db.Tables();
    SweptNothing(before, answers);
    var pending := db.ListPendingPaymentsOlderThan(now - 120, listOk);
    if pending.None? {
      AllEndRight(before, db.Tables(), now, listOk, answers);
      return;
    }
    var batch := pending.value;
    WholeListIsListed(before, now - RECONCILE_AGE, batch);
    assert IdSet(batch[..0]) == {};
    for i := 0 to |batch|
      invariant db.Valid()
      invariant Swept(before, db.Tables(), IdSet(batch[..i]), answers)
    {
      NextIsNew(before, now - RECONCILE_AGE, batch, i);
      SweptStep(before, db.Tables(), IdSet(batch[..i]), answers, batch[i].id);
      var _, _ := ReconcilePayment(db, batch[i], answers(batch[i].id));
    }
    assert batch[..|batch|] == batch;
    AllEndRight(before, db.Tables(), now, listOk, answers);
  }

  lemma AllEndRight(db: Db, v: Db, now: int, listOk: bool, answers: string -> Answer)
    requires Swept(db, v, CycleIds(db, now, listOk), answers)
    ensures forall id :: id in db.payments ==>
              EndsRight(db, v, id, listOk && db.payments[id].status == Pending && db.payments[id].createdAt < now - 120, answers(id))
  {
    forall id | id in db.payments
      ensures EndsRight(db, v, id, listOk && db.payments[id].status == Pending && db.payments[id].createdAt < now - 120, answers(id))
    {
      SweptEndsRight(db, v, CycleIds(db, now, listOk), answers, id);
    }
  }

  // The payments a cycle lists for one consumer, given which consumers it can reach.
  ghost function CycleIds(db: Db, now: int, reached: bool): set<string> {
    if reached then ListedIds(db, now - RECONCILE_AGE) else {}
  }

  // One consumer's turn in the cycle; the other databases are left alone.
  method ReconcileOne(dbs: Registry, consumer: string, now: int, poolOk: bool, listOk: bool, answers: string -> Answer)
    requires consumer in dbs && Separate(dbs) && AllValid(dbs)
    modifies dbs.Values
    ensures AllValid(dbs)
    ensures Snapshot(dbs) == old(Snapshot(dbs))[consumer := Snapshot(dbs)[consumer]]
    ensures Swept(old(Snapshot(dbs))[consumer], Snapshot(dbs)[consumer],
                  CycleIds(old(Snapshot(dbs))[consumer], now, poolOk && listOk), answers)
  {
    ghost var before, others := dbs[consumer].Tables(), Snapshot(dbs);
    if poolOk {
      ReconcileConsumer(dbs[consumer], now, listOk, answers);
    } else {
      SweptNothing(before, answers);
    }
    forall c | c in dbs && c != consumer ensures dbs[c].Tables() == others[c] && dbs[c].Valid() {
      assert dbs[c] != dbs[consumer];
    }
    OneChanged(others, Snapshot(dbs), consumer);
    assert Swept(before, dbs[consumer].Tables(), CycleIds(before, now, poolOk && listOk), answers);
  }

  ghost predicate CycleDone(before: map<string, Db>, after: map<string, Db>, visited: set<string>,
                            clock: string -> int, reached: string -> bool, answers: string -> string -> Answer)
  {
    forall c :: c in visited && c in before && c in after ==>
      Swept(before[c], after[c], CycleIds(before[c], clock(c), reached(c)), answers(c))
  }

  lemma VisitOne(before: map<string, Db>, after: map<string, Db>, visited: set<string>, c: string, db: Db,
                 clock: string -> int, reached: string -> bool, answers: string -> string -> Answer)
    requires CycleDone(before, after, visited, clock, reached, answers) && c in before && c !in visited
    requires Swept(before[c], db, CycleIds(before[c], clock(c), reached(c)), answers(c))
    ensures CycleDone(before, after[c := db], visited + {c}, clock, reached, answers)
  {
  }

  function Both(p: string -> bool, q: string -> bool): string -> bool {
    c => p(c) && q(c)
  }

  // The loop's invariant: the consumers in `left` are as they were, all others are done.
  ghost predicate Cycling(dbs: Registry, before: map<string, Db>, left: set<string>,
                          clock: string -> int, reached: string -> bool, answers: string -> string -> Answer)
    reads dbs.Values
  {
    && AllValid(dbs)
    && (forall c :: c in left ==> c in dbs && c in before && dbs[c].Tables() == before[c])
    && CycleDone(before, Snapshot(dbs), dbs.Keys - left, clock, reached, answers)
  }

  // One iteration of the loop over consumers.
  method Visit(dbs: Registry, consumer: string, clock: string -> int, poolOk: string -> bool, listOk: string -> bool,
               answers: string -> string -> Answer, ghost before: map<string, Db>, ghost left: set<string>)
    requires Separate(dbs) && consumer in left && Cycling(dbs, before, left, clock, Both(poolOk, listOk), answers)
    modifies dbs.Values
    ensures Cycling(dbs, before, left - {consumer}, clock, Both(poolOk, listOk), answers)
  {
    ghost var after := Snapshot(dbs);
    ReconcileOne(dbs, consumer, clock(consumer), poolOk(consumer), listOk(consumer), answers(consumer));
    VisitOne(before, after, dbs.Keys - left, consumer, Snapshot(dbs)[consumer], clock, Both(poolOk, listOk), answers);
    assert dbs.Keys - (left - {consumer}) == (dbs.Keys - left) + {consumer};
    forall c | c in left - {consumer} ensures dbs[c].Tables() == before[c] {
      assert Snapshot(dbs)[c] == after[c];
    }
  }

  lemma CyclingStarts(dbs: Registry, clock: string -> int, reached: string -> bool, answers: string -> string -> Answer)
    requires AllValid(dbs)
    ensures Cycling(dbs, Snapshot(dbs), dbs.Keys, clock, reached, answers)
  {
    assert dbs.Keys - dbs.Keys == {};
  }

  lemma CyclingEnds(dbs: Registry, before: map<string, Db>, clock: string -> int, reached: string -> bool, answers: string -> string -> Answer)
    requires Cycling(dbs, before, {}, clock, reached, answers)
    ensures AllValid(dbs) && CycleDone(before, Snapshot(dbs), dbs.Keys, clock, reached, answers)
  {
    assert dbs.Keys - {} == dbs.Keys;
  }

  // RunOnce: every registered consumer once, in any order, each with its own reading of the clock; one
  // consumer's failure does not stop the rest.
  method RunOnce(dbs: Registry, clock: string -> int, poolOk: string -> bool, listOk: string -> bool, answers: string -> string -> Answer)
    requires Separate(dbs) && AllValid(dbs)
    modifies dbs.Values
    ensures AllValid(dbs)
    ensures CycleDone(old(Snapshot(dbs)), Snapshot(dbs), dbs.Keys, clock, Both(poolOk, listOk), answers)
  {
    ghost var before := Snapshot(dbs);
    CyclingStarts(dbs, clock, Both(poolOk, listOk), answers);
    var left := dbs.Keys;
    while left != {}
      invariant Cycling(dbs, before, left, clock, Both(poolOk, listOk), answers)
      decreases |left|
    {
      var consumer :| consumer in left;
      Visit(dbs, consumer, clock, poolOk, listOk, answers, before, left);
      left := left - {consumer};
    }
    CyclingEnds(dbs, before, clock, Both(poolOk, listOk), answers);
  }

  // ---- The machine's reconciler does the same ------------------------------------------

  ghost predicate Drains(w: World, v: World, db: Db) {
    && w.recon.Draining? && w.recon.batch != []
    && v.recon == Draining(w.recon.consumer, w.recon.batch[1..], w.recon.consumers)
    && w.recon.consumer in v.tenants && v.tenants[w.recon.consumer].db == db && v.now == w.now
  }

  // The reconciler is back at its batch and the database holds the result.
  ghost predicate ReconEnds(w: World, v: World, r: ReconPoint, db: Db)
    requires r.ReconSettling?
  {
    && v.now == w.now
    && v.recon == Draining(r.consumer, r.batch, r.consumers)
    && r.consumer in v.tenants && v.tenants[r.consumer].db == db
  }

  lemma SettleNextIs(w: World, ok: bool)
    requires w.recon.ReconSettling? && w.recon.consumer in w.tenants
    ensures var r, v := w.recon, Exec(w, SettleNext(ok));
            var out := SettleStep(w.tenants[r.consumer].db, w.now, r.at, ok);
            && r.consumer in v.tenants && v.tenants[r.consumer].db == out.db && v.now == w.now
            && v.recon == (if out.outcome.Continue? then r.(at := out.outcome.at) else Draining(r.consumer, r.batch, r.consumers))
  {
  }

  lemma {:induction false} ReconSettles(w: World, f: SettleFate)
    requires w.recon.ReconSettling? && w.recon.consumer in w.tenants
    ensures exists moves :: ReconEnds(w, Run(w, moves), w.recon, Finish(w.tenants[w.recon.consumer].db, w.now, w.recon.at, f).db)
    decreases SettleRank(w.recon.at)
  {
    var r := w.recon;
    var ok := SettleFateAt(r.at, f);
    var v := Exec(w, SettleNext(ok));
    SettleNextIs(w, ok);
    var rest: seq<Move> := [];
    if v.recon.ReconSettling? {
      ReconSettles(v, f);
      rest :| ReconEnds(v, Run(v, rest), v.recon, Finish(v.tenants[r.consumer].db, v.now, v.recon.at, f).db);
    }
    RunCons(w, SettleNext(ok), rest);
    assert ReconEnds(w, Run(w, [SettleNext(ok)] + rest), r, Finish(w.tenants[r.consumer].db, w.now, r.at, f).db);
  }

  // The move that stands for the status query of this payment.
  function QueryMove(a: Answer): Move {
    QueryStatus(a.credentials && a.status.Some?, if a.status.Some? then a.status.value else TxStatus("", "", "", ""))
  }

  lemma QueryIs(w: World, a: Answer)
    requires w.recon.Draining? && w.recon.batch != [] && w.recon.consumer in w.tenants
    ensures var r, v := w.recon, Exec(w, QueryMove(a));
            && v.tenants == w.tenants && v.now == w.now
            && v.recon == (if a.credentials && a.status.Some? && CanQuery(w.tenants[r.consumer].db, r.batch[0].client)
                           then ReconSettling(r.consumer, AtRow(r.batch[0].id, Verdict(a.status.value)), r.batch[1..], r.consumers)
                           else Draining(r.consumer, r.batch[1..], r.consumers))
  {
  }

  // Taking the head off the batch and settling it uninterrupted is a schedule of the machine.
  lemma ReconcilePaymentIsSchedule(w: World, a: Answer)
    requires w.recon.Draining? && w.recon.batch != [] && w.recon.consumer in w.tenants && a.at == w.now
    ensures exists moves :: Drains(w, Run(w, moves), Reconciled(w.tenants[w.recon.consumer].db, w.recon.batch[0], a))
  {
    var r := w.recon;
    var v := Exec(w, QueryMove(a));
    QueryIs(w, a);
    var rest: seq<Move> := [];
    if v.recon.ReconSettling? {
      ReconSettles(v, FateOf(a));
      rest :| ReconEnds(v, Run(v, rest), v.recon, Finish(v.tenants[r.consumer].db, v.now, v.recon.at, FateOf(a)).db);
    }
    RunCons(w, QueryMove(a), rest);
    assert Drains(w, Run(w, [QueryMove(a)] + rest), Reconciled(w.tenants[r.consumer].db, r.batch[0], a));
  }

  // The batch reconciled one by one.
  function ReconciledAll(db: Db, batch: seq<Payment>, answers: string -> Answer): Db
    decreases |batch|
  {
    if batch == [] then db
    else ReconciledAll(Reconciled(db, batch[0], answers(batch[0].id)), batch[1..], answers)
  }

  // The rest of a pending list sweeps the rest of its payments.
  lemma {:induction false} ReconciledAllSweeps(db: Db, v: Db, cutoff: int, batch: seq<Payment>, i: nat, answers: string -> Answer)
    requires IsPendingList(db, cutoff, batch) && i <= |batch|
    requires forall id :: id in db.payments ==> db.payments[id].id == id
    requires Swept(db, v, IdSet(batch[..i]), answers)
    ensures Swept(db, ReconciledAll(v, batch[i..], answers), IdSet(batch), answers)
    decreases |batch| - i
  {
    if i == |batch| {
      assert batch[..i] == batch && batch[i..] == [];
    } else {
      NextIsNew(db, cutoff, batch, i);
      SweptStep(db, v, IdSet(batch[..i]), answers, batch[i].id);
      ReconciledAllSweeps(db, Reconciled(v, batch[i], answers(batch[i].id)), cutoff, batch, i + 1, answers);
      assert batch[i..][0] == batch[i] && batch[i..][1..] == batch[i + 1..];
    }
  }

  // The reconciler has worked through its batch, in no time.
  ghost predicate Drained(w: World, v: World, c: string, consumers: seq<string>, db: Db) {
    && v.recon == Draining(c, [], consumers) && v.now == w.now
    && c in v.tenants && v.tenants[c].db == db
  }

  // Every answer comes at this moment.
  ghost predicate AnsweredAt(answers: string -> Answer, now: int) {
    forall id :: answers(id).at == now
  }

  lemma {:induction false} BatchIsSchedule(w: World, batch: seq<Payment>, answers: string -> Answer)
    requires w.recon.Draining? && w.recon.batch == batch && w.recon.consumer in w.tenants && AnsweredAt(answers, w.now)
    ensures exists moves ::
              Drained(w, Run(w, moves), w.recon.consumer, w.recon.consumers,
                      ReconciledAll(w.tenants[w.recon.consumer].db, batch, answers))
    decreases |batch|
  {
    var c, cs := w.recon.consumer, w.recon.consumers;
    if batch == [] {
      assert Drained(w, Run(w, []), c, cs, ReconciledAll(w.tenants[c].db, batch, answers));
    } else {
      var next := Reconciled(w.tenants[c].db, batch[0], answers(batch[0].id));
      ReconcilePaymentIsSchedule(w, answers(batch[0].id));
      var a :| Drains(w, Run(w, a), next);
      var u := Run(w, a);
      BatchIsSchedule(u, batch[1..], answers);
      var b :| Drained(u, Run(u, b), c, cs, ReconciledAll(next, batch[1..], answers));
      RunConcat(w, a, b);
      assert Drained(w, Run(w, a + b), c, cs, ReconciledAll(w.tenants[c].db, batch, answers));
    }
  }

  // One consumer's whole turn, from the list to the end of the loop, is a schedule of the machine's
  // reconciler, and ends where the method ends: in the pointwise result.
  lemma ConsumerIsSchedule(w: World, batch: seq<Payment>, answers: string -> Answer)
    requires w.recon.Sweeping? && w.recon.consumers != [] && w.recon.consumers[0] in w.tenants
    requires AnsweredAt(answers, w.now)
    requires var db := w.tenants[w.recon.consumers[0]].db;
             IsPendingList(db, w.now - RECONCILE_AGE, batch) && forall id :: id in db.payments ==> db.payments[id].id == id
    ensures var c := w.recon.consumers[0];
            var db := w.tenants[c].db;
            var end := ReconciledAll(db, batch, answers);
            && Swept(db, end, ListedIds(db, w.now - RECONCILE_AGE), answers)
            && exists moves :: Drained(w, Run(w, moves), c, w.recon.consumers[1..], end)
  {
    var c := w.recon.consumers[0];
    var db := w.tenants[c].db;
    var m := ListBatch(true, batch);
    var v := w.(recon := Draining(c, batch, w.recon.consumers[1..]));
    assert Exec(w, m) == v;
    BatchIsSchedule(v, batch, answers);
    var rest :| Drained(v, Run(v, rest), c, w.recon.consumers[1..], ReconciledAll(db, batch, answers));
    RunCons(w, m, rest);
    assert Drained(w, Run(w, [m] + rest), c, w.recon.consumers[1..], ReconciledAll(db, batch, answers));
    TurnIsSwept(db, w.now - RECONCILE_AGE, batch, answers);
  }

  lemma TurnIsSwept(db: Db, cutoff: int, batch: seq<Payment>, answers: string -> Answer)
    requires IsPendingList(db, cutoff, batch) && forall id :: id in db.payments ==> db.payments[id].id == id
    ensures Swept(db, ReconciledAll(db, batch, answers), ListedIds(db, cutoff), answers)
  {
    SweptNothing(db, answers);
    assert IdSet(batch[..0]) == {} && batch[0..] == batch;
    ReconciledAllSweeps(db, db, cutoff, batch, 0, answers);
    WholeListIsListed(db, cutoff, batch);
  }
}
