/**
 * One consumer database as the service sees it: an object whose tables the statements change in
 * place. `ok` is whether the database answers the call; a failing call changes nothing.
 */
module Store {
  import opened Base
  import opened Money
  import opened Domain
  import opened Ledger
  import opened Tables

  // Where a journal transaction breaks, if anywhere.
  datatype TxFaults = TxFaults(begin: bool, insertAt: Option<nat>, commit: bool)

  predicate TxRuns(f: TxFaults, rows: nat) {
    !f.begin && !f.commit && !(f.insertAt.Some? && f.insertAt.value < rows)
  }

  // Selection half done: `rows` are the oldest listed payments in order, `left` the other ids.
  ghost predicate Selecting(payments: map<string, Payment>, cutoff: int, rows: seq<Payment>, left: set<string>) {
    && left <= payments.Keys
    && (forall id :: id in left ==> Listed(payments[id], cutoff))
    && (forall k :: 0 <= k < |rows| ==>
          rows[k].id in payments && payments[rows[k].id] == rows[k] && Listed(rows[k], cutoff) && rows[k].id !in left)
    && (forall id :: id in payments && Listed(payments[id], cutoff) ==> id in left || payments[id] in rows)
    && (forall j, k :: 0 <= j < k < |rows| ==> rows[j].id != rows[k].id && rows[j].createdAt <= rows[k].createdAt)
    && (forall k, id :: 0 <= k < |rows| && id in left ==> rows[k].createdAt <= payments[id].createdAt)
  }

  lemma SelectOldest(payments: map<string, Payment>, cutoff: int, rows: seq<Payment>, left: set<string>, oldest: string)
    requires Selecting(payments, cutoff, rows, left) && oldest in left && payments[oldest].id == oldest
    requires forall id :: id in left ==> payments[oldest].createdAt <= payments[id].createdAt
    ensures Selecting(payments, cutoff, rows + [payments[oldest]], left - {oldest})
  {
  }

  class ConsumerDb {
    var clients: map<string, string>
    var credentials: map<string, Credentials>
    var paystack: map<string, Cipher>
    var accounts: set<(string, string)>
    var payments: map<string, Payment>
    var events: seq<Event>
    var journal: seq<JournalRow>

    // Rows are stored under their primary key.
    ghost predicate Valid()
      reads this
    {
      forall id :: id in payments ==> payments[id].id == id
    }

    constructor ()
      ensures Valid() && Tables() == EMPTY
    {
      clients, credentials, paystack, accounts := map[], map[], map[], {};
      payments, events, journal := map[], [], [];
    }

    function Tables(): Db
      reads this
    {
      Db(clients, credentials, paystack, accounts, payments, events, journal)
    }

    method GetPaymentByIdempotencyKey(client: string, key: string, ok: bool) returns (row: Option<Payment>)
      ensures row.Some? <==> ok && Taken(Tables(), client, key)
      ensures row.Some? ==> row.value in payments.Values && row.value.client == client && row.value.key == key
      ensures row.None? && ok ==> forall id :: id in payments ==> payments[id].client != client || payments[id].key != key
    {
      if !ok { return None; }
      if id :| id in payments && payments[id].client == client && payments[id].key == key {
        return Some(payments[id]);
      }
      return None;
    }

    method GetPaymentByID(id: string, ok: bool) returns (row: Option<Payment>)
      ensures row == if ok && id in payments then Some(payments[id]) else None
    {
      if ok && id in payments { row := Some(payments[id]); } else { row := None; }
    }

    method CreatePayment(p: Payment, ok: bool) returns (done: bool)
      modifies this`payments
      ensures done == (ok && Insertable(old(Tables()), p))
      ensures done <==> ok && p.id !in old(payments) && p.client in clients && p.amount > 0
                        && forall id :: id in old(payments) ==> old(payments)[id].client != p.client || old(payments)[id].key != p.key
      ensures done ==> payments == old(payments)[p.id := p]
      ensures Tables() == if done then Insert(old(Tables()), p) else old(Tables())
    {
      var taken := exists id :: id in payments && payments[id].client == p.client && payments[id].key == p.key;
      done := ok && p.id !in payments && !taken && p.client in clients && p.amount > 0;
      if done { payments := payments[p.id := p]; }
    }

    method CompletePayment(id: string, receipt: string, tx: string, now: int, ok: bool) returns (row: Option<Payment>)
      modifies this`payments
      ensures row.Some? == (ok && id in old(payments))
      ensures Tables() == if row.Some? then Settle(old(Tables()), id, Completion(receipt, tx), now) else old(Tables())
      ensures row.Some? ==> id in payments && row.value == payments[id]
      ensures row.Some? ==>
                && payments[id].status == Completed && payments[id].completedAt == Some(now)
                && payments[id].receipt == (if receipt == "" then None else Some(receipt))
                && payments[id].txId == (if tx == "" then None else Some(tx))
                && CompletedFrom(old(payments)[id], payments[id], receipt, tx, now)
    {
      if !ok || id !in payments { return None; }
      var p := payments[id].(status := Completed, receipt := NonEmpty(receipt), txId := NonEmpty(tx), completedAt := Some(now));
      payments := payments[id := p];
      row := Some(p);
    }

    method FailPayment(id: string, ok: bool) returns (done: bool)
      modifies this`payments
      ensures done == (ok && id in old(payments))
      ensures Tables() == if done then FailRow(old(Tables()), id) else old(Tables())
      ensures done ==> id in payments && payments[id].status == Failed && FailedFrom(old(payments)[id], payments[id])
    {
      done := ok && id in payments;
      if done { payments := payments[id := payments[id].(status := Failed)]; }
    }

    method UpdateProviderRequestID(id: string, request: string, ok: bool) returns (done: bool)
      modifies this`payments
      ensures done == (ok && id in old(payments))
      ensures Tables() == if done then SetRequestId(old(Tables()), id, request) else old(Tables())
      ensures done ==>
                && id in payments && SameColumns(old(payments)[id], payments[id])
                && payments[id].requestId == (if request == "" then None else Some(request)) && payments[id].txId == None
                && payments[id].status == old(payments)[id].status && payments[id].receipt == old(payments)[id].receipt
                && payments[id].completedAt == old(payments)[id].completedAt
    {
      done := ok && id in payments;
      if done { payments := payments[id := payments[id].(requestId := NonEmpty(request), txId := None)]; }
    }

    method CreatePaymentEvent(e: Event, ok: bool) returns (done: bool)
      modifies this`events
      ensures done == (ok && EventInsertable(old(Tables()), e))
      ensures done <==> ok && e.payment in payments
      ensures events == old(events) + (if done then [e] else [])
      ensures Tables() == if done then AddEvent(old(Tables()), e) else old(Tables())
    {
      done := ok && e.payment in payments;
      if done { events := events + [e]; }
    }

    // Inserts row by row into a transaction; the first failure rolls everything back.
    method CreateJournalEntryBulk(entries: seq<JournalRow>, f: TxFaults) returns (results: Option<seq<JournalRow>>)
      modifies this`journal
      ensures results.Some? == (TxRuns(f, |entries|) && Postable(old(Tables()), entries))
      ensures results.Some? ==> results.value == entries && journal == old(journal) + entries
      ensures results.Some? <==> TxRuns(f, |entries|) && forall k :: 0 <= k < |entries| ==>
                && entries[k].payment in payments && entries[k].amount > 0
                && (entries[k].entry == Debit || entries[k].entry == Credit)
                && (entries[k].client, entries[k].account) in accounts
      ensures Tables() == if results.Some? then Post(old(Tables()), entries) else old(Tables())
    {
      if f.begin { return None; }
      var tx, rows := journal, [];
      for i := 0 to |entries|
        invariant tx == old(journal) + entries[..i] && rows == entries[..i]
        invariant !(f.insertAt.Some? && f.insertAt.value < i)
        invariant forall k :: 0 <= k < i ==> RowInsertable(old(Tables()), entries[k])
        invariant Tables() == old(Tables())
      {
        var entry := entries[i];
        if f.insertAt == Some(i as nat) || !RowInsertable(Tables(), entry) {
          return None;
        }
        tx := tx + [entry];
        rows := rows + [entry];
      }
      if f.commit { return None; }
      journal := tx;
      results := Some(rows);
    }

    // SELECT ... WHERE status = 'pending' AND created_at < $1 ORDER BY created_at ASC, by selection.
    method ListPendingPaymentsOlderThan(cutoff: int, ok: bool) returns (batch: Option<seq<Payment>>)
      requires Valid()
      ensures batch.Some? == ok
      ensures ok ==> IsPendingList(Tables(), cutoff, batch.value)
      ensures ok ==> forall id :: id in payments ==>
                (payments[id] in batch.value <==> payments[id].status == Pending && payments[id].createdAt < cutoff)
      ensures ok ==> forall j, k :: 0 <= j < k < |batch.value| ==>
                batch.value[j].id != batch.value[k].id && batch.value[j].createdAt <= batch.value[k].createdAt
    {
      if !ok { return None; }
      var rows: seq<Payment> := [];
      var left := set id | id in payments && Listed(payments[id], cutoff);
      while left != {}
        invariant Selecting(payments, cutoff, rows, left)
        decreases |left|
      {
        var oldest := Oldest(left);
        SelectOldest(payments, cutoff, rows, left, oldest);
        rows := rows + [payments[oldest]];
        left := left - {oldest};
      }
      batch := Some(rows);
    }

    method Oldest(ids: set<string>) returns (oldest: string)
      requires ids != {} && ids <= payments.Keys
      ensures oldest in ids && forall id :: id in ids ==> payments[oldest].createdAt <= payments[id].createdAt
    {
      oldest :| oldest in ids;
      var rest := ids - {oldest};
      while rest != {}
        invariant oldest in ids && rest <= ids
        invariant forall id :: id in ids && id !in rest ==> payments[oldest].createdAt <= payments[id].createdAt
        decreases |rest|
      {
        var next :| next in rest;
        if payments[next].createdAt < payments[oldest].createdAt { oldest := next; }
        rest := rest - {next};
      }
    }

    method GetActiveCredentials(client: string, ok: bool) returns (c: Option<Credentials>)
      ensures c == if ok && client in credentials then Some(credentials[client]) else None
    {
      if ok && client in credentials { c := Some(credentials[client]); } else { c := None; }
    }

    method GetActivePaystackCredentials(client: string, ok: bool) returns (c: Option<Cipher>)
      ensures c == if ok && client in paystack then Some(paystack[client]) else None
    {
      if ok && client in paystack { c := Some(paystack[client]); } else { c := None; }
    }
  }

  // ---- JournalService ------------------------------------------------------------------

  lemma {:induction false} ConvertedSums(rows: seq<JournalRow>, copy: seq<JournalEntry>, side: EntryType)
    requires |copy| == |rows| && forall k :: 0 <= k < |rows| ==> copy[k] == Converted(rows[k])
    ensures SideSum(copy, side) == RowSum(rows, side)
  {
    if rows != [] {
      ConvertedSums(rows[..|rows| - 1], copy[..|copy| - 1], side);
    }
  }

  // The true sum of one side of the rows themselves.
  function RowSum(rows: seq<JournalRow>, side: EntryType): int {
    if rows == [] then 0
    else RowSum(rows[..|rows| - 1], side) + (if rows[|rows| - 1].entry == side then rows[|rows| - 1].amount else 0)
  }

  predicate PassesCheck(rows: seq<JournalRow>) {
    (RowSum(rows, Debit) - RowSum(rows, Credit)) % TWO_64 == 0
  }

  // Checks a converted copy, then writes the originals in one transaction: all of them or none,
  // wherever the transaction breaks.
  method WriteBalancedEntries(db: ConsumerDb, params: seq<JournalRow>, f: TxFaults) returns (ok: bool)
    requires params != []
    modifies db`journal
    ensures ok == (PassesCheck(params) && TxRuns(f, |params|) && Postable(old(db.Tables()), params))
    ensures db.Tables() == if ok then Post(old(db.Tables()), params) else old(db.Tables())
  {
    var domainEntries: seq<JournalEntry> := [];
    for i := 0 to |params|
      invariant |domainEntries| == i && forall k :: 0 <= k < i ==> domainEntries[k] == Converted(params[k])
    {
      domainEntries := domainEntries + [Converted(params[i])];
    }
    var balanced := VerifyBalance(domainEntries);
    ConvertedSums(params, domainEntries, Debit);
    ConvertedSums(params, domainEntries, Credit);
    if !balanced { return false; }
    var results := db.CreateJournalEntryBulk(params, f);
    ok := results.Some?;
  }

  // What reached the journal balances exactly: a posted list whose sides are below 2^64 has equal sides.
  lemma PostedListsBalance(db: Db, rows: seq<JournalRow>)
    requires PassesCheck(rows) && Postable(db, rows)
    requires RowSum(rows, Debit) < TWO_64 && RowSum(rows, Credit) < TWO_64
    ensures RowSum(rows, Debit) == RowSum(rows, Credit)
  {
    var copy := seq(|rows|, i requires 0 <= i < |rows| => Converted(rows[i]));
    ConvertedSums(rows, copy, Debit);
    ConvertedSums(rows, copy, Credit);
    forall i | 0 <= i < |copy| ensures copy[i].amount > 0 {
      assert RowInsertable(db, rows[i]);
    }
    VerifyBalanceExact(copy);
  }

  lemma TemplatePasses(p: Payment)
    ensures PassesCheck(Template(p)) && |Template(p)| == 2
  {
    var t := Template(p);
    var one := t[..1];
    assert one[..0] == [] && one[0] == t[0] && t[0].entry == Debit && t[1].entry == Credit;
    assert RowSum(one[..0], Debit) == 0 && RowSum(one[..0], Credit) == 0;
    assert RowSum(one, Debit) == p.amount && RowSum(one, Credit) == 0;
    assert RowSum(t, Debit) == p.amount && RowSum(t, Credit) == p.amount;
  }

  method WriteInboundEntries(db: ConsumerDb, p: Payment, f: TxFaults) returns (ok: bool)
    modifies db`journal
    ensures ok == (TxRuns(f, 2) && Postable(old(db.Tables()), Template(p.(direction := Inbound))))
    ensures db.Tables() == if ok then Post(old(db.Tables()), Template(p.(direction := Inbound))) else old(db.Tables())
    ensures ok <==> TxRuns(f, 2) && p.id in db.payments && p.amount > 0
                    && (p.client, "mpesa.till") in db.accounts && (p.client, "revenue.sales") in db.accounts
    ensures PostsPair(old(db.journal), db.journal, p.(direction := Inbound), ok)
    ensures ok ==> db.journal == old(db.journal) + [
              JournalRow(p.client, p.id, "mpesa.till", Debit, p.amount, p.currency, "Inbound payment via " + KindName(p.kind)),
              JournalRow(p.client, p.id, "revenue.sales", Credit, p.amount, p.currency, "Sales revenue for payment " + p.id)]
  {
    var entries := [
      JournalRow(p.client, p.id, "mpesa.till", Debit, p.amount, p.currency, "Inbound payment via " + KindName(p.kind)),
      JournalRow(p.client, p.id, "revenue.sales", Credit, p.amount, p.currency, "Sales revenue for payment " + p.id)];
    assert entries == Template(p.(direction := Inbound));
    TemplateIsPair(p.(direction := Inbound));
    PostableIff(db.Tables(), p.(direction := Inbound));
    TemplatePasses(p.(direction := Inbound));
    ok := WriteBalancedEntries(db, entries, f);
  }

  method WriteOutboundEntries(db: ConsumerDb, p: Payment, f: TxFaults) returns (ok: bool)
    modifies db`journal
    ensures ok == (TxRuns(f, 2) && Postable(old(db.Tables()), Template(p.(direction := Outbound))))
    ensures db.Tables() == if ok then Post(old(db.Tables()), Template(p.(direction := Outbound))) else old(db.Tables())
    ensures ok <==> TxRuns(f, 2) && p.id in db.payments && p.amount > 0
                    && (p.client, "expense.operations") in db.accounts && (p.client, "mpesa.till") in db.accounts
    ensures PostsPair(old(db.journal), db.journal, p.(direction := Outbound), ok)
    ensures ok ==> db.journal == old(db.journal) + [
              JournalRow(p.client, p.id, "expense.operations", Debit, p.amount, p.currency, "Outbound payment via " + KindName(p.kind)),
              JournalRow(p.client, p.id, "mpesa.till", Credit, p.amount, p.currency, "Till outbound for payment " + p.id)]
  {
    var entries := [
      JournalRow(p.client, p.id, "expense.operations", Debit, p.amount, p.currency, "Outbound payment via " + KindName(p.kind)),
      JournalRow(p.client, p.id, "mpesa.till", Credit, p.amount, p.currency, "Till outbound for payment " + p.id)];
    assert entries == Template(p.(direction := Outbound));
    TemplateIsPair(p.(direction := Outbound));
    PostableIff(db.Tables(), p.(direction := Outbound));
    TemplatePasses(p.(direction := Outbound));
    ok := WriteBalancedEntries(db, entries, f);
  }
}
