/** One consumer database as a value: its tables, its constraints and the statements that change it. */
module Tables {
  import opened Base
  import opened Domain
  import opened Ledger

  datatype Db = Db(
    clients: map<string, string>,
    credentials: map<string, Credentials>,
    paystack: map<string, Cipher>,
    accounts: set<(string, string)>,
    payments: map<string, Payment>,
    events: seq<Event>,
    journal: seq<JournalRow>)

  const EMPTY := Db(map[], map[], map[], {}, map[], [], [])

  // ---- payments ------------------------------------------------------------------------

  // GetPaymentByIdempotencyKey finds a row.
  predicate Taken(db: Db, client: string, key: string) {
    exists id :: id in db.payments && db.payments[id].client == client && db.payments[id].key == key
  }

  // PRIMARY KEY, UNIQUE(client_id, idempotency_key), REFERENCES clients, CHECK (amount_cents > 0).
  predicate Insertable(db: Db, p: Payment) {
    p.id !in db.payments && !Taken(db, p.client, p.key) && p.client in db.clients && p.amount > 0
  }

  function Insert(db: Db, p: Payment): Db {
    db.(payments := db.payments[p.id := p])
  }

  function Settle(db: Db, id: string, s: Settlement, now: int): Db
    requires id in db.payments
  {
    db.(payments := db.payments[id := SettledRow(db.payments[id], s, now)])
  }

  // FailPayment; a Settle with a failure is the same update.
  function FailRow(db: Db, id: string): Db
    requires id in db.payments
  {
    db.(payments := db.payments[id := db.payments[id].(status := Failed)])
  }

  // UpdateProviderRequestID is always called with a NULL transaction id.
  function SetRequestId(db: Db, id: string, request: string): Db
    requires id in db.payments
  {
    db.(payments := db.payments[id := db.payments[id].(requestId := NonEmpty(request), txId := None)])
  }

  // ---- payment_events ------------------------------------------------------------------

  predicate EventInsertable(db: Db, e: Event) {
    e.payment in db.payments
  }

  function AddEvent(db: Db, e: Event): Db {
    db.(events := db.events + [e])
  }

  // ---- journal -------------------------------------------------------------------------

  // REFERENCES payments, CHECK (amount_cents > 0), the entry_type enum and
  // FOREIGN KEY (client_id, account_id) REFERENCES journal_accounts.
  predicate RowInsertable(db: Db, r: JournalRow) {
    r.payment in db.payments && r.amount > 0 && !r.entry.Other? && (r.client, r.account) in db.accounts
  }

  predicate Postable(db: Db, rows: seq<JournalRow>) {
    forall k :: 0 <= k < |rows| ==> RowInsertable(db, rows[k])
  }

  // Till and counter account of this payment's direction are there.
  ghost predicate HasAccounts(db: Db, p: Payment) {
    && (p.client, "mpesa.till") in db.accounts
    && (p.client, if p.direction == Inbound then "revenue.sales" else "expense.operations") in db.accounts
  }

  // Which accounts a completed payment really needs: its bulk write is accepted exactly when the
  // till and the one account of its direction are there. Otherwise the payment stays completed
  // and is never journalled.
  lemma PostableIff(db: Db, p: Payment)
    ensures Postable(db, Template(p)) <==>
              && p.id in db.payments && p.amount > 0
              && (p.client, "mpesa.till") in db.accounts
              && (p.client, if p.direction == Inbound then "revenue.sales" else "expense.operations") in db.accounts
  {
    var t := Template(p);
    assert Postable(db, t) <==> RowInsertable(db, t[0]) && RowInsertable(db, t[1]);
  }

  function Post(db: Db, rows: seq<JournalRow>): Db {
    db.(journal := db.journal + rows)
  }

  // ---- reconciliation's SELECT ---------------------------------------------------------

  predicate Listed(p: Payment, cutoff: int) {
    p.status == Pending && p.createdAt < cutoff
  }

  // ListPendingPaymentsOlderThan: every listed row once, oldest first.
  ghost predicate IsPendingList(db: Db, cutoff: int, batch: seq<Payment>) {
    && (forall k :: 0 <= k < |batch| ==>
          batch[k].id in db.payments && db.payments[batch[k].id] == batch[k] && Listed(batch[k], cutoff))
    && (forall id :: id in db.payments && Listed(db.payments[id], cutoff) ==> db.payments[id] in batch)
    && (forall j, k :: 0 <= j < k < |batch| ==> batch[j].id != batch[k].id && batch[j].createdAt <= batch[k].createdAt)
  }

  // ---- clients, credentials, accounts --------------------------------------------------

  // The chart of accounts seeded for every client.
  const DEFAULT_ACCOUNTS: seq<string> :=
    [ "mpesa.till", "revenue.sales", "revenue.other", "expense.cogs",
      "expense.operations", "liability.vat_payable", "liability.pending", "fees.mpesa" ]

  ghost predicate Seeded(db: Db, client: string) {
    forall k :: 0 <= k < |DEFAULT_ACCOUNTS| ==> (client, DEFAULT_ACCOUNTS[k]) in db.accounts
  }

  // The secrets needed before Daraja can be called: every path decrypts three, the outbound ones
  // and reconciliation also decrypt a non-empty security credential.
  predicate Opens(c: Credentials, needsSecurity: bool) {
    && Decrypt(c.consumerKey).Some?
    && Decrypt(c.consumerSecret).Some?
    && Decrypt(c.passkey).Some?
    && (needsSecurity && c.security.Some? ==> Decrypt(c.security.value).Some?)
  }

  predicate CanCall(db: Db, req: Request) {
    if req.kind.PaystackCharge? then
      req.client in db.paystack && Decrypt(db.paystack[req.client]).Some?
    else
      req.client in db.credentials && Opens(db.credentials[req.client], !req.kind.StkPush?)
  }
}
