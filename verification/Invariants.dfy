/**
 * What every reachable state satisfies. The proof is rely/guarantee: each call keeps the tenant
 * invariant and guarantees a growth relation on the database it touches; each thread's own
 * assertion is stable under what the others guarantee.
 */
module Invariants {
  import opened Base
  import opened Money
  import opened Domain
  import opened Ledger
  import opened Tables
  import opened Steps
  import opened Machine

  // ---- One tenant ----------------------------------------------------------------------

  ghost predicate Wrote(log: seq<Write>, id: string) {
    exists k :: 0 <= k < |log| && log[k].payment == id
  }

  function Ids(log: seq<Write>): seq<string> {
    seq(|log|, i requires 0 <= i < |log| => log[i].payment)
  }

  ghost predicate PaymentOk(t: Tenant, id: string)
    requires id in t.db.payments
  {
    var p := t.db.payments[id];
    && p.id == id
    && p.amount > 0
    && p.client in t.db.clients
    && (p.status == Pending || p.status == Completed || p.status == Failed)
    && p.direction == DirectionOf(p.kind)
    && p.provider == ProviderOf(p.kind)
    && (p.status == Pending ==> p.completedAt.None?)
    && (p.status == Completed ==> p.completedAt.Some?)
  }

  ghost predicate EventOk(t: Tenant, e: Event) {
    && e.payment in t.db.payments
    && (e.to == Completed ==> t.db.payments[e.payment].completedAt.Some?)
  }

  ghost predicate CallOk(t: Tenant, c: Call) {
    && c.payment in t.db.payments
    && t.db.payments[c.payment].client == c.client
    && t.db.payments[c.payment].key == c.key
    && BilledCents(c.billed) == Some(t.db.payments[c.payment].amount)
  }

  ghost predicate UniqueKeys(payments: map<string, Payment>) {
    forall a, b :: a in payments && b in payments && a != b
      ==> payments[a].client != payments[b].client || payments[a].key != payments[b].key
  }

  // The journal is the book of the committed postings, and nothing else.
  ghost predicate JournalOk(t: Tenant) {
    && (forall k :: 0 <= k < |t.postings| ==> t.postings[k].payment in t.db.payments)
    && t.db.journal == Book(Ids(t.postings), t.db.payments)
  }

  ghost predicate PaymentsOk(t: Tenant) {
    && (forall id :: id in t.owners <==> id in t.db.payments)
    && (forall id :: id in t.db.payments ==> PaymentOk(t, id))
  }

  // completed_at is set exactly for the payments that were ever written as completed.
  ghost predicate HistoryOk(t: Tenant) {
    && (forall k :: 0 <= k < |t.completions| ==> t.completions[k].payment in t.db.payments)
    && (forall id :: id in t.db.payments ==> (t.db.payments[id].completedAt.Some? <==> Wrote(t.completions, id)))
  }

  // No agent has journalled a payment more often than it has completed it.
  ghost predicate Covered(t: Tenant) {
    forall w: Write :: multiset(t.postings)[w] <= multiset(t.completions)[w]
  }

  ghost predicate EventsOk(t: Tenant) {
    forall k :: 0 <= k < |t.db.events| ==> EventOk(t, t.db.events[k])
  }

  // Every call is for a stored payment, for its exact amount, and no payment is called for twice.
  ghost predicate CallsOk(t: Tenant) {
    && (forall k :: 0 <= k < |t.calls| ==> CallOk(t, t.calls[k]))
    && (forall j, k :: 0 <= j < k < |t.calls| ==> t.calls[j].payment != t.calls[k].payment)
  }

  ghost predicate AccountsOk(t: Tenant) {
    forall a :: a in t.db.accounts ==> a.0 in t.db.clients
  }

  ghost predicate TenantOk(t: Tenant) {
    && PaymentsOk(t)
    && UniqueKeys(t.db.payments)
    && EventsOk(t)
    && CallsOk(t)
    && HistoryOk(t)
    && Covered(t)
    && JournalOk(t)
    && AccountsOk(t)
  }

  // ---- Growth --------------------------------------------------------------------------

  ghost predicate PaymentGrows(p: Payment, q: Payment) {
    && Core(p) == Core(q)
    && (p.status != Pending ==> q.status != Pending)
    && (p.completedAt.Some? ==> q.completedAt.Some?)
  }

  // What no call ever takes back: payments, their immutable columns, a settled status, a
  // completion time, clients, accounts, events, journal rows and history.
  ghost predicate Grows(t: Tenant, u: Tenant) {
    && (forall id :: id in t.db.payments ==>
          id in u.db.payments && PaymentGrows(t.db.payments[id], u.db.payments[id]))
    && (forall id :: id in t.owners ==> id in u.owners && u.owners[id] == t.owners[id])
    && (forall c :: c in t.db.clients ==> c in u.db.clients)
    && t.db.accounts <= u.db.accounts
    && t.db.events <= u.db.events
    && t.db.journal <= u.db.journal
    && t.calls <= u.calls
    && t.completions <= u.completions
    && t.postings <= u.postings
  }

  lemma GrowsTransitive(t: Tenant, u: Tenant, v: Tenant)
    requires Grows(t, u) && Grows(u, v)
    ensures Grows(t, v)
  {
  }

  ghost predicate CalledFor(t: Tenant, id: string) {
    exists k :: 0 <= k < |t.calls| && t.calls[k].payment == id
  }

  // What a call by `agent` guarantees to everybody else.
  ghost predicate Guarantee(agent: int, t: Tenant, u: Tenant) {
    && Grows(t, u)
    && (forall w: Write :: w.agent != agent ==> multiset(u.completions)[w] == multiset(t.completions)[w])
    && (forall w: Write :: w.agent != agent ==> multiset(u.postings)[w] == multiset(t.postings)[w])
    && (forall id :: id in t.owners && t.owners[id] != agent && !CalledFor(t, id) ==> !CalledFor(u, id))
  }

  // ---- Settling ------------------------------------------------------------------------

  ghost predicate Holds(t: Tenant, row: Payment) {
    row.id in t.db.payments && Core(t.db.payments[row.id]) == Core(row)
  }

  // The agent has one completion of this payment that it has not journalled.
  ghost predicate Due(t: Tenant, agent: int, row: Payment) {
    && Holds(t, row)
    && t.db.payments[row.id].completedAt.Some?
    && multiset(t.postings)[Write(agent, row.id)] < multiset(t.completions)[Write(agent, row.id)]
  }

  ghost predicate SettleOk(t: Tenant, agent: int, at: SettlePoint) {
    match at
    case AtRow(_, _) => true
    case AtEvent(row, s) => if s.Completion? then Due(t, agent, row) else Holds(t, row)
    case AtPost(row) => Due(t, agent, row)
  }

  lemma MultisetAppend(log: seq<Write>, w: Write)
    ensures multiset(log + [w]) == multiset(log)[w := multiset(log)[w] + 1]
  {
  }

  lemma IdsAppend(log: seq<Write>, w: Write)
    ensures Ids(log + [w]) == Ids(log) + [w.payment]
  {
  }

  lemma WroteAppend(log: seq<Write>, w: Write, id: string)
    ensures Wrote(log + [w], id) <==> Wrote(log, id) || w.payment == id
  {
    var all := log + [w];
    assert all[|log|] == w;
    assert forall k :: 0 <= k < |log| ==> all[k] == log[k];
  }

  // The journal invariant survives anything that leaves the postings alone.
  lemma JournalFrame(t: Tenant, u: Tenant)
    requires JournalOk(t) && Grows(t, u)
    requires u.db.journal == t.db.journal && u.postings == t.postings
    ensures JournalOk(u)
  {
    BookFrame(Ids(t.postings), t.db.payments, u.db.payments);
  }

  lemma EventsFrame(t: Tenant, u: Tenant)
    requires EventsOk(t) && Grows(t, u) && u.db.events == t.db.events
    ensures EventsOk(u)
  {
    forall k | 0 <= k < |u.db.events| ensures EventOk(u, u.db.events[k]) {
      assert EventOk(t, t.db.events[k]);
    }
  }

  lemma CallsFrame(t: Tenant, u: Tenant)
    requires CallsOk(t) && Grows(t, u) && u.calls == t.calls
    ensures CallsOk(u)
  {
    forall k | 0 <= k < |u.calls| ensures CallOk(u, u.calls[k]) {
      assert CallOk(t, t.calls[k]);
      assert PaymentGrows(t.db.payments[t.calls[k].payment], u.db.payments[t.calls[k].payment]);
    }
  }

  lemma PaymentsFrame(t: Tenant, u: Tenant)
    requires PaymentsOk(t) && HistoryOk(t) && Grows(t, u)
    requires u.db.payments == t.db.payments && u.completions == t.completions && u.owners == t.owners
    ensures PaymentsOk(u) && HistoryOk(u)
  {
    forall i | i in u.db.payments ensures PaymentOk(u, i) {
      assert PaymentOk(t, i);
    }
  }

  // Settling a row.
  lemma SettleRowGrows(t: Tenant, agent: int, id: string, s: Settlement, now: int)
    requires id in t.db.payments
    ensures Grows(t, Log(t, agent, Settle(t.db, id, s, now), Settled(id, s)))
  {
  }

  lemma SettleRowPayments(t: Tenant, agent: int, id: string, s: Settlement, now: int)
    requires PaymentsOk(t) && UniqueKeys(t.db.payments) && id in t.db.payments
    ensures var u := Log(t, agent, Settle(t.db, id, s, now), Settled(id, s));
            PaymentsOk(u) && UniqueKeys(u.db.payments)
  {
    var u := Log(t, agent, Settle(t.db, id, s, now), Settled(id, s));
    forall i | i in u.db.payments ensures PaymentOk(u, i) {
      assert PaymentOk(t, i);
    }
  }

  lemma SettleRowHistory(t: Tenant, agent: int, id: string, s: Settlement, now: int)
    requires HistoryOk(t) && id in t.db.payments
    ensures HistoryOk(Log(t, agent, Settle(t.db, id, s, now), Settled(id, s)))
  {
    var u := Log(t, agent, Settle(t.db, id, s, now), Settled(id, s));
    forall i | i in u.db.payments ensures u.db.payments[i].completedAt.Some? <==> Wrote(u.completions, i) {
      WroteAppend(t.completions, Write(agent, id), i);
    }
  }

  lemma SettleRowGuarantee(t: Tenant, agent: int, id: string, s: Settlement, now: int)
    requires id in t.db.payments
    ensures Guarantee(agent, t, Log(t, agent, Settle(t.db, id, s, now), Settled(id, s)))
  {
    SettleRowGrows(t, agent, id, s, now);
    MultisetAppend(t.completions, Write(agent, id));
  }

  lemma SettleRowOutstanding(t: Tenant, agent: int, id: string, s: Settlement, now: int)
    requires PaymentsOk(t) && Covered(t) && id in t.db.payments
    ensures var next := Settle(t.db, id, s, now);
            var u := Log(t, agent, next, Settled(id, s));
            && Covered(u)
            && SettleOk(u, agent, AtEvent(next.payments[id], s))
  {
    assert PaymentOk(t, id);
    MultisetAppend(t.completions, Write(agent, id));
  }

  // What the other tables refer to stays as it was.
  lemma RestFrame(t: Tenant, u: Tenant)
    requires EventsOk(t) && CallsOk(t) && JournalOk(t) && Grows(t, u)
    requires u.db.events == t.db.events && u.calls == t.calls && u.db.journal == t.db.journal && u.postings == t.postings
    ensures EventsOk(u) && CallsOk(u) && JournalOk(u)
  {
    EventsFrame(t, u);
    CallsFrame(t, u);
    JournalFrame(t, u);
  }

  lemma SettleRowRest(t: Tenant, agent: int, id: string, s: Settlement, now: int)
    requires EventsOk(t) && CallsOk(t) && JournalOk(t) && id in t.db.payments
    ensures var u := Log(t, agent, Settle(t.db, id, s, now), Settled(id, s));
            EventsOk(u) && CallsOk(u) && JournalOk(u)
  {
    SettleRowGrows(t, agent, id, s, now);
    RestFrame(t, Log(t, agent, Settle(t.db, id, s, now), Settled(id, s)));
  }

  lemma SettleRowTenant(t: Tenant, agent: int, id: string, s: Settlement, now: int)
    requires TenantOk(t) && id in t.db.payments
    ensures TenantOk(Log(t, agent, Settle(t.db, id, s, now), Settled(id, s)))
  {
    SettleRowPayments(t, agent, id, s, now);
    SettleRowHistory(t, agent, id, s, now);
    SettleRowOutstanding(t, agent, id, s, now);
    SettleRowRest(t, agent, id, s, now);
  }

  lemma SettleRowKeeps(t: Tenant, agent: int, id: string, s: Settlement, now: int)
    requires TenantOk(t) && id in t.db.payments
    ensures var next := Settle(t.db, id, s, now);
            var u := Log(t, agent, next, Settled(id, s));
            TenantOk(u) && Guarantee(agent, t, u) && SettleOk(u, agent, AtEvent(next.payments[id], s))
  {
    SettleRowTenant(t, agent, id, s, now);
    SettleRowGuarantee(t, agent, id, s, now);
    SettleRowOutstanding(t, agent, id, s, now);
  }

  lemma AddEventGuarantee(t: Tenant, agent: int, e: Event)
    ensures Guarantee(agent, t, t.(db := AddEvent(t.db, e)))
  {
  }

  lemma AddEventEvents(t: Tenant, agent: int, row: Payment, s: Settlement)
    requires EventsOk(t) && SettleOk(t, agent, AtEvent(row, s))
    ensures EventsOk(t.(db := AddEvent(t.db, SettledEvent(row.id, s))))
  {
    var u := t.(db := AddEvent(t.db, SettledEvent(row.id, s)));
    forall k | 0 <= k < |u.db.events| ensures EventOk(u, u.db.events[k]) {
      if k < |t.db.events| {
        assert EventOk(t, t.db.events[k]);
      }
    }
  }

  lemma AddEventKeeps(t: Tenant, agent: int, row: Payment, s: Settlement)
    requires TenantOk(t) && SettleOk(t, agent, AtEvent(row, s))
    ensures var u := t.(db := AddEvent(t.db, SettledEvent(row.id, s)));
            TenantOk(u) && Guarantee(agent, t, u)
  {
    var u := t.(db := AddEvent(t.db, SettledEvent(row.id, s)));
    AddEventGuarantee(t, agent, SettledEvent(row.id, s));
    AddEventEvents(t, agent, row, s);
    PaymentsFrame(t, u);
    CallsFrame(t, u);
    JournalFrame(t, u);
  }

  lemma PostJournal(t: Tenant, agent: int, row: Payment)
    requires JournalOk(t) && Holds(t, row)
    ensures JournalOk(Log(t, agent, Post(t.db, Template(row)), Posted(row.id)))
  {
    var w := Write(agent, row.id);
    var u := Log(t, agent, Post(t.db, Template(row)), Posted(row.id));
    var p := t.db.payments[row.id];
    assert Template(p) == Template(Core(p)) && Template(row) == Template(Core(row));
    IdsAppend(t.postings, w);
    var ids := Ids(u.postings);
    assert ids[..|ids| - 1] == Ids(t.postings) && ids[|ids| - 1] == row.id;
  }

  lemma PostGuarantee(t: Tenant, agent: int, row: Payment)
    ensures Guarantee(agent, t, Log(t, agent, Post(t.db, Template(row)), Posted(row.id)))
  {
    MultisetAppend(t.postings, Write(agent, row.id));
  }

  lemma PostCovered(t: Tenant, agent: int, row: Payment)
    requires Covered(t) && Due(t, agent, row)
    ensures Covered(Log(t, agent, Post(t.db, Template(row)), Posted(row.id)))
  {
    MultisetAppend(t.postings, Write(agent, row.id));
  }

  lemma PostRest(t: Tenant, agent: int, row: Payment)
    requires PaymentsOk(t) && HistoryOk(t) && EventsOk(t) && CallsOk(t)
    ensures var u := Log(t, agent, Post(t.db, Template(row)), Posted(row.id));
            PaymentsOk(u) && HistoryOk(u) && EventsOk(u) && CallsOk(u)
  {
    var u := Log(t, agent, Post(t.db, Template(row)), Posted(row.id));
    PostGrows(t, agent, row);
    PaymentsFrame(t, u);
    EventsFrame(t, u);
    CallsFrame(t, u);
  }

  lemma PostTenant(t: Tenant, agent: int, row: Payment)
    requires TenantOk(t) && Due(t, agent, row)
    ensures TenantOk(Log(t, agent, Post(t.db, Template(row)), Posted(row.id)))
  {
    PostCovered(t, agent, row);
    PostJournal(t, agent, row);
    PostRest(t, agent, row);
  }

  lemma PostGrows(t: Tenant, agent: int, row: Payment)
    ensures Grows(t, Log(t, agent, Post(t.db, Template(row)), Posted(row.id)))
  {
  }

  lemma PostKeeps(t: Tenant, agent: int, row: Payment)
    requires TenantOk(t) && Due(t, agent, row)
    ensures var u := Log(t, agent, Post(t.db, Template(row)), Posted(row.id));
            TenantOk(u) && Guarantee(agent, t, u)
  {
    PostTenant(t, agent, row);
    PostGuarantee(t, agent, row);
  }

  // One call of a settlement, by anyone, in any state.
  lemma SettleStepKeeps(t: Tenant, agent: int, now: int, at: SettlePoint, ok: bool)
    requires TenantOk(t) && SettleOk(t, agent, at)
    ensures var out := SettleStep(t.db, now, at, ok);
            var u := Log(t, agent, out.db, out.note);
            && TenantOk(u)
            && Guarantee(agent, t, u)
            && (out.outcome.Continue? ==> SettleOk(u, agent, out.outcome.at))
            && (out.outcome.Refused? ==> u == t)
  {
    match at
    case AtRow(id, s) =>
      if ok && id in t.db.payments {
        SettleRowKeeps(t, agent, id, s, now);
      }
    case AtEvent(row, s) =>
      AddEventKeeps(t, agent, row, s);
    case AtPost(row) =>
      PostKeeps(t, agent, row);
  }

  // ---- Initiating ----------------------------------------------------------------------

  // The thread inserted this payment, from this request.
  ghost predicate Owns(t: Tenant, agent: int, req: Request, id: string) {
    && id in t.db.payments && id in t.owners && t.owners[id] == agent
    && Admissible(req)
    && Core(t.db.payments[id]) == NewPayment(req, id, t.db.payments[id].createdAt)
  }

  ghost predicate InitOk(t: Tenant, agent: int, req: Request, at: InitPoint) {
    match at
    case AtLookup => true
    case AtInsert => Admissible(req)
    case AtCredentials(id) => Owns(t, agent, req, id) && !CalledFor(t, id)
    case AtCall(id) => Owns(t, agent, req, id) && !CalledFor(t, id)
    case AtRecord(id, _) => Owns(t, agent, req, id)
    case AtRoute(id, _) => Owns(t, agent, req, id)
    case AtAbort(id) => Owns(t, agent, req, id)
    case InitDone => true
  }

  lemma InsertPayments(t: Tenant, agent: int, p: Payment)
    requires PaymentsOk(t) && HistoryOk(t) && UniqueKeys(t.db.payments) && Insertable(t.db, p)
    requires p.status == Pending && p.completedAt == None
    requires p.direction == DirectionOf(p.kind) && p.provider == ProviderOf(p.kind)
    ensures var u := Log(t, agent, Insert(t.db, p), Inserted(p.id));
            PaymentsOk(u) && HistoryOk(u) && UniqueKeys(u.db.payments)
  {
    var u := Log(t, agent, Insert(t.db, p), Inserted(p.id));
    assert !Wrote(t.completions, p.id);
    forall i | i in u.db.payments ensures PaymentOk(u, i) {
      if i != p.id { assert PaymentOk(t, i); }
    }
  }

  lemma InsertKeeps(t: Tenant, agent: int, req: Request, id: string, now: int)
    requires TenantOk(t) && Admissible(req) && Insertable(t.db, NewPayment(req, id, now))
    ensures var u := Log(t, agent, Insert(t.db, NewPayment(req, id, now)), Inserted(id));
            TenantOk(u) && Guarantee(agent, t, u) && Owns(u, agent, req, id) && !CalledFor(u, id)
  {
    var p := NewPayment(req, id, now);
    var u := Log(t, agent, Insert(t.db, p), Inserted(id));
    assert Grows(t, u);
    InsertPayments(t, agent, p);
    EventsFrame(t, u);
    CallsFrame(t, u);
    JournalFrame(t, u);
    assert !CalledFor(u, id) by {
      forall k | 0 <= k < |t.calls| ensures t.calls[k].payment != id { assert CallOk(t, t.calls[k]); }
    }
  }

  lemma CallCalls(t: Tenant, c: Call)
    requires CallsOk(t) && CallOk(t, c) && !CalledFor(t, c.payment)
    ensures CallsOk(t.(calls := t.calls + [c]))
  {
    var u := t.(calls := t.calls + [c]);
    forall k | 0 <= k < |u.calls| ensures CallOk(u, u.calls[k]) {
      if k < |t.calls| { assert CallOk(t, t.calls[k]); }
    }
  }

  lemma CallGuarantee(t: Tenant, agent: int, c: Call)
    requires c.payment in t.owners && t.owners[c.payment] == agent
    ensures Guarantee(agent, t, t.(calls := t.calls + [c]))
  {
  }

  lemma CallKeeps(t: Tenant, agent: int, req: Request, id: string)
    requires TenantOk(t) && Owns(t, agent, req, id) && !CalledFor(t, id)
    ensures var u := Log(t, agent, t.db, Called(Call(req.client, req.key, id, Bill(req))));
            TenantOk(u) && Guarantee(agent, t, u) && Owns(u, agent, req, id)
  {
    var c := Call(req.client, req.key, id, Bill(req));
    var u := t.(calls := t.calls + [c]);
    assert u == Log(t, agent, t.db, Called(c));
    CallGuarantee(t, agent, c);
    BillIsExact(req);
    assert Core(t.db.payments[id]).client == req.client;
    CallCalls(t, c);
    PaymentsFrame(t, u);
    EventsFrame(t, u);
    JournalFrame(t, u);
  }

  lemma SetRequestIdGuarantee(t: Tenant, agent: int, id: string, request: string)
    requires id in t.db.payments
    ensures Guarantee(agent, t, t.(db := SetRequestId(t.db, id, request)))
  {
  }

  lemma SetRequestIdPayments(t: Tenant, id: string, request: string)
    requires PaymentsOk(t) && HistoryOk(t) && UniqueKeys(t.db.payments) && id in t.db.payments
    ensures var u := t.(db := SetRequestId(t.db, id, request));
            PaymentsOk(u) && HistoryOk(u) && UniqueKeys(u.db.payments)
  {
    var u := t.(db := SetRequestId(t.db, id, request));
    forall i | i in u.db.payments ensures PaymentOk(u, i) { assert PaymentOk(t, i); }
  }

  lemma SetRequestIdKeeps(t: Tenant, agent: int, id: string, request: string)
    requires TenantOk(t) && id in t.db.payments
    ensures var u := t.(db := SetRequestId(t.db, id, request));
            TenantOk(u) && Guarantee(agent, t, u)
  {
    var u := t.(db := SetRequestId(t.db, id, request));
    SetRequestIdGuarantee(t, agent, id, request);
    SetRequestIdPayments(t, id, request);
    RestFrame(t, u);
  }

  lemma SetRequestIdOwns(t: Tenant, agent: int, req: Request, id: string, request: string)
    requires Owns(t, agent, req, id)
    ensures Owns(t.(db := SetRequestId(t.db, id, request)), agent, req, id)
  {
  }

  // What a step of an initiation leaves behind is sound, within its guarantee, and known to it.
  ghost predicate InitKept(t: Tenant, agent: int, req: Request, out: InitOut) {
    var u := Log(t, agent, out.db, out.note);
    TenantOk(u) && Guarantee(agent, t, u) && InitOk(u, agent, req, out.next)
  }

  lemma InsertStepKeeps(t: Tenant, agent: int, now: int, req: Request, ok: bool, text: string)
    requires TenantOk(t) && Admissible(req)
    ensures InitKept(t, agent, req, InitStep(t.db, now, req, AtInsert, ok, text))
  {
    if ok && Insertable(t.db, NewPayment(req, text, now)) {
      InsertKeeps(t, agent, req, text, now);
    }
  }

  lemma CallPointKeeps(t: Tenant, agent: int, req: Request, id: string, next: InitPoint)
    requires TenantOk(t) && Owns(t, agent, req, id) && !CalledFor(t, id)
    requires next == AtAbort(id) || (next.AtRecord? && next.payment == id)
    ensures InitKept(t, agent, req, InitOut(t.db, next, Called(Call(req.client, req.key, id, Bill(req)))))
  {
    CallKeeps(t, agent, req, id);
  }

  lemma RecordKeeps(t: Tenant, agent: int, req: Request, id: string, request: string, next: InitPoint)
    requires TenantOk(t) && Owns(t, agent, req, id) && (next == AtRoute(id, request) || next == InitDone)
    ensures InitKept(t, agent, req, InitOut(SetRequestId(t.db, id, request), next, Quiet))
  {
    SetRequestIdKeeps(t, agent, id, request);
    SetRequestIdOwns(t, agent, req, id, request);
  }

  lemma AbortKeeps(t: Tenant, agent: int, now: int, req: Request, id: string)
    requires TenantOk(t) && id in t.db.payments
    ensures InitKept(t, agent, req, InitOut(Settle(t.db, id, Failure(""), now), InitDone, Settled(id, Failure(""))))
  {
    SettleRowKeeps(t, agent, id, Failure(""), now);
  }

  lemma InitStepKeeps(t: Tenant, agent: int, now: int, req: Request, at: InitPoint, ok: bool, text: string)
    requires TenantOk(t) && InitOk(t, agent, req, at)
    ensures InitKept(t, agent, req, InitStep(t.db, now, req, at, ok, text))
  {
    match at
    case AtInsert => InsertStepKeeps(t, agent, now, req, ok, text);
    case AtCall(id) => CallPointKeeps(t, agent, req, id, if ok then AtRecord(id, text) else AtAbort(id));
    case AtRecord(id, request) =>
      RecordKeeps(t, agent, req, id, request, if req.kind.StkPush? then AtRoute(id, request) else InitDone);
    case AtAbort(id) => AbortKeeps(t, agent, now, req, id);
    case _ =>
  }

  lemma AdminGuarantee(t: Tenant, agent: int, a: Admin)
    ensures Guarantee(agent, t, t.(db := Administered(t.db, a)))
  {
    assert Grows(t, t.(db := Administered(t.db, a)));
  }

  lemma AdminAccounts(t: Tenant, a: Admin)
    requires AccountsOk(t)
    ensures AccountsOk(t.(db := Administered(t.db, a)))
  {
  }

  // Nothing but clients, credentials and accounts differs.
  ghost predicate SamePayments(t: Tenant, u: Tenant) {
    && u.db.payments == t.db.payments && u.db.events == t.db.events && u.db.journal == t.db.journal
    && u.owners == t.owners && u.calls == t.calls && u.completions == t.completions && u.postings == t.postings
  }

  lemma AdminSame(t: Tenant, a: Admin)
    ensures SamePayments(t, t.(db := Administered(t.db, a)))
  {
  }

  lemma TablesFrame(t: Tenant, u: Tenant, agent: int)
    requires TenantOk(t) && Guarantee(agent, t, u) && AccountsOk(u) && SamePayments(t, u)
    ensures TenantOk(u)
  {
    PaymentsFrame(t, u);
    EventsFrame(t, u);
    CallsFrame(t, u);
    JournalFrame(t, u);
  }

  lemma AdminKeeps(t: Tenant, agent: int, a: Admin)
    requires TenantOk(t)
    ensures var u := t.(db := Administered(t.db, a));
            TenantOk(u) && Guarantee(agent, t, u)
  {
    AdminGuarantee(t, agent, a);
    assert AccountsOk(t);
    AdminAccounts(t, a);
    AdminSame(t, a);
    TablesFrame(t, t.(db := Administered(t.db, a)), agent);
  }

  // ---- The whole world -----------------------------------------------------------------

  ghost predicate ThreadOk(tenants: map<string, Tenant>, who: int, th: Thread) {
    match th
    case Initiator(home, req, at) =>
      if home in tenants then InitOk(tenants[home], who, req, at) else at.AtLookup?
    case Task(_, at) =>
      (match at
       case TaskSettling(c, settle) => if c in tenants then SettleOk(tenants[c], who, settle) else settle.AtRow?
       case _ => true)
    case Hook(c, _, at) =>
      (match at
       case Arrived => true
       case HookDone => true
       case Looked(row) => c in tenants && Holds(tenants[c], row)
       case HookSettling(settle) => c in tenants && SettleOk(tenants[c], who, settle))
  }

  ghost predicate ReconOk(tenants: map<string, Tenant>, r: ReconPoint) {
    r.ReconSettling? ==>
      if r.consumer in tenants then SettleOk(tenants[r.consumer], RECONCILER, r.at) else r.at.AtRow?
  }

  ghost predicate TenantsOk(tenants: map<string, Tenant>) {
    forall c :: c in tenants ==> TenantOk(tenants[c])
  }

  ghost predicate ThreadsOk(tenants: map<string, Tenant>, threads: seq<Thread>) {
    forall i :: 0 <= i < |threads| ==> ThreadOk(tenants, i, threads[i])
  }

  ghost predicate Inv(w: World) {
    TenantsOk(w.tenants) && ThreadsOk(w.tenants, w.threads) && ReconOk(w.tenants, w.recon)
  }

  // Everybody else's assertion survives a call by `agent` on one tenant.
  lemma ThreadStable(tenants: map<string, Tenant>, c: string, u: Tenant, agent: int, who: int, th: Thread)
    requires c in tenants && Guarantee(agent, tenants[c], u)
    requires who != agent && ThreadOk(tenants, who, th)
    ensures ThreadOk(tenants[c := u], who, th)
  {
  }

  lemma ReconStable(tenants: map<string, Tenant>, c: string, u: Tenant, agent: int, r: ReconPoint)
    requires c in tenants && Guarantee(agent, tenants[c], u)
    requires agent != RECONCILER && ReconOk(tenants, r)
    ensures ReconOk(tenants[c := u], r)
  {
  }

  lemma TenantsUpdate(tenants: map<string, Tenant>, c: string, u: Tenant)
    requires TenantsOk(tenants) && TenantOk(u)
    ensures TenantsOk(tenants[c := u])
  {
  }

  lemma OthersStable(tenants: map<string, Tenant>, c: string, u: Tenant, agent: int, threads: seq<Thread>)
    requires c in tenants && Guarantee(agent, tenants[c], u)
    requires ThreadsOk(tenants, threads)
    ensures forall i :: 0 <= i < |threads| && i != agent ==> ThreadOk(tenants[c := u], i, threads[i])
  {
    forall i | 0 <= i < |threads| && i != agent ensures ThreadOk(tenants[c := u], i, threads[i]) {
      ThreadStable(tenants, c, u, agent, i, threads[i]);
    }
  }

  // A call by thread `who` on tenant c that moves it to a sound control point.
  lemma ThreadMoves(w: World, who: nat, c: string, u: Tenant, th: Thread)
    requires Inv(w) && who < |w.threads| && c in w.tenants
    requires TenantOk(u) && Guarantee(who, w.tenants[c], u)
    requires ThreadOk(w.tenants[c := u], who, th)
    ensures Inv(At(Update(w, c, u), who, th))
  {
    TenantsUpdate(w.tenants, c, u);
    OthersStable(w.tenants, c, u, who, w.threads);
    ReconStable(w.tenants, c, u, who, w.recon);
  }

  // A call that is no thread's: the reconciler's, or an administrator's.
  lemma OutsideMoves(w: World, agent: int, c: string, u: Tenant, r: ReconPoint)
    requires Inv(w) && agent < 0 && c in w.tenants
    requires TenantOk(u) && Guarantee(agent, w.tenants[c], u)
    requires ReconOk(w.tenants[c := u], r)
    ensures Inv(Update(w, c, u).(recon := r))
  {
    TenantsUpdate(w.tenants, c, u);
    OthersStable(w.tenants, c, u, agent, w.threads);
  }

  lemma ActInitiatorKeeps(w: World, who: nat, ok: bool, text: string)
    requires Inv(w) && who < |w.threads| && w.threads[who].Initiator?
    ensures Inv(ActInitiator(w, who, ok, text))
  {
    var th := w.threads[who];
    if th.home in w.tenants {
      var t := w.tenants[th.home];
      assert ThreadOk(w.tenants, who, th);
      InitStepKeeps(t, who, w.now, th.req, th.init, ok, text);
      var out := InitStep(t.db, w.now, th.req, th.init, ok, text);
      ThreadMoves(w, who, th.home, Log(t, who, out.db, out.note), th.(init := out.next));
    }
  }

  lemma ActTaskKeeps(w: World, who: nat, ok: bool)
    requires Inv(w) && who < |w.threads| && w.threads[who].Task?
    ensures Inv(ActTask(w, who, ok))
  {
    var th := w.threads[who];
    assert ThreadOk(w.tenants, who, th);
    if th.task.TaskSettling? && th.task.consumer in w.tenants {
      var c := th.task.consumer;
      var t := w.tenants[c];
      SettleStepKeeps(t, who, w.now, th.task.at, ok);
      var out := SettleStep(t.db, w.now, th.task.at, ok);
      var next := match out.outcome
                  case Continue(at) => TaskSettling(c, at)
                  case Refused => Waiting
                  case Finished => TaskDone;
      ThreadMoves(w, who, c, Log(t, who, out.db, out.note), th.(task := next));
    }
  }

  lemma HookSettlingKeeps(w: World, who: nat, ok: bool)
    requires Inv(w) && who < |w.threads| && w.threads[who].Hook? && w.threads[who].hook.HookSettling?
    ensures Inv(ActHook(w, who, ok))
  {
    var th := w.threads[who];
    assert ThreadOk(w.tenants, who, th);
    var t := w.tenants[th.consumer];
    SettleStepKeeps(t, who, w.now, th.hook.at, ok);
    var out := SettleStep(t.db, w.now, th.hook.at, ok);
    ThreadMoves(w, who, th.consumer, Log(t, who, out.db, out.note),
                th.(hook := if out.outcome.Continue? then HookSettling(out.outcome.at) else HookDone));
  }

  // A thread that only changes its own control point.
  lemma ThreadOnly(w: World, who: nat, th: Thread)
    requires Inv(w) && who < |w.threads| && ThreadOk(w.tenants, who, th)
    ensures Inv(At(w, who, th))
  {
  }

  lemma ActHookKeeps(w: World, who: nat, ok: bool)
    requires Inv(w) && who < |w.threads| && w.threads[who].Hook?
    ensures Inv(ActHook(w, who, ok))
  {
    var th := w.threads[who];
    assert ThreadOk(w.tenants, who, th);
    if th.consumer in w.tenants {
      var t, d := w.tenants[th.consumer], th.delivery;
      match th.hook
      case Arrived =>
        if d.reference in t.db.payments {
          assert TenantOk(t) && PaymentOk(t, d.reference);
          ThreadOnly(w, who, th.(hook := Looked(t.db.payments[d.reference])));
        }
        ThreadOnly(w, who, th.(hook := HookDone));
      case Looked(row) =>
        var s := if ok then DeliverySettlement(t.db, row, d) else None;
        ThreadOnly(w, who, th.(hook := if s.Some? then HookSettling(AtRow(row.id, s.value)) else HookDone));
      case HookSettling(_) => HookSettlingKeeps(w, who, ok);
      case HookDone =>
    }
  }

  lemma ReconSettleKeeps(w: World, ok: bool)
    requires Inv(w) && w.recon.ReconSettling?
    ensures Inv(ReconSettle(w, ok))
  {
    var r := w.recon;
    if r.consumer in w.tenants {
      var t := w.tenants[r.consumer];
      SettleStepKeeps(t, RECONCILER, w.now, r.at, ok);
      var out := SettleStep(t.db, w.now, r.at, ok);
      OutsideMoves(w, RECONCILER, r.consumer, Log(t, RECONCILER, out.db, out.note),
                   if out.outcome.Continue? then r.(at := out.outcome.at) else Draining(r.consumer, r.batch, r.consumers));
    }
  }

  // An administrator's call leaves the reconciler where it was.
  lemma AdminMoves(w: World, c: string, u: Tenant)
    requires Inv(w) && c in w.tenants && TenantOk(u) && Guarantee(-2, w.tenants[c], u)
    ensures Inv(Update(w, c, u))
  {
    ReconStable(w.tenants, c, u, -2, w.recon);
    OutsideMoves(w, -2, c, u, w.recon);
  }

  lemma AdministerKeeps(w: World, c: string, a: Admin)
    requires Inv(w) && c in w.tenants
    ensures Inv(Exec(w, Administer(c, a)))
  {
    var t := w.tenants[c];
    AdminKeeps(t, -2, a);
    AdminMoves(w, c, t.(db := Administered(t.db, a)));
  }

  lemma ActKeeps(w: World, who: nat, ok: bool, text: string)
    requires Inv(w) && who < |w.threads|
    ensures Inv(Exec(w, Act(who, ok, text)))
  {
    match w.threads[who]
    case Initiator(_, _, _) => ActInitiatorKeeps(w, who, ok, text);
    case Task(_, _) => ActTaskKeeps(w, who, ok);
    case Hook(_, _, _) => ActHookKeeps(w, who, ok);
  }

  lemma ReconOnly(w: World, r: ReconPoint, answered: seq<Inquiry>)
    requires Inv(w) && (r.ReconSettling? ==> r.at.AtRow?)
    ensures Inv(w.(recon := r, answered := answered))
  {
  }

  lemma ReconMoveIsLocal(w: World, m: Move)
    requires m.StartCycle? || m.ListBatch? || m.QueryStatus?
    ensures var r := Exec(w, m).recon;
            Exec(w, m) == w.(recon := r, answered := Exec(w, m).answered) && (r == w.recon || (r.ReconSettling? ==> r.at.AtRow?))
  {
  }

  lemma ReconMoveKeeps(w: World, m: Move)
    requires Inv(w) && (m.StartCycle? || m.ListBatch? || m.QueryStatus?)
    ensures Inv(Exec(w, m))
  {
    ReconMoveIsLocal(w, m);
    var r := Exec(w, m).recon;
    if r != w.recon {
      ReconOnly(w, r, Exec(w, m).answered);
    }
  }

  // Every move of every agent keeps the invariant, whatever call fails.
  lemma ExecKeeps(w: World, m: Move)
    requires Inv(w)
    ensures Inv(Exec(w, m))
  {
    match m
    case Administer(c, a) => if c in w.tenants { AdministerKeeps(w, c, a); }
    case Act(who, ok, text) => if who < |w.threads| { ActKeeps(w, who, ok, text); }
    case SettleNext(ok) => if w.recon.ReconSettling? { ReconSettleKeeps(w, ok); }
    case Arrive(th) => ArriveKeeps(w, th);
    case Tick(_) =>
    case _ => ReconMoveKeeps(w, m);
  }

  lemma ArriveKeeps(w: World, th: Thread)
    requires Inv(w)
    ensures Inv(Exec(w, Arrive(th)))
  {
    if Unstarted(th) {
      assert ThreadOk(w.tenants, |w.threads|, th);
    }
  }

  // Whatever a move does to a database keeps that database sound and is within its agent's guarantee.
  lemma EffectGuarantee(w: World, m: Move)
    requires Inv(w) && Effect(w, m).Some?
    ensures var x := Effect(w, m).value;
            && x.consumer in w.tenants
            && TenantOk(Log(w.tenants[x.consumer], x.agent, x.db, x.note))
            && Guarantee(x.agent, w.tenants[x.consumer], Log(w.tenants[x.consumer], x.agent, x.db, x.note))
  {
    match m
    case Administer(c, a) => AdminKeeps(w.tenants[c], -2, a);
    case SettleNext(ok) => SettleStepKeeps(w.tenants[w.recon.consumer], RECONCILER, w.now, w.recon.at, ok);
    case Act(who, ok, text) =>
      assert ThreadOk(w.tenants, who, w.threads[who]);
      match w.threads[who] {
        case Initiator(home, req, at) => InitStepKeeps(w.tenants[home], who, w.now, req, at, ok, text);
        case Task(_, at) => SettleStepKeeps(w.tenants[at.consumer], who, w.now, at.at, ok);
        case Hook(c, _, at) => SettleStepKeeps(w.tenants[c], who, w.now, at.at, ok);
      }
  }

  lemma EffectGrows(w: World, m: Move)
    requires Inv(w) && Effect(w, m).Some?
    ensures var x := Effect(w, m).value;
            x.consumer in w.tenants && Grows(w.tenants[x.consumer], Log(w.tenants[x.consumer], x.agent, x.db, x.note))
  {
    EffectGuarantee(w, m);
  }

  lemma GrowsUpdate(tenants: map<string, Tenant>, home: string, u: Tenant, c: string)
    requires home in tenants && c in tenants && Grows(tenants[home], u)
    ensures Grows(tenants[c], tenants[home := u][c])
  {
  }

  lemma ExecGrows(w: World, m: Move, c: string)
    requires Inv(w) && c in w.tenants
    ensures c in Exec(w, m).tenants && Grows(w.tenants[c], Exec(w, m).tenants[c])
  {
    EffectIsExec(w, m);
    if Effect(w, m).Some? {
      EffectGrows(w, m);
      var x := Effect(w, m).value;
      GrowsUpdate(w.tenants, x.consumer, Log(w.tenants[x.consumer], x.agent, x.db, x.note), c);
    } else {
      GrowsUpdate(w.tenants, c, w.tenants[c], c);
    }
  }

  lemma {:induction false} RunKeeps(w: World, moves: seq<Move>)
    requires Inv(w)
    ensures Inv(Run(w, moves))
    decreases |moves|
  {
    if moves != [] {
      ExecKeeps(w, moves[0]);
      RunKeeps(Exec(w, moves[0]), moves[1..]);
    }
  }

  lemma BootInv(consumers: set<string>)
    ensures Inv(Boot(consumers))
  {
    assert Ids([]) == [];
    assert TenantOk(NEW_TENANT);
  }

  // Every reachable state satisfies the invariant.
  lemma ReachableInv(w: World)
    requires Reachable(w)
    ensures Inv(w)
  {
    var consumers, moves :| Configured(consumers) && w == Run(Boot(consumers), moves);
    BootInv(consumers);
    RunKeeps(Boot(consumers), moves);
  }
}
