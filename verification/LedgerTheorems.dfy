/** What the ledger of every reachable state looks like. */
module LedgerTheorems {
  import opened Base
  import opened Domain
  import opened Ledger
  import opened Balances
  import opened Tables
  import opened Steps
  import opened Machine
  import opened Invariants

  // Which entries of a history to count: those for a payment, or those by an agent.
  datatype Selector = ForPayment(payment: string) | ByAgent(agent: int)

  predicate Selects(sel: Selector, w: Write) {
    match sel
    case ForPayment(id) => w.payment == id
    case ByAgent(agent) => w.agent == agent
  }

  function Count(log: seq<Write>, sel: Selector): nat {
    if log == [] then 0
    else Count(log[..|log| - 1], sel) + (if Selects(sel, log[|log| - 1]) then 1 else 0)
  }

  lemma CountAppend(log: seq<Write>, w: Write, sel: Selector)
    ensures Count(log + [w], sel) == Count(log, sel) + (if Selects(sel, w) then 1 else 0)
  {
    assert (log + [w])[..|log|] == log;
  }

  lemma {:induction false} CountIsMultiset(log: seq<Write>, id: string)
    ensures multiset(Ids(log))[id] == Count(log, ForPayment(id))
  {
    if log == [] {
      assert Ids(log) == [];
    } else {
      var front, last := log[..|log| - 1], log[|log| - 1];
      CountIsMultiset(front, id);
      assert log == front + [last];
      IdsAppend(front, last);
    }
  }

  lemma {:induction false} CountConcat(a: seq<Write>, b: seq<Write>, sel: Selector)
    ensures Count(a + b, sel) == Count(a, sel) + Count(b, sel)
  {
    if b == [] {
      assert a + b == a;
    } else {
      CountConcat(a, b[..|b| - 1], sel);
      assert (a + b)[..|a + b| - 1] == a + b[..|b| - 1];
    }
  }

  lemma WithoutOne(log: seq<Write>, k: nat, sel: Selector)
    requires k < |log|
    ensures Count(log, sel) == Count(Without(log, k), sel) + (if Selects(sel, log[k]) then 1 else 0)
  {
    assert log == (log[..k] + [log[k]]) + log[k + 1..];
    CountConcat(log[..k] + [log[k]], log[k + 1..], sel);
    CountAppend(log[..k], log[k], sel);
    CountConcat(log[..k], log[k + 1..], sel);
  }

  // A history that is covered by another, write for write, counts no more of anything.
  lemma {:induction false} CountMonotone(a: seq<Write>, b: seq<Write>, sel: Selector)
    requires forall w: Write :: multiset(a)[w] <= multiset(b)[w]
    ensures Count(a, sel) <= Count(b, sel)
  {
    if a != [] {
      var n := |a| - 1;
      assert multiset(a)[a[n]] >= 1;
      assert a[n] in multiset(b);
      var k :| 0 <= k < |b| && b[k] == a[n];
      WithoutMultiset(a, n);
      WithoutMultiset(b, k);
      WithoutOne(b, k, sel);
      WithoutOne(a, n, sel);
      CountMonotone(Without(a, n), Without(b, k), sel);
    }
  }

  lemma {:induction false} BookTwoSided(postings: seq<string>, payments: map<string, Payment>)
    requires forall k :: 0 <= k < |postings| ==> postings[k] in payments
    ensures TwoSided(Book(postings, payments))
  {
    if postings != [] {
      BookTwoSided(postings[..|postings| - 1], payments);
    }
  }

  lemma TenantBalances(t: Tenant, client: string)
    requires JournalOk(t)
    ensures var s := Sums(TrialBalance(t.db.journal, client));
            s.debits == s.credits && s.net == 0
  {
    BookBalances(Ids(t.postings), t.db.payments, client);
    BookTwoSided(Ids(t.postings), t.db.payments);
    TrialBalanceTotals(t.db.journal, client);
  }

  // Trial balance: in every reachable state, under any interleaving and any injected failures,
  // each client's account_balances rows have equal debit and credit totals and net to zero.
  lemma TrialBalanceIsExact(w: World, consumer: string, client: string)
    requires Reachable(w) && consumer in w.tenants
    ensures var s := Sums(TrialBalance(w.tenants[consumer].db.journal, client));
            s.debits == s.credits && s.net == 0
  {
    ReachableTenant(w, consumer);
    TenantBalances(w.tenants[consumer], client);
  }

  // The parts of the invariant that the ledger needs, for one tenant of a reachable state.
  lemma ReachableTenant(w: World, consumer: string)
    requires Reachable(w) && consumer in w.tenants
    ensures var t := w.tenants[consumer];
            JournalOk(t) && PaymentsOk(t) && Covered(t) && HistoryOk(t) && EventsOk(t)
  {
    ReachableInv(w);
    assert TenantOk(w.tenants[consumer]);
  }

  lemma TenantRows(t: Tenant, id: string)
    requires JournalOk(t) && PaymentsOk(t) && id in t.db.payments
    ensures multiset(RowsOf(t.db.journal, id)) == Copies(t.db.payments[id], Count(t.postings, ForPayment(id)))
  {
    assert PaymentOk(t, id);
    forall k | 0 <= k < |Ids(t.postings)| && Ids(t.postings)[k] != id
      ensures t.db.payments[Ids(t.postings)[k]].id != id
    {
      assert PaymentOk(t, t.postings[k].payment);
    }
    BookPerPayment(Ids(t.postings), t.db.payments, t.db.payments[id]);
    CountIsMultiset(t.postings, id);
  }

  // Per payment: its journal rows are exactly k copies of its direction's two-row template, with
  // its own client, amount and currency, k being its committed bulk writes, which never outnumber
  // its completion writes.
  lemma PaymentRowsAreTemplates(w: World, consumer: string, id: string)
    requires Reachable(w) && consumer in w.tenants && id in w.tenants[consumer].db.payments
    ensures var t := w.tenants[consumer];
            && multiset(RowsOf(t.db.journal, id)) == Copies(t.db.payments[id], Count(t.postings, ForPayment(id)))
            && Count(t.postings, ForPayment(id)) <= Count(t.completions, ForPayment(id))
  {
    var t := w.tenants[consumer];
    ReachableTenant(w, consumer);
    TenantRows(t, id);
    CountMonotone(t.postings, t.completions, ForPayment(id));
  }

  // What a payment is follows from its kind: B2C and B2B go out, the others come in, and only a
  // Paystack charge is Paystack's.
  lemma KindDecides(w: World, consumer: string, id: string)
    requires Reachable(w) && consumer in w.tenants && id in w.tenants[consumer].db.payments
    ensures var p := w.tenants[consumer].db.payments[id];
            && (p.direction == Outbound <==> p.kind == B2c || p.kind == B2b)
            && (p.direction == Inbound <==> p.kind == StkPush || p.kind == PaystackCharge)
            && (p.provider == Paystack <==> p.kind == PaystackCharge)
  {
    ReachableTenant(w, consumer);
    assert PaymentOk(w.tenants[consumer], id);
  }

  // Conservation: what the view reports for the three accounts is the journalled inbound and
  // outbound money, by direction and by kind, and every other account has no row at all.
  lemma MoneyIsConserved(w: World, consumer: string, client: string)
    requires Reachable(w) && consumer in w.tenants
    ensures var t := w.tenants[consumer];
            forall k :: 0 <= k < |Ids(t.postings)| ==> Ids(t.postings)[k] in t.db.payments
    ensures var t := w.tenants[consumer];
            var inflow := Volume(Ids(t.postings), t.db.payments, client, Inbound);
            var outflow := Volume(Ids(t.postings), t.db.payments, client, Outbound);
            && inflow == KindVolume(Ids(t.postings), t.db.payments, client, {StkPush, PaystackCharge})
            && outflow == KindVolume(Ids(t.postings), t.db.payments, client, {B2c, B2b})
            && Net(t.db.journal, client, "mpesa.till") == inflow - outflow
            && Net(t.db.journal, client, "revenue.sales") == -inflow
            && Net(t.db.journal, client, "expense.operations") == outflow
            && forall a :: a !in {TILL, SALES, OPERATIONS} ==> Find(Group(t.db.journal), client, a) == None
  {
    var t := w.tenants[consumer];
    ReachableTenant(w, consumer);
    BookConserves(Ids(t.postings), t.db.payments, client, TILL);
    BookConserves(Ids(t.postings), t.db.payments, client, SALES);
    BookConserves(Ids(t.postings), t.db.payments, client, OPERATIONS);
    TenantVolumes(t, client);
    forall a | a !in {TILL, SALES, OPERATIONS} ensures Find(Group(t.db.journal), client, a) == None {
      NoOtherAccounts(Ids(t.postings), t.db.payments, client, a);
    }
  }

  lemma TenantVolumes(t: Tenant, client: string)
    requires PaymentsOk(t) && JournalOk(t)
    ensures Volume(Ids(t.postings), t.db.payments, client, Inbound)
            == KindVolume(Ids(t.postings), t.db.payments, client, {StkPush, PaystackCharge})
    ensures Volume(Ids(t.postings), t.db.payments, client, Outbound)
            == KindVolume(Ids(t.postings), t.db.payments, client, {B2c, B2b})
  {
    forall k | 0 <= k < |Ids(t.postings)|
      ensures var p := t.db.payments[Ids(t.postings)[k]];
              p.direction == Outbound <==> p.kind.B2c? || p.kind.B2b?
    {
      assert PaymentOk(t, t.postings[k].payment);
    }
    VolumeByKind(Ids(t.postings), t.db.payments, client);
  }

  // A row of this payment's pair.
  ghost predicate RowOfPair(p: Payment, r: JournalRow) {
    exists pair :: PairOf(p, pair) && (r == pair[0] || r == pair[1])
  }

  lemma {:induction false} BookRowsArePairs(postings: seq<string>, payments: map<string, Payment>, k: nat)
    requires forall i :: 0 <= i < |postings| ==> postings[i] in payments && payments[postings[i]].id == postings[i]
    requires k < |Book(postings, payments)|
    ensures var r := Book(postings, payments)[k];
            r.payment in payments && RowOfPair(payments[r.payment], r)
  {
    var n := |postings| - 1;
    var front, p := Book(postings[..n], payments), payments[postings[n]];
    if k < |front| {
      BookRowsArePairs(postings[..n], payments, k);
    } else {
      TemplateIsPair(p);
      assert Book(postings, payments)[k] == Template(p)[k - |front|];
    }
  }

  lemma TenantRowIsPair(t: Tenant, k: nat)
    requires PaymentsOk(t) && JournalOk(t) && k < |t.db.journal|
    ensures var r := t.db.journal[k];
            r.payment in t.db.payments && RowOfPair(t.db.payments[r.payment], r)
  {
    forall i | 0 <= i < |Ids(t.postings)| ensures t.db.payments[Ids(t.postings)[i]].id == Ids(t.postings)[i] {
      assert PaymentOk(t, t.postings[i].payment);
    }
    BookRowsArePairs(Ids(t.postings), t.db.payments, k);
  }

  // Every journal row of every reachable state belongs to a stored payment and carries that payment's
  // client, amount and currency; its account, side and text follow from the payment's kind.
  lemma JournalRowsCarryTheirPayment(w: World, consumer: string, k: nat)
    requires Reachable(w) && consumer in w.tenants && k < |w.tenants[consumer].db.journal|
    ensures var db := w.tenants[consumer].db;
            var r := db.journal[k];
            && r.payment in db.payments
            && var p := db.payments[r.payment];
               && r.client == p.client && r.amount == p.amount && r.currency == p.currency && r.amount > 0
               && (r.entry == Debit || r.entry == Credit)
               && (p.kind == StkPush ==> InboundRow(r, "stk_push"))
               && (p.kind == PaystackCharge ==> InboundRow(r, "paystack_charge"))
               && (p.kind == B2c ==> OutboundRow(r, "b2c"))
               && (p.kind == B2b ==> OutboundRow(r, "b2b"))
  {
    ReachableTenant(w, consumer);
    var t := w.tenants[consumer];
    TenantRowIsPair(t, k);
    assert PaymentOk(t, t.db.journal[k].payment);
    RowByKind(t.db.payments[t.db.journal[k].payment], t.db.journal[k]);
  }

  ghost predicate InboundRow(r: JournalRow, kind: string) {
    if r.entry == Debit then r.account == "mpesa.till" && r.description == "Inbound payment via " + kind
    else r.account == "revenue.sales" && r.description == "Sales revenue for payment " + r.payment
  }

  ghost predicate OutboundRow(r: JournalRow, kind: string) {
    if r.entry == Debit then r.account == "expense.operations" && r.description == "Outbound payment via " + kind
    else r.account == "mpesa.till" && r.description == "Till outbound for payment " + r.payment
  }

  lemma RowByKind(p: Payment, r: JournalRow)
    requires RowOfPair(p, r) && p.direction == DirectionOf(p.kind)
    ensures r.client == p.client && r.amount == p.amount && r.currency == p.currency
    ensures r.entry == Debit || r.entry == Credit
    ensures p.kind == StkPush ==> InboundRow(r, "stk_push")
    ensures p.kind == PaystackCharge ==> InboundRow(r, "paystack_charge")
    ensures p.kind == B2c ==> OutboundRow(r, "b2c")
    ensures p.kind == B2b ==> OutboundRow(r, "b2b")
  {
    KindNames();
    var pair: seq<JournalRow> :| PairOf(p, pair) && (r == pair[0] || r == pair[1]);
    assert forall k :: 0 <= k < 2 ==> pair[k].client == p.client;
  }

  lemma NoOtherAccounts(postings: seq<string>, payments: map<string, Payment>, client: string, a: string)
    requires forall k :: 0 <= k < |postings| ==> postings[k] in payments
    requires a !in {TILL, SALES, OPERATIONS}
    ensures Find(Group(Book(postings, payments)), client, a) == None
  {
    BookTwoSided(postings, payments);
    BookAccounts(postings, payments);
    GroupIsFilteredSums(Book(postings, payments), client, a);
  }

  // Every row of a book belongs to one of its postings.
  lemma {:induction false} BookRowsArePosted(postings: seq<string>, payments: map<string, Payment>, k: nat)
    requires forall i :: 0 <= i < |postings| ==> postings[i] in payments && payments[postings[i]].id == postings[i]
    requires k < |Book(postings, payments)|
    ensures Book(postings, payments)[k].payment in postings
  {
    var n := |postings| - 1;
    var front := Book(postings[..n], payments);
    if k < |front| {
      BookRowsArePosted(postings[..n], payments, k);
    } else {
      assert Book(postings, payments)[k] == Template(payments[postings[n]])[k - |front|];
    }
  }

  // Every journal row refers to a stored payment whose completed_at is set.
  lemma JournalRowIsCompleted(t: Tenant, k: nat)
    requires PaymentsOk(t) && HistoryOk(t) && Covered(t) && JournalOk(t) && k < |t.db.journal|
    ensures t.db.journal[k].payment in t.db.payments && t.db.payments[t.db.journal[k].payment].completedAt.Some?
  {
    forall i | 0 <= i < |Ids(t.postings)| ensures t.db.payments[Ids(t.postings)[i]].id == Ids(t.postings)[i] {
      assert PaymentOk(t, t.postings[i].payment);
    }
    BookRowsArePosted(Ids(t.postings), t.db.payments, k);
    var i :| 0 <= i < |Ids(t.postings)| && Ids(t.postings)[i] == t.db.journal[k].payment;
    PostingWasCompleted(t, i);
  }

  // Journalled implies completed_at is set, of every journal row, every committed posting and every
  // completed event; and completed_at is set exactly for the payments that were written as completed.
  lemma JournalledImpliesCompleted(w: World, consumer: string)
    requires Reachable(w) && consumer in w.tenants
    ensures var t := w.tenants[consumer];
            && (forall k :: 0 <= k < |t.db.journal| ==>
                  t.db.journal[k].payment in t.db.payments && t.db.payments[t.db.journal[k].payment].completedAt.Some?)
            && (forall k :: 0 <= k < |t.postings| ==>
                  t.postings[k].payment in t.db.payments && t.db.payments[t.postings[k].payment].completedAt.Some?)
            && (forall k :: 0 <= k < |t.db.events| && t.db.events[k].to == Completed ==>
                  t.db.events[k].payment in t.db.payments
                  && t.db.payments[t.db.events[k].payment].completedAt.Some?)
            && (forall id :: id in t.db.payments ==>
                  (t.db.payments[id].completedAt.Some? <==> Count(t.completions, ForPayment(id)) > 0))
  {
    var t := w.tenants[consumer];
    ReachableTenant(w, consumer);
    forall k | 0 <= k < |t.db.journal|
      ensures t.db.journal[k].payment in t.db.payments && t.db.payments[t.db.journal[k].payment].completedAt.Some?
    {
      JournalRowIsCompleted(t, k);
    }
    forall k | 0 <= k < |t.postings|
      ensures t.postings[k].payment in t.db.payments && t.db.payments[t.postings[k].payment].completedAt.Some?
    {
      PostingWasCompleted(t, k);
    }
    forall k | 0 <= k < |t.db.events| && t.db.events[k].to == Completed
      ensures t.db.events[k].payment in t.db.payments && t.db.payments[t.db.events[k].payment].completedAt.Some?
    {
      assert EventOk(t, t.db.events[k]);
    }
    forall id | id in t.db.payments
      ensures t.db.payments[id].completedAt.Some? <==> Count(t.completions, ForPayment(id)) > 0
    {
      assert PaymentOk(t, id);
      CountIsWrote(t.completions, id);
    }
  }

  lemma PostingWasCompleted(t: Tenant, k: nat)
    requires HistoryOk(t) && Covered(t) && k < |t.postings|
    ensures t.postings[k].payment in t.db.payments && t.db.payments[t.postings[k].payment].completedAt.Some?
  {
    var w := t.postings[k];
    assert w in multiset(t.postings);
    assert multiset(t.postings)[w] <= multiset(t.completions)[w];
    var j :| 0 <= j < |t.completions| && t.completions[j] == w;
    assert Wrote(t.completions, w.payment);
  }

  lemma {:induction false} CountIsWrote(log: seq<Write>, id: string)
    ensures Count(log, ForPayment(id)) > 0 <==> Wrote(log, id)
  {
    if log != [] {
      var front, last := log[..|log| - 1], log[|log| - 1];
      assert log == front + [last];
      CountIsWrote(front, id);
      WroteAppend(front, last, id);
    }
  }

  // Isolation: no call of a settlement changes any balance row of another client.
  lemma SettlingIsIsolated(t: Tenant, agent: int, now: int, at: SettlePoint, ok: bool, client: string)
    requires at.AtPost? ==> at.row.client != client
    ensures TrialBalance(SettleStep(t.db, now, at, ok).db.journal, client) == TrialBalance(t.db.journal, client)
  {
    if at.AtPost? {
      OtherClientsRows(t.db.journal, Template(at.row), client);
    }
  }

  // The consumer whose database a move is for, if any.
  function Addressee(w: World, m: Move): Option<string> {
    match m
    case Administer(c, _) => Some(c)
    case Act(who, _, _) =>
      if who >= |w.threads| then None
      else
        (match w.threads[who]
         case Initiator(home, _, _) => Some(home)
         case Task(_, at) => if at.TaskSettling? then Some(at.consumer) else None
         case Hook(c, _, _) => Some(c))
    case SettleNext(_) => if w.recon.ReconSettling? then Some(w.recon.consumer) else None
    case _ => None
  }

  lemma EffectIsAddressed(w: World, m: Move)
    ensures Effect(w, m).Some? ==> Addressee(w, m) == Some(Effect(w, m).value.consumer)
  {
  }

  // Isolation between consumers: a move changes at most the database of the consumer it is for,
  // whatever else is in progress in the others.
  lemma OtherConsumersUntouched(w: World, m: Move, consumer: string)
    requires consumer in w.tenants && Addressee(w, m) != Some(consumer)
    ensures consumer in Exec(w, m).tenants && Exec(w, m).tenants[consumer] == w.tenants[consumer]
  {
    EffectIsExec(w, m);
    EffectIsAddressed(w, m);
  }

  // No move of the run is for this consumer.
  ghost predicate PassesBy(w: World, moves: seq<Move>, consumer: string)
    decreases |moves|
  {
    moves == [] || (Addressee(w, moves[0]) != Some(consumer) && PassesBy(Exec(w, moves[0]), moves[1..], consumer))
  }

  // Over whole runs: whatever happens at the other consumers, one that is not addressed keeps its
  // tables, its history and hence every balance.
  lemma {:induction false} OtherConsumersRun(w: World, moves: seq<Move>, consumer: string)
    requires consumer in w.tenants && PassesBy(w, moves, consumer)
    ensures consumer in Run(w, moves).tenants && Run(w, moves).tenants[consumer] == w.tenants[consumer]
    decreases |moves|
  {
    if moves != [] {
      OtherConsumersUntouched(w, moves[0], consumer);
      OtherConsumersRun(Exec(w, moves[0]), moves[1..], consumer);
    }
  }

  // A client whose default accounts are all there can be posted for: the bulk write of any of its
  // stored payments, now or later, breaks no constraint and appends exactly two rows.
  lemma SeededClientsPost(t: Tenant, id: string)
    requires TenantOk(t) && id in t.db.payments
    requires Seeded(t.db, t.db.payments[id].client)
    ensures Postable(t.db, Template(t.db.payments[id]))
    ensures forall now :: SettleStep(t.db, now, AtPost(t.db.payments[id]), true).db.journal
                          == t.db.journal + Template(t.db.payments[id])
    ensures |Template(t.db.payments[id])| == 2
  {
    var p := t.db.payments[id];
    assert PaymentOk(t, id);
    assert DEFAULT_ACCOUNTS[0] == TILL && DEFAULT_ACCOUNTS[1] == SALES && DEFAULT_ACCOUNTS[4] == OPERATIONS;
    assert (p.client, TILL) in t.db.accounts;
    assert (p.client, SALES) in t.db.accounts;
    assert (p.client, OPERATIONS) in t.db.accounts;
  }
}
