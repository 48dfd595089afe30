/**
 * Runs of the service, from empty databases, that end in states one might think are ruled out. Each
 * is a concrete input for a property that does not hold.
 */
module Counterexamples {
  import opened Base
  import opened Money
  import opened Phones
  import opened Domain
  import opened Ledger
  import opened Tables
  import opened Routing
  import Redis
  import opened Steps
  import opened Machine
  import opened LedgerTheorems
  import opened Inquiries
  import opened Completeness
  import opened Duplicates

  const KEYS := Credentials("", Sealed(""), Sealed(""), Sealed(""), None, None)

  // ---- Steps of the reconciler ---------------------------------------------------------------

  lemma ListedIsReachable(w: World, t: Tenant, row: Payment)
    requires Reachable(w) && w.recon.Idle? && w.tenants == map["c" := t]
    requires IsPendingList(t.db, w.now - RECONCILE_AGE, [row])
    ensures Reachable(w.(recon := Draining("c", [row], [])))
  {
    assert IsCycleOrder(w, ["c"]);
    ReachableStep(w, StartCycle(["c"]));
    var w1 := w.(recon := Sweeping(["c"]));
    assert Exec(w, StartCycle(["c"])) == w1;
    ReachableStep(w1, ListBatch(true, [row]));
    assert ["c"][1..] == [];
  }

  // The reconciler has asked about this row and is about to act on the answer.
  function Asked(w: World, row: Payment, status: TxStatus): World {
    w.(recon := ReconSettling("c", AtRow(row.id, Verdict(status)), [], []),
       answered := w.answered + [Inquiry("c", row, SentId(row), status)])
  }

  lemma AskedIsReachable(w: World, t: Tenant, row: Payment, status: TxStatus)
    requires Reachable(w) && w.recon.Idle? && w.tenants == map["c" := t]
    requires IsPendingList(t.db, w.now - RECONCILE_AGE, [row]) && CanQuery(t.db, row.client)
    ensures Reachable(Asked(w, row, status))
  {
    ListedIsReachable(w, t, row);
    ReachableStep(w.(recon := Draining("c", [row], [])), QueryStatus(true, status));
    assert [row][1..] == [];
  }

  // ---- A client that was never seeded ----------------------------------------------------------

  const CHARGE := Request(PaystackCharge, "k", "i", 1, "KES", "", "", "e", "r", "")
  const UNPAID := NewPayment(CHARGE, "p", 0)
  const ANSWER := TxStatus("0", "", "", "")

  const UNSEEDED := EMPTY.(clients := map["k" := "x"], credentials := map["k" := KEYS])

  lemma UnseededIsReachable()
    ensures Reachable(World(map["c" := NEW_TENANT.(db := UNSEEDED)], map[], 0, [], Idle, [], []))
  {
    var w := Boot({"c"});
    assert Configured({"c"});
    assert w == Run(Boot({"c"}), []);
    assert w.tenants == map["c" := NEW_TENANT];
    var a, b := AddClient("k", "x"), PutCredentials("k", KEYS);
    ReachableStep(w, Administer("c", a));
    var w1 := Exec(w, Administer("c", a));
    assert w1.tenants["c"].db == EMPTY.(clients := map["k" := "x"]);
    ReachableStep(w1, Administer("c", b));
    var w2 := Exec(w1, Administer("c", b));
    assert w2.tenants == map["c" := NEW_TENANT.(db := UNSEEDED)];
  }

  // A world of one consumer and one initiator.
  function Standing(t: Tenant, now: int, req: Request, at: InitPoint): World {
    World(map["c" := t], map[], now, [Initiator("c", req, at)], Idle, [], [])
  }

  // A request that passes its lookup, in a world where nothing else has happened.
  lemma RequestIsReachable(db: Db, req: Request)
    requires Reachable(World(map["c" := NEW_TENANT.(db := db)], map[], 0, [], Idle, [], []))
    requires Admissible(req) && db.payments == map[]
    ensures Reachable(Standing(NEW_TENANT.(db := db), 0, req, AtInsert))
  {
    var t := NEW_TENANT.(db := db);
    var w := Standing(t, 0, req, AtLookup).(threads := []);
    ReachableStep(w, Arrive(Initiator("c", req, AtLookup)));
    var w1 := Standing(t, 0, req, AtLookup);
    assert Exec(w, Arrive(Initiator("c", req, AtLookup))) == w1;
    ReachableStep(w1, Act(0, true, ""));
    assert Exec(w1, Act(0, true, "")).tenants == w1.tenants;
    assert Exec(w1, Act(0, true, "")).threads == [Initiator("c", req, AtInsert)];
  }

  function Stored(db: Db, p: Payment, calls: seq<Call>): Tenant {
    NEW_TENANT.(db := db.(payments := map["p" := p]), owners := map["p" := 0], calls := calls)
  }

  lemma InsertIsReachable(db: Db, req: Request)
    requires Reachable(Standing(NEW_TENANT.(db := db), 0, req, AtInsert))
    requires req.client in db.clients && req.amount > 0 && db.payments == map[]
    ensures Reachable(Standing(Stored(db, NewPayment(req, "p", 0), []), 0, req, AtCredentials("p")))
  {
    var w := Standing(NEW_TENANT.(db := db), 0, req, AtInsert);
    ReachableStep(w, Act(0, true, "p"));
    var v := Exec(w, Act(0, true, "p"));
    assert v.tenants["c"] == Stored(db, NewPayment(req, "p", 0), []);
    assert v.threads == [Initiator("c", req, AtCredentials("p"))];
  }

  // The payment is stored and two minutes have passed; its initiator has gone no further.
  function Stuck(): World {
    Standing(Stored(UNSEEDED, UNPAID, []), 121, CHARGE, AtCredentials("p"))
  }

  lemma StuckIsReachable()
    ensures Reachable(Stuck())
  {
    UnseededIsReachable();
    RequestIsReachable(UNSEEDED, CHARGE);
    InsertIsReachable(UNSEEDED, CHARGE);
    ReachableStep(Stuck().(now := 0), Tick(121));
  }

  // The reconciler is about to complete it.
  function Caught(): World {
    Asked(Stuck(), UNPAID, ANSWER)
  }

  lemma CaughtIsReachable()
    ensures Reachable(Caught())
  {
    StuckIsReachable();
    var t := Stored(UNSEEDED, UNPAID, []);
    assert IsPendingList(t.db, 1, [UNPAID]);
    AskedIsReachable(Stuck(), t, UNPAID, ANSWER);
  }

  const DONE := SettledRow(UNPAID, Verdict(ANSWER), 121)

  // After the row update, after the event, and after the journal write that was refused.
  function AfterRow(): World {
    Caught().(tenants := map["c" := Stored(UNSEEDED, DONE, []).(completions := [Write(RECONCILER, "p")])],
              recon := ReconSettling("c", AtEvent(DONE, Verdict(ANSWER)), [], []))
  }

  function AfterEvent(): World {
    var t := AfterRow().tenants["c"];
    AfterRow().(tenants := map["c" := t.(db := t.db.(events := [Event("p", Pending, Completed, None)]))],
                recon := ReconSettling("c", AtPost(DONE), [], []))
  }

  function Ended(): World {
    AfterEvent().(recon := Draining("c", [], []))
  }

  lemma AfterRowIsReachable()
    ensures Reachable(AfterRow())
  {
    CaughtIsReachable();
    ReachableStep(Caught(), SettleNext(true));
    assert Exec(Caught(), SettleNext(true)).tenants["c"] == AfterRow().tenants["c"];
  }

  lemma AfterEventIsReachable()
    ensures Reachable(AfterEvent())
  {
    AfterRowIsReachable();
    ReachableStep(AfterRow(), SettleNext(true));
    assert Exec(AfterRow(), SettleNext(true)).tenants["c"] == AfterEvent().tenants["c"];
  }

  lemma EndedIsReachable()
    ensures Reachable(Ended())
  {
    AfterEventIsReachable();
    ReachableStep(AfterEvent(), SettleNext(true));
    assert !RowInsertable(AfterEvent().tenants["c"].db, Template(DONE)[0]);
    assert Exec(AfterEvent(), SettleNext(true)).tenants["c"] == AfterEvent().tenants["c"];
  }

  // A reachable state, with nobody mid-settlement, in which a completed payment has no journal row:
  // its client was never seeded, so the journal write was refused and the refusal dropped.
  lemma CompletedNotJournalled()
    ensures exists w: World :: Reachable(w) && AtRest(w, "c") && "c" in w.tenants && "p" in w.tenants["c"].db.payments
              && w.tenants["c"].db.payments["p"].status == Completed
              && RowsOf(w.tenants["c"].db.journal, "p") == []
  {
    EndedIsReachable();
    assert AtRest(Ended(), "c");
  }

  // A payment completed by the reconciler although no provider was ever asked for money: its query
  // carried an empty transaction id, and the answer was taken to be about it.
  lemma CompletedWithoutACall()
    ensures exists w: World :: Reachable(w) && "c" in w.tenants && "p" in w.tenants["c"].db.payments
              && w.tenants["c"].db.payments["p"].status == Completed
              && w.tenants["c"].completions == [Write(RECONCILER, "p")] && Grounded(w, "c", "p")
              && w.tenants["c"].calls == [] && w.tenants["c"].db.payments["p"].requestId == None
              && |w.answered| == 1 && w.answered[0].row.id == "p" && w.answered[0].sent == ""
  {
    EndedIsReachable();
    var w := Ended();
    InquiriesNameTheirPayment(w, 0);
    assert Reports(w.answered[0], "c", "p");
    assert Grounded(w, "c", "p");
  }

  // The same payment is a Paystack charge: reconciliation asked Daraja about it all the same.
  lemma DarajaAskedAboutPaystack()
    ensures exists w: World :: Reachable(w) && |w.answered| == 1 && w.answered[0].row.provider == Paystack
  {
    EndedIsReachable();
    assert |Ended().answered| == 1 && Ended().answered[0].row.provider == Paystack;
  }

  // ---- A client with what an inbound payment needs ---------------------------------------------

  const STK := Request(StkPush, "k", "i", 100, "KES", "0712345678", "", "", "r", "")
  const PAID := NewPayment(STK, "p", 0)
  const CALLBACK := Callback(true, "", "x", 0, "", [])

  const OPEN := UNSEEDED.(accounts := {("k", TILL), ("k", SALES)})

  lemma StkIsAdmissible()
    ensures Admissible(STK)
  {
    assert NormalisePhone("0712345678") == Some("254" + "0712345678"[1..]);
  }

  lemma OpenIsReachable()
    ensures Reachable(World(map["c" := NEW_TENANT.(db := OPEN)], map[], 0, [], Idle, [], []))
  {
    UnseededIsReachable();
    var w := World(map["c" := NEW_TENANT.(db := UNSEEDED)], map[], 0, [], Idle, [], []);
    var w1 := w.(tenants := map["c" := NEW_TENANT.(db := UNSEEDED.(accounts := {("k", TILL)}))]);
    ReachableStep(w, Administer("c", AddAccount("k", TILL)));
    assert UNSEEDED.accounts + {("k", TILL)} == {("k", TILL)};
    assert Exec(w, Administer("c", AddAccount("k", TILL))).tenants["c"] == w1.tenants["c"];
    assert Exec(w, Administer("c", AddAccount("k", TILL))).tenants == w1.tenants;
    ReachableStep(w1, Administer("c", AddAccount("k", SALES)));
    assert OPEN.accounts == {("k", TILL)} + {("k", SALES)};
    assert Exec(w1, Administer("c", AddAccount("k", SALES))).tenants == map["c" := NEW_TENANT.(db := OPEN)];
  }

  lemma InsertedIsReachable()
    ensures Reachable(Standing(Stored(OPEN, PAID, []), 0, STK, AtCredentials("p")))
  {
    OpenIsReachable();
    StkIsAdmissible();
    RequestIsReachable(OPEN, STK);
    InsertIsReachable(OPEN, STK);
  }

  lemma OpenedIsReachable()
    ensures Reachable(Standing(Stored(OPEN, PAID, []), 0, STK, AtCall("p")))
  {
    InsertedIsReachable();
    var w := Standing(Stored(OPEN, PAID, []), 0, STK, AtCredentials("p"));
    ReachableStep(w, Act(0, true, ""));
    assert CanCall(w.tenants["c"].db, STK);
    assert Exec(w, Act(0, true, "")).tenants == w.tenants;
    assert Exec(w, Act(0, true, "")).threads == [Initiator("c", STK, AtCall("p"))];
  }

  const BILL := Call("k", "i", "p", Bill(STK))

  // Daraja has answered and the answer is not recorded yet.
  function Answered(): World {
    Standing(Stored(OPEN, PAID, [BILL]), 0, STK, AtRecord("p", "x")).(issued := [Issue("x", "c", "p")])
  }

  lemma AnsweredIsReachable()
    ensures Reachable(Answered())
  {
    OpenedIsReachable();
    var w := Standing(Stored(OPEN, PAID, []), 0, STK, AtCall("p"));
    ReachableStep(w, Act(0, true, "x"));
    var v := Exec(w, Act(0, true, "x"));
    assert v.tenants["c"] == Answered().tenants["c"];
    assert v.threads == Answered().threads && v.issued == [Issue("x", "c", "p")];
  }

  // The payment's checkout id is routed.
  function Routed(): World {
    Standing(Stored(OPEN, PAID.(requestId := Some("x")), [BILL]), 0, STK, InitDone)
      .(issued := [Issue("x", "c", "p")], routes := map[RouteKey("x") := Redis.Entry(PrintRoute("c", "k", "p"), 1800)])
  }

  // Recording the request id, wherever else the world stands.
  lemma RecordStepIs(w: World, t: Tenant)
    requires w.tenants == map["c" := t] && w.threads == [Initiator("c", STK, AtRecord("p", "x"))] && "p" in t.db.payments
    ensures Exec(w, Act(0, true, ""))
            == w.(tenants := map["c" := t.(db := SetRequestId(t.db, "p", "x"))], threads := [Initiator("c", STK, AtRoute("p", "x"))])
  {
    var v := Exec(w, Act(0, true, ""));
    assert v.tenants == map["c" := t.(db := SetRequestId(t.db, "p", "x"))];
    assert v.threads == [Initiator("c", STK, AtRoute("p", "x"))];
  }

  lemma RecordedIsReachable()
    ensures Reachable(Standing(Routed().tenants["c"], 0, STK, AtRoute("p", "x")).(issued := [Issue("x", "c", "p")]))
  {
    AnsweredIsReachable();
    ReachableStep(Answered(), Act(0, true, ""));
    var t := Stored(OPEN, PAID, [BILL]);
    RecordStepIs(Answered(), t);
    assert t.(db := SetRequestId(t.db, "p", "x")) == Routed().tenants["c"];
  }

  lemma RoutedIsReachable()
    ensures Reachable(Routed())
  {
    RecordedIsReachable();
    var w := Standing(Routed().tenants["c"], 0, STK, AtRoute("p", "x")).(issued := [Issue("x", "c", "p")]);
    ReachableStep(w, Act(0, true, ""));
    var v := Exec(w, Act(0, true, ""));
    assert v.tenants["c"] == Routed().tenants["c"] && v.threads == Routed().threads;
  }

  lemma RouteLeadsHome(routes: map<string, Redis.Entry>)
    requires RouteKey("x") in routes && routes[RouteKey("x")] == Redis.Entry(PrintRoute("c", "k", "p"), 1800)
    ensures Destination(routes, 0, CALLBACK) == Some(("c", "p"))
  {
    RouteRoundTrip("c", "k", "p");
  }

  lemma PaidIsPostable(p: Payment)
    requires p == PAID.(requestId := Some("x"))
    ensures Postable(OPEN.(payments := map["p" := p]), Template(p))
  {
    var db, t := OPEN.(payments := map["p" := p]), Template(p);
    assert RowInsertable(db, t[0]) && RowInsertable(db, t[1]);
  }

  lemma RoutedIsDeliverable()
    ensures Deliverable(Routed(), CALLBACK, "c", "p")
  {
    RouteLeadsHome(Routed().routes);
    PaidIsPostable(PAID.(requestId := Some("x")));
  }

  lemma DeliveredTwice() returns (v: World)
    ensures PostedTwice(Routed(), v, "c", "p")
  {
    RoutedIsReachable();
    RoutedIsDeliverable();
    TwoDeliveriesPostTwice(Routed(), CALLBACK, "c", "p");
    var a, b :| IsDelivery(a, CALLBACK, 1) && IsDelivery(b, CALLBACK, 2) && PostedTwice(Routed(), Run(Routed(), a + b), "c", "p");
    v := Run(Routed(), a + b);
  }

  // One payment with two journal pairs, after one callback was delivered twice.
  lemma JournalledTwice()
    ensures exists w: World :: Reachable(w) && "c" in w.tenants
              && Count(w.tenants["c"].postings, ForPayment("p")) == 2
              && |w.tenants["c"].db.journal| == 4
              && Count(w.tenants["c"].completions, ForPayment("p")) >= 2
  {
    var v := DeliveredTwice();
    assert Routed().tenants["c"].postings == [] && Routed().tenants["c"].db.journal == [];
    assert Reachable(v);
  }

  const FAILURE := CALLBACK.(code := 1)

  lemma DeliveredThenFailed() returns (v: World)
    ensures FailedAfterJournalling(Routed(), v, "", "c", "p")
  {
    RoutedIsReachable();
    RoutedIsDeliverable();
    FailureAfterSuccess(Routed(), CALLBACK, FAILURE, "c", "p");
    var a, b :| IsDelivery(a, CALLBACK, 1) && IsDelivery(b, FAILURE, 2)
                && FailedAfterJournalling(Routed(), Run(Routed(), a + b), FAILURE.desc, "c", "p");
    v := Run(Routed(), a + b);
  }

  // A journalled payment that reads failed, after a failure callback followed the success; both its
  // events claim that it came from pending.
  lemma JournalledButFailed()
    ensures exists w: World :: Reachable(w) && "c" in w.tenants && "p" in w.tenants["c"].db.payments
              && w.tenants["c"].db.payments["p"].status == Failed && |w.tenants["c"].db.journal| == 2
              && w.tenants["c"].db.events == [Event("p", Pending, Completed, None), Event("p", Pending, Failed, None)]
  {
    var v := DeliveredThenFailed();
    assert Routed().tenants["c"].db.events == [] && Routed().tenants["c"].db.journal == [];
    assert Reachable(v);
  }

  // ---- A transaction id that is lost -------------------------------------------------------------

  const RECEIVED := TxStatus("0", "", "R", "X")
  const SETTLED := SettledRow(PAID, Verdict(RECEIVED), 121)

  lemma LateIsReachable()
    ensures Reachable(Asked(Answered().(now := 121), PAID, RECEIVED))
  {
    AnsweredIsReachable();
    ReachableStep(Answered(), Tick(121));
    var t := Stored(OPEN, PAID, [BILL]);
    assert IsPendingList(t.db, 1, [PAID]);
    AskedIsReachable(Answered().(now := 121), t, PAID, RECEIVED);
  }

  function Overtaken(): World {
    Asked(Answered().(now := 121), PAID, RECEIVED)
      .(tenants := map["c" := Stored(OPEN, SETTLED, [BILL]).(completions := [Write(RECONCILER, "p")])],
        recon := ReconSettling("c", AtEvent(SETTLED, Verdict(RECEIVED)), [], []))
  }

  lemma OvertakenIsReachable()
    ensures Reachable(Overtaken())
  {
    LateIsReachable();
    var w := Asked(Answered().(now := 121), PAID, RECEIVED);
    ReachableStep(w, SettleNext(true));
    assert Exec(w, SettleNext(true)).tenants["c"] == Overtaken().tenants["c"];
  }

  function Erased(): World {
    var t := Overtaken().tenants["c"];
    var p := SETTLED.(requestId := Some("x"), txId := None);
    Overtaken().(tenants := map["c" := t.(db := t.db.(payments := map["p" := p]))],
                 threads := [Initiator("c", STK, AtRoute("p", "x"))])
  }

  lemma ErasedIsReachable()
    ensures Reachable(Erased())
  {
    OvertakenIsReachable();
    ReachableStep(Overtaken(), Act(0, true, ""));
    var t := Overtaken().tenants["c"];
    RecordStepIs(Overtaken(), t);
    assert t.(db := SetRequestId(t.db, "p", "x")) == Erased().tenants["c"];
  }

  // The reconciler completes a payment with its transaction id before the initiator has recorded the
  // request id; recording it then erases the transaction id of the completed payment.
  lemma TransactionIdLost()
    ensures exists w: World :: Reachable(w) && "c" in w.tenants && "p" in w.tenants["c"].db.payments
              && w.tenants["c"].db.payments["p"].status == Completed
              && w.tenants["c"].db.payments["p"].receipt == Some("R")
              && w.tenants["c"].db.payments["p"].txId == None
              && |w.answered| == 1 && w.answered[0].status.conversation == "X"
  {
    ErasedIsReachable();
    assert |Erased().answered| == 1 && Erased().answered[0].status == RECEIVED;
  }

  // ---- A Paystack delivery for an M-PESA payment -------------------------------------------------

  const DELIVERY := Delivery(true, "charge.success", "p", "", 100, 1, "s")

  // The client also has a Paystack secret.
  const BOTH := OPEN.(paystack := map["k" := Sealed("s")])

  function Delivered(at: HookPoint): World {
    var w := Standing(Stored(BOTH, PAID, []), 0, STK, AtCall("p"));
    w.(threads := w.threads + [Hook("c", DELIVERY, at)])
  }

  lemma DeliveredIsReachable()
    ensures Reachable(Delivered(Arrived))
  {
    OpenedIsReachable();
    var w := Standing(Stored(OPEN, PAID, []), 0, STK, AtCall("p"));
    var a := Administer("c", PutPaystack("k", Sealed("s")));
    ReachableStep(w, a);
    var w1 := Standing(Stored(BOTH, PAID, []), 0, STK, AtCall("p"));
    assert Exec(w, a).tenants["c"] == w1.tenants["c"];
    assert Exec(w, a) == w1;
    ReachableStep(w1, Arrive(Hook("c", DELIVERY, Arrived)));
  }

  lemma CheckedIsReachable()
    ensures Reachable(Delivered(HookSettling(AtRow("p", Completion("p", Itoa(1))))))
  {
    DeliveredIsReachable();
    ReachableStep(Delivered(Arrived), Act(1, true, ""));
    assert Exec(Delivered(Arrived), Act(1, true, "")).threads == Delivered(Looked(PAID)).threads;
    assert Exec(Delivered(Arrived), Act(1, true, "")) == Delivered(Looked(PAID));
    ReachableStep(Delivered(Looked(PAID)), Act(1, true, ""));
    var next := Delivered(HookSettling(AtRow("p", Completion("p", Itoa(1)))));
    assert Exec(Delivered(Looked(PAID)), Act(1, true, "")).threads == next.threads;
  }

  const CAPTURED := SettledRow(PAID, Completion("p", Itoa(1)), 0)

  function Paid(): World {
    Delivered(HookSettling(AtEvent(CAPTURED, Completion("p", Itoa(1)))))
      .(tenants := map["c" := Stored(BOTH, CAPTURED, []).(completions := [Write(1, "p")])])
  }

  // The delivery's row update, wherever else the world stands.
  lemma CaptureStepIs(w: World, t: Tenant, th: Thread)
    requires w.tenants == map["c" := t] && w.threads == [th, Hook("c", DELIVERY, HookSettling(AtRow("p", Completion("p", Itoa(1)))))]
    requires "p" in t.db.payments
    ensures var db := Settle(t.db, "p", Completion("p", Itoa(1)), w.now);
            Exec(w, Act(1, true, ""))
            == w.(tenants := map["c" := t.(db := db, completions := t.completions + [Write(1, "p")])],
                  threads := [th, Hook("c", DELIVERY, HookSettling(AtEvent(db.payments["p"], Completion("p", Itoa(1)))))])
  {
    var v := Exec(w, Act(1, true, ""));
    var db := Settle(t.db, "p", Completion("p", Itoa(1)), w.now);
    assert v.tenants == map["c" := t.(db := db, completions := t.completions + [Write(1, "p")])];
    assert v.threads == [th, Hook("c", DELIVERY, HookSettling(AtEvent(db.payments["p"], Completion("p", Itoa(1)))))];
  }

  lemma PaidIsReachable()
    ensures Reachable(Paid())
  {
    CheckedIsReachable();
    var w := Delivered(HookSettling(AtRow("p", Completion("p", Itoa(1)))));
    var t := Stored(BOTH, PAID, []);
    ReachableStep(w, Act(1, true, ""));
    CaptureStepIs(w, t, w.threads[0]);
    assert t.completions + [Write(1, "p")] == [Write(1, "p")];
    assert Settle(t.db, "p", Completion("p", Itoa(1)), 0).payments == map["p" := CAPTURED];
  }

  // A Paystack delivery completes an M-PESA payment: the webhook never looks at the provider.
  lemma WebhookCompletesMpesaPayment()
    ensures exists w: World :: Reachable(w) && "c" in w.tenants && "p" in w.tenants["c"].db.payments
              && w.tenants["c"].db.payments["p"].provider == Mpesa
              && w.tenants["c"].db.payments["p"].status == Completed
              && w.tenants["c"].completions == [Write(1, "p")] && |w.threads| == 2 && w.threads[1].Hook?
  {
    PaidIsReachable();
    assert |Paid().threads| == 2 && Paid().threads[1].Hook?;
  }
}
