/**
 * Duplicate deliveries. Neither the queue nor the settlement recognises a callback it has already
 * handled, so each delivery of a success is journalled again.
 */
module Duplicates {
  import opened Base
  import opened Domain
  import opened Ledger
  import opened Tables
  import opened Steps
  import opened Machine
  import opened LedgerTheorems
  import opened Schedules

  // A success callback with a live route to a stored payment whose journal rows are acceptable.
  ghost predicate Deliverable(w: World, cb: Callback, c: string, id: string) {
    && cb.code == 0 && Destination(w.routes, w.now, cb) == Some((c, id))
    && c in w.tenants && id in w.tenants[c].db.payments && w.tenants[c].db.payments[id].id == id
    && Postable(w.tenants[c].db, Template(w.tenants[c].db.payments[id]))
  }

  // One delivery: the callback is queued, and then only its own task acts.
  ghost predicate IsDelivery(moves: seq<Move>, cb: Callback, who: nat) {
    moves != [] && moves[0] == Arrive(Task(cb, Waiting)) && OnlyActs(moves[1..], who)
  }

  // The delivery has added this payment's two rows once more, and could be made again.
  ghost predicate PostsAgain(w: World, v: World, cb: Callback, c: string, id: string)
    requires Deliverable(w, cb, c, id)
  {
    && |v.threads| == |w.threads| + 1
    && Deliverable(v, cb, c, id)
    && Template(v.tenants[c].db.payments[id]) == Template(w.tenants[c].db.payments[id])
    && v.tenants[c].db.journal == w.tenants[c].db.journal + Template(w.tenants[c].db.payments[id])
  }

  // A completion that meets no fault leaves the payment as postable as it was.
  lemma FinishPosts(db: Db, now: int, id: string, s: Settlement)
    requires id in db.payments && db.payments[id].id == id && s.Completion? && Postable(db, Template(db.payments[id]))
    ensures var u := Finish(db, now, AtRow(id, s), SettleFate(true, true, true)).db;
            && id in u.payments && u.payments[id].id == id
            && Template(u.payments[id]) == Template(db.payments[id])
            && Postable(u, Template(db.payments[id]))
            && u.journal == db.journal + Template(db.payments[id])
  {
    FinishIs(db, now, id, s, SettleFate(true, true, true));
    var p, q := db.payments[id], SettledRow(db.payments[id], s, now);
    assert Template(p) == Template(Core(p)) && Template(q) == Template(Core(q));
    var u := Finish(db, now, AtRow(id, s), SettleFate(true, true, true)).db;
    var t := Template(p);
    assert forall k :: 0 <= k < |t| ==> (RowInsertable(u, t[k]) <==> RowInsertable(db, t[k]));
  }

  // The callback's task, once queued, runs through.
  ghost predicate Handles(w: World, v: World, cb: Callback, c: string, id: string)
    requires c in w.tenants
  {
    TaskEnds(Exec(w, Arrive(Task(cb, Waiting))), v, |w.threads|, c,
             Finish(w.tenants[c].db, w.now, AtRow(id, CallbackSettlement(cb)), SettleFate(true, true, true)))
  }

  // One delivery, handled without interruption and without faults.
  ghost predicate HandledBy(w: World, moves: seq<Move>, cb: Callback, c: string, id: string)
    requires c in w.tenants
  {
    IsDelivery(moves, cb, |w.threads|) && Handles(w, Run(w, moves), cb, c, id)
  }

  lemma DeliveryMoves(w: World, cb: Callback, rest: seq<Move>)
    requires OnlyActs(rest, |w.threads|)
    ensures var m := Arrive(Task(cb, Waiting));
            IsDelivery([m] + rest, cb, |w.threads|) && Run(w, [m] + rest) == Run(Exec(w, m), rest)
  {
    var m := Arrive(Task(cb, Waiting));
    RunCons(w, m, rest);
    assert ([m] + rest)[1..] == rest;
  }

  lemma OneDelivery(w: World, cb: Callback, c: string, id: string)
    requires Destination(w.routes, w.now, cb) == Some((c, id)) && c in w.tenants
    ensures exists moves :: HandledBy(w, moves, cb, c, id)
  {
    var m := Arrive(Task(cb, Waiting));
    CallbackIsSchedule(Exec(w, m), |w.threads|, SettleFate(true, true, true));
    var rest :| OnlyActs(rest, |w.threads|) && Handles(w, Run(Exec(w, m), rest), cb, c, id);
    DeliveryMoves(w, cb, rest);
    assert HandledBy(w, [m] + rest, cb, c, id);
  }

  lemma HandledPosts(w: World, v: World, cb: Callback, c: string, id: string)
    requires Deliverable(w, cb, c, id) && Handles(w, v, cb, c, id)
    ensures PostsAgain(w, v, cb, c, id)
  {
    FinishPosts(w.tenants[c].db, w.now, id, CallbackSettlement(cb));
  }

  // Rows that are so many copies of a template determine the number of postings.
  lemma CopiesCount(rows: seq<JournalRow>, p: Payment, q: Payment, j: nat, k: nat)
    requires Template(p) == Template(q) && multiset(rows) == Copies(p, j) && multiset(rows) == Copies(q, k)
    ensures j == k
  {
    assert Copies(p, j)[Template(p)[1]] == j && Copies(q, k)[Template(p)[1]] == k;
  }

  lemma TwoMoreRows(book: seq<JournalRow>, p: Payment, k: nat)
    requires PostedTimes(book, p, k)
    ensures PostedTimes(book + Template(p) + Template(p), p, k + 2)
  {
    PostOneMore(book, p, p, k);
    PostOneMore(book + Template(p), p, p, k + 1);
  }

  // What two deliveries of one callback leave behind.
  ghost predicate PostedTwice(w: World, v: World, c: string, id: string)
    requires c in w.tenants && id in w.tenants[c].db.payments
  {
    var p := w.tenants[c].db.payments[id];
    && Reachable(v) && c in v.tenants
    && v.tenants[c].db.journal == w.tenants[c].db.journal + Template(p) + Template(p)
    && Count(v.tenants[c].postings, ForPayment(id)) == Count(w.tenants[c].postings, ForPayment(id)) + 2
    && Count(v.tenants[c].completions, ForPayment(id)) >= Count(v.tenants[c].postings, ForPayment(id))
  }

  lemma PostedTwiceBy(w: World, u: World, v: World, cb: Callback, c: string, id: string)
    requires Reachable(w) && Reachable(v) && Deliverable(w, cb, c, id)
    requires PostsAgain(w, u, cb, c, id) && PostsAgain(u, v, cb, c, id)
    ensures PostedTwice(w, v, c, id)
  {
    var p, q := w.tenants[c].db.payments[id], v.tenants[c].db.payments[id];
    PaymentRowsAreTemplates(w, c, id);
    PaymentRowsAreTemplates(v, c, id);
    TwoMoreRows(w.tenants[c].db.journal, p, Count(w.tenants[c].postings, ForPayment(id)));
    CopiesCount(RowsOf(v.tenants[c].db.journal, id), p, q,
                Count(w.tenants[c].postings, ForPayment(id)) + 2, Count(v.tenants[c].postings, ForPayment(id)));
  }

  // In every reachable state, for every success callback with a live route to a payment that can be
  // posted: delivering it twice journals the payment twice.
  lemma TwoDeliveriesPostTwice(w: World, cb: Callback, c: string, id: string)
    requires Reachable(w) && Deliverable(w, cb, c, id)
    ensures exists a, b ::
              && IsDelivery(a, cb, |w.threads|) && IsDelivery(b, cb, |w.threads| + 1)
              && PostedTwice(w, Run(w, a + b), c, id)
  {
    OneDelivery(w, cb, c, id);
    var a :| HandledBy(w, a, cb, c, id);
    var u := Run(w, a);
    HandledPosts(w, u, cb, c, id);
    OneDelivery(u, cb, c, id);
    var b :| HandledBy(u, b, cb, c, id);
    HandledPosts(u, Run(u, b), cb, c, id);
    RunConcat(w, a, b);
    ReachableRun(w, a + b);
    PostedTwiceBy(w, u, Run(w, a + b), cb, c, id);
  }

  // What a failure leaves behind that arrives after the success was journalled: the payment reads
  // failed, its rows stay, and the second event claims the payment was pending.
  ghost predicate FailedAfterJournalling(w: World, v: World, reason: string, c: string, id: string)
    requires c in w.tenants && id in w.tenants[c].db.payments
  {
    && Reachable(v) && c in v.tenants && id in v.tenants[c].db.payments
    && v.tenants[c].db.payments[id].status == Failed && v.tenants[c].db.payments[id].completedAt.Some?
    && v.tenants[c].db.journal == w.tenants[c].db.journal + Template(w.tenants[c].db.payments[id])
    && v.tenants[c].db.events == w.tenants[c].db.events
         + [Event(id, Pending, Completed, None)] + [Event(id, Pending, Failed, NonEmpty(reason))]
  }

  lemma SuccessThenFailure(db: Db, now: int, id: string, s: Settlement, reason: string)
    requires id in db.payments && db.payments[id].id == id && s.Completion? && Postable(db, Template(db.payments[id]))
    ensures var all := SettleFate(true, true, true);
            var u := Finish(db, now, AtRow(id, s), all).db;
            var v := Finish(u, now, AtRow(id, Failure(reason)), all).db;
            && id in v.payments && v.payments[id].status == Failed && v.payments[id].completedAt.Some?
            && v.journal == db.journal + Template(db.payments[id])
            && v.events == db.events + [Event(id, Pending, Completed, None)] + [Event(id, Pending, Failed, NonEmpty(reason))]
  {
    var all := SettleFate(true, true, true);
    FinishPosts(db, now, id, s);
    FinishIs(db, now, id, s, all);
    var u := Finish(db, now, AtRow(id, s), all).db;
    FinishIs(u, now, id, Failure(reason), all);
  }

  lemma FailedBy(w: World, u: World, v: World, cb: Callback, fail: Callback, c: string, id: string)
    requires Deliverable(w, cb, c, id) && Reachable(v)
    requires fail.code != 0 && Handles(w, u, cb, c, id) && c in u.tenants && u.now == w.now && Handles(u, v, fail, c, id)
    ensures FailedAfterJournalling(w, v, fail.desc, c, id)
  {
    SuccessThenFailure(w.tenants[c].db, w.now, id, CallbackSettlement(cb), fail.desc);
  }

  lemma HandlingKeepsRoutes(w: World, v: World, cb: Callback, c: string, id: string)
    requires c in w.tenants && Handles(w, v, cb, c, id)
    ensures v.routes == w.routes && v.now == w.now && |v.threads| == |w.threads| + 1 && c in v.tenants
  {
  }

  // In every reachable state, for every such callback: a failure for the same checkout id, delivered
  // after the success, turns the journalled payment into a failed one.
  lemma FailureAfterSuccess(w: World, cb: Callback, fail: Callback, c: string, id: string)
    requires Reachable(w) && Deliverable(w, cb, c, id)
    requires fail.wellFormed && fail.checkout == cb.checkout && fail.consumer == cb.consumer && fail.code != 0
    ensures exists a, b ::
              && IsDelivery(a, cb, |w.threads|) && IsDelivery(b, fail, |w.threads| + 1)
              && FailedAfterJournalling(w, Run(w, a + b), fail.desc, c, id)
  {
    OneDelivery(w, cb, c, id);
    var a :| HandledBy(w, a, cb, c, id);
    var u := Run(w, a);
    HandlingKeepsRoutes(w, u, cb, c, id);
    OneDelivery(u, fail, c, id);
    var b :| HandledBy(u, b, fail, c, id);
    RunConcat(w, a, b);
    ReachableRun(w, a + b);
    FailedBy(w, u, Run(w, a + b), cb, fail, c, id);
  }

  // ---- Single calls ------------------------------------------------------------------------

  // A settlement's event tells the truth exactly when the payment was pending before the call.
  lemma EventIsTrueIff(db: Db, id: string, s: Settlement)
    requires id in db.payments
    ensures SettledEvent(id, s).from == db.payments[id].status <==> db.payments[id].status == Pending
  {
  }

  // Recording the provider's request id keeps the transaction id exactly when there is none.
  lemma RecordingKeepsTransactionIff(db: Db, id: string, request: string)
    requires id in db.payments
    ensures SetRequestId(db, id, request).payments[id].txId == db.payments[id].txId <==> db.payments[id].txId == None
  {
  }
}
