/**
 * Why the reconciler completes what it completes, and with it the reason behind every completion in
 * any history: a status answer, an STK callback or a Paystack delivery for that very payment.
 */
module Inquiries {
  import opened Base
  import opened Domain
  import opened Tables
  import opened Steps
  import opened Machine
  import opened Invariants
  import opened Provenance
  import opened Requests

  // A stored payment that was pending when it was listed.
  ghost predicate RowOk(tenants: map<string, Tenant>, c: string, row: Payment) {
    row.status == Pending && c in tenants && Holds(tenants[c], row)
  }

  // The reconciler asked about such a payment, with the request id it then had.
  ghost predicate InquiryOk(tenants: map<string, Tenant>, q: Inquiry) {
    RowOk(tenants, q.consumer, q.row) && q.sent == SentId(q.row)
  }

  ghost predicate AnsweredOk(w: World) {
    forall j :: 0 <= j < |w.answered| ==> InquiryOk(w.tenants, w.answered[j])
  }

  ghost predicate BatchEvident(tenants: map<string, Tenant>, r: ReconPoint) {
    r.Draining? || r.ReconSettling? ==>
      && r.consumer in tenants
      && forall k :: 0 <= k < |r.batch| ==> RowOk(tenants, r.consumer, r.batch[k])
  }

  // Daraja answered a query about this payment, and the answer means this settlement.
  ghost predicate Answers(q: Inquiry, c: string, id: string, s: Settlement) {
    q.consumer == c && q.row.id == id && Verdict(q.status) == s
  }

  ghost predicate RowEvident(w: World) {
    w.recon.ReconSettling? && w.recon.at.AtRow? ==>
      exists j :: 0 <= j < |w.answered| && Answers(w.answered[j], w.recon.consumer, w.recon.at.payment, w.recon.at.s)
  }

  // Daraja reported this payment as done: result code 0 or status completed.
  ghost predicate Reports(q: Inquiry, c: string, id: string) {
    q.consumer == c && q.row.id == id && (q.status.code == "0" || q.status.status == "completed")
  }

  ghost predicate Confirmed(w: World, c: string, id: string) {
    exists j :: 0 <= j < |w.answered| && Reports(w.answered[j], c, id) && InquiryOk(w.tenants, w.answered[j])
  }

  ghost predicate LogConfirmed(w: World, c: string, log: seq<Write>) {
    forall k :: 0 <= k < |log| && log[k].agent == RECONCILER ==> Confirmed(w, c, log[k].payment)
  }

  ghost predicate WritesConfirmed(w: World) {
    forall c :: c in w.tenants ==> LogConfirmed(w, c, w.tenants[c].completions)
  }

  ghost predicate InquiryInv(w: World) {
    AnsweredOk(w) && BatchEvident(w.tenants, w.recon) && RowEvident(w) && WritesConfirmed(w)
  }

  // ---- What each move does to the reconciler ---------------------------------------------

  lemma HoldsKept(t: Tenant, u: Tenant, row: Payment)
    requires Holds(t, row) && Grows(t, u)
    ensures Holds(u, row)
  {
    assert PaymentGrows(t.db.payments[row.id], u.db.payments[row.id]);
  }

  lemma InquiryKept(w: World, v: World, q: Inquiry)
    requires WorldGrows(w, v) && InquiryOk(w.tenants, q)
    ensures InquiryOk(v.tenants, q)
  {
    HoldsKept(w.tenants[q.consumer], v.tenants[q.consumer], q.row);
  }

  lemma BatchGrows(w: World, v: World, r: ReconPoint)
    requires WorldGrows(w, v) && BatchEvident(w.tenants, r)
    ensures BatchEvident(v.tenants, r)
  {
    if r.Draining? || r.ReconSettling? {
      forall k | 0 <= k < |r.batch| ensures RowOk(v.tenants, r.consumer, r.batch[k]) {
        HoldsKept(w.tenants[r.consumer], v.tenants[r.consumer], r.batch[k]);
      }
    }
  }

  // Moves other than a status query record no answer, and only the reconciler's own next call
  // touches a settlement in progress.
  lemma QuietRecon(w: World, m: Move)
    requires !m.QueryStatus? && !m.ListBatch?
    ensures var r := Exec(w, m).recon;
            && Exec(w, m).answered == w.answered
            && (r == w.recon || r.Sweeping?
                || (w.recon.ReconSettling? && r.Draining? && r.consumer == w.recon.consumer && r.batch == w.recon.batch)
                || (w.recon.ReconSettling? && r.ReconSettling? && !r.at.AtRow?
                    && r.consumer == w.recon.consumer && r.batch == w.recon.batch))
  {
  }

  lemma ListRecon(w: World, m: Move)
    requires m.ListBatch?
    ensures var r := Exec(w, m).recon;
            && Exec(w, m).answered == w.answered && Exec(w, m).tenants == w.tenants
            && (r == w.recon || r.Sweeping? || r.Idle?
                || (r.Draining? && r.batch == m.batch && r.consumer in w.tenants
                    && IsPendingList(w.tenants[r.consumer].db, w.now - RECONCILE_AGE, m.batch)))
  {
  }

  lemma QueryRecon(w: World, m: Move)
    requires m.QueryStatus?
    ensures var v, r := Exec(w, m), w.recon;
            && v.tenants == w.tenants
            && (|| (v.recon == r && v.answered == w.answered)
                || (&& r.Draining? && r.batch != [] && v.answered == w.answered
                    && v.recon == Draining(r.consumer, r.batch[1..], r.consumers))
                || (&& r.Draining? && r.batch != []
                    && v.answered == w.answered + [Inquiry(r.consumer, r.batch[0], SentId(r.batch[0]), m.status)]
                    && v.recon == ReconSettling(r.consumer, AtRow(r.batch[0].id, Verdict(m.status)), r.batch[1..], r.consumers)))
  {
  }

  // ---- Each part is kept ------------------------------------------------------------------

  lemma ListKeepsBatch(w: World, m: Move)
    requires BatchEvident(w.tenants, w.recon) && m.ListBatch?
    requires StoredIds(w.tenants)
    ensures BatchEvident(Exec(w, m).tenants, Exec(w, m).recon)
  {
    ListRecon(w, m);
  }

  lemma QueryKeepsBatch(w: World, m: Move)
    requires BatchEvident(w.tenants, w.recon) && m.QueryStatus?
    ensures BatchEvident(Exec(w, m).tenants, Exec(w, m).recon)
  {
    QueryRecon(w, m);
    if w.recon.Draining? && w.recon.batch != [] {
      var b := w.recon.batch;
      assert forall k :: 0 <= k < |b[1..]| ==> b[1..][k] == b[k + 1];
    }
  }

  lemma BatchKept(w: World, m: Move)
    requires Inv(w) && BatchEvident(w.tenants, w.recon)
    ensures BatchEvident(Exec(w, m).tenants, Exec(w, m).recon)
  {
    if m.ListBatch? {
      TenantsStoreIds(w.tenants);
      ListKeepsBatch(w, m);
    } else if m.QueryStatus? {
      QueryKeepsBatch(w, m);
    } else {
      QuietRecon(w, m);
      ExecGrowsWorld(w, m);
      BatchGrows(w, Exec(w, m), w.recon);
    }
  }

  lemma AnswersGrow(w: World, m: Move)
    requires BatchEvident(w.tenants, w.recon)
    ensures w.answered <= Exec(w, m).answered
    ensures forall j :: |w.answered| <= j < |Exec(w, m).answered| ==> InquiryOk(w.tenants, Exec(w, m).answered[j])
  {
    if m.QueryStatus? {
      QueryRecon(w, m);
      if w.recon.Draining? && w.recon.batch != [] {
        assert RowOk(w.tenants, w.recon.consumer, w.recon.batch[0]);
      }
    } else if m.ListBatch? {
      ListRecon(w, m);
    } else {
      QuietRecon(w, m);
    }
  }

  lemma AnsweredKept(w: World, m: Move)
    requires Inv(w) && AnsweredOk(w) && BatchEvident(w.tenants, w.recon)
    ensures AnsweredOk(Exec(w, m))
  {
    ExecGrowsWorld(w, m);
    AnswersGrow(w, m);
    forall j | 0 <= j < |Exec(w, m).answered| ensures InquiryOk(Exec(w, m).tenants, Exec(w, m).answered[j]) {
      if j < |w.answered| { assert Exec(w, m).answered[j] == w.answered[j]; }
      InquiryKept(w, Exec(w, m), Exec(w, m).answered[j]);
    }
  }

  lemma RowEvidentKept(w: World, m: Move)
    requires RowEvident(w)
    ensures RowEvident(Exec(w, m))
  {
    if m.QueryStatus? {
      QueryRecon(w, m);
      var v := Exec(w, m);
      if |v.answered| > |w.answered| {
        assert Answers(v.answered[|w.answered|], v.recon.consumer, v.recon.at.payment, v.recon.at.s);
      }
    } else if m.ListBatch? {
      ListRecon(w, m);
    } else {
      QuietRecon(w, m);
    }
  }

  lemma ConfirmedKept(w: World, v: World, c: string, id: string)
    requires WorldGrows(w, v) && w.answered <= v.answered && Confirmed(w, c, id)
    ensures Confirmed(v, c, id)
  {
    var j :| 0 <= j < |w.answered| && Reports(w.answered[j], c, id) && InquiryOk(w.tenants, w.answered[j]);
    assert v.answered[j] == w.answered[j];
    InquiryKept(w, v, w.answered[j]);
  }

  lemma LogKept(w: World, v: World, c: string, log: seq<Write>)
    requires WorldGrows(w, v) && w.answered <= v.answered && LogConfirmed(w, c, log)
    ensures LogConfirmed(v, c, log)
  {
    forall k | 0 <= k < |log| && log[k].agent == RECONCILER ensures Confirmed(v, c, log[k].payment) {
      ConfirmedKept(w, v, c, log[k].payment);
    }
  }

  // A completion the reconciler is about to write has been confirmed.
  lemma NextIsConfirmed(w: World)
    requires AnsweredOk(w) && RowEvident(w)
    requires w.recon.ReconSettling? && w.recon.at.AtRow? && w.recon.at.s.Completion?
    ensures Confirmed(w, w.recon.consumer, w.recon.at.payment)
  {
    var j :| 0 <= j < |w.answered| && Answers(w.answered[j], w.recon.consumer, w.recon.at.payment, w.recon.at.s);
    assert Reports(w.answered[j], w.recon.consumer, w.recon.at.payment);
  }

  lemma ReconcilerWrites(w: World, m: Move)
    requires Effect(w, m).Some? && IsCompletion(Effect(w, m).value.note) && Effect(w, m).value.agent == RECONCILER
    ensures m.SettleNext? && w.recon.ReconSettling? && w.recon.at.AtRow? && w.recon.at.s.Completion?
    ensures Effect(w, m).value.consumer == w.recon.consumer && Effect(w, m).value.note.payment == w.recon.at.payment
  {
  }

  lemma OldWritesConfirmed(w: World, m: Move, c: string)
    requires Inv(w) && WritesConfirmed(w) && BatchEvident(w.tenants, w.recon) && c in w.tenants
    ensures LogConfirmed(Exec(w, m), c, w.tenants[c].completions)
  {
    ExecGrowsWorld(w, m);
    AnswersGrow(w, m);
    LogKept(w, Exec(w, m), c, w.tenants[c].completions);
  }

  lemma NewWriteConfirmed(w: World, m: Move)
    requires Inv(w) && AnsweredOk(w) && BatchEvident(w.tenants, w.recon) && RowEvident(w)
    requires Effect(w, m).Some? && IsCompletion(Effect(w, m).value.note) && Effect(w, m).value.agent == RECONCILER
    ensures Confirmed(Exec(w, m), Effect(w, m).value.consumer, Effect(w, m).value.note.payment)
  {
    ReconcilerWrites(w, m);
    NextIsConfirmed(w);
    ExecGrowsWorld(w, m);
    AnswersGrow(w, m);
    ConfirmedKept(w, Exec(w, m), w.recon.consumer, w.recon.at.payment);
  }

  lemma LogAppend(v: World, c: string, log: seq<Write>, x: Write)
    requires LogConfirmed(v, c, log) && (x.agent == RECONCILER ==> Confirmed(v, c, x.payment))
    ensures LogConfirmed(v, c, log + [x])
  {
  }

  lemma TenantConfirmed(w: World, m: Move, c: string)
    requires Inv(w) && InquiryInv(w) && c in w.tenants
    ensures c in Exec(w, m).tenants && LogConfirmed(Exec(w, m), c, Exec(w, m).tenants[c].completions)
  {
    CompletionsChange(w, m, c);
    OldWritesConfirmed(w, m, c);
    if Exec(w, m).tenants[c].completions != w.tenants[c].completions {
      var x := Effect(w, m).value;
      if x.agent == RECONCILER { NewWriteConfirmed(w, m); }
      LogAppend(Exec(w, m), c, w.tenants[c].completions, Write(x.agent, x.note.payment));
    }
  }

  lemma WritesConfirmedKept(w: World, m: Move)
    requires Inv(w) && InquiryInv(w)
    ensures WritesConfirmed(Exec(w, m))
  {
    SameConsumers(w, m);
    forall c | c in w.tenants ensures LogConfirmed(Exec(w, m), c, Exec(w, m).tenants[c].completions) {
      TenantConfirmed(w, m, c);
    }
  }

  lemma {:induction false} RunInquiries(w: World, moves: seq<Move>)
    requires Inv(w) && InquiryInv(w)
    ensures InquiryInv(Run(w, moves))
    decreases |moves|
  {
    if moves != [] {
      var m := moves[0];
      BatchKept(w, m);
      AnsweredKept(w, m);
      RowEvidentKept(w, m);
      WritesConfirmedKept(w, m);
      ExecKeeps(w, m);
      RunInquiries(Exec(w, m), moves[1..]);
    }
  }

  lemma ReachableInquiries(w: World)
    requires Reachable(w)
    ensures InquiryInv(w)
  {
    var consumers, moves :| Configured(consumers) && w == Run(Boot(consumers), moves);
    BootInv(consumers);
    RunInquiries(Boot(consumers), moves);
  }

  // ---- Which queries name their payment ------------------------------------------------------

  ghost predicate BatchRecorded(w: World, r: ReconPoint) {
    r.Draining? || r.ReconSettling? ==> forall k :: 0 <= k < |r.batch| ==> RowRecorded(w, r.consumer, r.batch[k])
  }

  ghost predicate RowsRecorded(w: World) {
    BatchRecorded(w, w.recon) && forall j :: 0 <= j < |w.answered| ==> RowRecorded(w, w.answered[j].consumer, w.answered[j].row)
  }

  lemma BatchStaysRecorded(w: World, v: World, r: ReconPoint)
    requires WorldGrows(w, v) && BatchRecorded(w, r)
    ensures BatchRecorded(v, r)
  {
    if r.Draining? || r.ReconSettling? {
      forall k | 0 <= k < |r.batch| ensures RowRecorded(v, r.consumer, r.batch[k]) {
        RowRecordedKept(w, v, r.consumer, r.batch[k]);
      }
    }
  }

  // The batch after a move is the old one, its rest, or freshly listed.
  lemma NextBatchRecorded(w: World, m: Move)
    requires StoredRecorded(w) && BatchRecorded(w, w.recon)
    ensures BatchRecorded(w, Exec(w, m).recon)
  {
    if m.ListBatch? {
      ListRecon(w, m);
    } else if m.QueryStatus? {
      QueryRecon(w, m);
      if w.recon.Draining? && w.recon.batch != [] {
        var b := w.recon.batch;
        assert forall k :: 0 <= k < |b[1..]| ==> b[1..][k] == b[k + 1];
      }
    } else {
      QuietRecon(w, m);
    }
  }

  lemma NewAnswersRecorded(w: World, m: Move)
    requires BatchRecorded(w, w.recon)
    ensures w.answered <= Exec(w, m).answered
    ensures forall j :: |w.answered| <= j < |Exec(w, m).answered| ==>
              RowRecorded(w, Exec(w, m).answered[j].consumer, Exec(w, m).answered[j].row)
  {
    if m.QueryStatus? {
      QueryRecon(w, m);
    } else if m.ListBatch? {
      ListRecon(w, m);
    } else {
      QuietRecon(w, m);
    }
  }

  lemma RowsStayRecorded(w: World, m: Move)
    requires Inv(w) && StoredRecorded(w) && RowsRecorded(w)
    ensures RowsRecorded(Exec(w, m))
  {
    var v := Exec(w, m);
    ExecGrowsWorld(w, m);
    NextBatchRecorded(w, m);
    BatchStaysRecorded(w, v, v.recon);
    NewAnswersRecorded(w, m);
    forall j | 0 <= j < |v.answered| ensures RowRecorded(v, v.answered[j].consumer, v.answered[j].row) {
      if j < |w.answered| { assert v.answered[j] == w.answered[j]; }
      RowRecordedKept(w, v, v.answered[j].consumer, v.answered[j].row);
    }
  }

  lemma {:induction false} RunRowsRecorded(consumers: set<string>, moves: seq<Move>)
    requires Configured(consumers)
    ensures RowsRecorded(Run(Boot(consumers), moves))
    decreases |moves|
  {
    if moves != [] {
      var front := moves[..|moves| - 1];
      RunRowsRecorded(consumers, front);
      var w := Run(Boot(consumers), front);
      ReachableInv(w);
      RunRequests(consumers, front);
      RowsStayRecorded(w, moves[|moves| - 1]);
      RunSnoc(Boot(consumers), moves);
    }
  }

  // What the query said about its payment. With a request id recorded when the payment was listed,
  // the query carried that id, which the provider gave to this very payment; without one it carried
  // an empty transaction id and named no payment at all.
  ghost predicate QueryNames(w: World, q: Inquiry) {
    if q.row.requestId.Some? then
      && q.sent != "" && q.row.requestId == Some(q.sent)
      && q.consumer in w.tenants && CalledFor(w.tenants[q.consumer], q.row.id)
      && (q.row.kind.StkPush? ==> Names(w, q.sent, q.consumer, q.row.id))
    else q.sent == ""
  }

  lemma InquiriesNameTheirPayment(w: World, j: nat)
    requires Reachable(w) && j < |w.answered|
    ensures InquiryOk(w.tenants, w.answered[j]) && QueryNames(w, w.answered[j])
  {
    var consumers, moves :| Configured(consumers) && w == Run(Boot(consumers), moves);
    RunRowsRecorded(consumers, moves);
    ReachableInquiries(w);
    assert RowRecorded(w, w.answered[j].consumer, w.answered[j].row);
  }

  // ---- How old the payments are ---------------------------------------------------------------

  ghost predicate BatchOld(r: ReconPoint, now: int) {
    r.Draining? || r.ReconSettling? ==> forall k :: 0 <= k < |r.batch| ==> r.batch[k].createdAt + 120 < now
  }

  ghost predicate AllOld(w: World) {
    BatchOld(w.recon, w.now) && forall j :: 0 <= j < |w.answered| ==> w.answered[j].row.createdAt + 120 < w.now
  }

  lemma ClockRuns(w: World, m: Move)
    ensures Exec(w, m).now >= w.now
  {
  }

  lemma AllStayOld(w: World, m: Move)
    requires AllOld(w)
    ensures AllOld(Exec(w, m))
  {
    ClockRuns(w, m);
    if m.ListBatch? {
      ListRecon(w, m);
    } else if m.QueryStatus? {
      QueryRecon(w, m);
      if w.recon.Draining? && w.recon.batch != [] {
        var b := w.recon.batch;
        assert forall k :: 0 <= k < |b[1..]| ==> b[1..][k] == b[k + 1];
      }
    } else {
      QuietRecon(w, m);
    }
  }

  lemma {:induction false} RunAllOld(w: World, moves: seq<Move>)
    requires AllOld(w)
    ensures AllOld(Run(w, moves))
    decreases |moves|
  {
    if moves != [] {
      AllStayOld(w, moves[0]);
      RunAllOld(Exec(w, moves[0]), moves[1..]);
    }
  }

  // No payment is asked about before it is two minutes old.
  lemma InquiriesAreLate(w: World, j: nat)
    requires Reachable(w) && j < |w.answered|
    ensures w.answered[j].row.createdAt + 120 < w.now && w.answered[j].row.status == Pending
  {
    var consumers, moves :| Configured(consumers) && w == Run(Boot(consumers), moves);
    RunAllOld(Boot(consumers), moves);
    ReachableInquiries(w);
    assert InquiryOk(w.tenants, w.answered[j]);
  }

  // An answered query is about an M-PESA payment exactly when its row is not a Paystack charge; the
  // list is not filtered by provider.
  lemma InquiryIsMpesaIff(w: World, j: nat)
    requires Reachable(w) && j < |w.answered|
    ensures w.answered[j].row.provider == Mpesa <==> !w.answered[j].row.kind.PaystackCharge?
  {
    ReachableInquiries(w);
    ReachableInv(w);
    var q := w.answered[j];
    assert InquiryOk(w.tenants, q);
    assert TenantOk(w.tenants[q.consumer]) && PaymentOk(w.tenants[q.consumer], q.row.id);
    assert Core(w.tenants[q.consumer].db.payments[q.row.id]).provider == Core(q.row).provider;
    assert Core(w.tenants[q.consumer].db.payments[q.row.id]).kind == Core(q.row).kind;
  }

  // ---- The theorem --------------------------------------------------------------------------

  // Daraja hands out each checkout id once.
  ghost predicate CheckoutsDistinct(w: World) {
    forall j, k :: 0 <= j < k < |w.issued| ==> w.issued[j].checkout != w.issued[k].checkout
  }

  // Daraja answered a query made for this payment with code 0 or status completed.
  ghost predicate Grounded(w: World, c: string, id: string) {
    exists j :: 0 <= j < |w.answered| && Reports(w.answered[j], c, id)
                && InquiryOk(w.tenants, w.answered[j]) && QueryNames(w, w.answered[j])
  }

  // The reason for a completion of a payment of consumer c.
  ghost predicate Explained(w: World, c: string, x: Write) {
    if x.agent == RECONCILER then Grounded(w, c, x.payment)
    else 0 <= x.agent < |w.threads| && Justified(w, c, w.threads[x.agent], x.payment)
  }

  lemma ConfirmedIsGrounded(w: World, c: string, id: string)
    requires Reachable(w) && Confirmed(w, c, id)
    ensures Grounded(w, c, id)
  {
    var j :| 0 <= j < |w.answered| && Reports(w.answered[j], c, id) && InquiryOk(w.tenants, w.answered[j]);
    InquiriesNameTheirPayment(w, j);
  }

  // Every completion in any history has its reason: a Daraja answer with code 0 or status completed
  // to the query the reconciler made for this payment, which was pending when listed, where the query
  // names the payment exactly when a request id was recorded by then; an STK callback with result
  // code 0 whose checkout id was issued to this very payment; or a Paystack charge.success for this
  // payment with the recorded amount. Given distinct checkout ids, the STK payment is the only one
  // the callback could have completed.
  lemma CompletionsAreJustified(w: World, c: string, k: nat)
    requires Reachable(w) && c in w.tenants && k < |w.tenants[c].completions|
    ensures var x := w.tenants[c].completions[k];
            && Explained(w, c, x)
            && (x.agent >= 0 && w.threads[x.agent].Task? && CheckoutsDistinct(w) ==>
                  forall d, id :: Names(w, w.threads[x.agent].callback.checkout, d, id) ==> d == c && id == x.payment)
  {
    ReachableRoutes(w);
    ReachableInquiries(w);
    var x := w.tenants[c].completions[k];
    assert WriteOk(w, c, x);
    assert LogConfirmed(w, c, w.tenants[c].completions);
    if x.agent == RECONCILER { ConfirmedIsGrounded(w, c, x.payment); }
  }
}
