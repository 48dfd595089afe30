/**
 * Databases that only the reconciler completes payments in: requests, callbacks and deliveries may
 * arrive, interleave and fail payments there, and complete payments elsewhere.
 */
module SoleReconciler {
  import opened Domain
  import opened Ledger
  import opened Tables
  import opened Steps
  import opened Machine
  import opened Invariants
  import opened LedgerTheorems
  import opened Provenance
  import opened Inquiries

  // The reconciler wrote every completion of this history.
  ghost predicate OnlyReconciler(log: seq<Write>) {
    forall k :: 0 <= k < |log| ==> log[k].agent == RECONCILER
  }

  // No payment was completed twice.
  ghost predicate Unrepeated(log: seq<Write>) {
    forall j, k :: 0 <= j < k < |log| ==> log[j].payment != log[k].payment
  }

  // The rest of a batch: distinct payments, none of them completed yet.
  ghost predicate Untouched(log: seq<Write>, batch: seq<Payment>) {
    && (forall j, k :: 0 <= j < k < |batch| ==> batch[j].id != batch[k].id)
    && (forall k :: 0 <= k < |batch| ==> !Wrote(log, batch[k].id))
  }

  ghost predicate NextIs(log: seq<Write>, at: SettlePoint, batch: seq<Payment>) {
    at.AtRow? ==> !Wrote(log, at.payment) && forall k :: 0 <= k < |batch| ==> batch[k].id != at.payment
  }

  // What is left of the current batch, if it is this consumer's, is still to be completed.
  ghost predicate BatchOk(r: ReconPoint, c: string, log: seq<Write>) {
    match r
    case Draining(d, batch, _) => d == c ==> Untouched(log, batch)
    case ReconSettling(d, at, batch, _) => d == c ==> Untouched(log, batch) && NextIs(log, at, batch)
    case _ => true
  }

  ghost predicate SoleOk(w: World, c: string)
    requires c in w.tenants
  {
    var log := w.tenants[c].completions;
    OnlyReconciler(log) ==> Unrepeated(log) && BatchOk(w.recon, c, log)
  }

  // What the reconciler lists is pending, hence not completed.
  lemma ListedIsUntouched(t: Tenant, cutoff: int, batch: seq<Payment>)
    requires PaymentsOk(t) && HistoryOk(t) && IsPendingList(t.db, cutoff, batch)
    ensures Untouched(t.completions, batch)
  {
    forall k | 0 <= k < |batch| ensures !Wrote(t.completions, batch[k].id) {
      assert PaymentOk(t, batch[k].id);
    }
  }

  lemma ListedTenant(tenants: map<string, Tenant>, c: string, cutoff: int, batch: seq<Payment>)
    requires TenantsOk(tenants) && c in tenants && IsPendingList(tenants[c].db, cutoff, batch)
    ensures Untouched(tenants[c].completions, batch)
  {
    assert TenantOk(tenants[c]);
    ListedIsUntouched(tenants[c], cutoff, batch);
  }

  lemma ListBatchKeeps(w: World, m: Move, c: string)
    requires TenantsOk(w.tenants) && c in w.tenants && m.ListBatch?
    requires BatchOk(w.recon, c, w.tenants[c].completions)
    ensures BatchOk(Exec(w, m).recon, c, w.tenants[c].completions)
  {
    ListRecon(w, m);
    var r := Exec(w, m).recon;
    if r != w.recon && r.Draining? {
      ListedTenant(w.tenants, r.consumer, w.now - RECONCILE_AGE, m.batch);
    }
  }

  lemma QueryKeeps(w: World, m: Move, c: string, log: seq<Write>)
    requires BatchOk(w.recon, c, log) && m.QueryStatus?
    ensures BatchOk(Exec(w, m).recon, c, log)
  {
    if w.recon.Draining? && w.recon.batch != [] {
      var b := w.recon.batch;
      assert forall k :: 0 <= k < |b[1..]| ==> b[1..][k] == b[k + 1];
    }
  }

  // Moves that are not the reconciler's leave it alone, up to the start of a new cycle.
  lemma OthersKeepRecon(w: World, m: Move)
    requires !m.SettleNext? && !m.ListBatch? && !m.QueryStatus?
    ensures Exec(w, m).recon == w.recon || Exec(w, m).recon.Sweeping?
  {
  }

  lemma ReconMovesKeep(w: World, m: Move, c: string)
    requires TenantsOk(w.tenants) && c in w.tenants && !m.SettleNext?
    requires BatchOk(w.recon, c, w.tenants[c].completions)
    ensures BatchOk(Exec(w, m).recon, c, w.tenants[c].completions)
  {
    if m.ListBatch? {
      ListBatchKeeps(w, m, c);
    } else if m.QueryStatus? {
      QueryKeeps(w, m, c, w.tenants[c].completions);
    } else {
      OthersKeepRecon(w, m);
    }
  }

  // Another agent's completion is one the reconciler did not write.
  lemma OthersAreNotTheReconciler(w: World, m: Move)
    requires Effect(w, m).Some? && !m.SettleNext?
    ensures Effect(w, m).value.agent != RECONCILER
  {
  }

  lemma OthersKeepHistory(w: World, m: Move, c: string)
    requires c in w.tenants && !m.SettleNext?
    ensures c in Exec(w, m).tenants
    ensures OnlyReconciler(Exec(w, m).tenants[c].completions) ==>
              Exec(w, m).tenants[c].completions == w.tenants[c].completions
  {
    CompletionsChange(w, m, c);
    var log := w.tenants[c].completions;
    if Exec(w, m).tenants[c].completions != log {
      OthersAreNotTheReconciler(w, m);
      assert Exec(w, m).tenants[c].completions[|log|].agent != RECONCILER;
    }
  }

  // The reconciler's own row update touches only the payment it took off the batch.
  lemma OneMoreCompletion(log: seq<Write>, id: string, batch: seq<Payment>)
    requires Unrepeated(log) && Untouched(log, batch)
    requires !Wrote(log, id) && forall k :: 0 <= k < |batch| ==> batch[k].id != id
    ensures Unrepeated(log + [Write(RECONCILER, id)]) && Untouched(log + [Write(RECONCILER, id)], batch)
  {
    assert forall k :: 0 <= k < |log| ==> log[k].payment != id;
    forall k | 0 <= k < |batch| ensures !Wrote(log + [Write(RECONCILER, id)], batch[k].id) {
      WroteAppend(log, Write(RECONCILER, id), batch[k].id);
    }
  }

  lemma SettleNextShape(w: World, m: Move, c: string)
    requires c in w.tenants && m.SettleNext?
    ensures c in Exec(w, m).tenants
    ensures var r, s := w.recon, Exec(w, m).recon;
            var log, next := w.tenants[c].completions, Exec(w, m).tenants[c].completions;
            if !r.ReconSettling? then s == r && next == log
            else
              && (s == Draining(r.consumer, r.batch, r.consumers)
                  || (s.ReconSettling? && !s.at.AtRow? && s.consumer == r.consumer && s.batch == r.batch))
              && (next == log || (r.consumer == c && r.at.AtRow? && next == log + [Write(RECONCILER, r.at.payment)]))
  {
  }

  lemma SettleNextKeeps(w: World, m: Move, c: string)
    requires c in w.tenants && SoleOk(w, c) && m.SettleNext?
    ensures c in Exec(w, m).tenants && SoleOk(Exec(w, m), c)
  {
    SettleNextShape(w, m, c);
    var log, next := w.tenants[c].completions, Exec(w, m).tenants[c].completions;
    if OnlyReconciler(next) {
      assert OnlyReconciler(log) by {
        assert forall k :: 0 <= k < |log| ==> next[k] == log[k];
      }
      if next != log {
        OneMoreCompletion(log, w.recon.at.payment, w.recon.batch);
      }
    }
  }

  lemma ExecSole(w: World, m: Move, c: string)
    requires Inv(w) && c in w.tenants && SoleOk(w, c)
    ensures c in Exec(w, m).tenants && SoleOk(Exec(w, m), c)
  {
    if m.SettleNext? {
      SettleNextKeeps(w, m, c);
    } else {
      OthersKeepHistory(w, m, c);
      if OnlyReconciler(Exec(w, m).tenants[c].completions) {
        ReconMovesKeep(w, m, c);
      }
    }
  }

  lemma {:induction false} RunSole(w: World, moves: seq<Move>, c: string)
    requires Inv(w) && c in w.tenants && SoleOk(w, c)
    ensures c in Run(w, moves).tenants && SoleOk(Run(w, moves), c)
    decreases |moves|
  {
    if moves != [] {
      ExecSole(w, moves[0], c);
      ExecKeeps(w, moves[0]);
      RunSole(Exec(w, moves[0]), moves[1..], c);
    }
  }

  lemma {:induction false} UnrepeatedCount(log: seq<Write>, id: string)
    requires Unrepeated(log)
    ensures Count(log, ForPayment(id)) <= 1
    ensures Count(log, ForPayment(id)) == 1 ==> Wrote(log, id)
  {
    if log != [] {
      var front, last := log[..|log| - 1], log[|log| - 1];
      UnrepeatedCount(front, id);
      assert log == front + [last];
      WroteAppend(front, last, id);
      if last.payment == id {
        assert forall k :: 0 <= k < |front| ==> front[k] == log[k] && front[k].payment != id;
      }
    }
  }

  // In any run, over any number of cycles and whatever else is going on: if the reconciler is the
  // only one that has completed payments in this database, each of its payments has been completed
  // at most once and has at most one journal pair.
  lemma SoleReconcilerIsExactlyOnce(consumers: set<string>, moves: seq<Move>, c: string, id: string)
    requires c in consumers && c in Run(Boot(consumers), moves).tenants
    requires OnlyReconciler(Run(Boot(consumers), moves).tenants[c].completions)
    ensures var t := Run(Boot(consumers), moves).tenants[c];
            && Count(t.completions, ForPayment(id)) <= 1
            && Count(t.postings, ForPayment(id)) <= Count(t.completions, ForPayment(id))
  {
    BootInv(consumers);
    RunSole(Boot(consumers), moves, c);
    RunKeeps(Boot(consumers), moves);
    var t := Run(Boot(consumers), moves).tenants[c];
    UnrepeatedCount(t.completions, id);
    assert TenantOk(t);
    CountMonotone(t.postings, t.completions, ForPayment(id));
  }

  // A callback that reports success, or a charge.success delivery.
  predicate ReportsSuccess(th: Thread) {
    match th
    case Initiator(_, _, _) => false
    case Task(cb, _) => cb.code == 0
    case Hook(_, d, _) => d.event == "charge.success"
  }

  // What a caller can see beforehand: as long as no success has arrived, any number of requests,
  // failing callbacks and failing or ignored deliveries leave all completing to the reconciler.
  lemma WithoutSuccessesOnlyTheReconciler(w: World, c: string)
    requires Reachable(w) && c in w.tenants
    requires forall i :: 0 <= i < |w.threads| ==> !ReportsSuccess(w.threads[i])
    ensures OnlyReconciler(w.tenants[c].completions)
  {
    ReachableRoutes(w);
    forall k | 0 <= k < |w.tenants[c].completions| ensures w.tenants[c].completions[k].agent == RECONCILER {
      assert WriteOk(w, c, w.tenants[c].completions[k]);
    }
  }

  // One whole completion with no call failing.
  function CompletedOnce(t: Tenant, agent: int, id: string, s: Settlement, now: int): Tenant
    requires id in t.db.payments && s.Completion?
  {
    var a := SettleStep(t.db, now, AtRow(id, s), true);
    var u := Log(t, agent, a.db, a.note);
    var b := SettleStep(u.db, now, a.outcome.at, true);
    var v := Log(u, agent, b.db, b.note);
    var c := SettleStep(v.db, now, b.outcome.at, true);
    Log(v, agent, c.db, c.note)
  }

  ghost predicate CanPost(t: Tenant, id: string) {
    id in t.db.payments && t.db.payments[id].id == id && Postable(t.db, Template(t.db.payments[id]))
  }

  lemma CompletionCounts(t: Tenant, agent: int, id: string, s: Settlement, now: int)
    requires CanPost(t, id) && s.Completion?
    ensures var u := CompletedOnce(t, agent, id, s, now);
            && u.completions == t.completions + [Write(agent, id)]
            && u.postings == t.postings + [Write(agent, id)]
            && CanPost(u, id)
  {
    var p, q := t.db.payments[id], SettledRow(t.db.payments[id], s, now);
    assert Template(p) == Template(Core(p)) && Template(q) == Template(Core(q));
  }

  // Without that hypothesis it fails, for every payment that can be posted: the row update has no
  // status guard, so two settlements complete the payment twice and journal it twice.
  lemma TwoCompletionsPostTwice(t: Tenant, id: string, s: Settlement, now: int)
    requires CanPost(t, id) && s.Completion?
    ensures var two := CompletedOnce(CompletedOnce(t, 0, id, s, now), 1, id, s, now);
            && Count(two.completions, ForPayment(id)) == Count(t.completions, ForPayment(id)) + 2
            && Count(two.postings, ForPayment(id)) == Count(t.postings, ForPayment(id)) + 2
  {
    var one := CompletedOnce(t, 0, id, s, now);
    CompletionCounts(t, 0, id, s, now);
    CompletionCounts(one, 1, id, s, now);
    CountAppend(t.completions, Write(0, id), ForPayment(id));
    CountAppend(one.completions, Write(1, id), ForPayment(id));
    CountAppend(t.postings, Write(0, id), ForPayment(id));
    CountAppend(one.postings, Write(1, id), ForPayment(id));
  }

  // In any sound database, a completion leaves its payment completed exactly once if and only if
  // completed_at was not set before the call, the guard the update does not make; and then it is
  // journalled exactly once too.
  lemma ExactlyOnceIff(t: Tenant, agent: int, id: string, s: Settlement, now: int)
    requires HistoryOk(t) && Covered(t) && CanPost(t, id) && s.Completion?
    ensures var u := CompletedOnce(t, agent, id, s, now);
            && (Count(u.completions, ForPayment(id)) == 1 <==> t.db.payments[id].completedAt.None?)
            && (t.db.payments[id].completedAt.None? ==> Count(u.postings, ForPayment(id)) == 1)
  {
    CompletionCounts(t, agent, id, s, now);
    CountAppend(t.completions, Write(agent, id), ForPayment(id));
    CountAppend(t.postings, Write(agent, id), ForPayment(id));
    CountIsWrote(t.completions, id);
    CountMonotone(t.postings, t.completions, ForPayment(id));
  }
}
