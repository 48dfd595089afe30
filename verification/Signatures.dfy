/**
 * The check behind a Paystack completion: at some earlier moment the delivery was authentic under the
 * secret the payment's client then had active. Nothing checks that the payment is a Paystack one.
 */
module Signatures {
  import opened Base
  import opened Domain
  import opened Tables
  import opened Steps
  import opened Machine
  import opened Invariants
  import opened Provenance

  // The delivery reports success for a stored payment with its recorded amount, and is signed with
  // the secret that the payment's client has active now.
  ghost predicate Genuine(w: World, c: string, d: Delivery) {
    && c in w.tenants && d.event == "charge.success" && d.reference in w.tenants[c].db.payments
    && var db := w.tenants[c].db;
       var p := db.payments[d.reference];
       p.client in db.paystack && Decrypt(db.paystack[p.client]) == Some(d.signer) && d.amount == p.amount
  }

  // It was genuine at some moment of the run.
  ghost predicate WasGenuine(consumers: set<string>, moves: seq<Move>, c: string, d: Delivery) {
    exists i :: 0 <= i <= |moves| && Genuine(Run(Boot(consumers), moves[..i]), c, d)
  }

  lemma StaysGenuine(consumers: set<string>, moves: seq<Move>, c: string, d: Delivery)
    requires moves != [] && WasGenuine(consumers, moves[..|moves| - 1], c, d)
    ensures WasGenuine(consumers, moves, c, d)
  {
    var front := moves[..|moves| - 1];
    var i :| 0 <= i <= |front| && Genuine(Run(Boot(consumers), front[..i]), c, d);
    assert moves[..i] == front[..i];
  }

  lemma GenuineBefore(consumers: set<string>, moves: seq<Move>, w: World, c: string, d: Delivery)
    requires moves != [] && w == Run(Boot(consumers), moves[..|moves| - 1]) && Genuine(w, c, d)
    ensures WasGenuine(consumers, moves, c, d)
  {
    assert Genuine(Run(Boot(consumers), moves[..|moves| - 1]), c, d);
  }

  // A delivery about to write a completion.
  predicate AboutToComplete(th: Thread) {
    th.Hook? && th.hook.HookSettling? && th.hook.at.AtRow? && th.hook.at.s.Completion?
  }

  ghost predicate PointsSigned(consumers: set<string>, moves: seq<Move>, threads: seq<Thread>) {
    forall i :: 0 <= i < |threads| && AboutToComplete(threads[i]) ==>
      WasGenuine(consumers, moves, threads[i].consumer, threads[i].delivery)
  }

  ghost predicate WriteSigned(consumers: set<string>, moves: seq<Move>, threads: seq<Thread>, x: Write) {
    0 <= x.agent < |threads| && threads[x.agent].Hook? ==>
      WasGenuine(consumers, moves, threads[x.agent].consumer, threads[x.agent].delivery)
  }

  ghost predicate LogSigned(consumers: set<string>, moves: seq<Move>, threads: seq<Thread>, log: seq<Write>) {
    forall k :: 0 <= k < |log| ==> WriteSigned(consumers, moves, threads, log[k])
  }

  ghost predicate SignedInv(consumers: set<string>, moves: seq<Move>) {
    var w := Run(Boot(consumers), moves);
    && PointsSigned(consumers, moves, w.threads)
    && forall c :: c in w.tenants ==> LogSigned(consumers, moves, w.threads, w.tenants[c].completions)
  }

  // A delivery becomes about to complete only by passing the check.
  lemma CheckPasses(w: World, who: nat, ok: bool)
    requires who < |w.threads| && w.threads[who].Hook?
    requires EvidenceOk(w, w.threads[who]) && ThreadOk(w.tenants, who, w.threads[who])
    requires AboutToComplete(ActHook(w, who, ok).threads[who])
    ensures Genuine(w, w.threads[who].consumer, w.threads[who].delivery) || AboutToComplete(w.threads[who])
  {
    var th := w.threads[who];
    if th.consumer in w.tenants && th.hook.Looked? {
      var db := w.tenants[th.consumer].db;
      assert Core(db.payments[th.hook.row.id]).client == Core(th.hook.row).client;
      assert Core(db.payments[th.hook.row.id]).amount == Core(th.hook.row).amount;
    }
  }

  lemma ActorSigned(consumers: set<string>, moves: seq<Move>, w: World, who: nat, ok: bool)
    requires moves != [] && w == Run(Boot(consumers), moves[..|moves| - 1])
    requires who < |w.threads| && w.threads[who].Hook?
    requires EvidenceOk(w, w.threads[who]) && ThreadOk(w.tenants, who, w.threads[who])
    requires PointsSigned(consumers, moves[..|moves| - 1], w.threads)
    requires AboutToComplete(ActHook(w, who, ok).threads[who])
    ensures WasGenuine(consumers, moves, w.threads[who].consumer, w.threads[who].delivery)
  {
    var th := w.threads[who];
    CheckPasses(w, who, ok);
    if Genuine(w, th.consumer, th.delivery) {
      GenuineBefore(consumers, moves, w, th.consumer, th.delivery);
    } else {
      StaysGenuine(consumers, moves, th.consumer, th.delivery);
    }
  }

  lemma PointSigned(consumers: set<string>, moves: seq<Move>, w: World, m: Move, i: nat)
    requires moves != [] && w == Run(Boot(consumers), moves[..|moves| - 1])
    requires ThreadsOk(w.tenants, w.threads) && ThreadsEvident(w)
    requires PointsSigned(consumers, moves[..|moves| - 1], w.threads)
    requires i < |Exec(w, m).threads| && AboutToComplete(Exec(w, m).threads[i])
    ensures WasGenuine(consumers, moves, Exec(w, m).threads[i].consumer, Exec(w, m).threads[i].delivery)
  {
    if i >= |w.threads| {
      NewThreadUnstarted(w, m, i);
    } else if m.Act? && m.who == i {
      ActLocal(w, i, m.ok, m.text);
      assert EvidenceOk(w, w.threads[i]) && ThreadOk(w.tenants, i, w.threads[i]);
      ActorSigned(consumers, moves, w, i, m.ok);
    } else {
      BystanderSame(w, m, i);
      StaysGenuine(consumers, moves, w.threads[i].consumer, w.threads[i].delivery);
    }
  }

  // A new completion by a delivery is by one that was about to complete.
  lemma CompleterIsAbout(w: World, m: Move)
    requires Effect(w, m).Some? && IsCompletion(Effect(w, m).value.note)
    ensures var x := Effect(w, m).value;
            x.agent < |w.threads|
            && (0 <= x.agent && w.threads[x.agent].Hook? ==> AboutToComplete(w.threads[x.agent]))
  {
  }

  lemma OldWriteSigned(consumers: set<string>, moves: seq<Move>, before: seq<Thread>, after: seq<Thread>, x: Write)
    requires moves != [] && |before| <= |after| && x.agent < |before|
    requires forall i :: 0 <= i < |before| ==> SameIdentity(before[i], after[i])
    requires WriteSigned(consumers, moves[..|moves| - 1], before, x)
    ensures WriteSigned(consumers, moves, after, x)
  {
    if 0 <= x.agent && after[x.agent].Hook? {
      StaysGenuine(consumers, moves, after[x.agent].consumer, after[x.agent].delivery);
    }
  }

  lemma LogStaysSigned(consumers: set<string>, moves: seq<Move>, before: seq<Thread>, after: seq<Thread>, log: seq<Write>)
    requires moves != [] && |before| <= |after|
    requires forall i :: 0 <= i < |before| ==> SameIdentity(before[i], after[i])
    requires forall k :: 0 <= k < |log| ==> log[k].agent < |before|
    requires LogSigned(consumers, moves[..|moves| - 1], before, log)
    ensures LogSigned(consumers, moves, after, log)
  {
    forall k | 0 <= k < |log| ensures WriteSigned(consumers, moves, after, log[k]) {
      OldWriteSigned(consumers, moves, before, after, log[k]);
    }
  }

  lemma AgentsExist(w: World, c: string)
    requires Reachable(w) && c in w.tenants
    ensures forall k :: 0 <= k < |w.tenants[c].completions| ==> w.tenants[c].completions[k].agent < |w.threads|
  {
    ReachableRoutes(w);
    forall k | 0 <= k < |w.tenants[c].completions| ensures w.tenants[c].completions[k].agent < |w.threads| {
      assert WriteOk(w, c, w.tenants[c].completions[k]);
    }
  }

  lemma NewWriteSigned(consumers: set<string>, moves: seq<Move>, w: World, v: World, m: Move)
    requires moves != [] && PointsSigned(consumers, moves[..|moves| - 1], w.threads)
    requires |w.threads| <= |v.threads| && forall i :: 0 <= i < |w.threads| ==> SameIdentity(w.threads[i], v.threads[i])
    requires Effect(w, m).Some? && IsCompletion(Effect(w, m).value.note)
    ensures WriteSigned(consumers, moves, v.threads, Write(Effect(w, m).value.agent, Effect(w, m).value.note.payment))
  {
    CompleterIsAbout(w, m);
    var agent := Effect(w, m).value.agent;
    if 0 <= agent && v.threads[agent].Hook? {
      StaysGenuine(consumers, moves, v.threads[agent].consumer, v.threads[agent].delivery);
    }
  }

  lemma TenantSigned(consumers: set<string>, moves: seq<Move>, w: World, m: Move, c: string)
    requires moves != [] && c in w.tenants
    requires forall k :: 0 <= k < |w.tenants[c].completions| ==> w.tenants[c].completions[k].agent < |w.threads|
    requires PointsSigned(consumers, moves[..|moves| - 1], w.threads)
    requires LogSigned(consumers, moves[..|moves| - 1], w.threads, w.tenants[c].completions)
    ensures c in Exec(w, m).tenants
    ensures LogSigned(consumers, moves, Exec(w, m).threads, Exec(w, m).tenants[c].completions)
  {
    var v := Exec(w, m);
    CompletionsChange(w, m, c);
    IdentityKept(w, m);
    LogStaysSigned(consumers, moves, w.threads, v.threads, w.tenants[c].completions);
    if v.tenants[c].completions != w.tenants[c].completions {
      NewWriteSigned(consumers, moves, w, v, m);
    }
  }

  lemma TenantsSigned(consumers: set<string>, moves: seq<Move>, w: World, m: Move)
    requires Configured(consumers) && moves != []
    requires w == Run(Boot(consumers), moves[..|moves| - 1]) && SignedInv(consumers, moves[..|moves| - 1])
    ensures forall c :: c in Exec(w, m).tenants ==> LogSigned(consumers, moves, Exec(w, m).threads, Exec(w, m).tenants[c].completions)
  {
    SameConsumers(w, m);
    forall c | c in w.tenants ensures LogSigned(consumers, moves, Exec(w, m).threads, Exec(w, m).tenants[c].completions) {
      AgentsExist(w, c);
      TenantSigned(consumers, moves, w, m, c);
    }
  }

  lemma PointsStaySigned(consumers: set<string>, moves: seq<Move>, w: World, m: Move)
    requires Configured(consumers) && moves != []
    requires w == Run(Boot(consumers), moves[..|moves| - 1]) && SignedInv(consumers, moves[..|moves| - 1])
    ensures PointsSigned(consumers, moves, Exec(w, m).threads)
  {
    ReachableInv(w);
    ReachableRoutes(w);
    forall i | 0 <= i < |Exec(w, m).threads| && AboutToComplete(Exec(w, m).threads[i])
      ensures WasGenuine(consumers, moves, Exec(w, m).threads[i].consumer, Exec(w, m).threads[i].delivery)
    {
      PointSigned(consumers, moves, w, m, i);
    }
  }

  lemma {:induction false} RunSigned(consumers: set<string>, moves: seq<Move>)
    requires Configured(consumers)
    ensures SignedInv(consumers, moves)
    decreases |moves|
  {
    if moves != [] {
      var front, m := moves[..|moves| - 1], moves[|moves| - 1];
      RunSigned(consumers, front);
      var w := Run(Boot(consumers), front);
      RunSnoc(Boot(consumers), moves);
      TenantsSigned(consumers, moves, w, m);
      PointsStaySigned(consumers, moves, w, m);
    }
  }

  // Every completion by a Paystack delivery, in any run: the delivery was for this payment of this
  // consumer, and at some moment of the run it carried the payment's recorded amount and was signed
  // with the secret the payment's client had active at that moment.
  lemma PaystackCompletionsWereSigned(consumers: set<string>, moves: seq<Move>, c: string, k: nat)
    requires Configured(consumers) && c in Run(Boot(consumers), moves).tenants
    requires k < |Run(Boot(consumers), moves).tenants[c].completions|
    requires var w := Run(Boot(consumers), moves);
             var x := w.tenants[c].completions[k];
             0 <= x.agent < |w.threads| && w.threads[x.agent].Hook?
    ensures var w := Run(Boot(consumers), moves);
            var x := w.tenants[c].completions[k];
            var th := w.threads[x.agent];
            th.consumer == c && th.delivery.reference == x.payment && WasGenuine(consumers, moves, c, th.delivery)
  {
    var w := Run(Boot(consumers), moves);
    RunSigned(consumers, moves);
    ReachableRoutes(w);
    assert WriteOk(w, c, w.tenants[c].completions[k]);
    assert LogSigned(consumers, moves, w.threads, w.tenants[c].completions);
    assert WriteSigned(consumers, moves, w.threads, w.tenants[c].completions[k]);
  }

  // The payment's own provider plays no part in the decision.
  lemma DeliveryIgnoresProvider(db: Db, row: Payment, d: Delivery, provider: Provider, kind: Kind)
    ensures DeliverySettlement(db, row.(provider := provider, kind := kind), d) == DeliverySettlement(db, row, d)
  {
  }

  // So a delivery completes a Paystack payment exactly when the payment it refers to was started as a
  // Paystack charge, which a caller would have to check for itself.
  lemma CompletesPaystackIff(w: World, c: string, k: nat)
    requires Reachable(w) && c in w.tenants && k < |w.tenants[c].completions|
    ensures w.tenants[c].completions[k].payment in w.tenants[c].db.payments
    ensures var p := w.tenants[c].db.payments[w.tenants[c].completions[k].payment];
            p.provider == Paystack <==> p.kind.PaystackCharge?
  {
    ReachableInv(w);
    var t := w.tenants[c];
    assert TenantOk(t) && HistoryOk(t);
    assert PaymentOk(t, t.completions[k].payment);
  }
}
