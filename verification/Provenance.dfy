/**
 * Who completes a payment, and how often: a queued task or a webhook delivery completes at most
 * one payment at most once, however often it is retried, and only with evidence for that payment.
 */
module Provenance {
  import opened Base
  import opened Domain
  import opened Tables
  import opened Routing
  import opened Steps
  import opened Machine
  import opened Invariants
  import opened LedgerTheorems

  // ---- At most once per task -----------------------------------------------------------

  // The thread has not yet passed a row update.
  predicate Before(th: Thread) {
    match th
    case Initiator(_, _, _) => true
    case Task(_, at) => at.Waiting? || (at.TaskSettling? && at.at.AtRow?)
    case Hook(_, _, at) => at.Arrived? || at.Looked? || (at.HookSettling? && at.at.AtRow?)
  }

  // The agent has completed nothing anywhere.
  ghost predicate Fresh(tenants: map<string, Tenant>, agent: int) {
    forall c :: c in tenants ==> Count(tenants[c].completions, ByAgent(agent)) == 0
  }

  // The agent has completed at most once, in at most one database.
  ghost predicate Once(tenants: map<string, Tenant>, agent: int) {
    && (forall c :: c in tenants ==> Count(tenants[c].completions, ByAgent(agent)) <= 1)
    && (forall c, d :: c in tenants && d in tenants && c != d ==>
          Count(tenants[c].completions, ByAgent(agent)) == 0 || Count(tenants[d].completions, ByAgent(agent)) == 0)
  }

  ghost predicate OnceOk(tenants: map<string, Tenant>, who: int, th: Thread) {
    if Before(th) then Fresh(tenants, who) else Once(tenants, who)
  }

  ghost predicate OnceInv(w: World) {
    && (forall i :: 0 <= i < |w.threads| ==> OnceOk(w.tenants, i, w.threads[i]))
    && (forall i :: i >= |w.threads| ==> Fresh(w.tenants, i))
  }

  predicate IsCompletion(note: Note) {
    note.Settled? && note.s.Completion?
  }

  // The only note that adds a completion adds exactly one, by the acting agent.
  lemma LogCounts(t: Tenant, agent: int, db: Db, note: Note, i: int)
    ensures var u := Log(t, agent, db, note);
            Count(u.completions, ByAgent(i))
            == Count(t.completions, ByAgent(i)) + (if IsCompletion(note) && i == agent then 1 else 0)
  {
    if IsCompletion(note) {
      CountAppend(t.completions, Write(agent, note.payment), ByAgent(i));
    }
  }

  // What an effect does to an agent's record.
  lemma EffectCounts(w: World, m: Move, i: int)
    requires Effect(w, m).Some?
    ensures var x := Effect(w, m).value;
            && (Fresh(w.tenants, i) ==> Once(Exec(w, m).tenants, i))
            && (Fresh(w.tenants, i) && !(IsCompletion(x.note) && i == x.agent) ==> Fresh(Exec(w, m).tenants, i))
            && (Once(w.tenants, i) && !(IsCompletion(x.note) && i == x.agent) ==> Once(Exec(w, m).tenants, i))
  {
    var x := Effect(w, m).value;
    EffectIsExec(w, m);
    LogCounts(w.tenants[x.consumer], x.agent, x.db, x.note, i);
  }

  // ---- What one thread's move leaves alone

  ghost predicate SameIdentity(a: Thread, b: Thread) {
    match a
    case Initiator(home, req, _) => b.Initiator? && b.home == home && b.req == req
    case Task(cb, _) => b.Task? && b.callback == cb
    case Hook(c, d, _) => b.Hook? && b.consumer == c && b.delivery == d
  }

  // Only thread `who` moves, and it stays the same request, task or delivery.
  ghost predicate Local(w: World, v: World, who: nat) {
    && who < |w.threads| && |v.threads| == |w.threads|
    && (forall i :: 0 <= i < |w.threads| && i != who ==> v.threads[i] == w.threads[i])
    && SameIdentity(w.threads[who], v.threads[who])
    && w.issued <= v.issued
  }

  lemma InitiatorLocal(w: World, who: nat, ok: bool, text: string)
    requires who < |w.threads| && w.threads[who].Initiator?
    ensures Local(w, ActInitiator(w, who, ok, text), who)
  {
  }

  lemma TaskLocal(w: World, who: nat, ok: bool)
    requires who < |w.threads| && w.threads[who].Task?
    ensures Local(w, ActTask(w, who, ok), who)
  {
  }

  lemma HookLocal(w: World, who: nat, ok: bool)
    requires who < |w.threads| && w.threads[who].Hook?
    ensures Local(w, ActHook(w, who, ok), who)
  {
  }

  lemma ActLocal(w: World, who: nat, ok: bool, text: string)
    requires who < |w.threads|
    ensures Local(w, Exec(w, Act(who, ok, text)), who)
  {
    match w.threads[who]
    case Initiator(_, _, _) => InitiatorLocal(w, who, ok, text);
    case Task(_, _) => TaskLocal(w, who, ok);
    case Hook(_, _, _) => HookLocal(w, who, ok);
  }

  // A completion takes its thread from before a row update to after it; nothing takes it back.
  ghost predicate Passes(x: Option<Touch>, who: nat, before: Thread, after: Thread) {
    && (x.Some? ==> x.value.agent == who)
    && (x.Some? && IsCompletion(x.value.note) ==> Before(before) && !Before(after))
    && (!Before(before) ==> !Before(after))
  }

  lemma TaskPasses(w: World, who: nat, ok: bool, text: string)
    requires who < |w.threads| && w.threads[who].Task? && ThreadOk(w.tenants, who, w.threads[who])
    ensures Passes(ThreadEffect(w, who, ok, text), who, w.threads[who], ActTask(w, who, ok).threads[who])
  {
  }

  lemma HookPasses(w: World, who: nat, ok: bool, text: string)
    requires who < |w.threads| && w.threads[who].Hook? && ThreadOk(w.tenants, who, w.threads[who])
    ensures Passes(ThreadEffect(w, who, ok, text), who, w.threads[who], ActHook(w, who, ok).threads[who])
  {
  }

  lemma InitiatorPasses(w: World, who: nat, ok: bool, text: string)
    requires who < |w.threads| && w.threads[who].Initiator?
    ensures Passes(ThreadEffect(w, who, ok, text), who, w.threads[who], ActInitiator(w, who, ok, text).threads[who])
  {
  }

  lemma ActPasses(w: World, who: nat, ok: bool, text: string)
    requires who < |w.threads| && ThreadOk(w.tenants, who, w.threads[who])
    ensures who < |Exec(w, Act(who, ok, text)).threads|
    ensures Passes(ThreadEffect(w, who, ok, text), who, w.threads[who], Exec(w, Act(who, ok, text)).threads[who])
  {
    ActLocal(w, who, ok, text);
    match w.threads[who]
    case Initiator(_, _, _) => InitiatorPasses(w, who, ok, text);
    case Task(_, _) => TaskPasses(w, who, ok, text);
    case Hook(_, _, _) => HookPasses(w, who, ok, text);
  }

  lemma ActOnce(w: World, who: nat, ok: bool, text: string)
    requires OnceInv(w) && who < |w.threads| && ThreadOk(w.tenants, who, w.threads[who])
    ensures OnceInv(Exec(w, Act(who, ok, text)))
  {
    var m := Act(who, ok, text);
    var v := Exec(w, m);
    ActLocal(w, who, ok, text);
    ActPasses(w, who, ok, text);
    EffectIsExec(w, m);
    forall i: int | 0 <= i ensures if i < |v.threads| then OnceOk(v.tenants, i, v.threads[i]) else Fresh(v.tenants, i) {
      assert if i < |w.threads| then OnceOk(w.tenants, i, w.threads[i]) else Fresh(w.tenants, i);
      if Effect(w, m).Some? {
        EffectCounts(w, m, i);
      }
    }
  }

  lemma ExecOnce(w: World, m: Move)
    requires OnceInv(w) && ThreadsOk(w.tenants, w.threads)
    ensures OnceInv(Exec(w, m))
  {
    if m.Act? && m.who < |w.threads| {
      ActOnce(w, m.who, m.ok, m.text);
    } else {
      var v := Exec(w, m);
      EffectIsExec(w, m);
      OtherMovesKeepThreads(w, m);
      forall i: int | 0 <= i ensures if i < |v.threads| then OnceOk(v.tenants, i, v.threads[i]) else Fresh(v.tenants, i) {
        assert if i < |w.threads| then OnceOk(w.tenants, i, w.threads[i]) else Fresh(w.tenants, i);
        if Effect(w, m).Some? {
          EffectCounts(w, m, i);
        }
      }
    }
  }

  lemma OtherMovesKeepThreads(w: World, m: Move)
    requires !(m.Act? && m.who < |w.threads|)
    ensures w.threads <= Exec(w, m).threads && w.issued == Exec(w, m).issued
    ensures forall i :: |w.threads| <= i < |Exec(w, m).threads| ==> Before(Exec(w, m).threads[i])
    ensures Effect(w, m).Some? ==> Effect(w, m).value.agent < 0
  {
  }

  lemma {:induction false} RunOnce(w: World, moves: seq<Move>)
    requires Inv(w) && OnceInv(w)
    ensures OnceInv(Run(w, moves))
    decreases |moves|
  {
    if moves != [] {
      ExecOnce(w, moves[0]);
      ExecKeeps(w, moves[0]);
      RunOnce(Exec(w, moves[0]), moves[1..]);
    }
  }

  // One queued task (or webhook delivery) causes at most one completion write and at most one
  // journal pair over all databases together, however many times the queue retries it.
  lemma TaskCompletesAtMostOnce(w: World, who: nat, c: string, d: string)
    requires Reachable(w) && who < |w.threads| && c in w.tenants && d in w.tenants
    ensures Count(w.tenants[c].completions, ByAgent(who)) <= 1
    ensures Count(w.tenants[c].postings, ByAgent(who)) <= Count(w.tenants[c].completions, ByAgent(who))
    ensures c != d ==> Count(w.tenants[c].completions, ByAgent(who)) == 0 || Count(w.tenants[d].completions, ByAgent(who)) == 0
  {
    var consumers, moves :| Configured(consumers) && w == Run(Boot(consumers), moves);
    BootInv(consumers);
    RunOnce(Boot(consumers), moves);
    assert OnceOk(w.tenants, who, w.threads[who]);
    ReachableInv(w);
    assert TenantOk(w.tenants[c]);
    CountMonotone(w.tenants[c].postings, w.tenants[c].completions, ByAgent(who));
  }

  // A refused task has changed nothing and is queued again.
  lemma RefusedTaskChangesNothing(w: World, who: nat, ok: bool, text: string)
    requires who < |w.threads| && w.threads[who].Task? && !w.threads[who].task.TaskDone?
    requires Exec(w, Act(who, ok, text)).threads[who].task == Waiting
    ensures Exec(w, Act(who, ok, text)).tenants == w.tenants && Exec(w, Act(who, ok, text)).routes == w.routes
  {
  }

  // ---- Routing -------------------------------------------------------------------------

  ghost predicate Names(w: World, checkout: string, consumer: string, payment: string) {
    exists j :: 0 <= j < |w.issued| && w.issued[j] == Issue(checkout, consumer, payment)
  }

  // An issued checkout id belongs to a stored inbound STK payment.
  ghost predicate StkPayment(w: World, consumer: string, payment: string) {
    && consumer in w.tenants && payment in w.tenants[consumer].db.payments
    && w.tenants[consumer].db.payments[payment].kind == StkPush
    && w.tenants[consumer].db.payments[payment].direction == Inbound
  }

  ghost predicate IssuedOk(w: World) {
    forall j :: 0 <= j < |w.issued| ==> StkPayment(w, w.issued[j].consumer, w.issued[j].payment)
  }

  ghost predicate RouteFor(w: World, key: string, j: int)
    requires key in w.routes && 0 <= j < |w.issued|
  {
    var i := w.issued[j];
    && StkPayment(w, i.consumer, i.payment)
    && key == RouteKey(i.checkout)
    && w.routes[key].value == PrintRoute(i.consumer, w.tenants[i.consumer].db.payments[i.payment].client, i.payment)
  }

  ghost predicate RoutesOk(w: World) {
    forall key :: key in w.routes ==> exists j :: 0 <= j < |w.issued| && RouteFor(w, key, j)
  }

  ghost predicate NamesOk(w: World) {
    && (forall c :: c in w.tenants ==> c != "" && ColonFree(c))
    && (forall c, client :: c in w.tenants && client in w.tenants[c].db.clients ==> ColonFree(client))
  }

  ghost predicate EvidenceOk(w: World, th: Thread) {
    match th
    case Initiator(home, req, at) =>
      req.kind.StkPush? && (at.AtRecord? || at.AtRoute?) ==> Names(w, at.request, home, at.payment)
    case Task(cb, at) =>
      at.TaskSettling? && at.at.AtRow? ==>
        Names(w, cb.checkout, at.consumer, at.at.payment) && at.at.s == CallbackSettlement(cb)
    case Hook(c, d, at) =>
      (match at
       case Looked(row) => row.id == d.reference
       case HookSettling(settle) =>
         settle.AtRow? && settle.s.Completion? ==>
           d.event == "charge.success" && settle.payment == d.reference
           && c in w.tenants && d.reference in w.tenants[c].db.payments
           && w.tenants[c].db.payments[d.reference].amount == d.amount
       case _ => true)
  }

  // What justified a completion by thread th of a payment of consumer c.
  ghost predicate Justified(w: World, c: string, th: Thread, payment: string) {
    match th
    case Initiator(_, _, _) => false
    case Task(cb, _) => cb.code == 0 && Names(w, cb.checkout, c, payment)
    case Hook(home, d, _) =>
      && home == c && d.event == "charge.success" && d.reference == payment
      && c in w.tenants && payment in w.tenants[c].db.payments
      && w.tenants[c].db.payments[payment].amount == d.amount
  }

  ghost predicate WriteOk(w: World, c: string, x: Write) {
    x.agent == RECONCILER || (0 <= x.agent < |w.threads| && Justified(w, c, w.threads[x.agent], x.payment))
  }

  ghost predicate WritesOk(w: World) {
    forall c, k :: c in w.tenants && 0 <= k < |w.tenants[c].completions| ==> WriteOk(w, c, w.tenants[c].completions[k])
  }

  ghost predicate ThreadsEvident(w: World) {
    forall i :: 0 <= i < |w.threads| ==> EvidenceOk(w, w.threads[i])
  }

  ghost predicate RouteInv(w: World) {
    NamesOk(w) && IssuedOk(w) && RoutesOk(w) && ThreadsEvident(w) && WritesOk(w)
  }

  // ---- Growth of the world, and what it preserves --------------------------------------

  ghost predicate WorldGrows(w: World, v: World) {
    && (forall c :: c in w.tenants <==> c in v.tenants)
    && (forall c :: c in w.tenants ==> Grows(w.tenants[c], v.tenants[c]))
    && w.issued <= v.issued
    && |w.threads| <= |v.threads|
    && (forall i :: 0 <= i < |w.threads| ==> SameIdentity(w.threads[i], v.threads[i]))
  }

  lemma IdentityKept(w: World, m: Move)
    ensures |w.threads| <= |Exec(w, m).threads|
    ensures forall i :: 0 <= i < |w.threads| ==> SameIdentity(w.threads[i], Exec(w, m).threads[i])
    ensures w.issued <= Exec(w, m).issued
  {
    if m.Act? && m.who < |w.threads| {
      ActLocal(w, m.who, m.ok, m.text);
    } else {
      OtherMovesKeepThreads(w, m);
    }
  }

  lemma SameConsumers(w: World, m: Move)
    ensures forall c :: c in Exec(w, m).tenants <==> c in w.tenants
  {
    EffectIsExec(w, m);
  }

  lemma ExecGrowsWorld(w: World, m: Move)
    requires Inv(w)
    ensures WorldGrows(w, Exec(w, m))
  {
    IdentityKept(w, m);
    EffectIsExec(w, m);
    forall c | c in w.tenants ensures Grows(w.tenants[c], Exec(w, m).tenants[c]) {
      ExecGrows(w, m, c);
    }
  }

  lemma NamesKept(w: World, v: World, checkout: string, consumer: string, payment: string)
    requires w.issued <= v.issued && Names(w, checkout, consumer, payment)
    ensures Names(v, checkout, consumer, payment)
  {
    var j :| 0 <= j < |w.issued| && w.issued[j] == Issue(checkout, consumer, payment);
    assert v.issued[j] == w.issued[j];
  }

  lemma StkKept(w: World, v: World, c: string, id: string)
    requires WorldGrows(w, v) && StkPayment(w, c, id)
    ensures StkPayment(v, c, id)
    ensures v.tenants[c].db.payments[id].client == w.tenants[c].db.payments[id].client
  {
    assert PaymentGrows(w.tenants[c].db.payments[id], v.tenants[c].db.payments[id]);
    assert Core(w.tenants[c].db.payments[id]).kind == Core(v.tenants[c].db.payments[id]).kind;
  }

  lemma AmountKept(w: World, v: World, c: string, id: string)
    requires WorldGrows(w, v) && c in w.tenants && id in w.tenants[c].db.payments
    ensures c in v.tenants && id in v.tenants[c].db.payments
    ensures v.tenants[c].db.payments[id].amount == w.tenants[c].db.payments[id].amount
  {
    assert PaymentGrows(w.tenants[c].db.payments[id], v.tenants[c].db.payments[id]);
    assert Core(w.tenants[c].db.payments[id]).amount == Core(v.tenants[c].db.payments[id]).amount;
  }

  lemma EvidenceKept(w: World, v: World, th: Thread)
    requires WorldGrows(w, v) && EvidenceOk(w, th)
    ensures EvidenceOk(v, th)
  {
    match th
    case Initiator(home, req, at) =>
      if req.kind.StkPush? && (at.AtRecord? || at.AtRoute?) { NamesKept(w, v, at.request, home, at.payment); }
    case Task(cb, at) =>
      if at.TaskSettling? && at.at.AtRow? { NamesKept(w, v, cb.checkout, at.consumer, at.at.payment); }
    case Hook(c, d, at) =>
      if at.HookSettling? && at.at.AtRow? && at.at.s.Completion? { AmountKept(w, v, c, d.reference); }
  }

  lemma JustifiedKept(w: World, v: World, c: string, a: Thread, b: Thread, payment: string)
    requires WorldGrows(w, v) && SameIdentity(a, b) && Justified(w, c, a, payment)
    ensures Justified(v, c, b, payment)
  {
    match a
    case Task(cb, _) => NamesKept(w, v, cb.checkout, c, payment);
    case Hook(_, _, _) => AmountKept(w, v, c, payment);
  }

  // ---- Each part of the routing invariant is kept --------------------------------------

  lemma SettleStepClients(db: Db, now: int, at: SettlePoint, ok: bool)
    ensures SettleStep(db, now, at, ok).db.clients == db.clients
  {
  }

  lemma InitStepClients(db: Db, now: int, req: Request, at: InitPoint, ok: bool, text: string)
    ensures InitStep(db, now, req, at, ok, text).db.clients == db.clients
  {
  }

  lemma EffectClients(w: World, m: Move)
    requires Effect(w, m).Some?
    ensures var x := Effect(w, m).value;
            x.consumer in w.tenants
            && forall k :: k in x.db.clients && k !in w.tenants[x.consumer].db.clients ==> ColonFree(k)
  {
    match m
    case Administer(_, _) =>
    case SettleNext(ok) => SettleStepClients(w.tenants[w.recon.consumer].db, w.now, w.recon.at, ok);
    case Act(who, ok, text) =>
      match w.threads[who] {
        case Initiator(home, req, at) => InitStepClients(w.tenants[home].db, w.now, req, at, ok, text);
        case Task(_, at) => SettleStepClients(w.tenants[at.consumer].db, w.now, at.at, ok);
        case Hook(c, _, at) => SettleStepClients(w.tenants[c].db, w.now, at.at, ok);
      }
  }

  lemma TenantNames(w: World, m: Move, c: string)
    requires NamesOk(w) && c in w.tenants
    ensures c in Exec(w, m).tenants
    ensures forall client :: client in Exec(w, m).tenants[c].db.clients ==> ColonFree(client)
  {
    EffectIsExec(w, m);
    if Effect(w, m).Some? {
      EffectClients(w, m);
      var x := Effect(w, m).value;
      LogKeepsDb(w.tenants[x.consumer], x.agent, x.db, x.note);
    }
  }

  lemma NamesOkKept(w: World, m: Move)
    requires NamesOk(w)
    ensures NamesOk(Exec(w, m))
  {
    SameConsumers(w, m);
    forall c | c in w.tenants
      ensures forall client :: client in Exec(w, m).tenants[c].db.clients ==> ColonFree(client)
    {
      TenantNames(w, m, c);
    }
  }

  lemma IssuedKept(w: World, m: Move)
    requires Inv(w) && IssuedOk(w)
    ensures IssuedOk(Exec(w, m))
  {
    var v := Exec(w, m);
    ExecGrowsWorld(w, m);
    forall j | 0 <= j < |v.issued| ensures StkPayment(v, v.issued[j].consumer, v.issued[j].payment) {
      if j < |w.issued| {
        assert v.issued[j] == w.issued[j];
        StkKept(w, v, w.issued[j].consumer, w.issued[j].payment);
      } else {
        NewIssue(w, m, j);
        StkKept(w, v, v.issued[j].consumer, v.issued[j].payment);
      }
    }
  }

  lemma NewIssueShape(w: World, m: Move, j: nat)
    requires |w.issued| <= j < |Exec(w, m).issued|
    ensures m.Act? && m.who < |w.threads| && w.threads[m.who].Initiator?
    ensures var th := w.threads[m.who];
            && th.home in w.tenants && th.init.AtCall? && th.req.kind.StkPush?
            && Exec(w, m).issued[j] == Issue(m.text, th.home, th.init.payment)
  {
  }

  // A new issue is the acting initiator's own STK payment.
  lemma NewIssue(w: World, m: Move, j: nat)
    requires ThreadsOk(w.tenants, w.threads) && |w.issued| <= j < |Exec(w, m).issued|
    ensures StkPayment(w, Exec(w, m).issued[j].consumer, Exec(w, m).issued[j].payment)
  {
    NewIssueShape(w, m, j);
    var th := w.threads[m.who];
    assert ThreadOk(w.tenants, m.who, th);
    OwnedStk(w.tenants[th.home], m.who, th.req, th.init.payment);
  }

  lemma OwnedStk(t: Tenant, who: int, req: Request, id: string)
    requires Owns(t, who, req, id)
    ensures t.db.payments[id].kind == req.kind && t.db.payments[id].client == req.client
    ensures t.db.payments[id].direction == DirectionOf(req.kind)
  {
    assert Core(t.db.payments[id]).kind == req.kind;
    assert Core(t.db.payments[id]).client == req.client;
    assert Core(t.db.payments[id]).direction == DirectionOf(req.kind);
  }

  lemma OldRouteKept(w: World, v: World, key: string)
    requires WorldGrows(w, v) && key in w.routes && key in v.routes && v.routes[key] == w.routes[key]
    requires exists j :: 0 <= j < |w.issued| && RouteFor(w, key, j)
    ensures exists j :: 0 <= j < |v.issued| && RouteFor(v, key, j)
  {
    var j :| 0 <= j < |w.issued| && RouteFor(w, key, j);
    assert v.issued[j] == w.issued[j];
    StkKept(w, v, w.issued[j].consumer, w.issued[j].payment);
    assert RouteFor(v, key, j);
  }

  // Only an initiator at its Redis call changes the routing map, by one entry of its own.
  lemma RoutesChange(w: World, m: Move, key: string)
    requires key in Exec(w, m).routes
    requires !(key in w.routes && Exec(w, m).routes[key] == w.routes[key])
    ensures m.Act? && m.who < |w.threads| && w.threads[m.who].Initiator?
    ensures var th := w.threads[m.who];
            && th.home in w.tenants && th.init.AtRoute? && key == RouteKey(th.init.request)
            && Exec(w, m).routes[key].value == PrintRoute(th.home, th.req.client, th.init.payment)
  {
  }

  // The entry an initiator writes is for the checkout id its own payment was issued.
  lemma NewRoute(w: World, v: World, key: string, who: nat)
    requires WorldGrows(w, v) && key in v.routes && who < |w.threads| && w.threads[who].Initiator?
    requires EvidenceOk(w, w.threads[who]) && ThreadOk(w.tenants, who, w.threads[who])
    requires var th := w.threads[who];
             && th.home in w.tenants && th.init.AtRoute? && th.req.kind.StkPush? && key == RouteKey(th.init.request)
             && v.routes[key].value == PrintRoute(th.home, th.req.client, th.init.payment)
    ensures exists j :: 0 <= j < |v.issued| && RouteFor(v, key, j)
  {
    var th := w.threads[who];
    var j :| 0 <= j < |w.issued| && w.issued[j] == Issue(th.init.request, th.home, th.init.payment);
    OwnedStk(w.tenants[th.home], who, th.req, th.init.payment);
    assert v.issued[j] == w.issued[j];
    StkKept(w, v, th.home, th.init.payment);
    assert RouteFor(v, key, j);
  }

  lemma RoutesKept(w: World, m: Move)
    requires Inv(w) && RoutesOk(w) && ThreadsEvident(w) && ThreadsAtRouteAreStk(w)
    ensures RoutesOk(Exec(w, m))
  {
    var v := Exec(w, m);
    ExecGrowsWorld(w, m);
    forall key | key in v.routes ensures exists j :: 0 <= j < |v.issued| && RouteFor(v, key, j) {
      if key in w.routes && v.routes[key] == w.routes[key] {
        OldRouteKept(w, v, key);
      } else {
        RoutesChange(w, m, key);
        assert EvidenceOk(w, w.threads[m.who]) && ThreadOk(w.tenants, m.who, w.threads[m.who]);
        NewRoute(w, v, key, m.who);
      }
    }
  }

  ghost predicate ThreadsAtRouteAreStk(w: World) {
    forall i :: 0 <= i < |w.threads| ==>
      w.threads[i].Initiator? && w.threads[i].init.AtRoute? ==> w.threads[i].req.kind.StkPush?
  }

  lemma AtRouteKept(w: World, m: Move)
    requires ThreadsAtRouteAreStk(w)
    ensures ThreadsAtRouteAreStk(Exec(w, m))
  {
    if m.Act? && m.who < |w.threads| {
      assert w.threads[m.who].Initiator? && w.threads[m.who].init.AtRoute? ==> w.threads[m.who].req.kind.StkPush?;
    }
  }

  // Stored payments carry their own id and a client id without colons.
  ghost predicate StoredOk(w: World) {
    forall c, id :: c in w.tenants && id in w.tenants[c].db.payments ==>
      w.tenants[c].db.payments[id].id == id && ColonFree(w.tenants[c].db.payments[id].client)
  }

  lemma StoredClients(w: World)
    requires TenantsOk(w.tenants) && NamesOk(w)
    ensures StoredOk(w)
  {
    forall c, id | c in w.tenants && id in w.tenants[c].db.payments
      ensures w.tenants[c].db.payments[id].id == id && ColonFree(w.tenants[c].db.payments[id].client)
    {
      StoredClient(w.tenants[c], id);
    }
  }

  lemma StoredClient(t: Tenant, id: string)
    requires TenantOk(t) && id in t.db.payments
    ensures t.db.payments[id].client in t.db.clients && t.db.payments[id].id == id
  {
    assert PaymentOk(t, id);
  }

  lemma RouteParses(w: World, checkout: string, j: int)
    requires NamesOk(w) && StoredOk(w)
    requires RouteKey(checkout) in w.routes && 0 <= j < |w.issued| && RouteFor(w, RouteKey(checkout), j)
    ensures var i := w.issued[j];
            && i.checkout == checkout && i.consumer != ""
            && SplitN(w.routes[RouteKey(checkout)].value, 3)
               == [i.consumer, w.tenants[i.consumer].db.payments[i.payment].client, i.payment]
  {
    var i := w.issued[j];
    assert RouteKey(checkout)[4..] == checkout && RouteKey(i.checkout)[4..] == i.checkout;
    RouteRoundTrip(i.consumer, w.tenants[i.consumer].db.payments[i.payment].client, i.payment);
  }

  // A live route resolves to the consumer and payment its checkout id was issued for.
  lemma DestinationIsIssued(w: World, cb: Callback)
    requires NamesOk(w) && RoutesOk(w) && StoredOk(w)
    requires Destination(w.routes, w.now, cb).Some?
    ensures Names(w, cb.checkout, Destination(w.routes, w.now, cb).value.0, Destination(w.routes, w.now, cb).value.1)
  {
    var j :| 0 <= j < |w.issued| && RouteFor(w, RouteKey(cb.checkout), j);
    RouteParses(w, cb.checkout, j);
    var i := w.issued[j];
    assert i == Issue(cb.checkout, i.consumer, i.payment);
  }

  lemma InitiatorEvident(w: World, who: nat, ok: bool, text: string)
    requires who < |w.threads| && w.threads[who].Initiator? && EvidenceOk(w, w.threads[who])
    ensures EvidenceOk(ActInitiator(w, who, ok, text), ActInitiator(w, who, ok, text).threads[who])
  {
    var th := w.threads[who];
    var v := ActInitiator(w, who, ok, text);
    if th.home in w.tenants && th.req.kind.StkPush? {
      if th.init.AtRecord? {
        NamesKept(w, v, th.init.request, th.home, th.init.payment);
      } else if th.init.AtCall? && v.threads[who].init.AtRecord? {
        assert v.issued[|w.issued|] == Issue(text, th.home, th.init.payment);
      }
    }
  }

  lemma TaskEvident(w: World, who: nat, ok: bool)
    requires NamesOk(w) && RoutesOk(w) && StoredOk(w)
    requires who < |w.threads| && w.threads[who].Task?
    ensures EvidenceOk(ActTask(w, who, ok), ActTask(w, who, ok).threads[who])
  {
    var th := w.threads[who];
    var v := ActTask(w, who, ok);
    if th.task.Waiting? && ok && Destination(w.routes, w.now, th.callback).Some? {
      DestinationIsIssued(w, th.callback);
      var d := Destination(w.routes, w.now, th.callback).value;
      NamesKept(w, v, th.callback.checkout, d.0, d.1);
    }
  }

  lemma HookEvident(w: World, who: nat, ok: bool)
    requires StoredOk(w) && who < |w.threads| && w.threads[who].Hook?
    requires EvidenceOk(w, w.threads[who]) && ThreadOk(w.tenants, who, w.threads[who])
    ensures EvidenceOk(ActHook(w, who, ok), ActHook(w, who, ok).threads[who])
  {
    var th := w.threads[who];
    if th.consumer in w.tenants && th.hook.Looked? {
      var t := w.tenants[th.consumer];
      assert Core(t.db.payments[th.hook.row.id]).amount == Core(th.hook.row).amount;
    }
  }

  // The acting thread has evidence for the control point it moves to.
  lemma ActorEvident(w: World, who: nat, ok: bool, text: string)
    requires StoredOk(w) && NamesOk(w) && RoutesOk(w) && who < |w.threads|
    requires EvidenceOk(w, w.threads[who]) && ThreadOk(w.tenants, who, w.threads[who])
    ensures EvidenceOk(Exec(w, Act(who, ok, text)), Exec(w, Act(who, ok, text)).threads[who])
  {
    match w.threads[who]
    case Initiator(_, _, _) => InitiatorEvident(w, who, ok, text);
    case Task(_, _) => TaskEvident(w, who, ok);
    case Hook(_, _, _) => HookEvident(w, who, ok);
  }

  lemma BystanderEvident(w: World, m: Move, i: nat)
    requires WorldGrows(w, Exec(w, m)) && ThreadsEvident(w)
    requires i < |Exec(w, m).threads| && !(m.Act? && m.who == i)
    ensures EvidenceOk(Exec(w, m), Exec(w, m).threads[i])
  {
    if i < |w.threads| {
      BystanderSame(w, m, i);
      EvidenceKept(w, Exec(w, m), w.threads[i]);
    } else {
      NewThreadUnstarted(w, m, i);
    }
  }

  lemma NewThreadUnstarted(w: World, m: Move, i: nat)
    requires |w.threads| <= i < |Exec(w, m).threads|
    ensures Unstarted(Exec(w, m).threads[i])
  {
  }

  lemma EvidentKept(w: World, m: Move)
    requires Inv(w) && RouteInv(w)
    ensures ThreadsEvident(Exec(w, m))
  {
    ExecGrowsWorld(w, m);
    forall i | 0 <= i < |Exec(w, m).threads| ensures EvidenceOk(Exec(w, m), Exec(w, m).threads[i]) {
      if m.Act? && m.who == i {
        MoverEvident(w, m);
      } else {
        BystanderEvident(w, m, i);
      }
    }
  }

  lemma MoverEvident(w: World, m: Move)
    requires Inv(w) && RouteInv(w) && m.Act? && m.who < |Exec(w, m).threads|
    ensures EvidenceOk(Exec(w, m), Exec(w, m).threads[m.who])
  {
    ActKeepsLength(w, m);
    StoredClients(w);
    assert EvidenceOk(w, w.threads[m.who]) && ThreadOk(w.tenants, m.who, w.threads[m.who]);
    ActorEvident(w, m.who, m.ok, m.text);
  }

  lemma ActKeepsLength(w: World, m: Move)
    requires m.Act?
    ensures |Exec(w, m).threads| == |w.threads|
  {
    if m.who < |w.threads| { ActLocal(w, m.who, m.ok, m.text); }
  }

  lemma BystanderSame(w: World, m: Move, i: nat)
    requires i < |w.threads| && !(m.Act? && m.who == i)
    ensures i < |Exec(w, m).threads| && Exec(w, m).threads[i] == w.threads[i]
  {
    if m.Act? && m.who < |w.threads| {
      ActLocal(w, m.who, m.ok, m.text);
    } else {
      OtherMovesKeepThreads(w, m);
    }
  }

  // A new completion is the acting thread's, on the evidence it held, or the reconciler's.
  lemma NewWrite(w: World, m: Move)
    requires Inv(w) && RouteInv(w) && Effect(w, m).Some? && IsCompletion(Effect(w, m).value.note)
    ensures var x := Effect(w, m).value;
            x.agent == RECONCILER
            || (0 <= x.agent < |w.threads| && Justified(w, x.consumer, w.threads[x.agent], x.note.payment))
  {
    if m.Act? {
      assert EvidenceOk(w, w.threads[m.who]) && ThreadOk(w.tenants, m.who, w.threads[m.who]);
    }
  }

  lemma OldWriteKept(w: World, v: World, c: string, x: Write)
    requires WorldGrows(w, v) && WriteOk(w, c, x)
    ensures WriteOk(v, c, x)
  {
    if x.agent != RECONCILER {
      JustifiedKept(w, v, c, w.threads[x.agent], v.threads[x.agent], x.payment);
    }
  }

  // What a move may add to a tenant's completions.
  lemma CompletionsChange(w: World, m: Move, c: string)
    requires c in w.tenants
    ensures c in Exec(w, m).tenants
    ensures var log := Exec(w, m).tenants[c].completions;
            log == w.tenants[c].completions
            || (&& Effect(w, m).Some? && IsCompletion(Effect(w, m).value.note) && Effect(w, m).value.consumer == c
                && log == w.tenants[c].completions + [Write(Effect(w, m).value.agent, Effect(w, m).value.note.payment)])
  {
    EffectIsExec(w, m);
  }

  lemma OldWritesKept(w: World, v: World, c: string)
    requires WorldGrows(w, v) && WritesOk(w) && c in w.tenants
    ensures forall k :: 0 <= k < |w.tenants[c].completions| ==> WriteOk(v, c, w.tenants[c].completions[k])
  {
    forall k | 0 <= k < |w.tenants[c].completions| ensures WriteOk(v, c, w.tenants[c].completions[k]) {
      OldWriteKept(w, v, c, w.tenants[c].completions[k]);
    }
  }

  lemma NewWriteKept(w: World, m: Move)
    requires Inv(w) && RouteInv(w) && Effect(w, m).Some? && IsCompletion(Effect(w, m).value.note)
    ensures var x := Effect(w, m).value;
            WriteOk(Exec(w, m), x.consumer, Write(x.agent, x.note.payment))
  {
    var x := Effect(w, m).value;
    NewWrite(w, m);
    ExecGrowsWorld(w, m);
    OldWriteKept(w, Exec(w, m), x.consumer, Write(x.agent, x.note.payment));
  }

  lemma OneMoreWrite(v: World, c: string, log: seq<Write>, x: Write)
    requires WriteOk(v, c, x) && forall k :: 0 <= k < |log| ==> WriteOk(v, c, log[k])
    ensures forall k :: 0 <= k < |log + [x]| ==> WriteOk(v, c, (log + [x])[k])
  {
  }

  lemma TenantWritesKept(w: World, m: Move, c: string)
    requires Inv(w) && RouteInv(w) && c in w.tenants
    ensures c in Exec(w, m).tenants
    ensures forall k :: 0 <= k < |Exec(w, m).tenants[c].completions| ==>
              WriteOk(Exec(w, m), c, Exec(w, m).tenants[c].completions[k])
  {
    ExecGrowsWorld(w, m);
    OldWritesKept(w, Exec(w, m), c);
    CompletionsChange(w, m, c);
    if Exec(w, m).tenants[c].completions != w.tenants[c].completions {
      NewWriteKept(w, m);
      var x := Effect(w, m).value;
      OneMoreWrite(Exec(w, m), c, w.tenants[c].completions, Write(x.agent, x.note.payment));
    }
  }

  lemma WritesKept(w: World, m: Move)
    requires Inv(w) && RouteInv(w)
    ensures WritesOk(Exec(w, m))
  {
    SameConsumers(w, m);
    forall c | c in w.tenants
      ensures forall k :: 0 <= k < |Exec(w, m).tenants[c].completions| ==>
                WriteOk(Exec(w, m), c, Exec(w, m).tenants[c].completions[k])
    {
      TenantWritesKept(w, m, c);
    }
  }

  lemma {:induction false} RunRoutes(w: World, moves: seq<Move>)
    requires Inv(w) && RouteInv(w) && ThreadsAtRouteAreStk(w)
    ensures RouteInv(Run(w, moves))
    decreases |moves|
  {
    if moves != [] {
      var m := moves[0];
      NamesOkKept(w, m);
      IssuedKept(w, m);
      RoutesKept(w, m);
      EvidentKept(w, m);
      WritesKept(w, m);
      AtRouteKept(w, m);
      ExecKeeps(w, m);
      RunRoutes(Exec(w, m), moves[1..]);
    }
  }

  lemma ReachableRoutes(w: World)
    requires Reachable(w)
    ensures RouteInv(w)
  {
    var consumers, moves :| Configured(consumers) && w == Run(Boot(consumers), moves);
    BootInv(consumers);
    RunRoutes(Boot(consumers), moves);
  }

  // Every live routing entry names an inbound STK payment of the client it prints, in the
  // database of the consumer it prints, and that payment was given exactly this checkout id.
  lemma RoutesAreSound(w: World, checkout: string)
    requires Reachable(w) && RouteKey(checkout) in w.routes
    ensures exists consumer, payment ::
              && Names(w, checkout, consumer, payment) && StkPayment(w, consumer, payment)
              && SplitN(w.routes[RouteKey(checkout)].value, 3)
                 == [consumer, w.tenants[consumer].db.payments[payment].client, payment]
  {
    ReachableInv(w);
    ReachableRoutes(w);
    StoredClients(w);
    var j :| 0 <= j < |w.issued| && RouteFor(w, RouteKey(checkout), j);
    RouteParses(w, checkout, j);
    var i := w.issued[j];
    assert i == Issue(checkout, i.consumer, i.payment);
    assert Names(w, checkout, i.consumer, i.payment);
  }

  // A callback, whether it reports success or failure, is only ever about to settle the payment
  // that its checkout id was issued for, in that payment's own consumer's database.
  lemma CallbacksSettleTheirOwnPayment(w: World, who: nat)
    requires Reachable(w) && who < |w.threads| && w.threads[who].Task?
    requires w.threads[who].task.TaskSettling? && w.threads[who].task.at.AtRow?
    ensures var th := w.threads[who];
            && Names(w, th.callback.checkout, th.task.consumer, th.task.at.payment)
            && StkPayment(w, th.task.consumer, th.task.at.payment)
            && th.task.at.s == CallbackSettlement(th.callback)
  {
    ReachableRoutes(w);
    var th := w.threads[who];
    assert EvidenceOk(w, th);
    var j :| 0 <= j < |w.issued| && w.issued[j] == Issue(th.callback.checkout, th.task.consumer, th.task.at.payment);
    assert StkPayment(w, w.issued[j].consumer, w.issued[j].payment);
  }
}
