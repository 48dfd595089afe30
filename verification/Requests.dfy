/**
 * Where a stored provider request id comes from: it is only ever recorded after the provider was
 * called for that very payment, and for an STK payment it is the checkout id issued to it.
 */
module Requests {
  import opened Base
  import opened Domain
  import opened Tables
  import opened Steps
  import opened Machine
  import opened Invariants
  import opened Provenance

  // A row's request id, if it has one, was given by the provider to this payment.
  ghost predicate RowRecorded(w: World, c: string, row: Payment) {
    row.requestId.Some? ==>
      && row.requestId.value != ""
      && c in w.tenants && CalledFor(w.tenants[c], row.id)
      && (row.kind.StkPush? ==> Names(w, row.requestId.value, c, row.id))
  }

  ghost predicate StoredRecorded(w: World) {
    forall c, id :: c in w.tenants && id in w.tenants[c].db.payments ==> RowRecorded(w, c, w.tenants[c].db.payments[id])
  }

  // A request that is about to record an id has called its provider.
  ghost predicate HasCalled(w: World, th: Thread) {
    th.Initiator? && th.init.AtRecord? && th.home in w.tenants ==> CalledFor(w.tenants[th.home], th.init.payment)
  }

  ghost predicate RecordersCalled(w: World) {
    forall i :: 0 <= i < |w.threads| ==> HasCalled(w, w.threads[i])
  }

  ghost predicate RequestInv(w: World) {
    StoredRecorded(w) && RecordersCalled(w)
  }

  lemma CalledKept(t: Tenant, u: Tenant, id: string)
    requires CalledFor(t, id) && t.calls <= u.calls
    ensures CalledFor(u, id)
  {
    var k :| 0 <= k < |t.calls| && t.calls[k].payment == id;
    assert u.calls[k] == t.calls[k];
  }

  lemma RowRecordedKept(w: World, v: World, c: string, row: Payment)
    requires WorldGrows(w, v) && RowRecorded(w, c, row)
    ensures RowRecorded(v, c, row)
  {
    if row.requestId.Some? {
      CalledKept(w.tenants[c], v.tenants[c], row.id);
      if row.kind.StkPush? { NamesKept(w, v, row.requestId.value, c, row.id); }
    }
  }

  // ---- What changes a request id -------------------------------------------------------------

  lemma SettleStepRequests(db: Db, now: int, at: SettlePoint, ok: bool, id: string)
    requires id in SettleStep(db, now, at, ok).db.payments
    ensures id in db.payments
            && SettleStep(db, now, at, ok).db.payments[id].requestId == db.payments[id].requestId
            && SettleStep(db, now, at, ok).db.payments[id].kind == db.payments[id].kind
            && SettleStep(db, now, at, ok).db.payments[id].id == db.payments[id].id
  {
  }

  lemma InitStepRequests(db: Db, now: int, req: Request, at: InitPoint, ok: bool, text: string, id: string)
    requires id in InitStep(db, now, req, at, ok, text).db.payments
    ensures var p := InitStep(db, now, req, at, ok, text).db.payments[id];
            || p.requestId == None
            || (id in db.payments && p.requestId == db.payments[id].requestId && p.kind == db.payments[id].kind
                && p.id == db.payments[id].id)
            || (id in db.payments && at.AtRecord? && at.payment == id && p.requestId == NonEmpty(at.request)
                && p.kind == db.payments[id].kind && p.id == db.payments[id].id)
  {
  }

  // This move records a request id for this payment.
  predicate Records(w: World, m: Move, c: string, id: string) {
    && m.Act? && m.who < |w.threads| && w.threads[m.who].Initiator? && w.threads[m.who].home == c
    && w.threads[m.who].init.AtRecord? && w.threads[m.who].init.payment == id
  }

  lemma EffectRequests(w: World, m: Move, id: string)
    requires Effect(w, m).Some? && id in Effect(w, m).value.db.payments
    ensures var x := Effect(w, m).value;
            && x.consumer in w.tenants
            && var before, p := w.tenants[x.consumer].db.payments, x.db.payments[id];
               || p.requestId == None
               || (id in before && p.requestId == before[id].requestId && p.kind == before[id].kind && p.id == before[id].id)
               || (id in before && Records(w, m, x.consumer, id) && p.requestId == NonEmpty(w.threads[m.who].init.request)
                   && p.kind == before[id].kind && p.id == before[id].id)
  {
    match m
    case Administer(_, _) =>
    case SettleNext(ok) => SettleStepRequests(w.tenants[w.recon.consumer].db, w.now, w.recon.at, ok, id);
    case Act(who, ok, text) =>
      match w.threads[who] {
        case Initiator(home, req, at) => InitStepRequests(w.tenants[home].db, w.now, req, at, ok, text, id);
        case Task(_, at) => SettleStepRequests(w.tenants[at.consumer].db, w.now, at.at, ok, id);
        case Hook(c, _, at) => SettleStepRequests(w.tenants[c].db, w.now, at.at, ok, id);
      }
  }

  // ---- The invariant is kept -----------------------------------------------------------------

  // What an initiator about to record an id knows.
  lemma RecorderKnows(w: World, m: Move, c: string, id: string)
    requires ThreadsOk(w.tenants, w.threads) && ThreadsEvident(w) && RecordersCalled(w)
    requires Records(w, m, c, id) && c in w.tenants
    ensures id in w.tenants[c].db.payments && CalledFor(w.tenants[c], id)
    ensures w.tenants[c].db.payments[id].kind.StkPush? ==> Names(w, w.threads[m.who].init.request, c, id)
  {
    var th := w.threads[m.who];
    assert ThreadOk(w.tenants, m.who, th) && EvidenceOk(w, th) && HasCalled(w, th);
    OwnedStk(w.tenants[c], m.who, th.req, id);
  }

  // The payment after a move, in terms of the payment before it.
  lemma PaymentRequests(w: World, m: Move, c: string, id: string)
    requires c in w.tenants && c in Exec(w, m).tenants && id in Exec(w, m).tenants[c].db.payments
    ensures var before, p := w.tenants[c].db.payments, Exec(w, m).tenants[c].db.payments[id];
            || p.requestId == None
            || (id in before && p.requestId == before[id].requestId && p.kind == before[id].kind && p.id == before[id].id)
            || (id in before && Records(w, m, c, id) && p.requestId == NonEmpty(w.threads[m.who].init.request)
                && p.kind == before[id].kind && p.id == before[id].id)
  {
    EffectIsExec(w, m);
    if Effect(w, m).Some? && Effect(w, m).value.consumer == c {
      var x := Effect(w, m).value;
      LogKeepsDb(w.tenants[c], x.agent, x.db, x.note);
      EffectRequests(w, m, id);
    }
  }

  ghost predicate StoredIds(tenants: map<string, Tenant>) {
    forall c, id :: c in tenants && id in tenants[c].db.payments ==> tenants[c].db.payments[id].id == id
  }

  lemma TenantsStoreIds(tenants: map<string, Tenant>)
    requires TenantsOk(tenants)
    ensures StoredIds(tenants)
  {
    forall c, id | c in tenants && id in tenants[c].db.payments ensures tenants[c].db.payments[id].id == id {
      StoredClient(tenants[c], id);
    }
  }

  lemma PaymentRecorded(w: World, m: Move, c: string, id: string)
    requires Inv(w) && ThreadsEvident(w) && RequestInv(w) && StoredIds(w.tenants)
    requires WorldGrows(w, Exec(w, m)) && c in w.tenants && id in Exec(w, m).tenants[c].db.payments
    ensures RowRecorded(Exec(w, m), c, Exec(w, m).tenants[c].db.payments[id])
  {
    var v := Exec(w, m);
    var p := v.tenants[c].db.payments[id];
    PaymentRequests(w, m, c, id);
    if p.requestId.Some? {
      assert RowRecorded(w, c, w.tenants[c].db.payments[id]);
      if p.requestId == w.tenants[c].db.payments[id].requestId {
        RowRecordedKept(w, v, c, w.tenants[c].db.payments[id]);
      } else {
        RecorderKnows(w, m, c, id);
        CalledKept(w.tenants[c], v.tenants[c], id);
        if p.kind.StkPush? { NamesKept(w, v, p.requestId.value, c, id); }
      }
    }
  }

  lemma CallIsLogged(w: World, who: nat, ok: bool, text: string)
    requires who < |w.threads| && w.threads[who].Initiator?
    requires var at := ActInitiator(w, who, ok, text).threads[who]; at.Initiator? && at.init.AtRecord?
    requires w.threads[who].home in w.tenants && InitOk(w.tenants[w.threads[who].home], who, w.threads[who].req, w.threads[who].init)
    ensures HasCalled(ActInitiator(w, who, ok, text), ActInitiator(w, who, ok, text).threads[who])
  {
    var th, v := w.threads[who], ActInitiator(w, who, ok, text);
    var t, u := w.tenants[th.home], v.tenants[th.home];
    assert u.calls[|t.calls|].payment == th.init.payment;
  }

  lemma OtherRecorderKept(w: World, m: Move, i: nat)
    requires RecordersCalled(w) && WorldGrows(w, Exec(w, m)) && i < |w.threads| && !(m.Act? && m.who == i)
    ensures i < |Exec(w, m).threads| && HasCalled(Exec(w, m), Exec(w, m).threads[i])
  {
    BystanderSame(w, m, i);
    var th := w.threads[i];
    assert HasCalled(w, th);
    if th.Initiator? && th.init.AtRecord? && th.home in w.tenants {
      CalledKept(w.tenants[th.home], Exec(w, m).tenants[th.home], th.init.payment);
    }
  }

  lemma ActorRecords(w: World, who: nat, ok: bool, text: string)
    requires ThreadsOk(w.tenants, w.threads) && who < |w.threads|
    ensures who < |Exec(w, Act(who, ok, text)).threads|
    ensures HasCalled(Exec(w, Act(who, ok, text)), Exec(w, Act(who, ok, text)).threads[who])
  {
    ActLocal(w, who, ok, text);
    var th := w.threads[who];
    assert ThreadOk(w.tenants, who, th);
    if th.Initiator? && th.home in w.tenants && ActInitiator(w, who, ok, text).threads[who].init.AtRecord? {
      CallIsLogged(w, who, ok, text);
    }
  }

  lemma RecorderKept(w: World, m: Move, i: nat)
    requires Inv(w) && RecordersCalled(w) && WorldGrows(w, Exec(w, m)) && i < |Exec(w, m).threads|
    ensures HasCalled(Exec(w, m), Exec(w, m).threads[i])
  {
    if i >= |w.threads| {
      NewThreadUnstarted(w, m, i);
    } else if m.Act? && m.who == i {
      ActorRecords(w, i, m.ok, m.text);
    } else {
      OtherRecorderKept(w, m, i);
    }
  }

  lemma RequestsKept(w: World, m: Move)
    requires Inv(w) && ThreadsEvident(w) && RequestInv(w)
    ensures RequestInv(Exec(w, m))
  {
    var v := Exec(w, m);
    ExecGrowsWorld(w, m);
    forall c, id | c in v.tenants && id in v.tenants[c].db.payments ensures RowRecorded(v, c, v.tenants[c].db.payments[id]) {
      TenantsStoreIds(w.tenants);
      PaymentRecorded(w, m, c, id);
    }
    forall i | 0 <= i < |v.threads| ensures HasCalled(v, v.threads[i]) {
      RecorderKept(w, m, i);
    }
  }

  lemma {:induction false} RunRequests(consumers: set<string>, moves: seq<Move>)
    requires Configured(consumers)
    ensures RequestInv(Run(Boot(consumers), moves))
    decreases |moves|
  {
    if moves != [] {
      var front := moves[..|moves| - 1];
      RunRequests(consumers, front);
      var w := Run(Boot(consumers), front);
      ReachableInv(w);
      ReachableRoutes(w);
      RequestsKept(w, moves[|moves| - 1]);
      RunSnoc(Boot(consumers), moves);
    }
  }

  // In every reachable state: a stored request id means that the provider was called for this very
  // payment, and for an STK payment that it is the checkout id issued to it.
  lemma RequestIdsAreOwn(w: World, c: string, id: string)
    requires Reachable(w) && c in w.tenants && id in w.tenants[c].db.payments
    requires w.tenants[c].db.payments[id].requestId.Some?
    ensures CalledFor(w.tenants[c], id)
    ensures w.tenants[c].db.payments[id].requestId != Some("")
    ensures w.tenants[c].db.payments[id].kind.StkPush? ==> Names(w, w.tenants[c].db.payments[id].requestId.value, c, id)
  {
    var consumers, moves :| Configured(consumers) && w == Run(Boot(consumers), moves);
    RunRequests(consumers, moves);
    ReachableInv(w);
    TenantsStoreIds(w.tenants);
    assert RowRecorded(w, c, w.tenants[c].db.payments[id]);
  }
}
