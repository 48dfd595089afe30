/** Idempotency, immutability and the payment lifecycle over whole runs. */
module Lifecycle {
  import opened Base
  import opened Money
  import opened Domain
  import opened Ledger
  import opened Tables
  import opened Steps
  import opened Machine
  import opened Invariants
  import opened LedgerTheorems

  // At most one payment and at most one provider initiation call per client and idempotency key,
  // across all interleavings of the four initiators and even when a lookup fails; and every call
  // bills exactly the recorded amount of its payment.
  lemma OneCallPerKey(w: World, consumer: string)
    requires Reachable(w) && consumer in w.tenants
    ensures var t := w.tenants[consumer];
            && (forall a, b :: (a in t.db.payments && b in t.db.payments && a != b) ==>
                  t.db.payments[a].client != t.db.payments[b].client || t.db.payments[a].key != t.db.payments[b].key)
            && (forall j, k :: 0 <= j < k < |t.calls| ==>
                  t.calls[j].client != t.calls[k].client || t.calls[j].key != t.calls[k].key)
            && (forall k :: 0 <= k < |t.calls| ==>
                  t.calls[k].payment in t.db.payments
                  && BilledCents(t.calls[k].billed) == Some(t.db.payments[t.calls[k].payment].amount))
  {
    ReachableInv(w);
    var t := w.tenants[consumer];
    assert TenantOk(t);
    forall j, k | 0 <= j < k < |t.calls|
      ensures t.calls[j].client != t.calls[k].client || t.calls[j].key != t.calls[k].key
    {
      assert CallOk(t, t.calls[j]) && CallOk(t, t.calls[k]);
    }
    forall k | 0 <= k < |t.calls| ensures CallOk(t, t.calls[k]) {
    }
  }

  // Only pending, completed and failed are ever reached.
  lemma OnlyThreeStatuses(w: World, consumer: string, id: string)
    requires Reachable(w) && consumer in w.tenants && id in w.tenants[consumer].db.payments
    ensures w.tenants[consumer].db.payments[id].status in {Pending, Completed, Failed}
    ensures w.tenants[consumer].db.payments[id].status == Pending ==> w.tenants[consumer].db.payments[id].completedAt == None
  {
    ReachableInv(w);
    assert TenantOk(w.tenants[consumer]);
    assert PaymentOk(w.tenants[consumer], id);
  }

  // Over any run: payments keep their immutable columns, never return to pending, never lose
  // completed_at; events, journal rows and accounts are append-only.
  lemma {:induction false} RunGrows(w: World, moves: seq<Move>, c: string)
    requires Inv(w) && c in w.tenants
    ensures c in Run(w, moves).tenants && Grows(w.tenants[c], Run(w, moves).tenants[c])
    decreases |moves|
  {
    if moves != [] {
      ExecGrows(w, moves[0], c);
      ExecKeeps(w, moves[0]);
      var v := Exec(w, moves[0]);
      RunGrows(v, moves[1..], c);
      GrowsTransitive(w.tenants[c], v.tenants[c], Run(v, moves[1..]).tenants[c]);
    }
  }

  // Once a client's accounts are all seeded, every payment it has then or gets later can be
  // journalled: without an injected fault its bulk write appends exactly its two rows.
  lemma SeededForever(w: World, moves: seq<Move>, consumer: string, client: string, id: string)
    requires Reachable(w) && consumer in w.tenants && Seeded(w.tenants[consumer].db, client)
    requires consumer in Run(w, moves).tenants
    requires id in Run(w, moves).tenants[consumer].db.payments
    requires Run(w, moves).tenants[consumer].db.payments[id].client == client
    ensures var db := Run(w, moves).tenants[consumer].db;
            forall now :: SettleStep(db, now, AtPost(db.payments[id]), true).db.journal
                          == db.journal + Template(db.payments[id])
  {
    ReachableInv(w);
    RunGrows(w, moves, consumer);
    RunKeeps(w, moves);
    var t, u := w.tenants[consumer], Run(w, moves).tenants[consumer];
    assert Seeded(u.db, client);
    assert TenantOk(u);
    SeededClientsPost(u, id);
  }

  // ---- The pending payments as a measure -----------------------------------------------

  function PendingIds(db: Db): set<string> {
    set id | id in db.payments && db.payments[id].status == Pending
  }

  // Nobody is about to insert a payment.
  ghost predicate NoInserts(threads: seq<Thread>) {
    forall i :: 0 <= i < |threads| ==>
      threads[i].Initiator? ==> !threads[i].init.AtLookup? && !threads[i].init.AtInsert?
  }

  ghost predicate NoNewRequests(moves: seq<Move>) {
    forall k :: 0 <= k < |moves| ==> !(moves[k].Arrive? && moves[k].thread.Initiator?)
  }

  lemma QuietAct(w: World, who: nat, ok: bool, text: string)
    requires NoInserts(w.threads) && who < |w.threads|
    ensures NoInserts(Exec(w, Act(who, ok, text)).threads)
  {
    var th := w.threads[who];
    assert th.Initiator? ==> !th.init.AtLookup? && !th.init.AtInsert?;
  }

  lemma QuietExec(w: World, m: Move)
    requires NoInserts(w.threads) && !(m.Arrive? && m.thread.Initiator?)
    ensures NoInserts(Exec(w, m).threads)
  {
    match m
    case Act(who, ok, text) => if who < |w.threads| { QuietAct(w, who, ok, text); }
    case SettleNext(_) =>
    case ListBatch(_, _) =>
    case _ =>
  }

  lemma SettleStepDrains(db: Db, now: int, at: SettlePoint, ok: bool)
    ensures PendingIds(SettleStep(db, now, at, ok).db) <= PendingIds(db)
  {
  }

  lemma InitStepDrains(db: Db, now: int, req: Request, at: InitPoint, ok: bool, text: string)
    requires !at.AtInsert?
    ensures PendingIds(InitStep(db, now, req, at, ok, text).db) <= PendingIds(db)
  {
  }

  lemma EffectDrains(w: World, m: Move)
    requires Effect(w, m).Some? && NoInserts(w.threads)
    ensures var x := Effect(w, m).value;
            x.consumer in w.tenants && PendingIds(x.db) <= PendingIds(w.tenants[x.consumer].db)
  {
    match m
    case Administer(_, _) =>
    case SettleNext(ok) => SettleStepDrains(w.tenants[w.recon.consumer].db, w.now, w.recon.at, ok);
    case Act(who, ok, text) =>
      match w.threads[who] {
        case Initiator(home, req, at) => InitStepDrains(w.tenants[home].db, w.now, req, at, ok, text);
        case Task(_, at) => SettleStepDrains(w.tenants[at.consumer].db, w.now, at.at, ok);
        case Hook(c, _, at) => SettleStepDrains(w.tenants[c].db, w.now, at.at, ok);
      }
  }

  lemma PendingShrinks(w: World, m: Move, c: string)
    requires c in w.tenants && NoInserts(w.threads)
    ensures c in Exec(w, m).tenants && PendingIds(Exec(w, m).tenants[c].db) <= PendingIds(w.tenants[c].db)
  {
    EffectIsExec(w, m);
    if Effect(w, m).Some? {
      EffectDrains(w, m);
      var x := Effect(w, m).value;
      LogKeepsDb(w.tenants[x.consumer], x.agent, x.db, x.note);
    }
  }

  // With no new initiation the pending payments only ever shrink, as a set and in number.
  lemma {:induction false} PendingNeverRises(w: World, moves: seq<Move>, c: string)
    requires c in w.tenants && NoInserts(w.threads) && NoNewRequests(moves)
    ensures c in Run(w, moves).tenants
    ensures PendingIds(Run(w, moves).tenants[c].db) <= PendingIds(w.tenants[c].db)
    ensures |PendingIds(Run(w, moves).tenants[c].db)| <= |PendingIds(w.tenants[c].db)|
    decreases |moves|
  {
    if moves != [] {
      var v := Exec(w, moves[0]);
      QuietExec(w, moves[0]);
      PendingShrinks(w, moves[0], c);
      PendingNeverRises(v, moves[1..], c);
      SubsetSize(PendingIds(Run(v, moves[1..]).tenants[c].db), PendingIds(w.tenants[c].db));
    }
  }

  lemma SubsetSize(a: set<string>, b: set<string>)
    requires a <= b
    ensures |a| <= |b|
  {
    assert b == a + (b - a);
  }

  // Every successful settlement of a pending row takes exactly that payment out of the set.
  lemma SettlingDrains(db: Db, id: string, s: Settlement, now: int)
    requires id in db.payments && db.payments[id].status == Pending
    ensures var out := SettleStep(db, now, AtRow(id, s), true);
            && PendingIds(out.db) == PendingIds(db) - {id}
            && |PendingIds(out.db)| == |PendingIds(db)| - 1
  {
    var after := SettleStep(db, now, AtRow(id, s), true).db;
    assert PendingIds(after) == PendingIds(db) - {id};
    assert id in PendingIds(db);
  }

  // ---- Which status a payment has ------------------------------------------------------------

  // The settlement this move writes on this payment, if any.
  ghost function Writes(w: World, m: Move, c: string, id: string): Option<Settlement> {
    match Effect(w, m)
    case None => None
    case Some(x) => if x.consumer == c && x.note.Settled? && x.note.payment == id then Some(x.note.s) else None
  }

  // The last settlement a run writes on this payment, if any.
  ghost function LastWritten(w: World, moves: seq<Move>, c: string, id: string): Option<Settlement>
    decreases |moves|
  {
    if moves == [] then None
    else
      var later := LastWritten(Exec(w, moves[0]), moves[1..], c, id);
      if later.Some? then later else Writes(w, moves[0], c, id)
  }

  function StatusOf(s: Settlement): Status {
    if s.Completion? then Completed else Failed
  }

  function Current(db: Db, id: string): Status {
    if id in db.payments then db.payments[id].status else Pending
  }

  lemma SettleStepStatus(db: Db, now: int, at: SettlePoint, ok: bool, id: string)
    ensures var out := SettleStep(db, now, at, ok);
            Current(out.db, id)
            == if out.note.Settled? && out.note.payment == id then StatusOf(out.note.s) else Current(db, id)
  {
  }

  lemma InitStepStatus(db: Db, now: int, req: Request, at: InitPoint, ok: bool, text: string, id: string)
    ensures var out := InitStep(db, now, req, at, ok, text);
            Current(out.db, id)
            == if out.note.Settled? && out.note.payment == id then StatusOf(out.note.s) else Current(db, id)
  {
  }

  lemma EffectStatus(w: World, m: Move, id: string)
    requires Effect(w, m).Some?
    ensures var x := Effect(w, m).value;
            && x.consumer in w.tenants
            && Current(x.db, id)
               == if x.note.Settled? && x.note.payment == id then StatusOf(x.note.s) else Current(w.tenants[x.consumer].db, id)
  {
    match m
    case Administer(_, _) =>
    case SettleNext(ok) => SettleStepStatus(w.tenants[w.recon.consumer].db, w.now, w.recon.at, ok, id);
    case Act(who, ok, text) =>
      match w.threads[who] {
        case Initiator(home, req, at) => InitStepStatus(w.tenants[home].db, w.now, req, at, ok, text, id);
        case Task(_, at) => SettleStepStatus(w.tenants[at.consumer].db, w.now, at.at, ok, id);
        case Hook(c, _, at) => SettleStepStatus(w.tenants[c].db, w.now, at.at, ok, id);
      }
  }

  lemma ExecStatus(w: World, m: Move, c: string, id: string)
    requires c in w.tenants
    ensures c in Exec(w, m).tenants
    ensures Current(Exec(w, m).tenants[c].db, id)
            == if Writes(w, m, c, id).Some? then StatusOf(Writes(w, m, c, id).value) else Current(w.tenants[c].db, id)
  {
    EffectIsExec(w, m);
    if Effect(w, m).Some? {
      var x := Effect(w, m).value;
      EffectStatus(w, m, id);
      LogKeepsDb(w.tenants[x.consumer], x.agent, x.db, x.note);
    }
  }

  // Over any run a payment's status is decided by the last settlement written on it, whatever was
  // written before: nothing protects a completed payment from a later failure.
  lemma {:induction false} StatusIsLastWritten(w: World, moves: seq<Move>, c: string, id: string)
    requires c in w.tenants
    ensures c in Run(w, moves).tenants
    ensures Current(Run(w, moves).tenants[c].db, id)
            == (match LastWritten(w, moves, c, id)
                case Some(s) => StatusOf(s)
                case None => Current(w.tenants[c].db, id))
    decreases |moves|
  {
    if moves != [] {
      ExecStatus(w, moves[0], c, id);
      StatusIsLastWritten(Exec(w, moves[0]), moves[1..], c, id);
    }
  }

  // A journalled payment still reads completed exactly when no failure was written on it after its
  // last completion.
  lemma JournalledStaysCompletedIff(consumers: set<string>, moves: seq<Move>, c: string, k: nat)
    requires Configured(consumers) && c in consumers && c in Run(Boot(consumers), moves).tenants
    requires k < |Run(Boot(consumers), moves).tenants[c].db.journal|
    ensures var db := Run(Boot(consumers), moves).tenants[c].db;
            var id := db.journal[k].payment;
            var last := LastWritten(Boot(consumers), moves, c, id);
            && id in db.payments && last.Some?
            && (db.payments[id].status == Completed <==> last.value.Completion?)
            && (db.payments[id].status == Failed <==> last.value.Failure?)
  {
    var w := Run(Boot(consumers), moves);
    var id := w.tenants[c].db.journal[k].payment;
    JournalledImpliesCompleted(w, c);
    OnlyThreeStatuses(w, c, id);
    StatusIsLastWritten(Boot(consumers), moves, c, id);
  }
}
