/**
 * Where every completion went. Journal errors after the row update are logged and dropped, so a
 * completed payment need not be journalled; here is the exact account of the ones that are not.
 */
module Completeness {
  import opened Base
  import opened Domain
  import opened Ledger
  import opened Tables
  import opened Steps
  import opened Machine
  import opened Invariants
  import opened LedgerTheorems
  import opened Provenance

  // This control point carries a completion of the payment that is not journalled yet.
  predicate Holding(at: SettlePoint, id: string) {
    match at
    case AtRow(_, _) => false
    case AtEvent(row, s) => s.Completion? && row.id == id
    case AtPost(row) => row.id == id
  }

  // Where an agent is in a settlement, and in whose database.
  function Point(w: World, agent: int): Option<(string, SettlePoint)> {
    if agent == RECONCILER then
      if w.recon.ReconSettling? then Some((w.recon.consumer, w.recon.at)) else None
    else if 0 <= agent < |w.threads| then
      match w.threads[agent]
      case Initiator(_, _, _) => None
      case Task(_, at) => if at.TaskSettling? then Some((at.consumer, at.at)) else None
      case Hook(c, _, at) => if at.HookSettling? then Some((c, at.at)) else None
    else None
  }

  function Held(at: Option<(string, SettlePoint)>, c: string, id: string): nat {
    if at.Some? && at.value.0 == c && Holding(at.value.1, id) then 1 else 0
  }

  // 1 if this agent is between completing this payment and journalling it.
  function InFlight(w: World, c: string, x: Write): nat {
    Held(Point(w, x.agent), c, x.payment)
  }

  predicate ActsAs(m: Move, agent: int) {
    (m.Act? && m.who == agent) || (m.SettleNext? && agent == RECONCILER)
  }

  predicate PostFails(db: Db, at: SettlePoint, ok: bool, id: string) {
    at.AtPost? && at.row.id == id && !(ok && Postable(db, Template(at.row)))
  }

  // 1 if this move is the agent's journal write for this payment and it is refused: by a fault, or
  // by a missing account.
  function Drops(w: World, m: Move, c: string, x: Write): nat {
    var at := Point(w, x.agent);
    if ActsAs(m, x.agent) && at.Some? && at.value.0 == c && c in w.tenants
       && PostFails(w.tenants[c].db, at.value.1, m.ok, x.payment) then 1 else 0
  }

  // The journal writes dropped over a whole run.
  ghost function Dropped(w: World, moves: seq<Move>, c: string, x: Write): nat
    decreases |moves|
  {
    if moves == [] then 0 else Drops(w, moves[0], c, x) + Dropped(Exec(w, moves[0]), moves[1..], c, x)
  }

  // Completions that have not been journalled.
  function Open(t: Tenant, x: Write): int {
    multiset(t.completions)[x] as int - multiset(t.postings)[x]
  }

  // ---- One call of a settlement ---------------------------------------------------------

  function HeldAfter(o: Outcome, id: string): nat {
    if o.Continue? && Holding(o.at, id) then 1 else 0
  }

  ghost predicate KnowsItsId(db: Db, at: SettlePoint) {
    at.AtRow? && at.payment in db.payments ==> db.payments[at.payment].id == at.payment
  }

  // A call opens what it completes, closes what it posts, and passes on or drops the rest.
  lemma SettleAccounts(t: Tenant, agent: int, now: int, at: SettlePoint, ok: bool, id: string)
    requires KnowsItsId(t.db, at)
    ensures var out := SettleStep(t.db, now, at, ok);
            var u := Log(t, agent, out.db, out.note);
            Open(u, Write(agent, id)) - Open(t, Write(agent, id))
            == HeldAfter(out.outcome, id) + (if PostFails(t.db, at, ok, id) then 1 else 0) - (if Holding(at, id) then 1 else 0)
  {
    var out := SettleStep(t.db, now, at, ok);
    match out.note
    case Settled(p, _) => MultisetAppend(t.completions, Write(agent, p));
    case Posted(p) => MultisetAppend(t.postings, Write(agent, p));
    case _ =>
  }

  // Nobody else's account moves.
  lemma LogOther(t: Tenant, agent: int, db: Db, note: Note, x: Write)
    requires x.agent != agent || note.Quiet? || note.Inserted? || note.Called? || (note.Settled? && note.s.Failure?)
    ensures Open(Log(t, agent, db, note), x) == Open(t, x)
  {
    match note
    case Settled(id, _) => MultisetAppend(t.completions, Write(agent, id));
    case Posted(id) => MultisetAppend(t.postings, Write(agent, id));
    case _ =>
  }

  // ---- One move --------------------------------------------------------------------------

  // What a move does to one account, with the in-flight and dropped entries on the other side.
  ghost predicate Accounts(w: World, m: Move, c: string, x: Write) {
    && c in w.tenants && c in Exec(w, m).tenants
    && Open(Exec(w, m).tenants[c], x) - Open(w.tenants[c], x)
       == InFlight(Exec(w, m), c, x) + Drops(w, m, c, x) - InFlight(w, c, x)
  }

  lemma OthersKeepTheirPoint(w: World, m: Move, agent: int)
    requires !ActsAs(m, agent)
    ensures forall c, id :: Held(Point(Exec(w, m), agent), c, id) == Held(Point(w, agent), c, id)
  {
    if agent == RECONCILER {
      if m.StartCycle? || m.ListBatch? || m.QueryStatus? {
        ReconMoveIsLocal(w, m);
      }
    } else if m.Act? && m.who < |w.threads| {
      ActLocal(w, m.who, m.ok, m.text);
    } else {
      OtherMovesKeepThreads(w, m);
      if |w.threads| <= agent < |Exec(w, m).threads| {
        NewThreadUnstarted(w, m, agent);
      }
    }
  }

  lemma EffectIsByActor(w: World, m: Move)
    requires Effect(w, m).Some?
    ensures var x := Effect(w, m).value;
            x.consumer in w.tenants && (ActsAs(m, x.agent) || (m.Administer? && x.note.Quiet?))
  {
  }

  lemma OtherAccounts(w: World, m: Move, c: string, x: Write)
    requires c in w.tenants && !ActsAs(m, x.agent)
    ensures Accounts(w, m, c, x)
  {
    EffectIsExec(w, m);
    OthersKeepTheirPoint(w, m, x.agent);
    if Effect(w, m).Some? {
      EffectIsByActor(w, m);
      var e := Effect(w, m).value;
      LogOther(w.tenants[e.consumer], e.agent, e.db, e.note, x);
    }
  }

  lemma InitiatorAccounts(w: World, m: Move, c: string, id: string)
    requires c in w.tenants && m.Act? && m.who < |w.threads| && w.threads[m.who].Initiator?
    ensures Accounts(w, m, c, Write(m.who, id))
  {
    var th := w.threads[m.who];
    ActLocal(w, m.who, m.ok, m.text);
    if th.home in w.tenants {
      var out := InitStep(w.tenants[th.home].db, w.now, th.req, th.init, m.ok, m.text);
      LogOther(w.tenants[th.home], m.who, out.db, out.note, Write(m.who, id));
    }
  }

  // The agent makes this call of its settlement, and nothing else happens.
  ghost predicate SettlesAt(w: World, v: World, agent: int, home: string, at: SettlePoint, ok: bool) {
    && home in w.tenants && Point(w, agent) == Some((home, at))
    && var out := SettleStep(w.tenants[home].db, w.now, at, ok);
       && v.tenants == w.tenants[home := Log(w.tenants[home], agent, out.db, out.note)]
       && Point(v, agent) == (if out.outcome.Continue? then Some((home, out.outcome.at)) else None)
  }

  lemma SettlingAccounts(w: World, m: Move, agent: int, home: string, at: SettlePoint, c: string, id: string)
    requires c in w.tenants && (m.Act? || m.SettleNext?) && ActsAs(m, agent)
    requires SettlesAt(w, Exec(w, m), agent, home, at, m.ok) && KnowsItsId(w.tenants[home].db, at)
    ensures Accounts(w, m, c, Write(agent, id))
  {
    SettleAccounts(w.tenants[home], agent, w.now, at, m.ok, id);
  }

  lemma TaskCall(w: World, who: nat, ok: bool, text: string)
    requires who < |w.threads| && w.threads[who].Task? && w.threads[who].task.TaskSettling?
    requires w.threads[who].task.consumer in w.tenants
    ensures SettlesAt(w, Exec(w, Act(who, ok, text)), who, w.threads[who].task.consumer, w.threads[who].task.at, ok)
  {
  }

  lemma HookCall(w: World, who: nat, ok: bool, text: string)
    requires who < |w.threads| && w.threads[who].Hook? && w.threads[who].hook.HookSettling?
    requires w.threads[who].consumer in w.tenants
    ensures SettlesAt(w, Exec(w, Act(who, ok, text)), who, w.threads[who].consumer, w.threads[who].hook.at, ok)
  {
  }

  lemma ReconCall(w: World, ok: bool)
    requires w.recon.ReconSettling? && w.recon.consumer in w.tenants
    ensures SettlesAt(w, Exec(w, SettleNext(ok)), RECONCILER, w.recon.consumer, w.recon.at, ok)
  {
  }

  // An agent that is not settling only moves to a control point that holds nothing.
  lemma TaskIdles(w: World, m: Move, c: string, id: string)
    requires c in w.tenants && m.Act? && m.who < |w.threads| && w.threads[m.who].Task?
    requires var at := w.threads[m.who].task; at.TaskSettling? ==> at.consumer !in w.tenants && at.at.AtRow?
    ensures Accounts(w, m, c, Write(m.who, id))
  {
    TaskLocal(w, m.who, m.ok);
  }

  lemma HookIdles(w: World, m: Move, c: string, id: string)
    requires c in w.tenants && m.Act? && m.who < |w.threads| && w.threads[m.who].Hook?
    requires !w.threads[m.who].hook.HookSettling?
    ensures Accounts(w, m, c, Write(m.who, id))
  {
    HookLocal(w, m.who, m.ok);
  }

  lemma TenantsKnowIds(w: World, c: string, at: SettlePoint)
    requires TenantsOk(w.tenants) && c in w.tenants
    ensures KnowsItsId(w.tenants[c].db, at)
  {
    assert TenantOk(w.tenants[c]);
    if at.AtRow? && at.payment in w.tenants[c].db.payments {
      assert PaymentOk(w.tenants[c], at.payment);
    }
  }

  lemma TaskAccounts(w: World, m: Move, c: string, id: string)
    requires TenantsOk(w.tenants) && c in w.tenants && m.Act? && m.who < |w.threads| && w.threads[m.who].Task?
    requires ThreadOk(w.tenants, m.who, w.threads[m.who])
    ensures Accounts(w, m, c, Write(m.who, id))
  {
    var at := w.threads[m.who].task;
    if at.TaskSettling? && at.consumer in w.tenants {
      TenantsKnowIds(w, at.consumer, at.at);
      TaskCall(w, m.who, m.ok, m.text);
      SettlingAccounts(w, m, m.who, at.consumer, at.at, c, id);
    } else {
      TaskIdles(w, m, c, id);
    }
  }

  lemma HookAccounts(w: World, m: Move, c: string, id: string)
    requires TenantsOk(w.tenants) && c in w.tenants && m.Act? && m.who < |w.threads| && w.threads[m.who].Hook?
    requires ThreadOk(w.tenants, m.who, w.threads[m.who])
    ensures Accounts(w, m, c, Write(m.who, id))
  {
    var th := w.threads[m.who];
    if th.hook.HookSettling? {
      TenantsKnowIds(w, th.consumer, th.hook.at);
      HookCall(w, m.who, m.ok, m.text);
      SettlingAccounts(w, m, m.who, th.consumer, th.hook.at, c, id);
    } else {
      HookIdles(w, m, c, id);
    }
  }

  lemma NoSuchThread(w: World, m: Move, c: string, id: string)
    requires c in w.tenants && m.Act? && m.who >= |w.threads|
    ensures Accounts(w, m, c, Write(m.who, id))
  {
  }

  lemma ActorAccounts(w: World, m: Move, c: string, x: Write)
    requires TenantsOk(w.tenants) && ThreadsOk(w.tenants, w.threads) && c in w.tenants
    requires m.Act? && m.who == x.agent
    ensures Accounts(w, m, c, x)
  {
    if m.who >= |w.threads| {
      NoSuchThread(w, m, c, x.payment);
    } else {
      assert ThreadOk(w.tenants, m.who, w.threads[m.who]);
      match w.threads[m.who]
      case Initiator(_, _, _) => InitiatorAccounts(w, m, c, x.payment);
      case Task(_, _) => TaskAccounts(w, m, c, x.payment);
      case Hook(_, _, _) => HookAccounts(w, m, c, x.payment);
    }
  }

  lemma ReconLost(w: World, m: Move, c: string, id: string)
    requires c in w.tenants && m.SettleNext?
    requires w.recon.ReconSettling? ==> w.recon.consumer !in w.tenants && w.recon.at.AtRow?
    ensures Accounts(w, m, c, Write(RECONCILER, id))
  {
  }

  lemma ReconAccounts(w: World, m: Move, c: string, id: string)
    requires TenantsOk(w.tenants) && ReconOk(w.tenants, w.recon) && c in w.tenants && m.SettleNext?
    ensures Accounts(w, m, c, Write(RECONCILER, id))
  {
    if w.recon.ReconSettling? && w.recon.consumer in w.tenants {
      TenantsKnowIds(w, w.recon.consumer, w.recon.at);
      ReconCall(w, m.ok);
      SettlingAccounts(w, m, RECONCILER, w.recon.consumer, w.recon.at, c, id);
    } else {
      ReconLost(w, m, c, id);
    }
  }

  lemma MoveAccounts(w: World, m: Move, c: string, x: Write)
    requires Inv(w) && c in w.tenants
    ensures Accounts(w, m, c, x)
  {
    if m.Act? && m.who == x.agent {
      ActorAccounts(w, m, c, x);
    } else if m.SettleNext? && x.agent == RECONCILER {
      ReconAccounts(w, m, c, x.payment);
    } else {
      OtherAccounts(w, m, c, x);
    }
  }

  // ---- Whole runs ------------------------------------------------------------------------

  lemma {:induction false} RunAccounts(w: World, moves: seq<Move>, c: string, x: Write)
    requires Inv(w) && c in w.tenants
    ensures c in Run(w, moves).tenants
    ensures Open(Run(w, moves).tenants[c], x) - Open(w.tenants[c], x)
            == InFlight(Run(w, moves), c, x) + Dropped(w, moves, c, x) - InFlight(w, c, x)
    decreases |moves|
  {
    if moves != [] {
      MoveAccounts(w, moves[0], c, x);
      ExecKeeps(w, moves[0]);
      RunAccounts(Exec(w, moves[0]), moves[1..], c, x);
    }
  }

  // Over every run and every interleaving: each agent's completions of each payment are its
  // journalled ones, plus the one it is in the middle of, plus those whose journal write was dropped.
  lemma EveryCompletionIsAccountedFor(consumers: set<string>, moves: seq<Move>, c: string, x: Write)
    requires c in consumers
    ensures var w := Run(Boot(consumers), moves);
            && c in w.tenants
            && multiset(w.tenants[c].completions)[x]
               == multiset(w.tenants[c].postings)[x] + InFlight(w, c, x) + Dropped(Boot(consumers), moves, c, x)
  {
    BootInv(consumers);
    RunAccounts(Boot(consumers), moves, c, x);
  }

  // Nobody is between completing and journalling in this database.
  ghost predicate AtRest(w: World, c: string) {
    forall x: Write :: InFlight(w, c, x) == 0
  }

  ghost predicate NothingDropped(consumers: set<string>, moves: seq<Move>, c: string) {
    forall x: Write :: Dropped(Boot(consumers), moves, c, x) == 0
  }

  lemma SameCounts(a: seq<Write>, b: seq<Write>, sel: Selector)
    requires forall x: Write :: multiset(a)[x] == multiset(b)[x]
    ensures Count(a, sel) == Count(b, sel)
  {
    CountMonotone(a, b, sel);
    CountMonotone(b, a, sel);
  }

  // The exact condition for "completed means journalled": once nobody is mid-settlement, the
  // committed journal pairs are the completion writes, one for one, if and only if no journal write
  // was refused along the way.
  lemma JournalledExactlyWhenNothingDropped(consumers: set<string>, moves: seq<Move>, c: string)
    requires c in consumers && AtRest(Run(Boot(consumers), moves), c)
    ensures c in Run(Boot(consumers), moves).tenants
    ensures var t := Run(Boot(consumers), moves).tenants[c];
            multiset(t.postings) == multiset(t.completions) <==> NothingDropped(consumers, moves, c)
  {
    var w := Run(Boot(consumers), moves);
    EveryCompletionIsAccountedFor(consumers, moves, c, Write(0, ""));
    var t := w.tenants[c];
    forall x: Write
      ensures multiset(t.completions)[x] == multiset(t.postings)[x] + Dropped(Boot(consumers), moves, c, x)
    {
      EveryCompletionIsAccountedFor(consumers, moves, c, x);
      assert InFlight(w, c, x) == 0;
    }
    SameMultisets(t.postings, t.completions);
  }

  lemma SameMultisets(a: seq<Write>, b: seq<Write>)
    ensures multiset(a) == multiset(b) <==> forall x: Write :: multiset(a)[x] == multiset(b)[x]
  {
  }

  // Then each payment's journal rows are exactly one copy of its template per completion write; in
  // particular a completed payment is journalled.
  lemma CompletedThenJournalled(consumers: set<string>, moves: seq<Move>, c: string, id: string)
    requires Configured(consumers) && c in consumers && AtRest(Run(Boot(consumers), moves), c)
    requires NothingDropped(consumers, moves, c)
    requires c in Run(Boot(consumers), moves).tenants && id in Run(Boot(consumers), moves).tenants[c].db.payments
    ensures var t := Run(Boot(consumers), moves).tenants[c];
            && multiset(RowsOf(t.db.journal, id)) == Copies(t.db.payments[id], Count(t.completions, ForPayment(id)))
            && (t.db.payments[id].completedAt.Some? <==> RowsOf(t.db.journal, id) != [])
  {
    var w := Run(Boot(consumers), moves);
    var t := w.tenants[c];
    JournalledExactlyWhenNothingDropped(consumers, moves, c);
    SameCounts(t.postings, t.completions, ForPayment(id));
    PaymentRowsAreTemplates(w, c, id);
    JournalledImpliesCompleted(w, c);
    CopiesEmptyIff(t.db.payments[id], Count(t.completions, ForPayment(id)), RowsOf(t.db.journal, id));
  }

  lemma CopiesEmptyIff(p: Payment, k: nat, rows: seq<JournalRow>)
    requires multiset(rows) == Copies(p, k)
    ensures rows == [] <==> k == 0
  {
    assert rows != [] ==> rows[0] in multiset(rows);
    assert k > 0 ==> Template(p)[1] in multiset(rows);
  }

  // ---- A condition to check beforehand ---------------------------------------------------

  // This move does not complete a payment of a client whose accounts are not all there, and does not
  // have a journal write of consumer c fail under it.
  ghost predicate Provisioned(w: World, m: Move, c: string) {
    && (m.Act? || m.SettleNext? ==>
          forall agent :: ActsAs(m, agent) ==> ProvisionedCall(w, Point(w, agent), m.ok, c))
  }

  ghost predicate ProvisionedCall(w: World, at: Option<(string, SettlePoint)>, ok: bool, c: string) {
    at.Some? && at.value.0 == c && c in w.tenants ==>
      var db := w.tenants[c].db;
      match at.value.1
      case AtRow(id, s) => s.Completion? && id in db.payments ==> Seeded(db, db.payments[id].client)
      case AtEvent(_, _) => true
      case AtPost(_) => ok
  }

  ghost predicate ProvisionedRun(w: World, moves: seq<Move>, c: string)
    decreases |moves|
  {
    moves == [] || (Provisioned(w, moves[0], c) && ProvisionedRun(Exec(w, moves[0]), moves[1..], c))
  }

  // An unjournalled completion in flight is of a client with all its accounts.
  ghost predicate SeededPoint(w: World, at: Option<(string, SettlePoint)>, c: string) {
    at.Some? && at.value.0 == c && c in w.tenants ==>
      match at.value.1
      case AtRow(_, _) => true
      case AtEvent(row, s) => s.Completion? ==> Seeded(w.tenants[c].db, row.client)
      case AtPost(row) => Seeded(w.tenants[c].db, row.client)
  }

  ghost predicate SeededPoints(w: World, c: string) {
    forall agent: int :: SeededPoint(w, Point(w, agent), c)
  }

  lemma SeededGrows(t: Tenant, u: Tenant, client: string)
    requires Seeded(t.db, client) && Grows(t, u)
    ensures Seeded(u.db, client)
  {
  }

  lemma PointGrows(w: World, v: World, at: Option<(string, SettlePoint)>, c: string)
    requires c in w.tenants && c in v.tenants && Grows(w.tenants[c], v.tenants[c]) && SeededPoint(w, at, c)
    ensures SeededPoint(v, at, c)
  {
    if at.Some? && at.value.0 == c {
      match at.value.1
      case AtRow(_, _) =>
      case AtEvent(row, s) => if s.Completion? { SeededGrows(w.tenants[c], v.tenants[c], row.client); }
      case AtPost(row) => SeededGrows(w.tenants[c], v.tenants[c], row.client);
    }
  }

  // Where a call of a settlement goes next.
  lemma NextPointSeeded(w: World, v: World, home: string, at: SettlePoint, ok: bool, c: string)
    requires c in w.tenants && c in v.tenants && home in w.tenants
    requires SeededPoint(w, Some((home, at)), c) && ProvisionedCall(w, Some((home, at)), ok, c)
    requires c == home ==> v.tenants[c].db.accounts == SettleStep(w.tenants[home].db, w.now, at, ok).db.accounts
    ensures var out := SettleStep(w.tenants[home].db, w.now, at, ok);
            out.outcome.Continue? ==> SeededPoint(v, Some((home, out.outcome.at)), c)
  {
  }

  lemma SettlingPointSeeded(w: World, v: World, agent: int, home: string, at: SettlePoint, ok: bool, c: string)
    requires c in w.tenants && SettlesAt(w, v, agent, home, at, ok)
    requires SeededPoint(w, Point(w, agent), c) && ProvisionedCall(w, Point(w, agent), ok, c)
    ensures SeededPoint(v, Point(v, agent), c)
  {
    var out := SettleStep(w.tenants[home].db, w.now, at, ok);
    LogKeepsDb(w.tenants[home], agent, out.db, out.note);
    NextPointSeeded(w, v, home, at, ok, c);
  }

  // The point an agent moves to when it is not settling.
  lemma IdlePoint(w: World, m: Move, agent: int)
    requires ActsAs(m, agent)
    requires Point(w, agent).None? || Point(w, agent).value.0 !in w.tenants
    ensures var p := Point(Exec(w, m), agent);
            p.Some? ==> p.value.1.AtRow? || p == Point(w, agent)
  {
  }

  lemma ActorSettles(w: World, m: Move, agent: int)
    requires (m.Act? || m.SettleNext?) && ActsAs(m, agent)
    requires Point(w, agent).Some? && Point(w, agent).value.0 in w.tenants
    ensures SettlesAt(w, Exec(w, m), agent, Point(w, agent).value.0, Point(w, agent).value.1, m.ok)
  {
    if m.SettleNext? {
      ReconCall(w, m.ok);
    } else if w.threads[m.who].Task? {
      TaskCall(w, m.who, m.ok, m.text);
    } else {
      HookCall(w, m.who, m.ok, m.text);
    }
  }

  lemma ActorPointSeeded(w: World, m: Move, agent: int, c: string)
    requires c in w.tenants && c in Exec(w, m).tenants && Grows(w.tenants[c], Exec(w, m).tenants[c])
    requires ActsAs(m, agent) && SeededPoint(w, Point(w, agent), c) && Provisioned(w, m, c)
    ensures SeededPoint(Exec(w, m), Point(Exec(w, m), agent), c)
  {
    var at := Point(w, agent);
    if at.Some? && at.value.0 in w.tenants {
      ActorSettles(w, m, agent);
      SettlingPointSeeded(w, Exec(w, m), agent, at.value.0, at.value.1, m.ok, c);
    } else {
      IdlePoint(w, m, agent);
      PointGrows(w, Exec(w, m), at, c);
    }
  }

  // The point of an agent that does not act.
  lemma OtherPoint(w: World, m: Move, agent: int)
    requires !ActsAs(m, agent)
    ensures var p := Point(Exec(w, m), agent);
            p == Point(w, agent) || (p.Some? ==> p.value.1.AtRow?)
  {
    if agent == RECONCILER {
      if m.StartCycle? || m.ListBatch? || m.QueryStatus? { ReconMoveIsLocal(w, m); }
    } else if m.Act? && m.who < |w.threads| {
      ActLocal(w, m.who, m.ok, m.text);
    } else {
      OtherMovesKeepThreads(w, m);
      if |w.threads| <= agent < |Exec(w, m).threads| { NewThreadUnstarted(w, m, agent); }
    }
  }

  lemma PointsStaySeeded(w: World, m: Move, c: string)
    requires Inv(w) && c in w.tenants && SeededPoints(w, c) && Provisioned(w, m, c)
    ensures c in Exec(w, m).tenants && SeededPoints(Exec(w, m), c)
  {
    ExecGrows(w, m, c);
    forall agent: int ensures SeededPoint(Exec(w, m), Point(Exec(w, m), agent), c) {
      assert SeededPoint(w, Point(w, agent), c);
      if ActsAs(m, agent) {
        ActorPointSeeded(w, m, agent, c);
      } else {
        OtherPoint(w, m, agent);
        PointGrows(w, Exec(w, m), Point(w, agent), c);
      }
    }
  }

  // What an agent at its journal write knows: the row is a stored payment's.
  lemma PostingIsDue(w: World, agent: int)
    requires ThreadsOk(w.tenants, w.threads) && ReconOk(w.tenants, w.recon)
    requires Point(w, agent).Some? && Point(w, agent).value.1.AtPost? && Point(w, agent).value.0 in w.tenants
    ensures Holds(w.tenants[Point(w, agent).value.0], Point(w, agent).value.1.row)
  {
    if agent != RECONCILER { assert ThreadOk(w.tenants, agent, w.threads[agent]); }
  }

  lemma SeededRowsPost(t: Tenant, row: Payment)
    requires TenantOk(t) && Holds(t, row) && Seeded(t.db, row.client)
    ensures Postable(t.db, Template(row))
  {
    var p := t.db.payments[row.id];
    assert Template(p) == Template(Core(p)) && Template(row) == Template(Core(row));
    assert Core(p).client == Core(row).client;
    SeededClientsPost(t, row.id);
  }

  lemma ProvisionedDropsNothing(w: World, m: Move, c: string, x: Write)
    requires Inv(w) && c in w.tenants && SeededPoints(w, c) && Provisioned(w, m, c)
    ensures Drops(w, m, c, x) == 0
  {
    var at := Point(w, x.agent);
    if ActsAs(m, x.agent) && at.Some? && at.value.0 == c && at.value.1.AtPost? {
      assert SeededPoint(w, at, c) && ProvisionedCall(w, at, m.ok, c);
      PostingIsDue(w, x.agent);
      assert TenantOk(w.tenants[c]);
      SeededRowsPost(w.tenants[c], at.value.1.row);
    }
  }

  lemma {:induction false} ProvisionedRunDropsNothing(w: World, moves: seq<Move>, c: string, x: Write)
    requires Inv(w) && c in w.tenants && SeededPoints(w, c) && ProvisionedRun(w, moves, c)
    ensures Dropped(w, moves, c, x) == 0
    decreases |moves|
  {
    if moves != [] {
      ProvisionedDropsNothing(w, moves[0], c, x);
      PointsStaySeeded(w, moves[0], c);
      ExecKeeps(w, moves[0]);
      ProvisionedRunDropsNothing(Exec(w, moves[0]), moves[1..], c, x);
    }
  }

  // The condition a caller can check: if every client has its default accounts by the time a payment
  // of its is completed, and no journal write meets a fault, then at rest every payment has exactly
  // one copy of its template per completion, and is completed exactly when it is journalled.
  lemma ProvisionedMeansJournalled(consumers: set<string>, moves: seq<Move>, c: string, id: string)
    requires Configured(consumers) && c in consumers && AtRest(Run(Boot(consumers), moves), c)
    requires ProvisionedRun(Boot(consumers), moves, c)
    requires c in Run(Boot(consumers), moves).tenants && id in Run(Boot(consumers), moves).tenants[c].db.payments
    ensures var t := Run(Boot(consumers), moves).tenants[c];
            && multiset(RowsOf(t.db.journal, id)) == Copies(t.db.payments[id], Count(t.completions, ForPayment(id)))
            && (t.db.payments[id].completedAt.Some? <==> RowsOf(t.db.journal, id) != [])
  {
    BootInv(consumers);
    forall x: Write ensures Dropped(Boot(consumers), moves, c, x) == 0 {
      ProvisionedRunDropsNothing(Boot(consumers), moves, c, x);
    }
    CompletedThenJournalled(consumers, moves, c, id);
  }
}
