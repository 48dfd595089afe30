/**
 * One activity run from start to end with nobody in between, as the service's methods are written,
 * and the proof that this is one of the machine's schedules.
 */
module Schedules {
  import opened Base
  import opened Money
  import opened Phones
  import opened Domain
  import opened Ledger
  import opened Tables
  import Redis
  import opened Steps
  import opened Machine

  // ---- Settling ------------------------------------------------------------------------

  // Which of the three calls of a settlement succeed.
  datatype SettleFate = SettleFate(row: bool, event: bool, post: bool)

  function SettleFateAt(at: SettlePoint, f: SettleFate): bool {
    match at
    case AtRow(_, _) => f.row
    case AtEvent(_, _) => f.event
    case AtPost(_) => f.post
  }

  function SettleRank(at: SettlePoint): nat {
    match at
    case AtRow(_, _) => 2
    case AtEvent(_, _) => 1
    case AtPost(_) => 0
  }

  datatype SettleResult = Done(db: Db, ok: bool)

  // The settlement from this point on, uninterrupted; `ok` is false when the row update was refused.
  function Finish(db: Db, now: int, at: SettlePoint, f: SettleFate): SettleResult
    decreases SettleRank(at)
  {
    var out := SettleStep(db, now, at, SettleFateAt(at, f));
    match out.outcome
    case Continue(next) => Finish(out.db, now, next, f)
    case Refused => Done(out.db, false)
    case Finished => Done(out.db, true)
  }

  // What a whole settlement does, call by call: a refused row update changes nothing; otherwise the
  // row is settled, and the event and the two journal rows are added if their calls succeed.
  lemma FinishIs(db: Db, now: int, id: string, s: Settlement, f: SettleFate)
    requires id in db.payments ==> db.payments[id].id == id
    ensures var r := Finish(db, now, AtRow(id, s), f);
            && r.ok == (f.row && id in db.payments)
            && (!r.ok ==> r.db == db)
            && (r.ok ==>
                  var p := SettledRow(db.payments[id], s, now);
                  var posts := s.Completion? && f.post && Postable(db, Template(p));
                  && r.db.payments == db.payments[id := p]
                  && r.db.events == db.events + (if f.event then [SettledEvent(id, s)] else [])
                  && r.db.journal == db.journal + (if posts then Template(p) else [])
                  && r.db.accounts == db.accounts && r.db.clients == db.clients
                  && r.db.credentials == db.credentials && r.db.paystack == db.paystack)
  {
    if f.row && id in db.payments {
      var a := Settle(db, id, s, now);
      var p := a.payments[id];
      assert Finish(db, now, AtRow(id, s), f) == Finish(a, now, AtEvent(p, s), f);
      var b := if f.event then AddEvent(a, SettledEvent(id, s)) else a;
      assert SettleStep(a, now, AtEvent(p, s), f.event).db == b;
      assert Postable(b, Template(p)) <==> Postable(db, Template(p)) by {
        assert forall k :: 0 <= k < |Template(p)| ==> (RowInsertable(b, Template(p)[k]) <==> RowInsertable(db, Template(p)[k]));
      }
      if s.Completion? {
        var c := if f.post && Postable(b, Template(p)) then Post(b, Template(p)) else b;
        assert Finish(b, now, AtPost(p), f) == Done(c, true);
        assert Finish(a, now, AtEvent(p, s), f) == Finish(b, now, AtPost(p), f);
      } else {
        assert Finish(a, now, AtEvent(p, s), f) == Done(b, true);
      }
    }
  }

  // Only this payment's row may differ.
  ghost predicate OthersKept(a: Db, b: Db, id: string) {
    && a.payments.Keys == b.payments.Keys
    && (forall i :: i in a.payments && i != id ==> b.payments[i] == a.payments[i])
    && a.clients == b.clients && a.credentials == b.credentials && a.paystack == b.paystack && a.accounts == b.accounts
  }

  // What a completion leaves behind, column by column.
  ghost predicate CompletedIn(a: Db, b: Db, id: string, receipt: string, tx: string, now: int, event: bool, post: bool)
    requires id in a.payments
  {
    && OthersKept(a, b, id) && id in b.payments
    && CompletedFrom(a.payments[id], b.payments[id], receipt, tx, now)
    && b.events == a.events + (if event then [Event(id, Pending, Completed, None)] else [])
    && PostsPair(a.journal, b.journal, a.payments[id], post && a.payments[id].amount > 0 && HasAccounts(a, a.payments[id]))
  }

  // What a failure leaves behind.
  ghost predicate FailedIn(a: Db, b: Db, id: string, reason: string, event: bool)
    requires id in a.payments
  {
    && OthersKept(a, b, id) && id in b.payments
    && FailedFrom(a.payments[id], b.payments[id])
    && b.events == a.events + (if event then [Event(id, Pending, Failed, if reason == "" then None else Some(reason))] else [])
    && b.journal == a.journal
  }

  // What a settlement leaves behind that was not refused.
  ghost predicate SettledIn(a: Db, b: Db, id: string, s: Settlement, now: int, event: bool, post: bool)
    requires id in a.payments
  {
    match s
    case Completion(receipt, tx) => CompletedIn(a, b, id, receipt, tx, now, event, post)
    case Failure(reason) => FailedIn(a, b, id, reason, event)
  }

  lemma PairTransfers(p: Payment, q: Payment, pair: seq<JournalRow>)
    requires PairOf(q, pair) && SameColumns(p, q)
    ensures PairOf(p, pair)
  {
  }

  // A whole completion and a whole failure, without naming the functions that compute them.
  lemma CompletionIs(db: Db, now: int, id: string, receipt: string, tx: string, f: SettleFate)
    requires id in db.payments && db.payments[id].id == id && f.row
    ensures var r := Finish(db, now, AtRow(id, Completion(receipt, tx)), f);
            r.ok && CompletedIn(db, r.db, id, receipt, tx, now, f.event, f.post)
  {
    var s := Completion(receipt, tx);
    var p, q := db.payments[id], SettledRow(db.payments[id], s, now);
    FinishIs(db, now, id, s, f);
    SettledColumns(p, s, now);
    TemplateIsPair(q);
    PairTransfers(p, q, Template(q));
    PostableIff(db, q);
    var b := Finish(db, now, AtRow(id, s), f).db;
    assert b.journal == db.journal + (if f.post && Postable(db, Template(q)) then Template(q) else []);
    if f.post && Postable(db, Template(q)) {
      assert b.journal[|db.journal|..] == Template(q) && b.journal[..|db.journal|] == db.journal;
    }
  }

  lemma FailureIs(db: Db, now: int, id: string, reason: string, f: SettleFate)
    requires id in db.payments && db.payments[id].id == id && f.row
    ensures var r := Finish(db, now, AtRow(id, Failure(reason)), f);
            r.ok && FailedIn(db, r.db, id, reason, f.event)
  {
    FinishIs(db, now, id, Failure(reason), f);
    SettledColumns(db.payments[id], Failure(reason), now);
  }

  lemma SettlementIs(db: Db, now: int, id: string, s: Settlement, f: SettleFate)
    requires id in db.payments ==> db.payments[id].id == id
    ensures var r := Finish(db, now, AtRow(id, s), f);
            && r.ok == (f.row && id in db.payments)
            && (if r.ok then SettledIn(db, r.db, id, s, now, f.event, f.post) else r.db == db)
  {
    if f.row && id in db.payments {
      match s
      case Completion(receipt, tx) => CompletionIs(db, now, id, receipt, tx, f);
      case Failure(reason) => FailureIs(db, now, id, reason, f);
    }
  }

  // A failure never reaches the journal, so it does not matter what the journal would do.
  lemma FailureIgnoresJournal(db: Db, now: int, id: string, reason: string, row: bool, event: bool, p: bool, q: bool)
    ensures Finish(db, now, AtRow(id, Failure(reason)), SettleFate(row, event, p))
            == Finish(db, now, AtRow(id, Failure(reason)), SettleFate(row, event, q))
  {
    if row && id in db.payments {
      var next := Settle(db, id, Failure(reason), now);
      var e := AtEvent(next.payments[id], Failure(reason));
      assert Finish(next, now, e, SettleFate(row, event, p)) == Finish(next, now, e, SettleFate(row, event, q));
    }
  }

  ghost predicate OnlyActs(moves: seq<Move>, who: nat) {
    forall k :: 0 <= k < |moves| ==> moves[k].Act? && moves[k].who == who
  }

  // This queued task is over and its database holds the result.
  ghost predicate TaskEnds(w: World, v: World, who: nat, c: string, r: SettleResult) {
    && v.routes == w.routes && v.now == w.now && |v.threads| == |w.threads|
    && c in v.tenants && v.tenants[c].db == r.db
    && who < |v.threads| && v.threads[who].Task?
    && v.threads[who].task == (if r.ok then TaskDone else Waiting)
  }

  // A task's uninterrupted settlement is a schedule of the machine: some moves of that task alone
  // take its database to the result of Finish.
  lemma {:induction false} FinishIsSchedule(w: World, who: nat, c: string, at: SettlePoint, f: SettleFate)
    requires who < |w.threads| && w.threads[who].Task? && w.threads[who].task == TaskSettling(c, at)
    requires c in w.tenants
    ensures exists moves ::
              OnlyActs(moves, who) && TaskEnds(w, Run(w, moves), who, c, Finish(w.tenants[c].db, w.now, at, f))
    decreases SettleRank(at)
  {
    var m := Act(who, SettleFateAt(at, f), "");
    var v := Exec(w, m);
    var out := SettleStep(w.tenants[c].db, w.now, at, SettleFateAt(at, f));
    TaskSettles(w, who, c, at, SettleFateAt(at, f));
    var rest: seq<Move> := [];
    if out.outcome.Continue? {
      FinishIsSchedule(v, who, c, out.outcome.at, f);
      rest :| OnlyActs(rest, who) && TaskEnds(v, Run(v, rest), who, c, Finish(v.tenants[c].db, v.now, out.outcome.at, f));
    }
    RunCons(w, m, rest);
    assert OnlyActs([m] + rest, who);
    assert TaskEnds(w, Run(w, [m] + rest), who, c, Finish(w.tenants[c].db, w.now, at, f));
  }

  lemma RunCons(w: World, m: Move, rest: seq<Move>)
    ensures Run(w, [m] + rest) == Run(Exec(w, m), rest)
  {
    assert ([m] + rest)[1..] == rest;
  }

  lemma TaskSettles(w: World, who: nat, c: string, at: SettlePoint, ok: bool)
    requires who < |w.threads| && w.threads[who].Task? && w.threads[who].task == TaskSettling(c, at)
    requires c in w.tenants
    ensures var v := Exec(w, Act(who, ok, ""));
            var out := SettleStep(w.tenants[c].db, w.now, at, ok);
            && c in v.tenants && v.tenants[c].db == out.db && v.now == w.now && v.routes == w.routes
            && |v.threads| == |w.threads| && v.threads[who].Task?
            && v.threads[who].task == (match out.outcome
                                       case Continue(next) => TaskSettling(c, next)
                                       case Refused => Waiting
                                       case Finished => TaskDone)
  {
  }

  // A queued callback with a live route, handled without interruption, is a schedule too.
  lemma CallbackIsSchedule(w: World, who: nat, f: SettleFate)
    requires who < |w.threads| && w.threads[who].Task? && w.threads[who].task.Waiting?
    requires Destination(w.routes, w.now, w.threads[who].callback).Some?
    requires Destination(w.routes, w.now, w.threads[who].callback).value.0 in w.tenants
    ensures var cb := w.threads[who].callback;
            var (c, id) := Destination(w.routes, w.now, cb).value;
            exists moves :: OnlyActs(moves, who)
              && TaskEnds(w, Run(w, moves), who, c, Finish(w.tenants[c].db, w.now, AtRow(id, CallbackSettlement(cb)), f))
  {
    var cb := w.threads[who].callback;
    var (c, id) := Destination(w.routes, w.now, cb).value;
    var r := Finish(w.tenants[c].db, w.now, AtRow(id, CallbackSettlement(cb)), f);
    var m := Act(who, true, "");
    FinishIsSchedule(Exec(w, m), who, c, AtRow(id, CallbackSettlement(cb)), f);
    var rest :| OnlyActs(rest, who) && TaskEnds(Exec(w, m), Run(Exec(w, m), rest), who, c, r);
    RunCons(w, m, rest);
    assert OnlyActs([m] + rest, who) && TaskEnds(w, Run(w, [m] + rest), who, c, r);
  }

  ghost predicate HookEnds(v: World, who: nat, c: string, r: SettleResult) {
    && c in v.tenants && v.tenants[c].db == r.db
    && who < |v.threads| && v.threads[who].Hook? && v.threads[who].hook.HookDone?
  }

  lemma HookSettles(w: World, who: nat, ok: bool)
    requires who < |w.threads| && w.threads[who].Hook? && w.threads[who].hook.HookSettling?
    requires w.threads[who].consumer in w.tenants
    ensures var th, v := w.threads[who], Exec(w, Act(who, ok, ""));
            var out := SettleStep(w.tenants[th.consumer].db, w.now, th.hook.at, ok);
            && th.consumer in v.tenants && v.tenants[th.consumer].db == out.db && v.now == w.now
            && who < |v.threads|
            && v.threads[who] == th.(hook := if out.outcome.Continue? then HookSettling(out.outcome.at) else HookDone)
  {
  }

  // The same for a webhook delivery that is settling.
  lemma {:induction false} HookFinishIsSchedule(w: World, who: nat, f: SettleFate)
    requires who < |w.threads| && w.threads[who].Hook? && w.threads[who].hook.HookSettling?
    requires w.threads[who].consumer in w.tenants
    ensures var th := w.threads[who];
            exists moves :: OnlyActs(moves, who)
              && HookEnds(Run(w, moves), who, th.consumer, Finish(w.tenants[th.consumer].db, w.now, th.hook.at, f))
    decreases SettleRank(w.threads[who].hook.at)
  {
    var th := w.threads[who];
    var r := Finish(w.tenants[th.consumer].db, w.now, th.hook.at, f);
    var m := Act(who, SettleFateAt(th.hook.at, f), "");
    var v := Exec(w, m);
    HookSettles(w, who, SettleFateAt(th.hook.at, f));
    var rest: seq<Move> := [];
    if v.threads[who].hook.HookSettling? {
      HookFinishIsSchedule(v, who, f);
      rest :| OnlyActs(rest, who) && HookEnds(Run(v, rest), who, th.consumer, r);
    }
    RunCons(w, m, rest);
    assert OnlyActs([m] + rest, who) && HookEnds(Run(w, [m] + rest), who, th.consumer, r);
  }

  lemma HookReads(w: World, who: nat, d: Delivery, s: Settlement)
    requires who < |w.threads| && w.threads[who].Hook? && w.threads[who].hook.Arrived? && w.threads[who].delivery == d
    requires w.threads[who].consumer in w.tenants && d.wellFormed && d.reference != ""
    requires var db := w.tenants[w.threads[who].consumer].db;
             d.reference in db.payments && DeliverySettlement(db, db.payments[d.reference], d) == Some(s)
             && db.payments[d.reference].id == d.reference
    ensures var v := Exec(Exec(w, Act(who, true, "")), Act(who, true, ""));
            v.tenants == w.tenants && v.now == w.now && who < |v.threads|
            && v.threads[who] == w.threads[who].(hook := HookSettling(AtRow(d.reference, s)))
  {
    var row := w.tenants[w.threads[who].consumer].db.payments[d.reference];
    var u := Exec(w, Act(who, true, ""));
    assert u.threads[who] == w.threads[who].(hook := Looked(row)) && u.tenants == w.tenants;
  }

  // And for a whole authentic Paystack delivery, from its arrival on.
  lemma DeliveryIsSchedule(w: World, who: nat, d: Delivery, s: Settlement, f: SettleFate)
    requires who < |w.threads| && w.threads[who].Hook? && w.threads[who].hook.Arrived? && w.threads[who].delivery == d
    requires w.threads[who].consumer in w.tenants && d.wellFormed && d.reference != ""
    requires var db := w.tenants[w.threads[who].consumer].db;
             d.reference in db.payments && DeliverySettlement(db, db.payments[d.reference], d) == Some(s)
             && db.payments[d.reference].id == d.reference
    ensures var c := w.threads[who].consumer;
            exists moves :: OnlyActs(moves, who)
              && HookEnds(Run(w, moves), who, c, Finish(w.tenants[c].db, w.now, AtRow(d.reference, s), f))
  {
    var c := w.threads[who].consumer;
    var r := Finish(w.tenants[c].db, w.now, AtRow(d.reference, s), f);
    var m := Act(who, true, "");
    HookReads(w, who, d, s);
    HookFinishIsSchedule(Exec(Exec(w, m), m), who, f);
    var rest :| OnlyActs(rest, who) && HookEnds(Run(Exec(Exec(w, m), m), rest), who, c, r);
    RunCons(Exec(w, m), m, rest);
    RunCons(w, m, [m] + rest);
    assert OnlyActs([m] + ([m] + rest), who) && HookEnds(Run(w, [m] + ([m] + rest)), who, c, r);
  }

  // ---- Initiating ----------------------------------------------------------------------

  // What an initiation can change: its database, the routing map and the provider's inbox.
  datatype Site = Site(db: Db, routes: map<string, Redis.Entry>, calls: seq<Call>)

  // How each call of an initiation turns out.
  datatype InitFate = InitFate(
    lookup: bool, insert: bool, id: string, credentials: bool, answer: Option<string>,
    record: bool, route: bool, abort: bool)

  function InitFateAt(at: InitPoint, f: InitFate): bool {
    match at
    case AtLookup => f.lookup
    case AtInsert => f.insert
    case AtCredentials(_) => f.credentials
    case AtCall(_) => f.answer.Some?
    case AtRecord(_, _) => f.record
    case AtRoute(_, _) => f.route
    case AtAbort(_) => f.abort
    case InitDone => true
  }

  function InitTextAt(at: InitPoint, f: InitFate): string {
    if at.AtInsert? then f.id else if at.AtCall? && f.answer.Some? then f.answer.value else ""
  }

  function InitRank(at: InitPoint): nat {
    match at
    case AtLookup => 6
    case AtInsert => 5
    case AtCredentials(_) => 4
    case AtCall(_) => 3
    case AtRecord(_, _) => 2
    case AtRoute(_, _) => 1
    case AtAbort(_) => 1
    case InitDone => 0
  }

  function SoloStep(s: Site, now: int, home: string, req: Request, at: InitPoint, f: InitFate): (Site, InitPoint) {
    var out := InitStep(s.db, now, req, at, InitFateAt(at, f), InitTextAt(at, f));
    (Site(out.db,
          RouteStep(s.routes, now, home, req, at, InitFateAt(at, f)),
          if out.note.Called? then s.calls + [out.note.call] else s.calls),
     out.next)
  }

  // The initiation from this point on, uninterrupted.
  function Solo(s: Site, now: int, home: string, req: Request, at: InitPoint, f: InitFate): Site
    decreases InitRank(at)
  {
    if at.InitDone? then s
    else
      var (next, to) := SoloStep(s, now, home, req, at, f);
      Solo(next, now, home, req, to, f)
  }

  // The error path of an initiation: one unguarded failure update, whose own error is dropped.
  lemma AbortIs(s: Site, now: int, home: string, req: Request, id: string, f: InitFate)
    ensures Solo(s, now, home, req, AtAbort(id), f)
            == s.(db := if f.abort && id in s.db.payments then FailRow(s.db, id) else s.db)
  {
  }

  // ---- An initiation, from the outside ---------------------------------------------------------

  // A request fit to be stored: every required field of its kind, whole shillings for M-PESA, and a
  // number the strict parser takes where one is needed.
  ghost predicate Fit(req: Request) {
    && req.client != "" && req.amount > 0 && req.reference != "" && req.key != ""
    && (req.kind == StkPush || req.kind == B2c ==>
          req.amount % 100 == 0 && req.phone != "" && NormalisePhone(req.phone).Some?)
    && (req.kind == B2b ==> req.amount % 100 == 0 && req.receiver != "")
    && (req.kind == PaystackCharge ==> req.email != "")
  }

  lemma FitIsAdmissible(req: Request)
    ensures Fit(req) <==> Admissible(req)
  {
  }

  ghost predicate KeyTaken(db: Db, req: Request) {
    exists id :: id in db.payments && db.payments[id].client == req.client && db.payments[id].key == req.key
  }

  // The request gets past its lookup and its insert.
  ghost predicate Inserts(db: Db, req: Request, f: InitFate) {
    && Fit(req) && f.insert && !KeyTaken(db, req) && f.id !in db.payments && req.client in db.clients
  }

  // The provider can be called: credentials load and the secrets this kind needs decrypt.
  ghost predicate Callable(db: Db, req: Request) {
    if req.kind == PaystackCharge then req.client in db.paystack && db.paystack[req.client].Sealed?
    else
      && req.client in db.credentials
      && var c := db.credentials[req.client];
         && c.consumerKey.Sealed? && c.consumerSecret.Sealed? && c.passkey.Sealed?
         && ((req.kind == B2c || req.kind == B2b) && c.security.Some? ==> c.security.value.Sealed?)
  }

  // The columns a request is stored with, one by one.
  ghost predicate StoredFrom(req: Request, p: Payment, id: string, now: int) {
    && p.id == id && p.client == req.client && p.key == req.key && p.kind == req.kind
    && p.provider == (if req.kind == PaystackCharge then Paystack else Mpesa)
    && p.direction == (if req.kind == B2c || req.kind == B2b then Outbound else Inbound)
    && p.amount == req.amount && p.currency == (if req.currency == "" then "KES" else req.currency)
    && p.phone == (if req.kind == StkPush || req.kind == B2c then NormalisePhone(req.phone) else None)
    && p.receiver == (if req.kind == B2b then Some(req.receiver) else None)
    && p.reference == req.reference
    && p.description == (if req.description == "" then None else Some(req.description))
    && p.createdAt == now && p.txId == None && p.receipt == None && p.completedAt == None
  }

  // What the provider is asked for: whole shillings as text from Daraja, cents from Paystack.
  ghost predicate AsksFor(req: Request, call: Call, id: string) {
    && call.client == req.client && call.key == req.key && call.payment == id
    && (req.kind == PaystackCharge ==> call.billed == Subunits(req.amount))
    && (req.kind != PaystackCharge ==> call.billed.Shillings? && BilledCents(call.billed) == Some(req.amount))
  }

  // How an initiation that got its payment inserted ends.
  ghost predicate Settles(s: Site, u: Site, now: int, home: string, req: Request, f: InitFate)
    requires f.id in u.db.payments
  {
    var p := u.db.payments[f.id];
    var called := f.credentials && Callable(s.db, req);
    && StoredFrom(req, p, f.id, now)
    && (if called then |u.calls| == |s.calls| + 1 && u.calls[..|s.calls|] == s.calls && AsksFor(req, u.calls[|s.calls|], f.id)
        else u.calls == s.calls)
    && (if called && f.answer.Some? then
          && p.status == Pending
          && p.requestId == (if f.record && f.answer.value != "" then f.answer else None)
          && u.routes == (if req.kind == StkPush && f.route
                          then s.routes["stk:" + f.answer.value
                                        := Redis.Entry(home + ":" + req.client + ":" + f.id, now + 1800)]
                          else s.routes)
        else
          p.status == (if f.abort then Failed else Pending) && p.requestId == None && u.routes == s.routes)
  }

  // The table grew by this row alone.
  ghost predicate OneRowMore(s: Db, u: Db, id: string) {
    && u.payments.Keys == s.payments.Keys + {id}
    && (forall i :: i in s.payments ==> u.payments[i] == s.payments[i])
    && u == s.(payments := u.payments)
  }

  // What a whole initiation does: nothing unless its payment is inserted, and then exactly one new
  // row, at most one call, at most one route, no event and no journal row.
  ghost predicate Initiates(s: Site, u: Site, now: int, home: string, req: Request, f: InitFate) {
    if !Inserts(s.db, req, f) then u == s
    else OneRowMore(s.db, u.db, f.id) && Settles(s, u, now, home, req, f)
  }

  lemma NewPaymentColumns(req: Request, id: string, now: int)
    requires Fit(req)
    ensures StoredFrom(req, NewPayment(req, id, now), id, now)
    ensures NewPayment(req, id, now).status == Pending && NewPayment(req, id, now).requestId == None
  {
  }

  lemma CallableIsCanCall(db: Db, req: Request)
    ensures Callable(db, req) <==> CanCall(db, req)
  {
  }

  // From the answer on.
  lemma AnsweredIs(s: Site, now: int, home: string, req: Request, f: InitFate)
    requires f.id in s.db.payments && f.answer.Some?
    ensures var u := Solo(s, now, home, req, AtRecord(f.id, f.answer.value), f);
            && u.db == (if f.record then SetRequestId(s.db, f.id, f.answer.value) else s.db) && u.calls == s.calls
            && u.routes == (if req.kind == StkPush && f.route
                            then s.routes["stk:" + f.answer.value := Redis.Entry(home + ":" + req.client + ":" + f.id, now + 1800)]
                            else s.routes)
  {
    var x := f.answer.value;
    var t := s.(db := if f.record then SetRequestId(s.db, f.id, x) else s.db);
    if req.kind.StkPush? {
      assert Solo(s, now, home, req, AtRecord(f.id, x), f) == Solo(t, now, home, req, AtRoute(f.id, x), f);
      var v := SoloStep(t, now, home, req, AtRoute(f.id, x), f).0;
      assert Solo(t, now, home, req, AtRoute(f.id, x), f) == Solo(v, now, home, req, InitDone, f) == v;
    } else {
      assert Solo(s, now, home, req, AtRecord(f.id, x), f) == Solo(t, now, home, req, InitDone, f) == t;
    }
  }

  // The insert followed by the error path.
  lemma AbortedIs(s: Site, calls: seq<Call>, now: int, home: string, req: Request, f: InitFate)
    requires Fit(req) && f.id !in s.db.payments
    ensures var v := s.(db := Insert(s.db, NewPayment(req, f.id, now)), calls := calls);
            var u := Solo(v, now, home, req, AtAbort(f.id), f);
            && OneRowMore(s.db, u.db, f.id) && u.routes == s.routes && u.calls == calls
            && StoredFrom(req, u.db.payments[f.id], f.id, now)
            && u.db.payments[f.id].status == (if f.abort then Failed else Pending)
            && u.db.payments[f.id].requestId == None
  {
    NewPaymentColumns(req, f.id, now);
    AbortIs(s.(db := Insert(s.db, NewPayment(req, f.id, now)), calls := calls), now, home, req, f.id, f);
  }

  // From the insert on, in the three ways it can go.
  lemma UncalledIs(s: Site, now: int, home: string, req: Request, f: InitFate)
    requires Fit(req) && f.id !in s.db.payments && !(f.credentials && Callable(s.db, req))
    ensures var u := Solo(s.(db := Insert(s.db, NewPayment(req, f.id, now))), now, home, req, AtCredentials(f.id), f);
            OneRowMore(s.db, u.db, f.id) && Settles(s, u, now, home, req, f)
  {
    var v := s.(db := Insert(s.db, NewPayment(req, f.id, now)));
    CallableIsCanCall(v.db, req);
    assert Solo(v, now, home, req, AtCredentials(f.id), f) == Solo(v, now, home, req, AtAbort(f.id), f);
    AbortedIs(s, s.calls, now, home, req, f);
  }

  lemma CallGoesOut(s: Site, now: int, home: string, req: Request, f: InitFate)
    requires Fit(req) && f.credentials && CanCall(s.db, req)
    ensures var x := s.(calls := s.calls + [Call(req.client, req.key, f.id, Bill(req))]);
            && Solo(s, now, home, req, AtCredentials(f.id), f)
               == Solo(x, now, home, req, if f.answer.Some? then AtRecord(f.id, f.answer.value) else AtAbort(f.id), f)
            && x.calls[..|s.calls|] == s.calls && AsksFor(req, x.calls[|s.calls|], f.id)
  {
    FitIsAdmissible(req);
    BillIsExact(req);
    var x := s.(calls := s.calls + [Call(req.client, req.key, f.id, Bill(req))]);
    assert Solo(s, now, home, req, AtCredentials(f.id), f) == Solo(s, now, home, req, AtCall(f.id), f);
    assert Solo(s, now, home, req, AtCall(f.id), f)
        == Solo(x, now, home, req, if f.answer.Some? then AtRecord(f.id, f.answer.value) else AtAbort(f.id), f);
  }

  lemma UnansweredIs(s: Site, now: int, home: string, req: Request, f: InitFate)
    requires Fit(req) && f.id !in s.db.payments && f.credentials && Callable(s.db, req) && f.answer.None?
    ensures var u := Solo(s.(db := Insert(s.db, NewPayment(req, f.id, now))), now, home, req, AtCredentials(f.id), f);
            OneRowMore(s.db, u.db, f.id) && Settles(s, u, now, home, req, f)
  {
    var v := s.(db := Insert(s.db, NewPayment(req, f.id, now)));
    CallableIsCanCall(v.db, req);
    FitIsAdmissible(req);
    CallGoesOut(v, now, home, req, f);
    AbortedIs(s, s.calls + [Call(req.client, req.key, f.id, Bill(req))], now, home, req, f);
  }

  lemma CalledIs(s: Site, now: int, home: string, req: Request, f: InitFate)
    requires Fit(req) && f.id !in s.db.payments && f.credentials && Callable(s.db, req) && f.answer.Some?
    ensures var u := Solo(s.(db := Insert(s.db, NewPayment(req, f.id, now))), now, home, req, AtCredentials(f.id), f);
            OneRowMore(s.db, u.db, f.id) && Settles(s, u, now, home, req, f)
  {
    var v := s.(db := Insert(s.db, NewPayment(req, f.id, now)));
    NewPaymentColumns(req, f.id, now);
    CallableIsCanCall(v.db, req);
    CallGoesOut(v, now, home, req, f);
    AnsweredIs(v.(calls := v.calls + [Call(req.client, req.key, f.id, Bill(req))]), now, home, req, f);
  }

  lemma InsertedIs(s: Site, now: int, home: string, req: Request, f: InitFate)
    requires Fit(req) && f.id !in s.db.payments
    ensures var u := Solo(s.(db := Insert(s.db, NewPayment(req, f.id, now))), now, home, req, AtCredentials(f.id), f);
            OneRowMore(s.db, u.db, f.id) && Settles(s, u, now, home, req, f)
  {
    if !(f.credentials && Callable(s.db, req)) {
      UncalledIs(s, now, home, req, f);
    } else if f.answer.None? {
      UnansweredIs(s, now, home, req, f);
    } else {
      CalledIs(s, now, home, req, f);
    }
  }

  // The uninterrupted initiation is the one seen from the outside.
  lemma InitiationIs(s: Site, now: int, home: string, req: Request, f: InitFate)
    ensures Initiates(s, Solo(s, now, home, req, AtLookup, f), now, home, req, f)
  {
    FitIsAdmissible(req);
    assert Solo(s, now, home, req, InitDone, f) == s;
    assert KeyTaken(s.db, req) <==> Taken(s.db, req.client, req.key);
    if Admissible(req) && !(f.lookup && Taken(s.db, req.client, req.key)) {
      assert Solo(s, now, home, req, AtLookup, f) == Solo(s, now, home, req, AtInsert, f);
      var p := NewPayment(req, f.id, now);
      if f.insert && Insertable(s.db, p) {
        var v := s.(db := Insert(s.db, p));
        assert Solo(s, now, home, req, AtInsert, f) == Solo(v, now, home, req, AtCredentials(f.id), f);
        InsertedIs(s, now, home, req, f);
      }
    }
  }

  // The part of the world an initiation at `home` works on.
  function SiteOf(w: World, home: string): Site
    requires home in w.tenants
  {
    Site(w.tenants[home].db, w.routes, w.tenants[home].calls)
  }

  lemma InitiatorMoves(w: World, who: nat, f: InitFate)
    requires who < |w.threads| && w.threads[who].Initiator? && w.threads[who].home in w.tenants
    ensures var th := w.threads[who];
            var v := Exec(w, Act(who, InitFateAt(th.init, f), InitTextAt(th.init, f)));
            var (next, to) := SoloStep(SiteOf(w, th.home), w.now, th.home, th.req, th.init, f);
            && th.home in v.tenants && SiteOf(v, th.home) == next && v.now == w.now
            && who < |v.threads| && v.threads[who] == th.(init := to)
  {
  }

  // An uninterrupted initiation is a schedule of the machine.
  lemma {:induction false} SoloIsSchedule(w: World, who: nat, f: InitFate)
    requires who < |w.threads| && w.threads[who].Initiator? && w.threads[who].home in w.tenants
    ensures exists moves :: var v := Run(w, moves);
              && w.threads[who].home in v.tenants
              && SiteOf(v, w.threads[who].home)
                 == Solo(SiteOf(w, w.threads[who].home), w.now, w.threads[who].home, w.threads[who].req, w.threads[who].init, f)
    decreases InitRank(w.threads[who].init)
  {
    var th := w.threads[who];
    if th.init.InitDone? {
      assert Run(w, []) == w;
    } else {
      var m := Act(who, InitFateAt(th.init, f), InitTextAt(th.init, f));
      InitiatorMoves(w, who, f);
      var v := Exec(w, m);
      SoloIsSchedule(v, who, f);
      var rest :| var u := Run(v, rest);
                  && v.threads[who].home in u.tenants
                  && SiteOf(u, v.threads[who].home)
                     == Solo(SiteOf(v, v.threads[who].home), v.now, v.threads[who].home, v.threads[who].req, v.threads[who].init, f);
      RunCons(w, m, rest);
    }
  }
}
