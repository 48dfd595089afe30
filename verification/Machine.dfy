/**
 * The running service: one database per consumer, the Redis routing map, the clock, any number of
 * interleaved requests, queued tasks and webhook deliveries, and the single reconciler. A run is a
 * list of moves; every move names who acts and how its one call turns out.
 */
module Machine {
  import opened Base
  import opened Domain
  import opened Tables
  import opened Routing
  import Redis
  import opened Steps

  // Who wrote a row: a thread by its index, or the reconciler.
  const RECONCILER := -1

  datatype Write = Write(agent: int, payment: string)

  // A consumer's database with the history of what was done to it. Nothing in the service reads
  // the history; the theorems are about it.
  datatype Tenant = Tenant(
    db: Db,
    owners: map<string, int>,     // the thread that inserted each payment
    calls: seq<Call>,             // provider initiation calls, in order
    completions: seq<Write>,      // successful "completed" row updates, in order
    postings: seq<Write>)         // committed journal bulk writes, in order

  function Log(t: Tenant, agent: int, db: Db, note: Note): Tenant {
    match note
    case Quiet => t.(db := db)
    case Inserted(id) => t.(db := db, owners := t.owners[id := agent])
    case Called(call) => t.(db := db, calls := t.calls + [call])
    case Settled(id, s) =>
      if s.Completion? then t.(db := db, completions := t.completions + [Write(agent, id)]) else t.(db := db)
    case Posted(id) => t.(db := db, postings := t.postings + [Write(agent, id)])
  }

  lemma LogKeepsDb(t: Tenant, agent: int, db: Db, note: Note)
    ensures Log(t, agent, db, note).db == db
  {
  }

  datatype TaskPoint = Waiting | TaskSettling(consumer: string, at: SettlePoint) | TaskDone

  datatype HookPoint = Arrived | Looked(row: Payment) | HookSettling(at: SettlePoint) | HookDone

  datatype Thread =
    | Initiator(home: string, req: Request, init: InitPoint)
    | Task(callback: Callback, task: TaskPoint)
    | Hook(consumer: string, delivery: Delivery, hook: HookPoint)

  // A thread that has not acted yet.
  predicate Unstarted(th: Thread) {
    match th
    case Initiator(_, _, at) => at.AtLookup?
    case Task(_, at) => at.Waiting?
    case Hook(_, _, at) => at.Arrived?
  }

  datatype ReconPoint =
    | Idle
    | Sweeping(consumers: seq<string>)
    | Draining(consumer: string, batch: seq<Payment>, consumers: seq<string>)
    | ReconSettling(consumer: string, at: SettlePoint, batch: seq<Payment>, consumers: seq<string>)

  // A provider's answer to an STK initiation: this checkout id was given to this payment.
  datatype Issue = Issue(checkout: string, consumer: string, payment: string)

  // An answered status query: for which row, as the reconciler had listed it, with which
  // transaction id in the request, and the answer.
  datatype Inquiry = Inquiry(consumer: string, row: Payment, sent: string, status: TxStatus)

  datatype World = World(
    tenants: map<string, Tenant>,
    routes: map<string, Redis.Entry>,
    now: int,
    threads: seq<Thread>,
    recon: ReconPoint,
    issued: seq<Issue>,
    answered: seq<Inquiry>)

  // Statements of client onboarding and credential rotation.
  datatype Admin =
    | AddClient(client: string, externalId: string)
    | PutCredentials(client: string, credentials: Credentials)
    | DropCredentials(client: string)
    | PutPaystack(client: string, secret: Cipher)
    | DropPaystack(client: string)
    | AddAccount(client: string, account: string)

  datatype Move =
    | Tick(seconds: nat)
    | Administer(consumer: string, admin: Admin)
    | Arrive(thread: Thread)
    | Act(who: nat, ok: bool, text: string)
    | StartCycle(order: seq<string>)
    | ListBatch(ok: bool, batch: seq<Payment>)
    | QueryStatus(ok: bool, status: TxStatus)
    | SettleNext(ok: bool)

  function Administered(db: Db, a: Admin): Db {
    match a
    case AddClient(client, ext) =>
      if client in db.clients || ext in db.clients.Values || !ColonFree(client) then db
      else db.(clients := db.clients[client := ext])
    case PutCredentials(client, c) =>
      if client in db.clients && client !in db.credentials then db.(credentials := db.credentials[client := c]) else db
    case DropCredentials(client) => db.(credentials := db.credentials - {client})
    case PutPaystack(client, c) =>
      if client in db.clients && client !in db.paystack then db.(paystack := db.paystack[client := c]) else db
    case DropPaystack(client) => db.(paystack := db.paystack - {client})
    case AddAccount(client, account) =>
      if client in db.clients then db.(accounts := db.accounts + {(client, account)}) else db
  }

  function Update(w: World, consumer: string, t: Tenant): World {
    w.(tenants := w.tenants[consumer := t])
  }

  function At(w: World, who: nat, th: Thread): World
    requires who < |w.threads|
  {
    w.(threads := w.threads[who := th])
  }

  function ActInitiator(w: World, who: nat, ok: bool, text: string): World
    requires who < |w.threads| && w.threads[who].Initiator?
  {
    var th := w.threads[who];
    if th.home !in w.tenants then w
    else
      var t := w.tenants[th.home];
      var out := InitStep(t.db, w.now, th.req, th.init, ok, text);
      var next := At(Update(w, th.home, Log(t, who, out.db, out.note)), who, th.(init := out.next));
      next.(routes := RouteStep(w.routes, w.now, th.home, th.req, th.init, ok),
            issued := if th.init.AtCall? && th.req.kind.StkPush? && out.next.AtRecord?
                      then w.issued + [Issue(text, th.home, th.init.payment)] else w.issued)
  }

  function ActTask(w: World, who: nat, ok: bool): World
    requires who < |w.threads| && w.threads[who].Task?
  {
    var th := w.threads[who];
    match th.task
    case Waiting =>
      var dest := if ok then Destination(w.routes, w.now, th.callback) else None;
      if dest.None? then w
      else At(w, who, th.(task := TaskSettling(dest.value.0, AtRow(dest.value.1, CallbackSettlement(th.callback)))))
    case TaskSettling(c, at) =>
      if c !in w.tenants then At(w, who, th.(task := Waiting))
      else
        var t := w.tenants[c];
        var out := SettleStep(t.db, w.now, at, ok);
        At(Update(w, c, Log(t, who, out.db, out.note)), who,
           th.(task := match out.outcome
                       case Continue(next) => TaskSettling(c, next)
                       case Refused => Waiting
                       case Finished => TaskDone))
    case TaskDone => w
  }

  function ActHook(w: World, who: nat, ok: bool): World
    requires who < |w.threads| && w.threads[who].Hook?
  {
    var th := w.threads[who];
    if th.consumer !in w.tenants then w
    else
      var t, d := w.tenants[th.consumer], th.delivery;
      match th.hook
      case Arrived =>
        At(w, who, th.(hook := if ok && d.wellFormed && d.reference != "" && d.reference in t.db.payments
                               then Looked(t.db.payments[d.reference]) else HookDone))
      case Looked(row) =>
        var s := if ok then DeliverySettlement(t.db, row, d) else None;
        At(w, who, th.(hook := if s.Some? then HookSettling(AtRow(row.id, s.value)) else HookDone))
      case HookSettling(at) =>
        var out := SettleStep(t.db, w.now, at, ok);
        At(Update(w, th.consumer, Log(t, who, out.db, out.note)), who,
           th.(hook := if out.outcome.Continue? then HookSettling(out.outcome.at) else HookDone))
      case HookDone => w
  }

  // The reconciler queries the head of its batch and decides; any failure skips the payment.
  function Decide(w: World, ok: bool, status: TxStatus): World
    requires w.recon.Draining? && w.recon.batch != []
  {
    var r := w.recon;
    var row, rest := r.batch[0], r.batch[1..];
    if ok && r.consumer in w.tenants && CanQuery(w.tenants[r.consumer].db, row.client)
    then w.(recon := ReconSettling(r.consumer, AtRow(row.id, Verdict(status)), rest, r.consumers),
            answered := w.answered + [Inquiry(r.consumer, row, SentId(row), status)])
    else w.(recon := Draining(r.consumer, rest, r.consumers))
  }

  function ReconSettle(w: World, ok: bool): World
    requires w.recon.ReconSettling?
  {
    var r := w.recon;
    if r.consumer !in w.tenants then w.(recon := Draining(r.consumer, r.batch, r.consumers))
    else
      var t := w.tenants[r.consumer];
      var out := SettleStep(t.db, w.now, r.at, ok);
      Update(w, r.consumer, Log(t, RECONCILER, out.db, out.note))
        .(recon := if out.outcome.Continue? then r.(at := out.outcome.at)
                   else Draining(r.consumer, r.batch, r.consumers))
  }

  // A cycle visits every registered consumer once, in an order Go's map iteration picks.
  ghost predicate IsCycleOrder(w: World, order: seq<string>) {
    && (forall c :: c in w.tenants <==> c in order)
    && (forall i, j :: 0 <= i < j < |order| ==> order[i] != order[j])
  }

  // One move. A move that does not fit the current control points changes nothing.
  ghost function Exec(w: World, m: Move): World {
    match m
    case Tick(seconds) => w.(now := w.now + seconds)
    case Administer(c, a) =>
      if c in w.tenants then Update(w, c, w.tenants[c].(db := Administered(w.tenants[c].db, a))) else w
    case Arrive(th) =>
      if Unstarted(th) then w.(threads := w.threads + [th]) else w
    case Act(who, ok, text) =>
      if who >= |w.threads| then w
      else
        match w.threads[who] {
          case Initiator(_, _, _) => ActInitiator(w, who, ok, text)
          case Task(_, _) => ActTask(w, who, ok)
          case Hook(_, _, _) => ActHook(w, who, ok)
        }
    case StartCycle(order) =>
      if w.recon.Idle? && IsCycleOrder(w, order) then w.(recon := Sweeping(order)) else w
    case ListBatch(ok, batch) =>
      if w.recon.Draining? && w.recon.batch == [] then w.(recon := Sweeping(w.recon.consumers))
      else if !w.recon.Sweeping? then w
      else if w.recon.consumers == [] then w.(recon := Idle)
      else
        var c, rest := w.recon.consumers[0], w.recon.consumers[1..];
        if ok && c in w.tenants then
          if IsPendingList(w.tenants[c].db, w.now - RECONCILE_AGE, batch) then w.(recon := Draining(c, batch, rest)) else w
        else w.(recon := Sweeping(rest))
    case QueryStatus(ok, status) =>
      if w.recon.Draining? && w.recon.batch != [] then Decide(w, ok, status) else w
    case SettleNext(ok) =>
      if w.recon.ReconSettling? then ReconSettle(w, ok) else w
  }

  // The one database a move may touch, by whom, and what becomes of it.
  datatype Touch = Touch(consumer: string, agent: int, db: Db, note: Note)

  ghost function Effect(w: World, m: Move): Option<Touch> {
    match m
    case Administer(c, a) =>
      if c in w.tenants then Some(Touch(c, -2, Administered(w.tenants[c].db, a), Quiet)) else None
    case Act(who, ok, text) =>
      if who >= |w.threads| then None else ThreadEffect(w, who, ok, text)
    case SettleNext(ok) =>
      if w.recon.ReconSettling? && w.recon.consumer in w.tenants
      then SettleEffect(w, w.recon.consumer, RECONCILER, w.recon.at, ok) else None
    case _ => None
  }

  function SettleEffect(w: World, c: string, agent: int, at: SettlePoint, ok: bool): Option<Touch>
    requires c in w.tenants
  {
    var out := SettleStep(w.tenants[c].db, w.now, at, ok);
    Some(Touch(c, agent, out.db, out.note))
  }

  function ThreadEffect(w: World, who: nat, ok: bool, text: string): Option<Touch>
    requires who < |w.threads|
  {
    match w.threads[who]
    case Initiator(home, req, at) =>
      if home in w.tenants then
        var out := InitStep(w.tenants[home].db, w.now, req, at, ok, text);
        Some(Touch(home, who, out.db, out.note))
      else None
    case Task(_, at) =>
      if at.TaskSettling? && at.consumer in w.tenants then SettleEffect(w, at.consumer, who, at.at, ok) else None
    case Hook(c, _, at) =>
      if at.HookSettling? && c in w.tenants then SettleEffect(w, c, who, at.at, ok) else None
  }

  lemma EffectIsExec(w: World, m: Move)
    ensures match Effect(w, m)
            case None => Exec(w, m).tenants == w.tenants
            case Some(x) =>
              x.consumer in w.tenants
              && Exec(w, m).tenants == w.tenants[x.consumer := Log(w.tenants[x.consumer], x.agent, x.db, x.note)]
  {
  }

  ghost function Run(w: World, moves: seq<Move>): World
    decreases |moves|
  {
    if moves == [] then w else Run(Exec(w, moves[0]), moves[1..])
  }

  const NEW_TENANT := Tenant(EMPTY, map[], [], [], [])

  // The service just started, over empty databases of the configured consumers.
  function Boot(consumers: set<string>): World {
    World(map c | c in consumers :: NEW_TENANT, map[], 0, [], Idle, [], [])
  }

  // Consumer ids come from the configuration: non-empty, and assumed free of colons.
  ghost predicate Configured(consumers: set<string>) {
    forall c :: c in consumers ==> c != "" && ColonFree(c)
  }

  ghost predicate Reachable(w: World) {
    exists consumers, moves :: Configured(consumers) && w == Run(Boot(consumers), moves)
  }

  lemma {:induction false} RunConcat(w: World, a: seq<Move>, b: seq<Move>)
    ensures Run(w, a + b) == Run(Run(w, a), b)
    decreases |a|
  {
    if a == [] {
      assert a + b == b;
    } else {
      assert (a + b)[1..] == a[1..] + b;
      RunConcat(Exec(w, a[0]), a[1..], b);
    }
  }

  // A run is its all but last moves, and then the last.
  lemma RunSnoc(w: World, moves: seq<Move>)
    requires moves != []
    ensures Run(w, moves) == Exec(Run(w, moves[..|moves| - 1]), moves[|moves| - 1])
  {
    var n := |moves| - 1;
    var v := Run(w, moves[..n]);
    RunConcat(w, moves[..n], [moves[n]]);
    assert moves == moves[..n] + [moves[n]];
    assert Run(v, [moves[n]]) == Exec(v, moves[n]) by { assert [moves[n]][1..] == []; }
  }

  lemma ReachableRun(w: World, moves: seq<Move>)
    requires Reachable(w)
    ensures Reachable(Run(w, moves))
  {
    var consumers, before :| Configured(consumers) && w == Run(Boot(consumers), before);
    RunConcat(Boot(consumers), before, moves);
  }

  lemma ReachableStep(w: World, m: Move)
    requires Reachable(w)
    ensures Reachable(Exec(w, m))
  {
    ReachableRun(w, [m]);
    assert Run(w, [m]) == Exec(w, m) by { assert [m][1..] == []; }
  }
}
