/**
 * The service's activities cut at their repository, Redis and provider calls. Each function below
 * is one call: it takes the current tables and the control point and gives the new tables, the
 * next control point and a note of what happened. A failing call changes nothing.
 */
module Steps {
  import opened Base
  import opened Money
  import opened Domain
  import opened Ledger
  import opened Tables
  import opened Routing
  import Redis

  // One request to a provider to move money.
  datatype Call = Call(client: string, key: string, payment: string, billed: Billed)

  datatype Note = Quiet | Inserted(payment: string) | Called(call: Call) | Settled(payment: string, s: Settlement) | Posted(payment: string)

  // ---- CompletePayment and FailPayment -------------------------------------------------

  datatype SettlePoint =
    | AtRow(payment: string, s: Settlement)
    | AtEvent(row: Payment, s: Settlement)
    | AtPost(row: Payment)

  datatype Outcome = Continue(at: SettlePoint) | Refused | Finished

  datatype SettleOut = SettleOut(db: Db, outcome: Outcome, note: Note)

  // The row update has no status guard. Its error is returned; the errors of the event insert and
  // of the journal write are logged and dropped.
  function SettleStep(db: Db, now: int, at: SettlePoint, ok: bool): SettleOut {
    match at
    case AtRow(id, s) =>
      if ok && id in db.payments then
        var next := Settle(db, id, s, now);
        SettleOut(next, Continue(AtEvent(next.payments[id], s)), Settled(id, s))
      else SettleOut(db, Refused, Quiet)
    case AtEvent(row, s) =>
      var e := SettledEvent(row.id, s);
      var next := if ok && EventInsertable(db, e) then AddEvent(db, e) else db;
      SettleOut(next, if s.Completion? then Continue(AtPost(row)) else Finished, Quiet)
    case AtPost(row) =>
      if ok && Postable(db, Template(row)) then SettleOut(Post(db, Template(row)), Finished, Posted(row.id))
      else SettleOut(db, Finished, Quiet)
  }

  // ---- The four initiators -------------------------------------------------------------

  datatype InitPoint =
    | AtLookup
    | AtInsert
    | AtCredentials(payment: string)
    | AtCall(payment: string)
    | AtRecord(payment: string, request: string)
    | AtRoute(payment: string, request: string)
    | AtAbort(payment: string)
    | InitDone

  datatype InitOut = InitOut(db: Db, next: InitPoint, note: Note)

  // `ok` is the fate of the call; `text` is what it returns: a fresh payment id, or the id the
  // provider gives to the request.
  function InitStep(db: Db, now: int, req: Request, at: InitPoint, ok: bool, text: string): InitOut {
    match at
    case AtLookup =>
      InitOut(db, if !Admissible(req) || (ok && Taken(db, req.client, req.key)) then InitDone else AtInsert, Quiet)
    case AtInsert =>
      var p := NewPayment(req, text, now);
      if ok && Insertable(db, p) then InitOut(Insert(db, p), AtCredentials(text), Inserted(text))
      else InitOut(db, InitDone, Quiet)
    case AtCredentials(id) =>
      InitOut(db, if ok && CanCall(db, req) then AtCall(id) else AtAbort(id), Quiet)
    case AtCall(id) =>
      if req.amount > 0 then
        InitOut(db, if ok then AtRecord(id, text) else AtAbort(id), Called(Call(req.client, req.key, id, Bill(req))))
      else InitOut(db, AtAbort(id), Quiet)
    case AtRecord(id, request) =>
      InitOut(if ok && id in db.payments then SetRequestId(db, id, request) else db,
              if req.kind.StkPush? then AtRoute(id, request) else InitDone, Quiet)
    case AtRoute(_, _) =>
      InitOut(db, InitDone, Quiet)
    case AtAbort(id) =>
      if ok && id in db.payments then InitOut(Settle(db, id, Failure(""), now), InitDone, Settled(id, Failure("")))
      else InitOut(db, InitDone, Quiet)
    case InitDone => InitOut(db, InitDone, Quiet)
  }

  // The Redis SET of an STK initiation.
  function RouteStep(routes: map<string, Redis.Entry>, now: int, home: string, req: Request, at: InitPoint, ok: bool): map<string, Redis.Entry> {
    if at.AtRoute? && ok then
      routes[RouteKey(at.request) := Redis.Entry(PrintRoute(home, req.client, at.payment), now + ROUTE_TTL)]
    else routes
  }

  // ---- The STK callback worker ---------------------------------------------------------

  datatype ItemValue = Text(s: string) | NotText

  datatype Item = Item(name: string, value: ItemValue)

  // A queued callback, already decoded; `wellFormed` is false when either JSON layer is not.
  datatype Callback = Callback(wellFormed: bool, consumer: string, checkout: string, code: int, desc: string, items: seq<Item>)

  predicate IsReceipt(item: Item) {
    item.name == "MpesaReceiptNumber" && item.value.Text?
  }

  function Receipt(items: seq<Item>): string {
    if items == [] then "" else if IsReceipt(items[0]) then items[0].value.s else Receipt(items[1..])
  }

  function CallbackSettlement(cb: Callback): Settlement {
    if cb.code == 0 then Completion(Receipt(cb.items), cb.checkout) else Failure(cb.desc)
  }

  // The consumer and payment a callback is routed to, if its entry is live and parses.
  function Destination(routes: map<string, Redis.Entry>, now: int, cb: Callback): Option<(string, string)> {
    if !cb.wellFormed then None
    else if RouteKey(cb.checkout) !in routes || routes[RouteKey(cb.checkout)].expires <= now then None
    else
      var parts := SplitN(routes[RouteKey(cb.checkout)].value, 3);
      if |parts| < 3 then None
      else Some((if parts[0] == "" then cb.consumer else parts[0], parts[2]))
  }

  // ---- The Paystack webhook ------------------------------------------------------------

  // A delivery, already decoded, with the key its signature was made with.
  datatype Delivery = Delivery(wellFormed: bool, event: string, reference: string, status: string,
                               amount: int64, id: int64, signer: string)

  // What an authentic delivery asks for; None when it is refused or ignored.
  function DeliverySettlement(db: Db, row: Payment, d: Delivery): Option<Settlement> {
    if row.client !in db.paystack then None
    else
      match Decrypt(db.paystack[row.client])
      case None => None
      case Some(secret) =>
        if d.signer != secret then None
        else if d.event == "charge.success" then
          if d.amount == row.amount then Some(Completion(d.reference, Itoa(d.id))) else None
        else if d.event == "charge.failed" then Some(Failure(d.status))
        else None
  }

  // ---- Reconciliation ------------------------------------------------------------------

  // Two minutes, in seconds.
  const RECONCILE_AGE := 120

  datatype TxStatus = TxStatus(code: string, status: string, receipt: string, conversation: string)

  function Verdict(status: TxStatus): Settlement {
    if status.code == "0" || status.status == "completed" then Completion(status.receipt, status.conversation)
    else Failure("reconciliation: daraja returned result code " + status.code)
  }

  // The transaction id a status query carries: the recorded request id, empty if there is none.
  function SentId(row: Payment): string {
    if row.requestId.Some? then row.requestId.value else ""
  }

  // Reconciliation queries Daraja with the M-PESA credentials, whatever the payment's provider.
  predicate CanQuery(db: Db, client: string) {
    client in db.credentials && Opens(db.credentials[client], true)
  }
}
