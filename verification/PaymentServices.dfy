/** PaymentService and PaystackService: the initiators and settlers as the code runs them, call by call. */
module PaymentServices {
  import opened Base
  import opened Money
  import opened Phones
  import opened Domain
  import opened Ledger
  import opened Tables
  import Redis
  import opened Steps
  import opened Schedules
  import opened Store

  // A payment provider: it sees every initiation call, answered or not.
  class Provider {
    var calls: seq<Call>

    method Initiate(call: Call, answer: Option<string>) returns (id: Option<string>)
      modifies this
      ensures calls == old(calls) + [call] && id == answer
    {
      calls := calls + [call];
      id := answer;
    }
  }

  datatype InitResult = Rejected | Replayed(payment: string, status: Status) | Started(payment: string, request: string)

  // ---- Settling ------------------------------------------------------------------------

  // The journal switch of CompletePayment; its errors are dropped.
  method WriteEntries(db: ConsumerDb, p: Payment, f: TxFaults)
    modifies db`journal
    ensures db.Tables() == if TxRuns(f, 2) && Postable(old(db.Tables()), Template(p)) then Post(old(db.Tables()), Template(p))
                           else old(db.Tables())
    ensures PostsPair(old(db.journal), db.journal, p, TxRuns(f, 2) && p.id in db.payments && p.amount > 0 && HasAccounts(db.Tables(), p))
  {
    match p.direction {
      case Inbound =>
        assert p.(direction := Inbound) == p;
        var _ := WriteInboundEntries(db, p, f);
      case Outbound =>
        assert p.(direction := Outbound) == p;
        var _ := WriteOutboundEntries(db, p, f);
    }
  }

  // CompletePayment: row, event, journal pair. Only the row update can refuse.
  method CompletePayment(db: ConsumerDb, id: string, receipt: string, tx: string, now: int,
                         rowOk: bool, eventOk: bool, f: TxFaults) returns (ok: bool)
    requires db.Valid()
    modifies db`payments, db`events, db`journal
    ensures db.Valid()
    ensures var r := Finish(old(db.Tables()), now, AtRow(id, Completion(receipt, tx)), SettleFate(rowOk, eventOk, TxRuns(f, 2)));
            db.Tables() == r.db && ok == r.ok
    ensures ok == (rowOk && id in old(db.payments))
    ensures !ok ==> db.Tables() == old(db.Tables())
    ensures ok ==>
              && id in db.payments
              && db.payments[id].status == Completed && db.payments[id].completedAt == Some(now)
              && db.payments[id].receipt == (if receipt == "" then None else Some(receipt))
              && db.payments[id].txId == (if tx == "" then None else Some(tx))
              && db.events == old(db.events) + (if eventOk then [Event(id, Pending, Completed, None)] else [])
              && CompletedIn(old(db.Tables()), db.Tables(), id, receipt, tx, now, eventOk, TxRuns(f, 2))
  {
    ghost var before := db.Tables();
    ghost var fate := SettleFate(rowOk, eventOk, TxRuns(f, 2));
    var row := db.CompletePayment(id, receipt, tx, now, rowOk);
    if row.None? { return false; }
    var p := row.value;
    ghost var settled := db.Tables();
    var _ := db.CreatePaymentEvent(Event(id, Pending, Completed, None), eventOk);
    ghost var noted := db.Tables();
    WriteEntries(db, p, f);
    CompletionByCalls(before, settled, noted, db.Tables(), now, id, Completion(receipt, tx), fate);
    CompletionIs(before, now, id, receipt, tx, fate);
    ok := true;
  }

  // The three calls of a completion, one after the other, are the uninterrupted settlement.
  lemma CompletionByCalls(before: Db, settled: Db, noted: Db, after: Db, now: int, id: string, s: Settlement, f: SettleFate)
    requires id in before.payments && before.payments[id].id == id && s.Completion? && f.row
    requires settled == Settle(before, id, s, now)
    requires noted == if f.event then AddEvent(settled, SettledEvent(id, s)) else settled
    requires after == if f.post && Postable(noted, Template(settled.payments[id]))
                      then Post(noted, Template(settled.payments[id])) else noted
    ensures Finish(before, now, AtRow(id, s), f) == Done(after, true)
  {
    var p := settled.payments[id];
    assert Finish(before, now, AtRow(id, s), f) == Finish(settled, now, AtEvent(p, s), f);
    assert Finish(settled, now, AtEvent(p, s), f) == Finish(noted, now, AtPost(p), f);
  }

  // FailPayment: row and event.
  method FailPayment(db: ConsumerDb, id: string, reason: string, now: int, rowOk: bool, eventOk: bool) returns (ok: bool)
    requires db.Valid()
    modifies db`payments, db`events
    ensures db.Valid()
    ensures var r := Finish(old(db.Tables()), now, AtRow(id, Failure(reason)), SettleFate(rowOk, eventOk, true));
            db.Tables() == r.db && ok == r.ok
    ensures ok == (rowOk && id in old(db.payments))
    ensures !ok ==> db.Tables() == old(db.Tables())
    ensures ok ==>
              && id in db.payments && db.payments[id].status == Failed && db.journal == old(db.journal)
              && db.events == old(db.events)
                   + (if eventOk then [Event(id, Pending, Failed, if reason == "" then None else Some(reason))] else [])
              && FailedIn(old(db.Tables()), db.Tables(), id, reason, eventOk)
  {
    ghost var before, s := db.Tables(), Failure(reason);
    ghost var fate := SettleFate(rowOk, eventOk, true);
    var done := db.FailPayment(id, rowOk);
    if !done { return false; }
    ghost var settled := db.Tables();
    assert settled == Settle(before, id, s, now);
    assert Finish(before, now, AtRow(id, s), fate) == Finish(settled, now, AtEvent(settled.payments[id], s), fate);
    var _ := db.CreatePaymentEvent(Event(id, Pending, Failed, NonEmpty(reason)), eventOk);
    FailureIs(before, now, id, reason, fate);
    ok := true;
  }

  // ---- Initiating ----------------------------------------------------------------------

  // The Validate methods.
  method Validate(req: Request) returns (ok: bool)
    ensures ok == Valid(req)
    ensures ok <==>
              && req.client != "" && req.amount > 0 && req.reference != "" && req.key != ""
              && (req.kind == StkPush ==> req.amount % 100 == 0 && req.phone != "")
              && (req.kind == B2c ==> req.amount % 100 == 0 && req.phone != "")
              && (req.kind == B2b ==> req.amount % 100 == 0 && req.receiver != "")
              && (req.kind == PaystackCharge ==> req.email != "")
  {
    if req.client == "" { return false; }
    if req.amount <= 0 { return false; }
    if !req.kind.PaystackCharge? && req.amount % 100 != 0 { return false; }
    match req.kind {
      case StkPush => if req.phone == "" { return false; }
      case B2c => if req.phone == "" { return false; }
      case B2b => if req.receiver == "" { return false; }
      case PaystackCharge => if req.email == "" { return false; }
    }
    if req.reference == "" { return false; }
    ok := req.key != "";
  }

  // The two services of one consumer, over its database and the shared Redis map.
  class PaymentService {
    const home: string
    const db: ConsumerDb
    const routes: Redis.Client
    const provider: Provider

    constructor (home: string, db: ConsumerDb, routes: Redis.Client, provider: Provider)
      ensures this.home == home && this.db == db && this.routes == routes && this.provider == provider
    {
      this.home, this.db, this.routes, this.provider := home, db, routes, provider;
    }

    function Site(): Schedules.Site
      reads db, routes, provider
    {
      Schedules.Site(db.Tables(), routes.entries, provider.calls)
    }

    // The error paths between insert and provider answer: the payment is failed, without an event,
    // and the error of that update is dropped.
    method Abort(id: string, ok: bool)
      modifies db`payments
      ensures db.Tables() == if ok && id in old(db.payments) then FailRow(old(db.Tables()), id) else old(db.Tables())
    {
      var _ := db.FailPayment(id, ok);
    }

    // Loading and decrypting everything the Daraja call needs.
    method OpenCredentials(req: Request, ok: bool) returns (usable: bool)
      requires !req.kind.PaystackCharge?
      ensures usable == (ok && CanCall(db.Tables(), req))
      ensures usable <==> ok && Callable(db.Tables(), req)
    {
      var creds := db.GetActiveCredentials(req.client, ok);
      if creds.None? { return false; }
      if Decrypt(creds.value.consumerKey).None? { return false; }
      if Decrypt(creds.value.consumerSecret).None? { return false; }
      if Decrypt(creds.value.passkey).None? { return false; }
      if !req.kind.StkPush? && creds.value.security.Some? && Decrypt(creds.value.security.value).None? { return false; }
      usable := true;
    }

    // A stored payment with this client and key, as a replay reports it.
    ghost predicate Stored(req: Request, id: string, status: Status)
      reads db
    {
      exists row :: row in db.payments.Values && row.client == req.client && row.key == req.key
                    && row.id == id && row.status == status
    }

    // Everything up to the insert, shared by all four initiators: None means go on to credentials.
    method Admit(req: Request, p: Payment, now: int, f: InitFate) returns (r: Option<InitResult>)
      requires Admissible(req) && p == NewPayment(req, f.id, now)
      modifies db`payments
      ensures r.None? ==> old(f.id !in db.payments)
      ensures r.None? ==> Solo(old(Site()), now, home, req, AtLookup, f) == Solo(Site(), now, home, req, AtCredentials(f.id), f)
      ensures r.Some? ==> Site() == old(Site()) && Site() == Solo(old(Site()), now, home, req, AtLookup, f)
      ensures f.lookup && old(Taken(db.Tables(), req.client, req.key)) ==>
                r.Some? && r.value.Replayed? && Stored(req, r.value.payment, r.value.status)
      ensures !(f.lookup && old(Taken(db.Tables(), req.client, req.key))) ==> r == None || r == Some(Rejected)
    {
      ghost var s0 := Site();
      assert Solo(s0, now, home, req, InitDone, f) == s0;
      var existing := db.GetPaymentByIdempotencyKey(req.client, req.key, f.lookup);
      if existing.Some? {
        return Some(Replayed(existing.value.id, existing.value.status));
      }
      assert Solo(s0, now, home, req, AtLookup, f) == Solo(s0, now, home, req, AtInsert, f);
      var created := db.CreatePayment(p, f.insert);
      if !created { return Some(Rejected); }
      assert Solo(s0, now, home, req, AtInsert, f) == Solo(Site(), now, home, req, AtCredentials(f.id), f);
      r := None;
    }

    // A request refused before the database is reached.
    lemma Refused(req: Request, now: int, f: InitFate)
      requires !Admissible(req)
      ensures Site() == Solo(Site(), now, home, req, AtLookup, f)
    {
      assert Solo(Site(), now, home, req, InitDone, f) == Site();
    }

    // An error between the insert and the provider's answer.
    method GiveUp(req: Request, now: int, f: InitFate)
      modifies db`payments
      ensures Site() == Solo(old(Site()), now, home, req, AtAbort(f.id), f)
      ensures if f.abort && f.id in old(db.payments) then
                && OthersKept(old(db.Tables()), db.Tables(), f.id) && FailedFrom(old(db.payments)[f.id], db.payments[f.id])
                && db.events == old(db.events) && db.journal == old(db.journal)
              else db.Tables() == old(db.Tables())
    {
      AbortIs(Site(), now, home, req, f.id, f);
      Abort(f.id, f.abort);
    }

    // InitiateSTKPush, InitiateB2C and InitiateB2B.
    method InitiateDaraja(req: Request, now: int, f: InitFate) returns (r: InitResult)
      requires !req.kind.PaystackCharge?
      modifies db`payments, routes, provider
      ensures Site() == Solo(old(Site()), now, home, req, AtLookup, f)
      ensures Initiates(old(Site()), Site(), now, home, req, f)
      ensures f.id !in old(db.payments) && f.id in db.payments ==> StoredFrom(req, db.payments[f.id], f.id, now)
      ensures r.Replayed? <==> Admissible(req) && f.lookup && old(Taken(db.Tables(), req.client, req.key))
      ensures r.Replayed? ==> Site() == old(Site()) && Stored(req, r.payment, r.status)
      ensures r.Started? ==> old(f.id !in db.payments) && r.payment == f.id && f.answer == Some(r.request)
      ensures r.Started? <==> f.answer.Some? && provider.calls != old(provider.calls)
    {
      InitiationIs(Site(), now, home, req, f);
      var valid := Validate(req);
      if !valid { Refused(req, now, f); return Rejected; }
      var phone: Option<string> := None;
      if NeedsPhone(req.kind) {
        phone := NormalisePhone(req.phone);
        if phone.None? { Refused(req, now, f); return Rejected; }
      }
      var p := Payment(
        f.id, req.client, req.key, Mpesa, req.kind,
        if req.kind.StkPush? then Inbound else Outbound,
        Pending, req.amount, if req.currency == "" then "KES" else req.currency,
        phone, if req.kind.B2b? then NonEmpty(req.receiver) else None,
        req.reference, NonEmpty(req.description), None, None, None, now, None);
      var refused := Admit(req, p, now, f);
      if refused.Some? { return refused.value; }
      r := CallDaraja(req, now, f);
    }

    // From the credentials on.
    method CallDaraja(req: Request, now: int, f: InitFate) returns (r: InitResult)
      requires Valid(req) && !req.kind.PaystackCharge?
      modifies db`payments, routes, provider
      ensures Site() == Solo(old(Site()), now, home, req, AtCredentials(f.id), f)
      ensures provider.calls == old(provider.calls)
              || (|provider.calls| == |old(provider.calls)| + 1 && provider.calls[..|old(provider.calls)|] == old(provider.calls)
                  && AsksFor(req, provider.calls[|old(provider.calls)|], f.id))
      ensures r.Rejected? || (r.Started? && r.payment == f.id && f.answer == Some(r.request))
      ensures r.Started? <==> f.answer.Some? && provider.calls != old(provider.calls)
    {
      BillIsExact(req);
      assert Bill(req) == Shillings(Decimal(req.amount / 100));
      ghost var s1 := Site();
      var usable := OpenCredentials(req, f.credentials);
      if !usable {
        assert Solo(s1, now, home, req, AtCredentials(f.id), f) == Solo(s1, now, home, req, AtAbort(f.id), f);
        GiveUp(req, now, f);
        return Rejected;
      }
      assert Solo(s1, now, home, req, AtCredentials(f.id), f) == Solo(s1, now, home, req, AtCall(f.id), f);
      var resp := provider.Initiate(Call(req.client, req.key, f.id, Shillings(Decimal(req.amount / 100))), f.answer);
      if resp.None? {
        assert Solo(s1, now, home, req, AtCall(f.id), f) == Solo(Site(), now, home, req, AtAbort(f.id), f);
        GiveUp(req, now, f);
        return Rejected;
      }
      assert Solo(s1, now, home, req, AtCall(f.id), f) == Solo(Site(), now, home, req, AtRecord(f.id, resp.value), f);
      RecordRequest(req, resp.value, now, f);
      r := Started(f.id, resp.value);
    }

    // After the provider's answer: the request id, then for STK the Redis entry. Errors are dropped.
    method RecordRequest(req: Request, request: string, now: int, f: InitFate)
      modifies db`payments, routes
      ensures Site() == Solo(old(Site()), now, home, req, AtRecord(f.id, request), f)
      ensures routes.entries == if req.kind == StkPush && f.route
                                then old(routes.entries)["stk:" + request := Redis.Entry(home + ":" + req.client + ":" + f.id, now + 1800)]
                                else old(routes.entries)
      ensures f.record && f.id in old(db.payments) ==>
                && f.id in db.payments && SameColumns(old(db.payments)[f.id], db.payments[f.id])
                && db.payments[f.id].requestId == (if request == "" then None else Some(request))
    {
      ghost var s2 := Site();
      var _ := db.UpdateProviderRequestID(f.id, request, f.record);
      assert Solo(Site(), now, home, req, InitDone, f) == Site();
      if req.kind.StkPush? {
        ghost var s3 := Site();
        assert Solo(s2, now, home, req, AtRecord(f.id, request), f) == Solo(s3, now, home, req, AtRoute(f.id, request), f);
        var _ := routes.Set("stk:" + request, home + ":" + req.client + ":" + f.id, now, 1800, f.route);
        assert Solo(s3, now, home, req, AtRoute(f.id, request), f) == Solo(Site(), now, home, req, InitDone, f);
      }
    }

    // PaystackService.InitiateCharge.
    method InitiateCharge(req: Request, now: int, f: InitFate) returns (r: InitResult)
      requires req.kind.PaystackCharge?
      modifies db`payments, routes, provider
      ensures Site() == Solo(old(Site()), now, home, req, AtLookup, f)
      ensures Initiates(old(Site()), Site(), now, home, req, f)
      ensures f.id !in old(db.payments) && f.id in db.payments ==> StoredFrom(req, db.payments[f.id], f.id, now)
      ensures r.Replayed? <==> Admissible(req) && f.lookup && old(Taken(db.Tables(), req.client, req.key))
      ensures r.Replayed? ==> Site() == old(Site()) && Stored(req, r.payment, r.status)
      ensures r.Started? ==> old(f.id !in db.payments) && r.payment == f.id && f.answer == Some(r.request)
      ensures r.Started? <==> f.answer.Some? && provider.calls != old(provider.calls)
    {
      InitiationIs(Site(), now, home, req, f);
      var valid := Validate(req);
      if !valid { Refused(req, now, f); return Rejected; }
      var p := Payment(
        f.id, req.client, req.key, Paystack, PaystackCharge, Inbound, Pending, req.amount,
        if req.currency == "" then "KES" else req.currency, None, None,
        req.reference, NonEmpty(req.description), None, None, None, now, None);
      var refused := Admit(req, p, now, f);
      if refused.Some? { return refused.value; }
      r := CallPaystack(req, now, f);
    }

    method CallPaystack(req: Request, now: int, f: InitFate) returns (r: InitResult)
      requires Valid(req) && req.kind.PaystackCharge?
      modifies db`payments, routes, provider
      ensures Site() == Solo(old(Site()), now, home, req, AtCredentials(f.id), f)
      ensures provider.calls == old(provider.calls)
              || (|provider.calls| == |old(provider.calls)| + 1 && provider.calls[..|old(provider.calls)|] == old(provider.calls)
                  && AsksFor(req, provider.calls[|old(provider.calls)|], f.id))
      ensures r.Rejected? || (r.Started? && r.payment == f.id && f.answer == Some(r.request))
      ensures r.Started? <==> f.answer.Some? && provider.calls != old(provider.calls)
    {
      ghost var s1 := Site();
      var creds := db.GetActivePaystackCredentials(req.client, f.credentials);
      if creds.None? || Decrypt(creds.value).None? {
        assert Solo(s1, now, home, req, AtCredentials(f.id), f) == Solo(s1, now, home, req, AtAbort(f.id), f);
        GiveUp(req, now, f);
        return Rejected;
      }
      assert Solo(s1, now, home, req, AtCredentials(f.id), f) == Solo(s1, now, home, req, AtCall(f.id), f);
      var resp := provider.Initiate(Call(req.client, req.key, f.id, Subunits(req.amount)), f.answer);
      if resp.None? {
        assert Solo(s1, now, home, req, AtCall(f.id), f) == Solo(Site(), now, home, req, AtAbort(f.id), f);
        GiveUp(req, now, f);
        return Rejected;
      }
      assert Solo(s1, now, home, req, AtCall(f.id), f) == Solo(Site(), now, home, req, AtRecord(f.id, resp.value), f);
      RecordRequest(req, resp.value, now, f);
      r := Started(f.id, resp.value);
    }
  }
}
