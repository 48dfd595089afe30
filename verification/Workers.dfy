/** The queue worker's STK handler, the Paystack webhook and the per-consumer completer. */
module Workers {
  import opened Base
  import opened Money
  import opened Domain
  import opened Tables
  import opened Routing
  import Redis
  import opened Steps
  import opened Schedules
  import opened Store
  import opened PaymentServices

  // extractMpesaReceipt: the first item of that name whose value is text.
  method ExtractMpesaReceipt(items: seq<Item>) returns (receipt: string)
    ensures receipt == Receipt(items)
    ensures forall k :: 0 <= k < |items| && items[k].name == "MpesaReceiptNumber" && items[k].value.Text?
              && (forall j :: 0 <= j < k ==> !(items[j].name == "MpesaReceiptNumber" && items[j].value.Text?))
              ==> receipt == items[k].value.s
    ensures (forall k :: 0 <= k < |items| ==> !(items[k].name == "MpesaReceiptNumber" && items[k].value.Text?)) ==> receipt == ""
  {
    for i := 0 to |items|
      invariant Receipt(items) == Receipt(items[i..])
      invariant forall j :: 0 <= j < i ==> !IsReceipt(items[j])
    {
      if items[i].name == "MpesaReceiptNumber" && items[i].value.Text? {
        assert IsReceipt(items[i]);
        return items[i].value.s;
      }
      assert items[i..][1..] == items[i + 1..];
    }
    receipt := "";
  }

  // One database object per consumer.
  type Registry = map<string, ConsumerDb>

  ghost predicate Separate(dbs: Registry) {
    forall c, d :: c in dbs && d in dbs && c != d ==> dbs[c] != dbs[d]
  }

  ghost predicate AllValid(dbs: Registry)
    reads dbs.Values
  {
    forall c :: c in dbs ==> dbs[c].Valid()
  }

  // All consumers' tables at once.
  ghost function Snapshot(dbs: Registry): map<string, Db>
    reads dbs.Values
  {
    map c | c in dbs :: dbs[c].Tables()
  }

  // CompletePayment or FailPayment on one database.
  method SettleIn(db: ConsumerDb, id: string, s: Settlement, now: int, rowOk: bool, eventOk: bool, f: TxFaults) returns (ok: bool)
    requires db.Valid()
    modifies db`payments, db`events, db`journal
    ensures db.Valid()
    ensures var r := Finish(old(db.Tables()), now, AtRow(id, s), SettleFate(rowOk, eventOk, TxRuns(f, 2)));
            db.Tables() == r.db && ok == r.ok
    ensures ok == (rowOk && id in old(db.payments))
    ensures if ok then SettledIn(old(db.Tables()), db.Tables(), id, s, now, eventOk, TxRuns(f, 2))
            else db.Tables() == old(db.Tables())
  {
    match s {
      case Completion(receipt, tx) => ok := CompletePayment(db, id, receipt, tx, now, rowOk, eventOk, f);
      case Failure(reason) =>
        FailureIgnoresJournal(db.Tables(), now, id, reason, rowOk, eventOk, true, TxRuns(f, 2));
        ok := FailPayment(db, id, reason, now, rowOk, eventOk);
    }
  }

  // TenantCompleter: settle on one consumer's database, or refuse an unknown consumer.
  method SettleOn(dbs: Registry, consumer: string, id: string, s: Settlement, now: int,
                  rowOk: bool, eventOk: bool, f: TxFaults) returns (ok: bool)
    requires Separate(dbs) && AllValid(dbs)
    modifies dbs.Values
    ensures AllValid(dbs)
    ensures consumer !in dbs ==> !ok && Snapshot(dbs) == old(Snapshot(dbs))
    ensures consumer in dbs ==>
              var r := Finish(old(Snapshot(dbs))[consumer], now, AtRow(id, s), SettleFate(rowOk, eventOk, TxRuns(f, 2)));
              ok == r.ok && Snapshot(dbs) == old(Snapshot(dbs))[consumer := r.db]
    ensures consumer in dbs ==> ok == (rowOk && id in old(Snapshot(dbs))[consumer].payments)
    ensures ok ==> SettledIn(old(Snapshot(dbs))[consumer], Snapshot(dbs)[consumer], id, s, now, eventOk, TxRuns(f, 2))
  {
    if consumer !in dbs { return false; }
    ghost var before := Snapshot(dbs);
    assert before[consumer] == dbs[consumer].Tables();
    ok := SettleIn(dbs[consumer], id, s, now, rowOk, eventOk, f);
    ghost var after := Snapshot(dbs);
    forall c | c in dbs && c != consumer ensures dbs[c].Tables() == before[c] && dbs[c].Valid() {
      assert dbs[c] != dbs[consumer];
    }
    OneChanged(before, after, consumer);
  }

  lemma OneChanged(before: map<string, Db>, after: map<string, Db>, consumer: string)
    requires before.Keys == after.Keys && consumer in before
    requires forall c :: c in before && c != consumer ==> after[c] == before[c]
    ensures after == before[consumer := after[consumer]]
  {
  }

  // Where a callback goes: a live entry under "stk:" and its checkout id, whose text is consumer,
  // client and payment between colons. The consumer of the task only fills in for an empty one.
  lemma DestinationIs(routes: map<string, Redis.Entry>, now: int, cb: Callback, consumer: string, client: string, id: string)
    requires cb.wellFormed && "stk:" + cb.checkout in routes && routes["stk:" + cb.checkout].expires > now
    requires routes["stk:" + cb.checkout].value == consumer + ":" + client + ":" + id
    requires ':' !in consumer && ':' !in client
    ensures Destination(routes, now, cb) == Some((if consumer == "" then cb.consumer else consumer, id))
  {
    RouteRoundTrip(consumer, client, id);
  }

  // Nothing else is routed: no entry, an expired one, or one with fewer than two colons.
  lemma NoDestinationIff(routes: map<string, Redis.Entry>, now: int, cb: Callback)
    ensures Destination(routes, now, cb).Some? <==>
              && cb.wellFormed && "stk:" + cb.checkout in routes && routes["stk:" + cb.checkout].expires > now
              && exists a, b, c :: ':' !in a && ':' !in b && routes["stk:" + cb.checkout].value == PrintRoute(a, b, c)
  {
    if cb.wellFormed && "stk:" + cb.checkout in routes && routes["stk:" + cb.checkout].expires > now {
      TwoColonsIff(routes["stk:" + cb.checkout].value);
    }
  }

  // handleSTKWebhook: look the checkout id up, split the route, settle. Every error return comes
  // before the row update and leaves every database as it was, so the queue can retry.
  method HandleSTKWebhook(dbs: Registry, routes: Redis.Client, cb: Callback, now: int, redisOk: bool,
                          rowOk: bool, eventOk: bool, f: TxFaults) returns (ok: bool)
    requires Separate(dbs) && AllValid(dbs)
    modifies dbs.Values
    ensures AllValid(dbs)
    ensures !ok ==> Snapshot(dbs) == old(Snapshot(dbs))
    ensures var dest := if redisOk then Destination(routes.entries, now, cb) else None;
            if dest.None? || dest.value.0 !in dbs then !ok
            else
              var (consumer, id) := dest.value;
              var r := Finish(old(Snapshot(dbs))[consumer], now, AtRow(id, CallbackSettlement(cb)),
                              SettleFate(rowOk, eventOk, TxRuns(f, 2)));
              ok == r.ok && Snapshot(dbs) == old(Snapshot(dbs))[consumer := r.db]
    ensures ok ==>
              Destination(routes.entries, now, cb).Some?
              && var (consumer, id) := Destination(routes.entries, now, cb).value;
                 && consumer in dbs && id in old(Snapshot(dbs))[consumer].payments
                 && var before, after := old(Snapshot(dbs))[consumer], Snapshot(dbs)[consumer];
                    if cb.code == 0 then CompletedIn(before, after, id, Receipt(cb.items), cb.checkout, now, eventOk, TxRuns(f, 2))
                    else FailedIn(before, after, id, cb.desc, eventOk)
  {
    ghost var before := Snapshot(dbs);
    if !cb.wellFormed { return false; }
    var route := routes.Get("stk:" + cb.checkout, now, redisOk);
    if route.None? { return false; }
    var parts := SplitN(route.value, 3);
    if |parts| < 3 { return false; }
    var consumer, id := parts[0], parts[2];
    if consumer == "" { consumer := cb.consumer; }
    if cb.code == 0 {
      var receipt := ExtractMpesaReceipt(cb.items);
      ok := SettleOn(dbs, consumer, id, Completion(receipt, cb.checkout), now, rowOk, eventOk, f);
    } else {
      ok := SettleOn(dbs, consumer, id, Failure(cb.desc), now, rowOk, eventOk, f);
    }
    if consumer in dbs && !ok {
      RefusedChangesNothing(before[consumer], now, id, CallbackSettlement(cb), SettleFate(rowOk, eventOk, TxRuns(f, 2)));
      OneChanged(before, before, consumer);
    }
  }

  lemma RefusedChangesNothing(db: Db, now: int, id: string, s: Settlement, f: SettleFate)
    requires !Finish(db, now, AtRow(id, s), f).ok
    ensures Finish(db, now, AtRow(id, s), f).db == db
  {
    if f.row && id in db.payments {
      var a := Settle(db, id, s, now);
      var e := AtEvent(a.payments[id], s);
      assert Finish(db, now, AtRow(id, s), f) == Finish(a, now, e, f);
      EventNeverRefused(a, now, e, f);
    }
  }

  // After the row update nothing is refused any more.
  lemma EventNeverRefused(db: Db, now: int, at: SettlePoint, f: SettleFate)
    requires !at.AtRow?
    ensures Finish(db, now, at, f).ok
  {
    if at.AtEvent? && at.s.Completion? {
      var out := SettleStep(db, now, at, f.event);
      assert Finish(db, now, at, f) == Finish(out.db, now, AtPost(at.row), f);
    }
  }

  // The delivery is signed with the client's own secret key.
  predicate Authentic(db: Db, client: string, d: Delivery) {
    client in db.paystack && Decrypt(db.paystack[client]) == Some(d.signer)
  }

  // HandleWebhook of the Paystack service: nothing is settled without a stored payment, a matching
  // signature and, for a success, the recorded amount.
  method HandlePaystackWebhook(db: ConsumerDb, d: Delivery, now: int, lookupOk: bool, credsOk: bool,
                               rowOk: bool, eventOk: bool, f: TxFaults) returns (ok: bool)
    requires db.Valid()
    modifies db`payments, db`events, db`journal
    ensures db.Valid()
    ensures var known := lookupOk && credsOk && d.wellFormed && d.reference != "" && d.reference in old(db.payments);
            var s := if known then DeliverySettlement(old(db.Tables()), old(db.payments)[d.reference], d) else None;
            if s.None? then
              && db.Tables() == old(db.Tables())
              && ok == (known && Authentic(old(db.Tables()), old(db.payments)[d.reference].client, d)
                        && d.event != "charge.success" && d.event != "charge.failed")
            else
              var r := Finish(old(db.Tables()), now, AtRow(d.reference, s.value), SettleFate(rowOk, eventOk, TxRuns(f, 2)));
              db.Tables() == r.db && ok == r.ok
    ensures var known := lookupOk && credsOk && d.wellFormed && d.reference != "" && d.reference in old(db.payments);
            known && Authentic(old(db.Tables()), old(db.payments)[d.reference].client, d) ==>
              var p := old(db.payments)[d.reference];
              && (d.event == "charge.success" && d.amount == p.amount && rowOk ==>
                    ok && CompletedIn(old(db.Tables()), db.Tables(), p.id, d.reference, Itoa(d.id), now, eventOk, TxRuns(f, 2)))
              && (d.event == "charge.success" && d.amount != p.amount ==> !ok && db.Tables() == old(db.Tables()))
              && (d.event == "charge.failed" && rowOk ==> ok && FailedIn(old(db.Tables()), db.Tables(), p.id, d.status, eventOk))
              && (d.event != "charge.success" && d.event != "charge.failed" ==> ok && db.Tables() == old(db.Tables()))
              && (!rowOk ==> db.Tables() == old(db.Tables()))
    ensures !(lookupOk && credsOk && d.wellFormed && d.reference != "" && d.reference in old(db.payments)
              && Authentic(old(db.Tables()), old(db.payments)[d.reference].client, d)) ==>
              !ok && db.Tables() == old(db.Tables())
  {
    if !d.wellFormed || d.reference == "" { return false; }
    var row := db.GetPaymentByID(d.reference, lookupOk);
    if row.None? { return false; }
    var payment := row.value;
    var creds := db.GetActivePaystackCredentials(payment.client, credsOk);
    if creds.None? { return false; }
    var secret := Decrypt(creds.value);
    if secret.None? { return false; }
    if d.signer != secret.value { return false; }
    if d.event == "charge.success" {
      if d.amount != payment.amount { return false; }
      ok := CompletePayment(db, payment.id, d.reference, Itoa(d.id), now, rowOk, eventOk, f);
    } else if d.event == "charge.failed" {
      FailureIgnoresJournal(db.Tables(), now, payment.id, d.status, rowOk, eventOk, true, TxRuns(f, 2));
      ok := FailPayment(db, payment.id, d.status, now, rowOk, eventOk);
    } else {
      ok := true;
    }
  }
}
