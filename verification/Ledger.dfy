/** Double-entry templates, the balance check, and sums over the journal. */
module Ledger {
  import opened Base
  import opened Money
  import opened Domain

  const TILL := "mpesa.till"
  const SALES := "revenue.sales"
  const OPERATIONS := "expense.operations"

  const INBOUND_TEXT := "Inbound payment via "
  const SALES_TEXT := "Sales revenue for payment "
  const OUTBOUND_TEXT := "Outbound payment via "
  const TILL_TEXT := "Till outbound for payment "

  function KindName(k: Kind): string {
    match k
    case StkPush => "stk_push"
    case B2c => "b2c"
    case B2b => "b2b"
    case PaystackCharge => "paystack_charge"
  }

  // The two rows written when a payment completes.
  function Template(p: Payment): seq<JournalRow> {
    match p.direction
    case Inbound =>
      [ JournalRow(p.client, p.id, TILL, Debit, p.amount, p.currency, INBOUND_TEXT + KindName(p.kind)),
        JournalRow(p.client, p.id, SALES, Credit, p.amount, p.currency, SALES_TEXT + p.id) ]
    case Outbound =>
      [ JournalRow(p.client, p.id, OPERATIONS, Debit, p.amount, p.currency, OUTBOUND_TEXT + KindName(p.kind)),
        JournalRow(p.client, p.id, TILL, Credit, p.amount, p.currency, TILL_TEXT + p.id) ]
  }

  // ---- The balance check ---------------------------------------------------------------

  // The domain-side copy of a journal row that the check runs on.
  datatype JournalEntry = JournalEntry(client: string, payment: string, account: string,
                                       entryType: EntryType, amount: int64, currency: string, description: string)

  function Converted(p: JournalRow): JournalEntry {
    JournalEntry(p.client, p.payment, p.account, p.entry, p.amount, p.currency, p.description)
  }

  // The mathematical sum of one side, without wrap-around.
  function SideSum(entries: seq<JournalEntry>, side: EntryType): int {
    if entries == [] then 0
    else SideSum(entries[..|entries| - 1], side)
         + (if entries[|entries| - 1].entryType == side then entries[|entries| - 1].amount else 0)
  }

  // Two int64 accumulators: accepts exactly when the true sums agree modulo 2^64. Entries of an
  // unknown type count on neither side.
  method VerifyBalance(entries: seq<JournalEntry>) returns (ok: bool)
    ensures ok <==> (SideSum(entries, Debit) - SideSum(entries, Credit)) % TWO_64 == 0
  {
    var debits: int64, credits: int64 := 0, 0;
    for i := 0 to |entries|
      invariant debits == Wrap(SideSum(entries[..i], Debit))
      invariant credits == Wrap(SideSum(entries[..i], Credit))
    {
      assert entries[..i + 1][..i] == entries[..i];
      var e := entries[i];
      match e.entryType {
        case Debit =>
          WrapAdd(SideSum(entries[..i], Debit), e.amount);
          debits := Wrap(debits + e.amount);
        case Credit =>
          WrapAdd(SideSum(entries[..i], Credit), e.amount);
          credits := Wrap(credits + e.amount);
        case Other(_) =>
      }
    }
    assert entries[..|entries|] == entries;
    ok := debits == credits;
    WrapEqual(SideSum(entries, Debit), SideSum(entries, Credit));
  }

  lemma {:induction false} SideSumNonNegative(entries: seq<JournalEntry>, side: EntryType)
    requires forall i :: 0 <= i < |entries| ==> entries[i].amount > 0
    ensures SideSum(entries, side) >= 0
  {
    if entries != [] {
      SideSumNonNegative(entries[..|entries| - 1], side);
    }
  }

  // What a side's sum is: one entry counts its amount on its own side only, and sums add up.
  lemma {:induction false} SideSumAdds(a: seq<JournalEntry>, b: seq<JournalEntry>, e: JournalEntry, side: EntryType)
    ensures SideSum([e], side) == if e.entryType == side then e.amount else 0
    ensures SideSum(a + b, side) == SideSum(a, side) + SideSum(b, side)
  {
    assert [e][..0] == [];
    if b == [] {
      assert a + b == a;
    } else {
      SideSumAdds(a, b[..|b| - 1], e, side);
      assert (a + b)[..|a + b| - 1] == a + b[..|b| - 1];
    }
  }

  // With positive amounts and both true sums below 2^64 the wrapping check is the exact check.
  lemma VerifyBalanceExact(entries: seq<JournalEntry>)
    requires forall i :: 0 <= i < |entries| ==> entries[i].amount > 0
    requires SideSum(entries, Debit) < TWO_64 && SideSum(entries, Credit) < TWO_64
    ensures (SideSum(entries, Debit) - SideSum(entries, Credit)) % TWO_64 == 0
            <==> SideSum(entries, Debit) == SideSum(entries, Credit)
  {
    SideSumNonNegative(entries, Debit);
    SideSumNonNegative(entries, Credit);
  }

  // Without the bound the check is fooled: three positive amounts that add up to 2^64 against
  // nothing at all are accepted.
  lemma VerifyBalanceFooled()
    ensures exists entries: seq<JournalEntry> ::
              && (forall i :: 0 <= i < |entries| ==> entries[i].amount > 0)
              && (SideSum(entries, Debit) - SideSum(entries, Credit)) % TWO_64 == 0
              && SideSum(entries, Debit) != SideSum(entries, Credit)
  {
    var a := JournalEntry("c", "p", "x", Debit, TWO_63 - 1, "KES", "d");
    var b := a.(amount := 2);
    var all := [a, a, b];
    assert all[..2] == [a, a] && [a, a][..1] == [a] && [a][..0] == [];
    calc {
      SideSum(all, Debit);
      SideSum([a, a], Debit) + 2;
      SideSum([a], Debit) + (TWO_63 - 1) + 2;
      TWO_64;
    }
    assert SideSum(all, Credit) == SideSum([a, a], Credit) == SideSum([a], Credit) == 0;
  }

  // ---- Sums over journal rows ----------------------------------------------------------

  // One SUM(CASE ...) of a client's rows, over one account or over all of them.
  datatype Query = Query(client: string, account: Option<string>, side: EntryType)

  predicate Matches(q: Query, r: JournalRow) {
    r.client == q.client && (q.account.Some? ==> r.account == q.account.value) && r.entry == q.side
  }

  function Amount(q: Query, r: JournalRow): int {
    if Matches(q, r) then r.amount else 0
  }

  function Total(rows: seq<JournalRow>, q: Query): int {
    if rows == [] then 0 else Total(rows[..|rows| - 1], q) + Amount(q, rows[|rows| - 1])
  }

  // net_cents of one account.
  function Net(rows: seq<JournalRow>, client: string, account: string): int {
    Total(rows, Query(client, Some(account), Debit)) - Total(rows, Query(client, Some(account), Credit))
  }

  lemma {:induction false} TotalConcat(a: seq<JournalRow>, b: seq<JournalRow>, q: Query)
    ensures Total(a + b, q) == Total(a, q) + Total(b, q)
  {
    if b == [] {
      assert a + b == a;
    } else {
      TotalConcat(a, b[..|b| - 1], q);
      assert (a + b)[..|a + b| - 1] == a + b[..|b| - 1];
    }
  }

  // A pair of rows, added up.
  lemma TotalPair(r: JournalRow, s: JournalRow, q: Query)
    ensures Total([r, s], q) == Amount(q, r) + Amount(q, s)
  {
    var pair, one := [r, s], [r];
    assert pair[..1] == one && one[..0] == [];
    assert Total(one, q) == Amount(q, r);
  }

  lemma WithoutTotal(rows: seq<JournalRow>, k: nat, q: Query)
    requires k < |rows|
    ensures Total(rows, q) == Total(Without(rows, k), q) + Amount(q, rows[k])
  {
    var front, last := rows[..k] + [rows[k]], rows[k + 1..];
    assert rows == front + last;
    TotalConcat(front, last, q);
    TotalConcat(rows[..k], last, q);
    assert front[..k] == rows[..k];
  }

  // Sums do not depend on the order of the rows.
  lemma {:induction false} TotalOfMultiset(a: seq<JournalRow>, b: seq<JournalRow>, q: Query)
    requires multiset(a) == multiset(b)
    ensures Total(a, q) == Total(b, q)
  {
    if a == [] {
      EmptyMultiset(b);
    } else {
      var n := |a| - 1;
      assert a[n] in multiset(b);
      var k :| 0 <= k < |b| && b[k] == a[n];
      WithoutMultiset(a, n);
      WithoutMultiset(b, k);
      WithoutTotal(a, n, q);
      WithoutTotal(b, k, q);
      TotalOfMultiset(Without(a, n), Without(b, k), q);
    }
  }

  // ---- The journal as a book of postings -----------------------------------------------

  // The journal that results from posting these payments, in this order, one pair each.
  function Book(postings: seq<string>, payments: map<string, Payment>): seq<JournalRow>
    requires forall k :: 0 <= k < |postings| ==> postings[k] in payments
  {
    if postings == [] then []
    else Book(postings[..|postings| - 1], payments) + Template(payments[postings[|postings| - 1]])
  }

  // Cents posted for a client in one direction, counted with multiplicity.
  function Volume(postings: seq<string>, payments: map<string, Payment>, client: string, d: Direction): int
    requires forall k :: 0 <= k < |postings| ==> postings[k] in payments
  {
    if postings == [] then 0
    else
      var p := payments[postings[|postings| - 1]];
      Volume(postings[..|postings| - 1], payments, client, d)
      + (if p.client == client && p.direction == d then p.amount else 0)
  }

  // The same by kind of payment.
  function KindVolume(postings: seq<string>, payments: map<string, Payment>, client: string, kinds: set<Kind>): int
    requires forall k :: 0 <= k < |postings| ==> postings[k] in payments
  {
    if postings == [] then 0
    else
      var p := payments[postings[|postings| - 1]];
      KindVolume(postings[..|postings| - 1], payments, client, kinds)
      + (if p.client == client && p.kind in kinds then p.amount else 0)
  }

  // Money comes in by STK push and Paystack charge, and goes out by B2C and B2B.
  lemma {:induction false} VolumeByKind(postings: seq<string>, payments: map<string, Payment>, client: string)
    requires forall k :: 0 <= k < |postings| ==>
               postings[k] in payments
               && (payments[postings[k]].direction == Outbound <==> payments[postings[k]].kind.B2c? || payments[postings[k]].kind.B2b?)
    ensures Volume(postings, payments, client, Inbound) == KindVolume(postings, payments, client, {StkPush, PaystackCharge})
    ensures Volume(postings, payments, client, Outbound) == KindVolume(postings, payments, client, {B2c, B2b})
  {
    if postings != [] {
      VolumeByKind(postings[..|postings| - 1], payments, client);
    }
  }

  // A payment's pair of rows, column by column: what came in is debited to the till and credited to
  // sales, what went out is debited to operations and credited to the till.
  ghost predicate PairOf(p: Payment, pair: seq<JournalRow>) {
    && |pair| == 2 && pair[0].entry == Debit && pair[1].entry == Credit
    && (forall k :: 0 <= k < 2 ==>
          pair[k].client == p.client && pair[k].payment == p.id && pair[k].amount == p.amount && pair[k].currency == p.currency)
    && (p.direction == Inbound ==>
          && pair[0].account == "mpesa.till" && pair[0].description == "Inbound payment via " + KindName(p.kind)
          && pair[1].account == "revenue.sales" && pair[1].description == "Sales revenue for payment " + p.id)
    && (p.direction == Outbound ==>
          && pair[0].account == "expense.operations" && pair[0].description == "Outbound payment via " + KindName(p.kind)
          && pair[1].account == "mpesa.till" && pair[1].description == "Till outbound for payment " + p.id)
  }

  // The rows of one more posting, or none.
  ghost predicate PostsPair(a: seq<JournalRow>, b: seq<JournalRow>, p: Payment, posted: bool) {
    if posted then |b| == |a| + 2 && b[..|a|] == a && PairOf(p, b[|a|..]) else b == a
  }

  lemma TemplateIsPair(p: Payment)
    ensures PairOf(p, Template(p))
  {
  }

  lemma KindNames()
    ensures KindName(StkPush) == "stk_push" && KindName(B2c) == "b2c" && KindName(B2b) == "b2b"
    ensures KindName(PaystackCharge) == "paystack_charge"
  {
  }

  // The book depends only on the immutable columns.
  lemma {:induction false} BookFrame(postings: seq<string>, a: map<string, Payment>, b: map<string, Payment>)
    requires forall k :: 0 <= k < |postings| ==>
               postings[k] in a && postings[k] in b && Core(a[postings[k]]) == Core(b[postings[k]])
    ensures Book(postings, a) == Book(postings, b)
  {
    if postings != [] {
      BookFrame(postings[..|postings| - 1], a, b);
      var p, q := a[postings[|postings| - 1]], b[postings[|postings| - 1]];
      assert Template(p) == Template(Core(p)) && Template(q) == Template(Core(q));
    }
  }

  lemma TemplateTotals(p: Payment, q: Query)
    ensures Total(Template(p), q) == Amount(q, Template(p)[0]) + Amount(q, Template(p)[1])
  {
    var t := Template(p);
    assert t == [t[0], t[1]];
    TotalPair(t[0], t[1], q);
  }

  // Trial balance of a book: a client's debits equal its credits.
  lemma {:induction false} BookBalances(postings: seq<string>, payments: map<string, Payment>, client: string)
    requires forall k :: 0 <= k < |postings| ==> postings[k] in payments
    ensures Total(Book(postings, payments), Query(client, None, Debit))
            == Total(Book(postings, payments), Query(client, None, Credit))
  {
    if postings != [] {
      var front, p := postings[..|postings| - 1], payments[postings[|postings| - 1]];
      BookBalances(front, payments, client);
      forall side ensures Total(Book(postings, payments), Query(client, None, side))
                          == Total(Book(front, payments), Query(client, None, side))
                             + Total(Template(p), Query(client, None, side)) {
        TotalConcat(Book(front, payments), Template(p), Query(client, None, side));
      }
      TemplateTotals(p, Query(client, None, Debit));
      TemplateTotals(p, Query(client, None, Credit));
    }
  }

  // Conservation: each account's net is the posted volume it stands for, and no account outside
  // the three ever moves.
  lemma {:induction false} BookConserves(postings: seq<string>, payments: map<string, Payment>, client: string, account: string)
    requires forall k :: 0 <= k < |postings| ==> postings[k] in payments
    ensures var b := Book(postings, payments);
            var inflow, outflow := Volume(postings, payments, client, Inbound), Volume(postings, payments, client, Outbound);
            Net(b, client, account) ==
              if account == TILL then inflow - outflow
              else if account == SALES then -inflow
              else if account == OPERATIONS then outflow
              else 0
  {
    if postings != [] {
      var front, p := postings[..|postings| - 1], payments[postings[|postings| - 1]];
      BookConserves(front, payments, client, account);
      var d, c := Query(client, Some(account), Debit), Query(client, Some(account), Credit);
      TotalConcat(Book(front, payments), Template(p), d);
      TotalConcat(Book(front, payments), Template(p), c);
      TemplateTotals(p, d);
      TemplateTotals(p, c);
    }
  }

  // Only the three accounts ever occur in a book.
  lemma {:induction false} BookAccounts(postings: seq<string>, payments: map<string, Payment>)
    requires forall k :: 0 <= k < |postings| ==> postings[k] in payments
    ensures forall k :: 0 <= k < |Book(postings, payments)| ==> Book(postings, payments)[k].account in {TILL, SALES, OPERATIONS}
  {
    if postings != [] {
      BookAccounts(postings[..|postings| - 1], payments);
    }
  }

  // ListJournalEntriesByPayment.
  function RowsOf(rows: seq<JournalRow>, id: string): seq<JournalRow> {
    if rows == [] then []
    else RowsOf(rows[..|rows| - 1], id) + (if rows[|rows| - 1].payment == id then [rows[|rows| - 1]] else [])
  }

  // k copies of a payment's two-row template, as a multiset.
  function Copies(p: Payment, k: nat): multiset<JournalRow> {
    multiset{}[Template(p)[0] := k][Template(p)[1] := k]
  }

  lemma {:induction false} RowsOfConcat(a: seq<JournalRow>, b: seq<JournalRow>, id: string)
    ensures RowsOf(a + b, id) == RowsOf(a, id) + RowsOf(b, id)
  {
    if b == [] {
      assert a + b == a;
    } else {
      RowsOfConcat(a, b[..|b| - 1], id);
      assert (a + b)[..|a + b| - 1] == a + b[..|b| - 1];
    }
  }

  lemma RowsOfTemplate(p: Payment, id: string)
    ensures RowsOf(Template(p), id) == if p.id == id then Template(p) else []
  {
    var t := Template(p);
    var one := t[..1];
    assert one == [t[0]] && one[..0] == [] && t == one + [t[1]];
    assert RowsOf(one, id) == if p.id == id then one else [];
  }

  lemma OneMoreCopy(p: Payment, k: nat)
    ensures Copies(p, k) + multiset(Template(p)) == Copies(p, k + 1)
  {
    var t := Template(p);
    assert t == [t[0], t[1]];
    assert t[0].entry != t[1].entry;
  }

  // The rows of a payment are exactly k copies of its template.
  ghost predicate PostedTimes(book: seq<JournalRow>, p: Payment, k: nat) {
    multiset(RowsOf(book, p.id)) == Copies(p, k)
  }

  // Posting one more pair adds one copy to its own payment and nothing to any other.
  lemma PostOneMore(book: seq<JournalRow>, posted: Payment, p: Payment, k: nat)
    requires PostedTimes(book, p, k)
    requires posted.id == p.id ==> posted == p
    ensures PostedTimes(book + Template(posted), p, if posted.id == p.id then k + 1 else k)
  {
    RowsOfConcat(book, Template(posted), p.id);
    RowsOfTemplate(posted, p.id);
    OneMoreCopy(p, k);
    if posted.id != p.id {
      assert RowsOf(book, p.id) + [] == RowsOf(book, p.id);
    }
  }

  lemma NotPosted(p: Payment)
    ensures PostedTimes([], p, 0)
  {
    assert Copies(p, 0) == multiset{};
  }

  lemma CountLast(postings: seq<string>, id: string)
    requires postings != []
    ensures var n := |postings| - 1;
            multiset(postings)[id] == multiset(postings[..n])[id] + (if postings[n] == id then 1 else 0)
  {
    var n := |postings| - 1;
    assert postings == postings[..n] + [postings[n]];
  }

  // A payment's journal rows are exactly as many copies of its template as it has postings.
  lemma {:induction false} BookPerPayment(postings: seq<string>, payments: map<string, Payment>, p: Payment)
    requires p.id in payments && payments[p.id] == p
    requires forall k :: 0 <= k < |postings| ==> postings[k] in payments
    requires forall k :: 0 <= k < |postings| && postings[k] != p.id ==> payments[postings[k]].id != p.id
    ensures PostedTimes(Book(postings, payments), p, multiset(postings)[p.id])
  {
    if postings == [] {
      NotPosted(p);
    } else {
      var n := |postings| - 1;
      BookPerPayment(postings[..n], payments, p);
      PostOneMore(Book(postings[..n], payments), payments[postings[n]], p, multiset(postings[..n])[p.id]);
      CountLast(postings, p.id);
    }
  }
}
