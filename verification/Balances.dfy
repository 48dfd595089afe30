/** The account_balances view: a one-pass grouping of the journal, against filtered sums. */
module Balances {
  import opened Base
  import opened Domain
  import opened Ledger

  datatype BalanceRow = BalanceRow(client: string, account: string, debits: int, credits: int, net: int)

  predicate Keyed(b: BalanceRow, client: string, account: string) {
    b.client == client && b.account == account
  }

  // The three CASE expressions of the view, added to a group.
  function Add(b: BalanceRow, r: JournalRow): BalanceRow {
    b.(debits := b.debits + (if r.entry == Debit then r.amount else 0),
       credits := b.credits + (if r.entry == Credit then r.amount else 0),
       net := b.net + (if r.entry == Debit then r.amount else -(r.amount as int)))
  }

  function Bump(bs: seq<BalanceRow>, r: JournalRow): seq<BalanceRow> {
    if bs == [] then [Add(BalanceRow(r.client, r.account, 0, 0, 0), r)]
    else if Keyed(bs[0], r.client, r.account) then [Add(bs[0], r)] + bs[1..]
    else [bs[0]] + Bump(bs[1..], r)
  }

  // SELECT ... FROM journal GROUP BY client_id, account_id, one row at a time.
  function Group(rows: seq<JournalRow>): seq<BalanceRow> {
    if rows == [] then [] else Bump(Group(rows[..|rows| - 1]), rows[|rows| - 1])
  }

  function Find(bs: seq<BalanceRow>, client: string, account: string): Option<BalanceRow> {
    if bs == [] then None
    else if Keyed(bs[0], client, account) then Some(bs[0])
    else Find(bs[1..], client, account)
  }

  // WHERE client_id = $1.
  function Of(bs: seq<BalanceRow>, client: string): seq<BalanceRow> {
    if bs == [] then []
    else (if bs[0].client == client then [bs[0]] else []) + Of(bs[1..], client)
  }

  function TrialBalance(rows: seq<JournalRow>, client: string): seq<BalanceRow> {
    Of(Group(rows), client)
  }

  datatype Columns = Columns(debits: int, credits: int, net: int)

  // The column totals of a trial balance.
  function Sums(bs: seq<BalanceRow>): Columns {
    if bs == [] then Columns(0, 0, 0)
    else
      var rest := Sums(bs[1..]);
      Columns(bs[0].debits + rest.debits, bs[0].credits + rest.credits, bs[0].net + rest.net)
  }

  predicate Occurs(rows: seq<JournalRow>, client: string, account: string) {
    exists k :: 0 <= k < |rows| && rows[k].client == client && rows[k].account == account
  }

  ghost predicate TwoSided(rows: seq<JournalRow>) {
    forall k :: 0 <= k < |rows| ==> rows[k].entry == Debit || rows[k].entry == Credit
  }

  lemma {:induction false} BumpFind(bs: seq<BalanceRow>, r: JournalRow, client: string, account: string)
    ensures Find(Bump(bs, r), client, account) ==
            if r.client == client && r.account == account
            then Some(Add(match Find(bs, client, account)
                          case Some(b) => b
                          case None => BalanceRow(client, account, 0, 0, 0), r))
            else Find(bs, client, account)
  {
    if bs != [] && !Keyed(bs[0], r.client, r.account) {
      BumpFind(bs[1..], r, client, account);
    }
  }

  // A group exists exactly for the keys that have entries, and holds the filtered sums.
  lemma {:induction false} GroupIsFilteredSums(rows: seq<JournalRow>, client: string, account: string)
    requires TwoSided(rows)
    ensures Find(Group(rows), client, account) ==
            if Occurs(rows, client, account)
            then Some(BalanceRow(client, account,
                                 Total(rows, Query(client, Some(account), Debit)),
                                 Total(rows, Query(client, Some(account), Credit)),
                                 Net(rows, client, account)))
            else None
  {
    if rows != [] {
      var front, last := rows[..|rows| - 1], rows[|rows| - 1];
      GroupIsFilteredSums(front, client, account);
      BumpFind(Group(front), last, client, account);
      OccursSnoc(rows, client, account);
      if !Occurs(front, client, account) {
        NoEntriesNoTotal(front, client, account, Debit);
        NoEntriesNoTotal(front, client, account, Credit);
      }
    }
  }

  lemma OccursSnoc(rows: seq<JournalRow>, client: string, account: string)
    requires rows != []
    ensures var n := |rows| - 1;
            Occurs(rows, client, account) <==>
              Occurs(rows[..n], client, account) || (rows[n].client == client && rows[n].account == account)
  {
    var n := |rows| - 1;
    assert forall k :: 0 <= k < n ==> rows[..n][k] == rows[k];
  }

  lemma {:induction false} NoEntriesNoTotal(rows: seq<JournalRow>, client: string, account: string, side: EntryType)
    requires !Occurs(rows, client, account)
    ensures Total(rows, Query(client, Some(account), side)) == 0
  {
    if rows != [] {
      OccursSnoc(rows, client, account);
      NoEntriesNoTotal(rows[..|rows| - 1], client, account, side);
    }
  }

  ghost predicate DistinctKeys(bs: seq<BalanceRow>) {
    forall i, j :: 0 <= i < j < |bs| ==> !Keyed(bs[j], bs[i].client, bs[i].account)
  }

  lemma {:induction false} BumpKeys(bs: seq<BalanceRow>, r: JournalRow)
    requires DistinctKeys(bs)
    ensures DistinctKeys(Bump(bs, r))
    ensures forall b :: b in Bump(bs, r) ==>
              Keyed(b, r.client, r.account) || exists o :: o in bs && Keyed(o, b.client, b.account)
  {
    if bs == [] {
    } else if Keyed(bs[0], r.client, r.account) {
      forall b | b in bs[1..] ensures b in bs {
      }
    } else {
      BumpKeys(bs[1..], r);
      var rest := Bump(bs[1..], r);
      assert Keyed(bs[0], bs[0].client, bs[0].account);
      forall b | b in rest && !Keyed(b, r.client, r.account)
        ensures exists o :: o in bs && Keyed(o, b.client, b.account)
        ensures !Keyed(b, bs[0].client, bs[0].account)
      {
        var o :| o in bs[1..] && Keyed(o, b.client, b.account);
        var i :| 0 <= i < |bs[1..]| && bs[1..][i] == o;
        assert bs[i + 1] == o && o in bs;
      }
    }
  }

  // One row per account: no key is reported twice.
  lemma {:induction false} GroupKeysDistinct(rows: seq<JournalRow>)
    ensures DistinctKeys(Group(rows))
  {
    if rows != [] {
      GroupKeysDistinct(rows[..|rows| - 1]);
      BumpKeys(Group(rows[..|rows| - 1]), rows[|rows| - 1]);
    }
  }

  lemma {:induction false} BumpOf(bs: seq<BalanceRow>, r: JournalRow, client: string)
    ensures Of(Bump(bs, r), client) == if r.client == client then Bump(Of(bs, client), r) else Of(bs, client)
  {
    var after := Bump(bs, r);
    if bs == [] {
      assert after[1..] == [];
    } else if Keyed(bs[0], r.client, r.account) {
      assert after[0] == Add(bs[0], r) && after[1..] == bs[1..];
      if bs[0].client == client {
        var o := Of(bs, client);
        assert o[0] == bs[0] && o[1..] == Of(bs[1..], client);
      }
    } else {
      BumpOf(bs[1..], r, client);
      assert after[0] == bs[0] && after[1..] == Bump(bs[1..], r);
      var o := Of(bs, client);
      if bs[0].client == client {
        assert o[0] == bs[0] && o[1..] == Of(bs[1..], client);
      } else {
        assert o == Of(bs[1..], client);
        assert Of(after, client) == Of(after[1..], client);
      }
    }
  }

  lemma {:induction false} BumpSums(bs: seq<BalanceRow>, r: JournalRow)
    ensures var s, t := Sums(bs), Sums(Bump(bs, r));
            && t.debits == s.debits + (if r.entry == Debit then r.amount else 0)
            && t.credits == s.credits + (if r.entry == Credit then r.amount else 0)
            && t.net == s.net + (if r.entry == Debit then r.amount else -(r.amount as int))
  {
    if bs == [] {
      assert Bump(bs, r)[1..] == [];
    } else if Keyed(bs[0], r.client, r.account) {
      assert Bump(bs, r)[1..] == bs[1..];
    } else {
      BumpSums(bs[1..], r);
      assert Bump(bs, r)[1..] == Bump(bs[1..], r);
    }
  }

  // The rows of a client's trial balance add up to the client's whole-journal totals.
  lemma {:induction false} TrialBalanceTotals(rows: seq<JournalRow>, client: string)
    requires TwoSided(rows)
    ensures var s := Sums(TrialBalance(rows, client));
            && s.debits == Total(rows, Query(client, None, Debit))
            && s.credits == Total(rows, Query(client, None, Credit))
            && s.net == s.debits - s.credits
  {
    if rows != [] {
      var front, last := rows[..|rows| - 1], rows[|rows| - 1];
      TrialBalanceTotals(front, client);
      BumpOf(Group(front), last, client);
      if last.client == client {
        BumpSums(TrialBalance(front, client), last);
      }
    }
  }

  lemma OneOtherRow(rows: seq<JournalRow>, r: JournalRow, client: string)
    requires r.client != client
    ensures TrialBalance(rows + [r], client) == TrialBalance(rows, client)
  {
    assert (rows + [r])[..|rows|] == rows;
    BumpOf(Group(rows), r, client);
  }

  // Rows of other clients leave every reported balance of this client alone.
  lemma {:induction false} OtherClientsRows(rows: seq<JournalRow>, more: seq<JournalRow>, client: string)
    requires forall k :: 0 <= k < |more| ==> more[k].client != client
    ensures TrialBalance(rows + more, client) == TrialBalance(rows, client)
  {
    if more == [] {
      assert rows + more == rows;
    } else {
      var front, last := more[..|more| - 1], more[|more| - 1];
      OtherClientsRows(rows, front, client);
      OneOtherRow(rows + front, last, client);
      assert rows + more == (rows + front) + [last];
    }
  }
}
