/** The stk:{CheckoutRequestID} routing values kept in Redis and how the worker reads them back. */
module Routing {

  // Thirty minutes, in seconds.
  const ROUTE_TTL := 1800

  function RouteKey(checkout: string): string {
    "stk:" + checkout
  }

  function PrintRoute(consumer: string, client: string, payment: string): string {
    consumer + ":" + client + ":" + payment
  }

  predicate ColonFree(s: string) {
    ':' !in s
  }

  // The index of the first colon, or the length if there is none.
  function Cut(s: string): (i: nat)
    ensures i <= |s| && ColonFree(s[..i]) && (i < |s| ==> s[i] == ':')
  {
    if s == [] || s[0] == ':' then 0
    else
      var i := Cut(s[1..]);
      assert s[..i + 1] == [s[0]] + s[1..][..i];
      i + 1
  }

  // strings.SplitN(s, ":", n).
  function SplitN(s: string, n: nat): seq<string>
    requires n > 0
  {
    if n == 1 || Cut(s) == |s| then [s] else [s[..Cut(s)]] + SplitN(s[Cut(s) + 1..], n - 1)
  }

  lemma CutIsFirst(head: string, tail: string)
    requires ColonFree(head)
    ensures Cut(head + ":" + tail) == |head|
  {
    var s := head + ":" + tail;
    assert s[|head|] == ':';
    var i := Cut(s);
    assert forall k :: 0 <= k < |head| ==> s[k] == head[k] && head[k] in head;
    assert forall k :: 0 <= k < i ==> s[..i][k] == s[k];
  }

  // The routing value parses back to its three parts exactly when neither the consumer nor the
  // client id contains a colon; the payment id may be anything.
  lemma RouteRoundTrip(consumer: string, client: string, payment: string)
    ensures SplitN(PrintRoute(consumer, client, payment), 3) == [consumer, client, payment]
            <==> ColonFree(consumer) && ColonFree(client)
  {
    var s := PrintRoute(consumer, client, payment);
    var rest := client + ":" + payment;
    assert s == consumer + ":" + rest;
    if ColonFree(consumer) {
      CutIsFirst(consumer, rest);
      assert s[..|consumer|] == consumer && s[|consumer| + 1..] == rest;
      assert SplitN(s, 3) == [consumer] + SplitN(rest, 2);
      if ColonFree(client) {
        CutIsFirst(client, payment);
        assert rest[..|client|] == client && rest[|client| + 1..] == payment;
        assert SplitN(rest, 2) == [client] + SplitN(payment, 1);
      } else {
        assert SplitN(rest, 2)[0] == rest[..Cut(rest)];
        assert SplitN(s, 3)[1] == SplitN(rest, 2)[0];
      }
    } else {
      assert SplitN(s, 3)[0] == s[..Cut(s)];
    }
  }

  // The two cuts of a value that has them.
  predicate CutsTwice(s: string) {
    Cut(s) < |s| && Cut(s[Cut(s) + 1..]) < |s[Cut(s) + 1..]|
  }

  lemma SplitCount(s: string)
    ensures |SplitN(s, 3)| <= 3 && (|SplitN(s, 3)| == 3 <==> CutsTwice(s))
  {
    if Cut(s) < |s| {
      var rest := s[Cut(s) + 1..];
      assert SplitN(s, 3) == [s[..Cut(s)]] + SplitN(rest, 2);
      if Cut(rest) < |rest| {
        assert SplitN(rest, 2) == [rest[..Cut(rest)]] + SplitN(rest[Cut(rest) + 1..], 1);
      }
    }
  }

  lemma ColonJoins(s: string, i: nat)
    requires i < |s| && s[i] == ':'
    ensures s == s[..i] + ":" + s[i + 1..]
  {
    assert s == s[..i] + [s[i]] + s[i + 1..];
    assert [s[i]] == ":";
  }

  lemma PrintNested(a: string, b: string, c: string)
    ensures a + ":" + (b + ":" + c) == PrintRoute(a, b, c)
  {
    assert a + ":" + (b + ":" + c) == (a + ":") + b + ":" + c;
  }

  lemma JoinCuts(s: string) returns (a: string, b: string, c: string)
    requires CutsTwice(s)
    ensures ColonFree(a) && ColonFree(b) && s == PrintRoute(a, b, c)
  {
    var rest := s[Cut(s) + 1..];
    a, b, c := s[..Cut(s)], rest[..Cut(rest)], rest[Cut(rest) + 1..];
    ColonJoins(s, Cut(s));
    ColonJoins(rest, Cut(rest));
    PrintNested(a, b, c);
  }

  // A value splits into three exactly when it has two colons to split at.
  lemma TwoColonsIff(s: string)
    ensures |SplitN(s, 3)| <= 3
    ensures |SplitN(s, 3)| == 3 <==> exists a, b, c :: ColonFree(a) && ColonFree(b) && s == PrintRoute(a, b, c)
  {
    SplitCount(s);
    if a, b, c :| ColonFree(a) && ColonFree(b) && s == PrintRoute(a, b, c) {
      RouteRoundTrip(a, b, c);
    }
    if CutsTwice(s) {
      var a, b, c := JoinCuts(s);
    }
  }
}
