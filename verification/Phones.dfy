/** The two phone normalisers: the strict parser used at initiation and the permissive digit filter. */
module Phones {
  import opened Base
  import opened Money

  predicate AllDigits(s: string) {
    forall i :: 0 <= i < |s| ==> IsDigit(s[i])
  }

  predicate Operator(c: char) {
    c == '1' || c == '7'
  }

  // The strict parser: 0[17]xxxxxxxx, +254[17]xxxxxxxx and 2547xxxxxxxx, nothing else.
  function NormalisePhone(s: string): Option<string> {
    if |s| == 10 && s[0] == '0' && Operator(s[1]) && AllDigits(s[2..]) then Some("254" + s[1..])
    else if |s| == 13 && s[..4] == "+254" && Operator(s[4]) && AllDigits(s[5..]) then Some(s[1..])
    else if |s| == 12 && s[..4] == "2547" && AllDigits(s[4..]) then Some(s)
    else None
  }

  // unicode.IsDigit is a parameter: all that matters is how it treats ASCII digits and '+'.
  ghost predicate DigitTest(isDigit: char -> bool) {
    !isDigit('+') && forall c :: IsDigit(c) ==> isDigit(c)
  }

  function Filter(s: string, isDigit: char -> bool): string {
    if s == [] then []
    else Filter(s[..|s| - 1], isDigit) + (if isDigit(s[|s| - 1]) then [s[|s| - 1]] else [])
  }

  function Permissive(s: string, isDigit: char -> bool): string {
    var kept := Filter(s, isDigit);
    if kept != [] && kept[0] == '0' then "254" + kept[1..] else kept
  }

  // The permissive normaliser, rune by rune into a builder.
  method NormalizePhone(phone: string, isDigit: char -> bool) returns (normalized: string)
    ensures normalized == Permissive(phone, isDigit)
  {
    normalized := "";
    for i := 0 to |phone|
      invariant normalized == Filter(phone[..i], isDigit)
    {
      assert phone[..i + 1][..i] == phone[..i];
      if isDigit(phone[i]) {
        normalized := normalized + [phone[i]];
      }
    }
    assert phone[..|phone|] == phone;
    if |normalized| > 0 && normalized[0] == '0' {
      normalized := "254" + normalized[1..];
    }
  }

  lemma {:induction false} FilterKeepsDigits(s: string, isDigit: char -> bool)
    requires forall i :: 0 <= i < |s| ==> isDigit(s[i])
    ensures Filter(s, isDigit) == s
  {
    if s != [] {
      FilterKeepsDigits(s[..|s| - 1], isDigit);
    }
  }

  lemma {:induction false} FilterIsDigits(s: string, isDigit: char -> bool)
    ensures forall i :: 0 <= i < |Filter(s, isDigit)| ==> isDigit(Filter(s, isDigit)[i])
  {
    if s != [] {
      FilterIsDigits(s[..|s| - 1], isDigit);
    }
  }

  lemma {:induction false} FilterConcat(a: string, b: string, isDigit: char -> bool)
    ensures Filter(a + b, isDigit) == Filter(a, isDigit) + Filter(b, isDigit)
  {
    if b == [] {
      assert a + b == a;
    } else {
      FilterConcat(a, b[..|b| - 1], isDigit);
      assert (a + b)[..|a + b| - 1] == a + b[..|b| - 1];
    }
  }

  // Whatever the strict parser accepts, both parsers read as the same 254... number.
  lemma ParsersAgree(s: string, isDigit: char -> bool)
    requires DigitTest(isDigit)
    requires NormalisePhone(s).Some?
    ensures Permissive(s, isDigit) == NormalisePhone(s).value
    ensures |NormalisePhone(s).value| == 12 && NormalisePhone(s).value[..3] == "254"
  {
    if |s| == 13 {
      assert s == "+" + s[1..];
      FilterConcat("+", s[1..], isDigit);
      assert Filter("+", isDigit) == "" by { assert "+"[..0] == ""; }
      assert s[1] == s[..4][1] && s[2] == s[..4][2] && s[3] == s[..4][3];
      forall i | 0 <= i < |s[1..]| ensures isDigit(s[1..][i]) {
        if i >= 4 { assert s[1..][i] == s[5..][i - 4]; }
      }
      FilterKeepsDigits(s[1..], isDigit);
    } else {
      if |s| == 12 {
        assert s[0] == s[..4][0] && s[1] == s[..4][1] && s[2] == s[..4][2] && s[3] == s[..4][3];
      }
      forall i | 0 <= i < |s| ensures isDigit(s[i]) {
        if |s| == 10 && i >= 2 { assert s[i] == s[2..][i - 2]; }
        if |s| == 12 && i >= 4 { assert s[i] == s[4..][i - 4]; }
      }
      FilterKeepsDigits(s, isDigit);
    }
  }

  // A Safaricom subscriber number without its prefix.
  predicate Subscriber(d: string) {
    |d| == 9 && (d[0] == '1' || d[0] == '7') && AllDigits(d)
  }

  // The three ways the strict parser takes it.
  predicate WrittenAs(s: string, d: string)
    requires Subscriber(d)
  {
    s == "0" + d || s == "+254" + d || (s == "254" + d && d[0] == '7')
  }

  lemma SubscriberAccepted(s: string, d: string)
    requires Subscriber(d) && WrittenAs(s, d)
    ensures NormalisePhone(s) == Some("254" + d)
  {
    if s == "0" + d {
      assert s[1..] == d && s[1] == d[0];
      assert forall i :: 0 <= i < |s[2..]| ==> s[2..][i] == d[i + 1];
    } else if s == "+254" + d {
      assert s[..4] == "+254" && s[4] == d[0] && s[1..] == "254" + d;
      assert forall i :: 0 <= i < |s[5..]| ==> s[5..][i] == d[i + 1];
    } else {
      assert s[0] == '2' && s[3] == '7';
      assert s[..4] == "2547";
      assert forall i :: 0 <= i < |s[4..]| ==> s[4..][i] == d[i + 1];
    }
  }

  lemma AcceptedIsSubscriber(s: string) returns (d: string)
    requires NormalisePhone(s).Some?
    ensures Subscriber(d) && WrittenAs(s, d) && NormalisePhone(s) == Some("254" + d)
  {
    d := s[|s| - 9..];
    if |s| == 10 {
      assert s == "0" + d && s[1..] == d;
      assert forall i :: 1 <= i < 9 ==> d[i] == s[2..][i - 1];
    } else if |s| == 13 {
      assert s == s[..4] + d && s[1..] == s[..4][1..] + d;
      assert forall i :: 1 <= i < 9 ==> d[i] == s[5..][i - 1];
    } else {
      assert s[3] == s[..4][3] && s[..3] == s[..4][..3];
      assert s == s[..3] + d;
      assert forall i :: 1 <= i < 9 ==> d[i] == s[4..][i - 1];
    }
  }

  // What the strict parser accepts, and as what: exactly 0, +254 or 254 before a subscriber number,
  // the bare 254 only for 7 numbers, always normalised to 254 before it.
  lemma StrictAcceptsIff(s: string, v: string)
    ensures NormalisePhone(s) == Some(v) <==> exists d :: Subscriber(d) && WrittenAs(s, d) && v == "254" + d
  {
    if NormalisePhone(s) == Some(v) {
      var d := AcceptedIsSubscriber(s);
      assert Subscriber(d) && WrittenAs(s, d) && v == "254" + d;
    }
    if d :| Subscriber(d) && WrittenAs(s, d) && v == "254" + d {
      SubscriberAccepted(s, d);
    }
  }

  // Normalising twice is normalising once, on every string.
  lemma PermissiveIdempotent(s: string, isDigit: char -> bool)
    requires DigitTest(isDigit)
    ensures Permissive(Permissive(s, isDigit), isDigit) == Permissive(s, isDigit)
  {
    FilterIsDigits(s, isDigit);
    var out := Permissive(s, isDigit);
    assert forall i :: 0 <= i < |out| ==> isDigit(out[i]);
    FilterKeepsDigits(out, isDigit);
  }

  // The strict parser re-accepts its own output exactly when the operator digit is 7: a number
  // entered as 01... or +2541... becomes 2541..., which the same parser refuses.
  lemma StrictReaccepts(s: string)
    requires NormalisePhone(s).Some?
    ensures NormalisePhone(NormalisePhone(s).value).Some? <==> s[|s| - 9] == '7'
    ensures s[|s| - 9] == '7' ==> NormalisePhone(NormalisePhone(s).value) == NormalisePhone(s)
  {
    var v := NormalisePhone(s).value;
    if |s| == 10 {
      assert v[..4] == "254" + [s[1]] && v[4..] == s[2..];
    } else if |s| == 13 {
      assert s[..4][1..] == s[1..4];
      assert v[..4] == "254" + [s[4]] && v[4..] == s[5..];
    } else {
      assert s[3] == s[..4][3];
    }
    if v[3] != '7' {
      assert v[..4] != "2547" by { assert v[..4][3] == v[3]; }
      assert v[0] == '2';
    }
  }

  // The refused family is not empty.
  lemma StrictRefusesOwnOutput()
    ensures NormalisePhone("0112345678") == Some("254112345678")
    ensures NormalisePhone("254112345678") == None
  {
    assert "254" + "0112345678"[1..] == "254112345678";
    var s := "254112345678";
    assert s[..4] != "2547" by { assert s[..4][3] == '1'; }
  }
}
