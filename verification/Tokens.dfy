/**
 * The OAuth token cache in front of Daraja, over timed runs: a lookup is cut at its three calls, any
 * number of lookups are in flight, and time passes between any two calls.
 */
module Tokens {
  import opened Base
  import opened Redis

  // Fifty minutes, in seconds. They start at the cache write, not when the token is issued.
  const TOKEN_TTL := 3000

  // A token issued to the owner of this consumer key.
  datatype Fetch = Fetch(consumerKey: string, token: string, at: int)

  // A cache write of an issued token.
  datatype Written = Written(fetch: Fetch, at: int)

  // A token handed out, to whom and when.
  datatype Grant = Grant(consumerKey: string, token: string, at: int)

  function CacheKey(consumerKey: string): string {
    "daraja_token:" + consumerKey
  }

  datatype Point = AtRead | AtFetch | AtStore(fetch: Fetch) | Granted(token: string) | Refused

  datatype Lookup = Lookup(consumerKey: string, point: Point)

  // How one call turns out: `ok` for the cache, `answer` for the issuer.
  datatype Fate = Fate(ok: bool, answer: Option<string>)

  datatype Out = Out(entries: map<string, Entry>, next: Point)

  // One call of a lookup. An empty cached string is a miss, an empty issued token an error, and a
  // failed cache write loses the token.
  function Step(entries: map<string, Entry>, now: int, l: Lookup, f: Fate): Out {
    var key := CacheKey(l.consumerKey);
    match l.point
    case AtRead =>
      Out(entries, if f.ok && key in entries && entries[key].expires > now && entries[key].value != ""
                   then Granted(entries[key].value) else AtFetch)
    case AtFetch =>
      Out(entries, if f.answer.Some? && f.answer.value != "" then AtStore(Fetch(l.consumerKey, f.answer.value, now)) else Refused)
    case AtStore(fetch) =>
      if f.ok then Out(entries[key := Entry(fetch.token, now + TOKEN_TTL)], Granted(fetch.token))
      else Out(entries, Refused)
    case _ => Out(entries, l.point)
  }

  // ---- The code ------------------------------------------------------------------------

  // The clock at, and the fate of, each of the three calls of one lookup.
  datatype Clocks = Clocks(read: int, fetch: int, store: int)
  datatype Luck = Luck(read: bool, answer: Option<string>, write: bool)

  function ClockAt(p: Point, c: Clocks): int {
    if p.AtRead? then c.read else if p.AtFetch? then c.fetch else c.store
  }

  function FateAt(p: Point, l: Luck): Fate {
    Fate(if p.AtRead? then l.read else l.write, l.answer)
  }

  function Rank(p: Point): nat {
    match p
    case AtRead => 3
    case AtFetch => 2
    case AtStore(_) => 1
    case _ => 0
  }

  // The lookup from this point on, uninterrupted.
  function Complete(entries: map<string, Entry>, consumerKey: string, p: Point, c: Clocks, l: Luck): Out
    decreases Rank(p)
  {
    if Rank(p) == 0 then Out(entries, p)
    else
      var o := Step(entries, ClockAt(p, c), Lookup(consumerKey, p), FateAt(p, l));
      Complete(o.entries, consumerKey, o.next, c, l)
  }

  function Result(p: Point): Option<string> {
    if p.Granted? then Some(p.token) else None
  }

  // RedisTokenCache, behind the Daraja client.
  class TokenCache {
    const redis: Client

    constructor (redis: Client)
      ensures this.redis == redis
    {
      this.redis := redis;
    }

    // GetOrFetchToken, for the client whose consumer key this is.
    method GetOrFetchToken(consumerKey: string, c: Clocks, l: Luck) returns (token: Option<string>)
      modifies redis
      ensures var r := Complete(old(redis.entries), consumerKey, AtRead, c, l);
              redis.entries == r.entries && token == Result(r.next)
      ensures var key := "daraja_token:" + consumerKey;
              var hit := l.read && key in old(redis.entries) && old(redis.entries)[key].expires > c.read && old(redis.entries)[key].value != "";
              var issued := l.answer.Some? && l.answer.value != "";
              if hit then token == Some(old(redis.entries)[key].value) && redis.entries == old(redis.entries)
              else if issued && l.write then
                token == l.answer && redis.entries == old(redis.entries)[key := Entry(l.answer.value, c.store + 3000)]
              else token == None && redis.entries == old(redis.entries)
    {
      var key := "daraja_token:" + consumerKey;
      ghost var before := redis.entries;
      var cached := redis.Get(key, c.read, l.read);
      if cached.Some? && cached.value != "" {
        assert Complete(before, consumerKey, AtRead, c, l) == Complete(before, consumerKey, Granted(cached.value), c, l);
        return cached;
      }
      assert Complete(before, consumerKey, AtRead, c, l) == Complete(before, consumerKey, AtFetch, c, l);
      if l.answer.None? || l.answer.value == "" { return None; }
      ghost var at := AtStore(Fetch(consumerKey, l.answer.value, c.fetch));
      assert Complete(before, consumerKey, AtFetch, c, l) == Complete(before, consumerKey, at, c, l);
      var done := redis.Set(key, l.answer.value, c.store, 3000, l.write);
      assert Complete(before, consumerKey, at, c, l)
          == Complete(redis.entries, consumerKey, if done then Granted(l.answer.value) else Refused, c, l);
      if !done { return None; }
      token := l.answer;
    }
  }

  // ---- Runs ----------------------------------------------------------------------------

  // Time passes, Redis drops an entry early, a client asks for its token, or a lookup makes its
  // next call.
  datatype Op = Wait(seconds: nat) | Evict(key: string) | Ask(consumerKey: string) | Call(who: nat, fate: Fate)

  // The cache and the lookups in flight, with the history of fetches, cache writes and grants.
  datatype Timeline = Timeline(
    now: int,
    entries: map<string, Entry>,
    lookups: seq<Lookup>,
    fetched: seq<Fetch>,
    written: seq<Written>,
    granted: seq<Grant>)

  function Called(t: Timeline, who: nat, f: Fate): Timeline
    requires who < |t.lookups|
  {
    var l := t.lookups[who];
    var o := Step(t.entries, t.now, l, f);
    Timeline(t.now, o.entries, t.lookups[who := l.(point := o.next)],
             if l.point.AtFetch? && o.next.AtStore? then t.fetched + [o.next.fetch] else t.fetched,
             if l.point.AtStore? && o.next.Granted? then t.written + [Written(l.point.fetch, t.now)] else t.written,
             if !l.point.Granted? && o.next.Granted? then t.granted + [Grant(l.consumerKey, o.next.token, t.now)] else t.granted)
  }

  function Next(t: Timeline, op: Op): Timeline {
    match op
    case Wait(seconds) => t.(now := t.now + seconds)
    case Evict(key) => t.(entries := t.entries - {key})
    case Ask(k) => t.(lookups := t.lookups + [Lookup(k, AtRead)])
    case Call(who, f) => if who < |t.lookups| then Called(t, who, f) else t
  }

  function Play(t: Timeline, ops: seq<Op>): Timeline
    decreases |ops|
  {
    if ops == [] then t else Play(Next(t, ops[0]), ops[1..])
  }

  const START := Timeline(0, map[], [], [], [], [])

  lemma PlayCons(t: Timeline, op: Op, rest: seq<Op>)
    ensures Play(t, [op] + rest) == Play(Next(t, op), rest)
  {
    assert ([op] + rest)[1..] == rest;
  }

  // The operations of one lookup that runs through at these clocks.
  function Through(who: nat, c: Clocks, l: Luck): seq<Op>
    requires c.read <= c.fetch <= c.store
  {
    [Call(who, FateAt(AtRead, l))] + ([Wait(c.fetch - c.read)] + ([Call(who, FateAt(AtFetch, l))]
      + ([Wait(c.store - c.fetch)] + ([Call(who, Fate(l.write, l.answer))] + []))))
  }

  // The method's uninterrupted lookup is one of the runs.
  lemma LookupIsRun(t: Timeline, who: nat, c: Clocks, l: Luck)
    requires who < |t.lookups| && t.lookups[who].point == AtRead && t.now == c.read <= c.fetch <= c.store
    ensures var u := Play(t, Through(who, c, l));
            var r := Complete(t.entries, t.lookups[who].consumerKey, AtRead, c, l);
            u.entries == r.entries && who < |u.lookups| && u.lookups[who] == t.lookups[who].(point := r.next)
  {
    var k := t.lookups[who].consumerKey;
    var t1 := Next(t, Call(who, FateAt(AtRead, l)));
    var t2 := Next(t1, Wait(c.fetch - c.read));
    var t3 := Next(t2, Call(who, FateAt(AtFetch, l)));
    var t4 := Next(t3, Wait(c.store - c.fetch));
    var t5 := Next(t4, Call(who, Fate(l.write, l.answer)));
    var e: seq<Op> := [];
    var s5 := [Call(who, Fate(l.write, l.answer))] + e;
    var s4 := [Wait(c.store - c.fetch)] + s5;
    var s3 := [Call(who, FateAt(AtFetch, l))] + s4;
    var s2 := [Wait(c.fetch - c.read)] + s3;
    PlayCons(t4, Call(who, Fate(l.write, l.answer)), e);
    PlayCons(t3, Wait(c.store - c.fetch), s5);
    PlayCons(t2, Call(who, FateAt(AtFetch, l)), s4);
    PlayCons(t1, Wait(c.fetch - c.read), s3);
    PlayCons(t, Call(who, FateAt(AtRead, l)), s2);
    assert Complete(t.entries, k, AtRead, c, l) == Complete(t1.entries, k, t1.lookups[who].point, c, l);
    assert Complete(t1.entries, k, t1.lookups[who].point, c, l) == Complete(t3.entries, k, t3.lookups[who].point, c, l);
    assert Complete(t3.entries, k, t3.lookups[who].point, c, l) == Complete(t5.entries, k, t5.lookups[who].point, c, l);
  }

  // ---- What every run keeps ---------------------------------------------------------------

  // This cache entry is what a write for this key left, and has its whole life from that write.
  ghost predicate CachedBy(x: Written, key: string, e: Entry) {
    CacheKey(x.fetch.consumerKey) == key && x.fetch.token == e.value && x.at + TOKEN_TTL == e.expires
  }

  ghost predicate Cached(written: seq<Written>, key: string, e: Entry) {
    exists k :: 0 <= k < |written| && CachedBy(written[k], key, e)
  }

  // This write is why the token could be handed out: same consumer key, less than fifty minutes ago.
  ghost predicate BackedBy(x: Written, g: Grant) {
    x.fetch.consumerKey == g.consumerKey && x.fetch.token == g.token && x.at <= g.at < x.at + TOKEN_TTL
  }

  ghost predicate Backed(written: seq<Written>, g: Grant) {
    exists k :: 0 <= k < |written| && BackedBy(written[k], g)
  }

  ghost predicate EntriesOk(t: Timeline) {
    forall key :: key in t.entries ==> Cached(t.written, key, t.entries[key])
  }

  ghost predicate WritesOk(t: Timeline) {
    forall k :: 0 <= k < |t.written| ==>
      t.written[k].fetch in t.fetched && t.written[k].fetch.at <= t.written[k].at <= t.now
  }

  ghost predicate LookupsOk(t: Timeline) {
    forall i :: 0 <= i < |t.lookups| && t.lookups[i].point.AtStore? ==>
      var f := t.lookups[i].point.fetch;
      f in t.fetched && f.consumerKey == t.lookups[i].consumerKey && f.at <= t.now
  }

  ghost predicate GrantsOk(t: Timeline) {
    forall j :: 0 <= j < |t.granted| ==> Backed(t.written, t.granted[j])
  }

  ghost predicate TimelineOk(t: Timeline) {
    EntriesOk(t) && WritesOk(t) && LookupsOk(t) && GrantsOk(t)
  }

  lemma CacheKeyInjective(a: string, b: string)
    requires CacheKey(a) == CacheKey(b)
    ensures a == b
  {
    assert CacheKey(a)[13..] == a && CacheKey(b)[13..] == b;
  }

  lemma CachedGrows(a: seq<Written>, b: seq<Written>, key: string, e: Entry)
    requires Cached(a, key, e) && a <= b
    ensures Cached(b, key, e)
  {
    var k :| 0 <= k < |a| && CachedBy(a[k], key, e);
    assert b[k] == a[k];
  }

  lemma BackedGrows(a: seq<Written>, b: seq<Written>, g: Grant)
    requires Backed(a, g) && a <= b
    ensures Backed(b, g)
  {
    var k :| 0 <= k < |a| && BackedBy(a[k], g);
    assert b[k] == a[k];
  }

  lemma EntriesKept(t: Timeline, who: nat, f: Fate)
    requires TimelineOk(t) && who < |t.lookups|
    ensures EntriesOk(Called(t, who, f))
  {
    var l, u := t.lookups[who], Called(t, who, f);
    forall key | key in u.entries ensures Cached(u.written, key, u.entries[key]) {
      if key in t.entries && u.entries[key] == t.entries[key] {
        CachedGrows(t.written, u.written, key, t.entries[key]);
      } else {
        assert CachedBy(u.written[|t.written|], key, u.entries[key]);
      }
    }
  }

  // The new grant of a call, cached or fresh, is backed.
  lemma NewGrantBacked(t: Timeline, who: nat, f: Fate)
    requires TimelineOk(t) && who < |t.lookups| && |Called(t, who, f).granted| > |t.granted|
    ensures Backed(Called(t, who, f).written, Called(t, who, f).granted[|t.granted|])
  {
    var l, u := t.lookups[who], Called(t, who, f);
    var key := CacheKey(l.consumerKey);
    if l.point.AtRead? {
      assert Cached(t.written, key, t.entries[key]);
      var k :| 0 <= k < |t.written| && CachedBy(t.written[k], key, t.entries[key]);
      CacheKeyInjective(t.written[k].fetch.consumerKey, l.consumerKey);
      assert BackedBy(u.written[k], u.granted[|t.granted|]);
    } else {
      assert BackedBy(u.written[|t.written|], u.granted[|t.granted|]);
    }
  }

  lemma GrantsKept(t: Timeline, who: nat, f: Fate)
    requires TimelineOk(t) && who < |t.lookups|
    ensures GrantsOk(Called(t, who, f))
  {
    var u := Called(t, who, f);
    forall j | 0 <= j < |u.granted| ensures Backed(u.written, u.granted[j]) {
      if j < |t.granted| {
        BackedGrows(t.written, u.written, t.granted[j]);
      } else {
        NewGrantBacked(t, who, f);
      }
    }
  }

  lemma HistoriesKept(t: Timeline, who: nat, f: Fate)
    requires TimelineOk(t) && who < |t.lookups|
    ensures WritesOk(Called(t, who, f)) && LookupsOk(Called(t, who, f))
  {
  }

  lemma NextOk(t: Timeline, op: Op)
    requires TimelineOk(t)
    ensures TimelineOk(Next(t, op))
  {
    if op.Call? && op.who < |t.lookups| {
      EntriesKept(t, op.who, op.fate);
      GrantsKept(t, op.who, op.fate);
      HistoriesKept(t, op.who, op.fate);
    }
  }

  lemma {:induction false} PlayOk(t: Timeline, ops: seq<Op>)
    requires TimelineOk(t)
    ensures TimelineOk(Play(t, ops))
    decreases |ops|
  {
    if ops != [] {
      NextOk(t, ops[0]);
      PlayOk(Next(t, ops[0]), ops[1..]);
    }
  }

  // ---- The theorems --------------------------------------------------------------------------

  // Over any timed run of interleaved lookups, failures and evictions: every token ever handed out
  // was issued to that same consumer key, and written to the cache under it, less than fifty minutes
  // before; its age is therefore below fifty minutes plus the time that write took to happen.
  lemma TokensAreFreshAndOwn(ops: seq<Op>, j: nat)
    requires j < |Play(START, ops).granted|
    ensures var t := Play(START, ops);
            exists k :: 0 <= k < |t.written|
              && t.written[k].fetch in t.fetched
              && t.written[k].fetch.consumerKey == t.granted[j].consumerKey
              && t.written[k].fetch.token == t.granted[j].token
              && t.written[k].fetch.at <= t.written[k].at <= t.granted[j].at
              && t.granted[j].at - t.written[k].fetch.at < 3000 + (t.written[k].at - t.written[k].fetch.at)
  {
    PlayOk(START, ops);
    var t := Play(START, ops);
    assert Backed(t.written, t.granted[j]);
    var k :| 0 <= k < |t.written| && BackedBy(t.written[k], t.granted[j]);
    assert t.written[k].fetch in t.fetched;
  }

  // No cache write came later than this after its token was issued.
  ghost predicate Prompt(t: Timeline, delay: int) {
    forall k :: 0 <= k < |t.written| ==> t.written[k].at - t.written[k].fetch.at <= delay
  }

  // The token was issued to this consumer key and had not outlived its lifetime when handed out.
  ghost predicate Live(t: Timeline, g: Grant, lifetime: int) {
    exists k :: 0 <= k < |t.fetched| && t.fetched[k].consumerKey == g.consumerKey && t.fetched[k].token == g.token
                && t.fetched[k].at <= g.at < t.fetched[k].at + lifetime
  }

  ghost predicate AllLive(t: Timeline, lifetime: int) {
    forall j :: 0 <= j < |t.granted| ==> Live(t, t.granted[j], lifetime)
  }

  lemma PromptRunsStayLive(ops: seq<Op>, delay: nat, lifetime: int)
    requires Prompt(Play(START, ops), delay) && lifetime >= TOKEN_TTL + delay
    ensures AllLive(Play(START, ops), lifetime)
  {
    var t := Play(START, ops);
    forall j | 0 <= j < |t.granted| ensures Live(t, t.granted[j], lifetime) {
      TokensAreFreshAndOwn(ops, j);
      var k :| 0 <= k < |t.written|
        && t.written[k].fetch in t.fetched
        && t.written[k].fetch.consumerKey == t.granted[j].consumerKey
        && t.written[k].fetch.token == t.granted[j].token
        && t.written[k].fetch.at <= t.written[k].at <= t.granted[j].at
        && t.granted[j].at - t.written[k].fetch.at < 3000 + (t.written[k].at - t.written[k].fetch.at);
      var i :| 0 <= i < |t.fetched| && t.fetched[i] == t.written[k].fetch;
      assert t.fetched[i].at <= t.granted[j].at < t.fetched[i].at + lifetime;
    }
  }

  // One lookup whose write comes `delay` seconds after its fetch, and another in the last second of
  // the cache entry.
  function StaleRun(delay: nat): seq<Op> {
    [Ask("k")] + ([Ask("k")] + ([Call(0, Fate(true, None))] + ([Call(0, Fate(true, Some("t")))] + LateWrite(delay))))
  }

  function LateWrite(delay: nat): seq<Op> {
    [Wait(delay)] + ([Call(0, Fate(true, None))] + LastSecond())
  }

  function LastSecond(): seq<Op> {
    [Wait(TOKEN_TTL - 1)] + ([Call(1, Fate(true, None))] + [])
  }

  const ISSUED := Fetch("k", "t", 0)

  // The token is issued and not yet written.
  function Issued(now: int): Timeline {
    Timeline(now, map[], [Lookup("k", AtStore(ISSUED)), Lookup("k", AtRead)], [ISSUED], [], [])
  }

  lemma FetchRuns(rest: seq<Op>)
    ensures Play(START, [Ask("k")] + ([Ask("k")] + ([Call(0, Fate(true, None))] + ([Call(0, Fate(true, Some("t")))] + rest))))
            == Play(Issued(0), rest)
  {
    var s4 := [Call(0, Fate(true, Some("t")))] + rest;
    var s3 := [Call(0, Fate(true, None))] + s4;
    PlayCons(START, Ask("k"), [Ask("k")] + s3);
    var t1 := START.(lookups := [Lookup("k", AtRead)]);
    assert Next(START, Ask("k")) == t1;
    PlayCons(t1, Ask("k"), s3);
    var t2 := START.(lookups := [Lookup("k", AtRead), Lookup("k", AtRead)]);
    assert Next(t1, Ask("k")) == t2;
    PlayCons(t2, Call(0, Fate(true, None)), s4);
    var t3 := START.(lookups := [Lookup("k", AtFetch), Lookup("k", AtRead)]);
    assert Next(t2, Call(0, Fate(true, None))) == t3;
    PlayCons(t3, Call(0, Fate(true, Some("t"))), rest);
    assert Next(t3, Call(0, Fate(true, Some("t")))) == Issued(0);
  }

  lemma WriteRuns(delay: nat)
    ensures Play(Issued(0), LateWrite(delay)) == Play(Next(Issued(delay), Call(0, Fate(true, None))), LastSecond())
  {
    PlayCons(Issued(0), Wait(delay), [Call(0, Fate(true, None))] + LastSecond());
    PlayCons(Issued(delay), Call(0, Fate(true, None)), LastSecond());
  }

  // The second lookup is handed a token of age TOKEN_TTL + delay - 1: with any delay at all, one that
  // an issuer lifetime of exactly fifty minutes does not cover.
  lemma StaleRunIs(delay: nat)
    ensures var t := Play(START, StaleRun(delay));
            && t.fetched == [ISSUED]
            && t.written == [Written(ISSUED, delay)]
            && t.granted == [Grant("k", "t", delay), Grant("k", "t", delay + 2999)]
  {
    FetchRuns(LateWrite(delay));
    WriteRuns(delay);
    var t := Next(Issued(delay), Call(0, Fate(true, None)));
    PlayCons(t, Wait(TOKEN_TTL - 1), [Call(1, Fate(true, None))] + []);
    PlayCons(t.(now := delay + TOKEN_TTL - 1), Call(1, Fate(true, None)), []);
  }

  // Every token of every run with this bound on the delay is live when handed out.
  ghost predicate AlwaysLive(delay: int, lifetime: int) {
    forall ops :: Prompt(Play(START, ops), delay) ==> AllLive(Play(START, ops), lifetime)
  }

  // The exact issuer lifetime the cache needs: fifty minutes plus the longest time between the issue
  // of a token and its cache write. Fifty minutes alone suffice only if no time passes in between.
  lemma LiveIffLifetimeCoversTheDelay(delay: nat, lifetime: int)
    ensures AlwaysLive(delay, lifetime) <==> lifetime >= 3000 + delay
  {
    if lifetime >= TOKEN_TTL + delay {
      forall ops | Prompt(Play(START, ops), delay) ensures AllLive(Play(START, ops), lifetime) {
        PromptRunsStayLive(ops, delay, lifetime);
      }
    } else {
      StaleRunIs(delay);
      var t := Play(START, StaleRun(delay));
      assert Prompt(t, delay);
      assert !Live(t, t.granted[1], lifetime);
    }
  }
}
