// util/pipe/limiter.go: filters between a stream of parameters and its consumers. Deduplicator and
// Limiter look up the last message they forwarded under the same unique id in a cache; here both
// are specified without one, by looking it up in what was forwarded.
module Pipes {
  import opened Base

  type Value(==,!new)

  // util.Param
  datatype Param = Param(loadPoint: Option<int>, key: string, val: Value)

  // A parameter and when it arrives
  datatype Message = Message(at: Time, param: Param)

  datatype CacheItem = CacheItem(updated: Time, val: Value)

  // ---------------------------------------------------------------- unique ids

  function Digits(n: nat): (s: string)
    ensures s != [] && forall i :: 0 <= i < |s| ==> '0' <= s[i] <= '9'
  {
    var digit := ['0' + (n % 10) as char];
    if n < 10 then digit else Digits(n / 10) + digit
  }

  // Reading the digits as a decimal number gives it back.
  function Decimal(s: string): int {
    if s == [] then 0 else 10 * Decimal(s[..|s| - 1]) + (s[|s| - 1] as int - '0' as int)
  }

  lemma {:induction false} DigitsAreDecimal(n: nat)
    ensures Decimal(Digits(n)) == n
  {
    var s := Digits(n);
    if n >= 10 {
      assert s[..|s| - 1] == Digits(n / 10);
      DigitsAreDecimal(n / 10);
    } else {
      assert s[..0] == [];
    }
  }

  function Itoa(n: int): (s: string)
    ensures '.' !in s
  {
    if n < 0 then "-" + Digits(-n) else Digits(n)
  }

  function UniqueID(p: Param): string {
    match p.loadPoint
    case None => p.key
    case Some(n) => Itoa(n) + "." + p.key
  }

  lemma {:induction false} DigitsInjective(m: nat, n: nat)
    requires Digits(m) == Digits(n)
    ensures m == n
  {
    var s, t := Digits(m), Digits(n);
    assert s[|s| - 1] == '0' + (m % 10) as char && t[|t| - 1] == '0' + (n % 10) as char;
    assert m % 10 == n % 10;
    if m >= 10 && n >= 10 {
      assert s[..|s| - 1] == Digits(m / 10) && t[..|t| - 1] == Digits(n / 10);
      DigitsInjective(m / 10, n / 10);
    } else {
      assert m >= 10 ==> |s| >= 2;
      assert n >= 10 ==> |t| >= 2;
    }
  }

  lemma SignDecides(n: int)
    ensures Itoa(n)[0] == '-' <==> n < 0
  {
  }

  lemma ItoaInjective(m: int, n: int)
    requires Itoa(m) == Itoa(n)
    ensures m == n
  {
    var s, t := Itoa(m), Itoa(n);
    if m < 0 && n < 0 {
      assert Digits(-m) == s[1..] && Digits(-n) == t[1..];
      DigitsInjective(-m, -n);
    } else if m >= 0 && n >= 0 {
      DigitsInjective(m, n);
    } else {
      SignDecides(m);
      SignDecides(n);
    }
  }

  // A prefix without the separator ends at the first separator.
  lemma SplitAtSeparator(a: string, b: string, k: string, l: string)
    requires '.' !in a && '.' !in b && a + "." + k == b + "." + l
    ensures a == b && k == l
  {
    var s, t := a + "." + k, b + "." + l;
    assert s[|a|] == '.' && t[|b|] == '.';
    assert forall i :: 0 <= i < |a| ==> s[i] == a[i];
    assert forall i :: 0 <= i < |b| ==> t[i] == b[i];
    assert |a| == |b|;
    assert a == s[..|a|] && b == t[..|b|] && k == s[|a| + 1..] && l == t[|b| + 1..];
  }

  // Two parameters share an id exactly if they have the same loadpoint and key, or the key of one
  // without a loadpoint spells out the loadpoint and key of the other.
  lemma SameIDExactly(p: Param, q: Param)
    ensures UniqueID(p) == UniqueID(q) <==>
      || (p.loadPoint == q.loadPoint && p.key == q.key)
      || (p.loadPoint.None? && q.loadPoint.Some? && p.key == Itoa(q.loadPoint.value) + "." + q.key)
      || (q.loadPoint.None? && p.loadPoint.Some? && q.key == Itoa(p.loadPoint.value) + "." + p.key)
  {
    if p.loadPoint.Some? && q.loadPoint.Some? && UniqueID(p) == UniqueID(q) {
      SplitAtSeparator(Itoa(p.loadPoint.value), Itoa(q.loadPoint.value), p.key, q.key);
      ItoaInjective(p.loadPoint.value, q.loadPoint.value);
    }
  }

  // ---------------------------------------------------------------- the filters without a cache

  // The last message under an id
  function Latest(s: seq<Message>, id: string): Option<Message> {
    if s == [] then None
    else if UniqueID(s[|s| - 1].param) == id then Some(s[|s| - 1])
    else Latest(s[..|s| - 1], id)
  }

  // Whether to forward a message, given the last one forwarded under its id
  type Rule = (Option<Message>, Message) -> bool

  function DedupRule(interval: int, filter: set<string>): Rule {
    (last: Option<Message>, m: Message) =>
      last.None? || m.param.key !in filter || m.at - last.value.at >= interval || m.param.val != last.value.param.val
  }

  function LimitRule(interval: int): Rule {
    (last: Option<Message>, m: Message) => last.None? || m.at - last.value.at >= interval
  }

  function Forwards(rule: Rule, sent: seq<Message>, m: Message): bool { rule(Latest(sent, UniqueID(m.param)), m) }

  // What a filter has forwarded of the messages it has seen
  function Kept(rule: Rule, seen: seq<Message>): seq<Message> {
    if seen == [] then []
    else
      var m := seen[|seen| - 1];
      var sent := Kept(rule, seen[..|seen| - 1]);
      if Forwards(rule, sent, m) then sent + [m] else sent
  }

  lemma KeptNext(rule: Rule, seen: seq<Message>, m: Message)
    ensures Kept(rule, seen + [m]) ==
      if Forwards(rule, Kept(rule, seen), m) then Kept(rule, seen) + [m] else Kept(rule, seen)
  {
    assert (seen + [m])[..|seen|] == seen;
  }

  predicate Subsequence(a: seq<Message>, b: seq<Message>) {
    if a == [] then true
    else if b == [] then false
    else
      || (a[|a| - 1] == b[|b| - 1] && Subsequence(a[..|a| - 1], b[..|b| - 1]))
      || Subsequence(a, b[..|b| - 1])
  }

  // Nothing is invented, repeated or reordered.
  lemma {:induction false} KeptIsSubsequence(rule: Rule, seen: seq<Message>)
    ensures Subsequence(Kept(rule, seen), seen)
  {
    if seen != [] {
      var before := seen[..|seen| - 1];
      KeptIsSubsequence(rule, before);
      var sent := Kept(rule, before);
      assert (sent + [seen[|seen| - 1]])[..|sent|] == sent;
    }
  }

  function LastValue(s: seq<Message>, id: string): Option<Value> {
    match Latest(s, id) case None => None case Some(m) => Some(m.param.val)
  }

  lemma LatestNext(s: seq<Message>, m: Message, id: string)
    ensures Latest(s + [m], id) == if UniqueID(m.param) == id then Some(m) else Latest(s, id)
  {
    assert (s + [m])[..|s|] == s;
  }

  // After every message the last value a consumer of a deduplicated stream has seen of a parameter
  // is the last one there was.
  lemma DedupKeepsLastValues(interval: int, filter: set<string>, input: seq<Message>, k: nat, id: string)
    requires k <= |input|
    ensures LastValue(Kept(DedupRule(interval, filter), input[..k]), id) == LastValue(input[..k], id)
  {
    DedupKeeps(interval, filter, input[..k], id);
  }

  lemma {:induction false} DedupKeeps(interval: int, filter: set<string>, seen: seq<Message>, id: string)
    ensures LastValue(Kept(DedupRule(interval, filter), seen), id) == LastValue(seen, id)
  {
    if seen != [] {
      var before, m := seen[..|seen| - 1], seen[|seen| - 1];
      DedupKeeps(interval, filter, before, id);
      LatestNext(Kept(DedupRule(interval, filter), before), m, id);
    }
  }

  // The clock does not run backwards.
  predicate Ordered(s: seq<Message>) { forall i, j :: 0 <= i < j < |s| ==> s[i].at <= s[j].at }

  predicate NotAfter(s: seq<Message>, at: Time) { forall i :: 0 <= i < |s| ==> s[i].at <= at }

  lemma {:induction false} KeptOrdered(rule: Rule, seen: seq<Message>)
    requires Ordered(seen)
    ensures Ordered(Kept(rule, seen))
    ensures forall at :: NotAfter(seen, at) ==> NotAfter(Kept(rule, seen), at)
  {
    if seen != [] {
      var before, m := seen[..|seen| - 1], seen[|seen| - 1];
      KeptOrdered(rule, before);
      assert NotAfter(before, m.at);
      forall at | NotAfter(seen, at) ensures NotAfter(Kept(rule, seen), at) {
        assert NotAfter(before, at) && seen[|seen| - 1].at <= at;
      }
    }
  }

  // The latest message under an id is the last of those that carry it.
  lemma {:induction false} LatestIsLast(s: seq<Message>, id: string, i: nat)
    requires Ordered(s) && i < |s| && UniqueID(s[i].param) == id
    ensures Latest(s, id).Some? && s[i].at <= Latest(s, id).value.at
  {
    if UniqueID(s[|s| - 1].param) != id {
      LatestIsLast(s[..|s| - 1], id, i);
    }
  }

  lemma {:induction false} LatestIsThere(s: seq<Message>, id: string) returns (i: nat)
    requires Latest(s, id).Some?
    ensures i < |s| && s[i] == Latest(s, id).value && UniqueID(s[i].param) == id
  {
    if UniqueID(s[|s| - 1].param) == id {
      i := |s| - 1;
    } else {
      i := LatestIsThere(s[..|s| - 1], id);
    }
  }

  // A message went out under this id less than an interval before.
  predicate Recent(sent: seq<Message>, m: Message, interval: int) {
    exists i :: 0 <= i < |sent| && UniqueID(sent[i].param) == UniqueID(m.param) && m.at - sent[i].at < interval
  }

  lemma RecentExactly(sent: seq<Message>, m: Message, interval: int)
    requires Ordered(sent)
    ensures Recent(sent, m, interval) <==>
      var last := Latest(sent, UniqueID(m.param)); last.Some? && m.at - last.value.at < interval
  {
    if i :| 0 <= i < |sent| && UniqueID(sent[i].param) == UniqueID(m.param) && m.at - sent[i].at < interval {
      LatestIsLast(sent, UniqueID(m.param), i);
    }
    if Latest(sent, UniqueID(m.param)).Some? {
      var i := LatestIsThere(sent, UniqueID(m.param));
    }
  }

  // The limiter drops a message exactly if one of its id went out less than an interval before.
  lemma LimiterDropsExactly(interval: int, seen: seq<Message>, m: Message)
    requires Ordered(seen + [m])
    ensures var sent := Kept(LimitRule(interval), seen);
      Kept(LimitRule(interval), seen + [m]) == sent <==>
        exists i :: 0 <= i < |sent| && UniqueID(sent[i].param) == UniqueID(m.param) && m.at - sent[i].at < interval
  {
    var rule := LimitRule(interval);
    OrderedPrefix(seen, m);
    KeptOrdered(rule, seen);
    KeptNext(rule, seen, m);
    RecentExactly(Kept(rule, seen), m, interval);
  }

  // The deduplicator drops exactly the filtered messages that repeat the last value of their id
  // within an interval of sending it.
  lemma DedupDropsExactly(interval: int, filter: set<string>, seen: seq<Message>, m: Message)
    requires Ordered(seen + [m])
    ensures var sent := Kept(DedupRule(interval, filter), seen);
      Kept(DedupRule(interval, filter), seen + [m]) == sent <==>
        && m.param.key in filter
        && LastValue(sent, UniqueID(m.param)) == Some(m.param.val)
        && exists i :: 0 <= i < |sent| && UniqueID(sent[i].param) == UniqueID(m.param) && m.at - sent[i].at < interval
  {
    var rule := DedupRule(interval, filter);
    OrderedPrefix(seen, m);
    KeptOrdered(rule, seen);
    KeptNext(rule, seen, m);
    RecentExactly(Kept(rule, seen), m, interval);
  }

  lemma OrderedPrefix(seen: seq<Message>, m: Message)
    requires Ordered(seen + [m])
    ensures Ordered(seen) && NotAfter(seen, m.at)
  {
    var all := seen + [m];
    forall i, j | 0 <= i < j < |seen| ensures seen[i].at <= seen[j].at { assert all[i].at <= all[j].at; }
    forall i | 0 <= i < |seen| ensures seen[i].at <= m.at { assert all[i].at <= all[|seen|].at; }
  }

  // Messages the limiter forwards under one id are at least an interval apart.
  lemma {:induction false} LimiterSpaces(interval: int, seen: seq<Message>, i: nat, j: nat)
    requires Ordered(seen)
    requires i < j < |Kept(LimitRule(interval), seen)|
    requires UniqueID(Kept(LimitRule(interval), seen)[i].param) == UniqueID(Kept(LimitRule(interval), seen)[j].param)
    ensures Kept(LimitRule(interval), seen)[j].at - Kept(LimitRule(interval), seen)[i].at >= interval
  {
    var rule := LimitRule(interval);
    var before, m := seen[..|seen| - 1], seen[|seen| - 1];
    var sent := Kept(rule, before);
    if j < |sent| {
      LimiterSpaces(interval, before, i, j);
    } else {
      KeptOrdered(rule, before);
      LatestIsLast(sent, UniqueID(m.param), i);
    }
  }

  // ... and no more could be: a choice of messages of one id that far apart is no longer.
  predicate Spaced(choice: seq<Message>, interval: int) {
    forall i :: 0 <= i < |choice| - 1 ==> choice[i + 1].at - choice[i].at >= interval
  }

  function OfID(s: seq<Message>, id: string): seq<Message> {
    if s == [] then []
    else if UniqueID(s[|s| - 1].param) == id then OfID(s[..|s| - 1], id) + [s[|s| - 1]]
    else OfID(s[..|s| - 1], id)
  }

  lemma {:induction false} OfIDEnd(s: seq<Message>, id: string)
    ensures Latest(s, id) == if OfID(s, id) == [] then None else Some(OfID(s, id)[|OfID(s, id)| - 1])
  {
    if s != [] { OfIDEnd(s[..|s| - 1], id); }
  }

  // However messages of one id are chosen from the input, an interval apart, the limiter has
  // forwarded at least as many; and if it has not forwarded more, its last one was no later.
  lemma {:induction false} LimiterForwardsMost(interval: int, seen: seq<Message>, id: string, choice: seq<Message>)
    requires Ordered(seen) && Spaced(choice, interval) && Subsequence(choice, OfID(seen, id))
    ensures Ahead(OfID(Kept(LimitRule(interval), seen), id), choice)
  {
    if seen != [] {
      var before, m := seen[..|seen| - 1], seen[|seen| - 1];
      if UniqueID(m.param) == id && choice != [] && !Subsequence(choice, OfID(before, id)) {
        var shorter := choice[..|choice| - 1];
        SubsequenceEnd(choice, OfID(before, id), m);
        LimiterForwardsMost(interval, before, id, shorter);
        ChosenNext(interval, before, m, choice);
      } else {
        LimiterForwardsMost(interval, before, id, choice);
        KeepsAhead(interval, before, m, id, choice);
      }
    }
  }

  predicate Ahead(sent: seq<Message>, choice: seq<Message>) {
    && |choice| <= |sent|
    && (choice != [] && |choice| == |sent| ==> sent[|sent| - 1].at <= choice[|choice| - 1].at)
  }

  lemma SubsequenceEnd(a: seq<Message>, b: seq<Message>, m: Message)
    requires a != [] && Subsequence(a, b + [m]) && !Subsequence(a, b)
    ensures a[|a| - 1] == m && Subsequence(a[..|a| - 1], b)
  {
    assert (b + [m])[..|b|] == b;
  }

  lemma KeepsAhead(interval: int, before: seq<Message>, m: Message, id: string, choice: seq<Message>)
    requires Ahead(OfID(Kept(LimitRule(interval), before), id), choice)
    ensures Ahead(OfID(Kept(LimitRule(interval), before + [m]), id), choice)
  {
    KeptNext(LimitRule(interval), before, m);
    OfIDNext(Kept(LimitRule(interval), before), m, id);
  }

  lemma ChosenNext(interval: int, before: seq<Message>, m: Message, choice: seq<Message>)
    requires Ordered(before) && NotAfter(before, m.at)
    requires choice != [] && choice[|choice| - 1] == m && Spaced(choice, interval)
    requires Ahead(OfID(Kept(LimitRule(interval), before), UniqueID(m.param)), choice[..|choice| - 1])
    ensures Ahead(OfID(Kept(LimitRule(interval), before + [m]), UniqueID(m.param)), choice)
  {
    var rule, id := LimitRule(interval), UniqueID(m.param);
    var sent := Kept(rule, before);
    KeptNext(rule, before, m);
    OfIDNext(sent, m, id);
    OfIDEnd(sent, id);
    KeptOrdered(rule, before);
    OfIDNotAfter(sent, id, m.at);
    var n := |choice|;
    if n >= 2 { assert choice[n - 2 + 1].at - choice[n - 2].at >= interval; }
  }

  lemma OfIDNext(s: seq<Message>, m: Message, id: string)
    ensures OfID(s + [m], id) == if UniqueID(m.param) == id then OfID(s, id) + [m] else OfID(s, id)
  {
    assert (s + [m])[..|s|] == s;
  }

  lemma {:induction false} OfIDNotAfter(s: seq<Message>, id: string, at: Time)
    requires NotAfter(s, at)
    ensures NotAfter(OfID(s, id), at)
  {
    if s != [] { OfIDNotAfter(s[..|s| - 1], id, at); }
  }

  // ---------------------------------------------------------------- the filters

  // The cache holds the last message forwarded under every id.
  ghost predicate Tracks(cache: map<string, CacheItem>, sent: seq<Message>) {
    forall id :: match Latest(sent, id)
      case None => id !in cache
      case Some(m) => id in cache && cache[id] == CacheItem(m.at, m.param.val)
  }

  lemma TracksNext(cache: map<string, CacheItem>, sent: seq<Message>, m: Message)
    requires Tracks(cache, sent)
    ensures Tracks(cache[UniqueID(m.param) := CacheItem(m.at, m.param.val)], sent + [m])
  {
    forall id ensures Latest(sent + [m], id) == if UniqueID(m.param) == id then Some(m) else Latest(sent, id) {
      LatestNext(sent, m, id);
    }
  }

  // Looking in the cache decides as the rule does.
  lemma DedupNext(interval: int, filter: set<string>, cache: map<string, CacheItem>, seen: seq<Message>, m: Message)
    requires Tracks(cache, Kept(DedupRule(interval, filter), seen))
    ensures var rule, key := DedupRule(interval, filter), UniqueID(m.param);
      var sent := Kept(rule, seen);
      var forward := key !in cache || m.param.key !in filter
        || m.at - cache[key].updated >= interval || m.param.val != cache[key].val;
      && Kept(rule, seen + [m]) == (if forward then sent + [m] else sent)
      && Tracks(cache[key := CacheItem(m.at, m.param.val)], sent + [m])
  {
    KeptNext(DedupRule(interval, filter), seen, m);
    TracksNext(cache, Kept(DedupRule(interval, filter), seen), m);
  }

  lemma LimitNext(interval: int, cache: map<string, CacheItem>, seen: seq<Message>, m: Message)
    requires Tracks(cache, Kept(LimitRule(interval), seen))
    ensures var rule, key := LimitRule(interval), UniqueID(m.param);
      var sent := Kept(rule, seen);
      && Kept(rule, seen + [m]) == (if key !in cache || m.at - cache[key].updated >= interval then sent + [m] else sent)
      && Tracks(cache[key := CacheItem(m.at, m.param.val)], sent + [m])
  {
    KeptNext(LimitRule(interval), seen, m);
    TracksNext(cache, Kept(LimitRule(interval), seen), m);
  }

  lemma Appends(a: seq<Message>, b: seq<Message>, i: nat)
    requires i < |b|
    ensures a + b[..i] + [b[i]] == a + b[..i + 1]
  {
  }

  lemma AppendsOne(a: seq<Message>, b: seq<Message>, m: Message)
    ensures a + b + [m] == a + (b + [m])
  {
  }

  class Deduplicator {
    const interval: int
    const filter: set<string>
    var cache: map<string, CacheItem>
    ghost var seen: seq<Message>
    ghost var sent: seq<Message>

    ghost predicate Valid() reads this {
      sent == Kept(DedupRule(interval, filter), seen) && Tracks(cache, sent)
    }

    constructor (interval: int, filter: set<string>)
      ensures Valid() && seen == [] && this.interval == interval && this.filter == filter
    {
      this.interval := interval;
      this.filter := filter;
      cache := map[];
      seen, sent := [], [];
    }

    // The body of the loop over the channel
    method Receive(m: Message) returns (forward: bool)
      requires Valid()
      modifies this
      ensures Valid() && seen == old(seen) + [m]
      ensures sent == if forward then old(sent) + [m] else old(sent)
      ensures forward <==> Forwards(DedupRule(interval, filter), old(sent), m)
    {
      var key := UniqueID(m.param);
      var cached := key in cache;
      var filtered := m.param.key in filter;
      DedupNext(interval, filter, cache, seen, m);
      forward := !cached || !filtered || (filtered && (m.at - cache[key].updated >= interval || m.param.val != cache[key].val));
      if forward {
        cache := cache[key := CacheItem(m.at, m.param.val)];
        sent := sent + [m];
      }
      seen := seen + [m];
    }

    method Pipe(input: seq<Message>) returns (out: seq<Message>)
      requires Valid()
      modifies this
      ensures Valid() && seen == old(seen) + input && sent == old(sent) + out
    {
      out := [];
      for i := 0 to |input|
        invariant Valid() && seen == old(seen) + input[..i]
        invariant sent == old(sent) + out
      {
        var forward := Receive(input[i]);
        Appends(old(seen), input, i);
        if forward {
          AppendsOne(old(sent), out, input[i]);
          out := out + [input[i]];
        }
      }
      assert input[..|input|] == input;
    }
  }

  class Limiter {
    const interval: int
    var cache: map<string, CacheItem>
    ghost var seen: seq<Message>
    ghost var sent: seq<Message>

    ghost predicate Valid() reads this {
      sent == Kept(LimitRule(interval), seen) && Tracks(cache, sent)
    }

    constructor (interval: int)
      ensures Valid() && seen == [] && this.interval == interval
    {
      this.interval := interval;
      cache := map[];
      seen, sent := [], [];
    }

    // The body of the loop over the channel
    method Receive(m: Message) returns (forward: bool)
      requires Valid()
      modifies this
      ensures Valid() && seen == old(seen) + [m]
      ensures sent == if forward then old(sent) + [m] else old(sent)
      ensures forward <==> Forwards(LimitRule(interval), old(sent), m)
    {
      var key := UniqueID(m.param);
      var cached := key in cache;
      LimitNext(interval, cache, seen, m);
      forward := !cached || m.at - cache[key].updated >= interval;
      if forward {
        cache := cache[key := CacheItem(m.at, m.param.val)];
        sent := sent + [m];
      }
      seen := seen + [m];
    }

    method Pipe(input: seq<Message>) returns (out: seq<Message>)
      requires Valid()
      modifies this
      ensures Valid() && seen == old(seen) + input && sent == old(sent) + out
    {
      out := [];
      for i := 0 to |input|
        invariant Valid() && seen == old(seen) + input[..i]
        invariant sent == old(sent) + out
      {
        var forward := Receive(input[i]);
        Appends(old(seen), input, i);
        if forward {
          AppendsOne(old(sent), out, input[i]);
          out := out + [input[i]];
        }
      }
      assert input[..|input|] == input;
    }
  }

  // ---------------------------------------------------------------- dropping by key

  function Count(s: seq<Message>, m: Message): nat { multiset(s)[m] }

  lemma CountNext(s: seq<Message>, m: Message, n: Message)
    ensures Count(s + [m], n) == Count(s, n) + if m == n then 1 else 0
  {
  }

  lemma SubsequenceNext(a: seq<Message>, b: seq<Message>, m: Message)
    requires Subsequence(a, b)
    ensures Subsequence(a + [m], b + [m]) && Subsequence(a, b + [m])
  {
    assert (a + [m])[..|a|] == a && (b + [m])[..|b|] == b;
  }

  class Dropper {
    const filter: seq<string>

    constructor (filter: seq<string>)
      ensures this.filter == filter
    {
      this.filter := filter;
    }

    // The inner loop
    method Removes(p: Param) returns (remove: bool)
      ensures remove <==> p.key in filter
    {
      remove := false;
      for j := 0 to |filter|
        invariant !remove && p.key !in filter[..j]
      {
        if p.key == filter[j] {
          remove := true;
          break;
        }
      }
    }

    // What is left is the messages under other keys, all of them and in order.
    method Pipe(input: seq<Message>) returns (out: seq<Message>)
      ensures Subsequence(out, input)
      ensures forall m :: Count(out, m) == if m.param.key in filter then 0 else Count(input, m)
    {
      out := [];
      for i := 0 to |input|
        invariant Subsequence(out, input[..i]) && Dropped(filter, out, input[..i])
      {
        var p := input[i];
        var remove := Removes(p.param);
        assert input[..i + 1] == input[..i] + [p];
        SubsequenceNext(out, input[..i], p);
        DroppedNext(filter, out, input[..i], p);
        if !remove {
          out := out + [p];
        }
      }
      assert input[..|input|] == input;
    }
  }

  ghost predicate Dropped(filter: seq<string>, out: seq<Message>, input: seq<Message>) {
    forall m :: Count(out, m) == if m.param.key in filter then 0 else Count(input, m)
  }

  lemma DroppedNext(filter: seq<string>, out: seq<Message>, input: seq<Message>, p: Message)
    requires Dropped(filter, out, input)
    ensures Dropped(filter, if p.param.key in filter then out else out + [p], input + [p])
  {
    forall m
      ensures Count(out + [p], m) == Count(out, m) + if p == m then 1 else 0
      ensures Count(input + [p], m) == Count(input, m) + if p == m then 1 else 0
    {
      CountNext(out, p, m);
      CountNext(input, p, m);
    }
  }
}
