// The bucketed, timed result cache of core/thread_matcher.hpp, and when it is invisible.
module MatchCache {
  import opened Types
  import opened Matcher

  const SEP := "#|#"

  function StateDigit(state: ProcessState): string {
    match state case BG => "0" case FG => "1" case TOP => "2"
  }

  function MainDigit(main: bool): string { if main then "1" else "0" }

  function Body(q: Query): string { q.procName + SEP + q.threadName + SEP + q.cmdline }

  function Key(q: Query): string { Body(q) + SEP + StateDigit(q.state) + SEP + MainDigit(q.main) }

  // ---- When two queries share a key -------------------------------------------------------------------

  predicate SepAt(s: string, i: nat) { i + 3 <= |s| && s[i..i + 3] == SEP }

  // A place to cut the body into three other than where the query did.
  ghost predicate OtherCut(q: Query, i: nat, j: nat) {
    && SepAt(Body(q), i) && SepAt(Body(q), j) && i + 3 <= j
    && (i, j) != (|q.procName|, |q.procName| + 3 + |q.threadName|)
  }

  lemma KeyParts(q: Query)
    ensures var n := |Body(q)|;
      && |Key(q)| == n + 8 && Key(q)[..n] == Body(q) && Key(q)[n + 3] == StateDigit(q.state)[0]
      && Key(q)[n + 7] == MainDigit(q.main)[0]
  {
    var tail := SEP + StateDigit(q.state) + SEP + MainDigit(q.main);
    assert Key(q) == Body(q) + tail;
  }

  lemma SameKeySameBody(q: Query, other: Query)
    requires Key(q) == Key(other)
    ensures Body(q) == Body(other) && q.state == other.state && q.main == other.main
  {
    KeyParts(q);
    KeyParts(other);
  }

  lemma BodyCut(q: Query)
    ensures var i := |q.procName|;
      var j := i + 3 + |q.threadName|;
      && j + 3 <= |Body(q)| && SepAt(Body(q), i) && SepAt(Body(q), j)
      && q.procName == Body(q)[..i] && q.threadName == Body(q)[i + 3..j] && q.cmdline == Body(q)[j + 3..]
  {
    var b := Body(q);
    assert b == q.procName + (SEP + q.threadName + SEP + q.cmdline);
    assert b == (q.procName + SEP + q.threadName) + (SEP + q.cmdline);
  }

  lemma CutBody(s: string, i: nat, j: nat)
    requires SepAt(s, i) && SepAt(s, j) && i + 3 <= j
    ensures s[..i] + SEP + s[i + 3..j] + SEP + s[j + 3..] == s
  {
  }

  // Another query shares the key exactly if the body has another cut. This can be checked before
  // the call, on the three texts alone.
  lemma SharedKeyIff(q: Query)
    ensures (exists other :: other != q && Key(other) == Key(q)) <==> (exists i: nat, j: nat :: OtherCut(q, i, j))
  {
    if other :| other != q && Key(other) == Key(q) { SharedIsCut(q, other); }
    if i: nat, j: nat :| OtherCut(q, i, j) {
      var other := Recut(q, i, j);
      CutIsShared(q, i, j);
    }
  }

  lemma SharedIsCut(q: Query, other: Query)
    requires other != q && Key(other) == Key(q)
    ensures OtherCut(q, |other.procName|, |other.procName| + 3 + |other.threadName|)
  {
    SameKeySameBody(q, other);
    hide Body, Key;
    BodyCut(q);
    BodyCut(other);
  }

  // The query whose body is cut at the separators i and j of the body of `q`.
  function Recut(q: Query, i: nat, j: nat): Query
    requires OtherCut(q, i, j)
  {
    Query(Body(q)[..i], Body(q)[i + 3..j], q.state, Body(q)[j + 3..], q.main)
  }

  lemma CutIsShared(q: Query, i: nat, j: nat)
    requires OtherCut(q, i, j)
    ensures Recut(q, i, j) != q && Key(Recut(q, i, j)) == Key(q)
  {
    CutBody(Body(q), i, j);
    assert |Recut(q, i, j).procName| == i && |Recut(q, i, j).threadName| == j - i - 3;
  }

  predicate Plain(q: Query) { '#' !in q.procName && '#' !in q.threadName }

  // Names without '#' are told apart.
  lemma PlainKeysDiffer(q: Query, other: Query)
    requires Plain(q) && Plain(other) && Key(q) == Key(other)
    ensures q == other
  {
    SameKeySameBody(q, other);
    BodyCut(q);
    BodyCut(other);
    FirstSep(q);
    FirstSep(other);
  }

  // The first '#' ends the process name, the first after that separator the thread name.
  lemma FirstSep(q: Query)
    requires Plain(q)
    ensures var b, i := Body(q), |q.procName|;
      && b[i] == '#' && (forall k :: 0 <= k < i ==> b[k] != '#')
      && b[i + 3 + |q.threadName|] == '#' && (forall k :: i + 3 <= k < i + 3 + |q.threadName| ==> b[k] != '#')
  {
    BodyCut(q);
    var b, i := Body(q), |q.procName|;
    var j := i + 3 + |q.threadName|;
    assert b[i] == b[i..i + 3][0] && b[j] == b[j..j + 3][0];
    forall k | 0 <= k < i
      ensures b[k] != '#'
    {
      assert b[k] == q.procName[k];
    }
    forall k | i + 3 <= k < j
      ensures b[k] != '#'
    {
      assert b[k] == q.threadName[k - i - 3];
    }
  }

  // ---- The cache ------------------------------------------------------------------------------------------

  const BUCKETS := 16
  const MAX_PER_BUCKET := 256

  datatype Entry = Entry(result: MatchResult, timestamp: int)

  class CachingMatcher {
    const cfg: SchedConfig
    const rx: Regexes
    const ttl: int
    const hash: string -> nat
    const compiled: seq<CompiledRule>
    var cache: seq<map<string, Entry>>
    ghost var asked: set<Query>

    constructor (cfg: SchedConfig, rx: Regexes, ttl: int, hash: string -> nat)
      ensures this.cfg == cfg && this.rx == rx && this.ttl == ttl && this.hash == hash
      ensures Valid() && asked == {}
    {
      this.cfg, this.rx, this.ttl, this.hash := cfg, rx, ttl, hash;
      var rules := Compile(rx, cfg.rules);
      compiled := rules;
      cache := seq(BUCKETS, i => map[]);
      asked := {};
    }

    ghost predicate Valid()
      reads this
    {
      && compiled == Compiled(rx, cfg.rules, |cfg.rules|)
      && |cache| == BUCKETS
      && (forall b :: 0 <= b < BUCKETS ==> |cache[b]| <= MAX_PER_BUCKET)
      && (forall b, key :: 0 <= b < BUCKETS && key in cache[b] ==> Explained(key, cache[b][key].result))
    }

    // The result is that of some query asked before under this key, and worth caching.
    ghost predicate Explained(key: string, r: MatchResult)
      reads this`asked
    {
      exists q :: q in asked && AskedUnder(q, key, r)
    }

    ghost predicate AskedUnder(q: Query, key: string, r: MatchResult) {
      Key(q) == key && q.procName != DEAD && r == Match(cfg, rx, q) && r.matched
    }

    function Bucket(key: string): (b: nat)
      ensures b < BUCKETS
    {
      hash(key) % BUCKETS
    }

    // The result a look-up at `now` would use.
    function Fresh(key: string, now: int): Option<MatchResult>
      reads this`cache
    {
      var b := Bucket(key);
      if b < |cache| && key in cache[b] && now - cache[b][key].timestamp < ttl then Some(cache[b][key].result) else None
    }

    // What is stored under the key, if anything, was stored `ttl` ago or longer.
    ghost predicate TooOld(key: string, now: int)
      reads this`cache
    {
      forall b :: 0 <= b < |cache| && key in cache[b] ==> cache[b][key].timestamp + ttl <= now
    }

    // match_impl; the clock readings are arbitrary. A fresh entry is used, anything else is matched
    // anew and, if it matches, stored.
    method MatchImpl(q: Query, lookup: int, stamp: int, store: int) returns (r: MatchResult)
      requires Valid()
      modifies this
      ensures Valid() && asked == old(asked) + {q}
      ensures exists other :: other in asked && Key(other) == Key(q) && r == Match(cfg, rx, other)
      ensures q.procName != DEAD && old(TooOld(Key(q), lookup)) ==> r == Match(cfg, rx, q)
      ensures q.procName != DEAD && old(Fresh(Key(q), lookup)).Some? ==> r == old(Fresh(Key(q), lookup)).value
      ensures q.procName != DEAD && old(Fresh(Key(q), lookup)).None? ==> r == Match(cfg, rx, q)
      ensures q.procName != DEAD && old(Fresh(Key(q), lookup)).None? && r.matched && r.ruleName != "" ==>
        forall now :: now - stamp < ttl ==> Fresh(Key(q), now) == Some(r)
    {
      hide Match, Key, Compiled, Valid;
      asked := asked + {q};
      StillValid();
      var key := Key(q);
      if q.procName == DEAD {
        Erase(key);
        DeadUnmatched(q);
        return Unmatched(q.state);
      }
      var found := GetCached(key, lookup);
      if found.Some? { return found.value; }
      r := MatchUncached(q);
      if r.matched && r.ruleName != "" {
        assert AskedUnder(q, key, r);
        CacheResult(key, Entry(r, stamp), store);
      }
    }

    method MatchUncached(q: Query) returns (r: MatchResult)
      requires Valid() && q.procName != DEAD
      ensures r == Match(cfg, rx, q)
    {
      r := MatchCompiled(cfg, rx, compiled, q);
    }

    twostate lemma StillValid()
      requires old(Valid()) && cache == old(cache) && old(asked) <= asked
      ensures Valid()
    {
      hide Compiled, AskedUnder;
      forall b, k | 0 <= b < BUCKETS && k in cache[b]
        ensures Explained(k, cache[b][k].result)
      {
        assert old(Explained(k, cache[b][k].result));
      }
    }

    method Erase(key: string)
      requires Valid()
      modifies this`cache
      ensures Valid() && cache == old(cache)[Bucket(key) := old(cache)[Bucket(key)] - {key}]
    {
      hide Compiled, Explained;
      var b := Bucket(key);
      LessWithout(cache[b], key);
      cache := cache[b := cache[b] - {key}];
    }

    lemma LessWithout(m: map<string, Entry>, key: string)
      ensures |m - {key}| <= |m| && (key in m ==> |m - {key}| < |m|)
    {
      var rest := m - {key};
      if key in m {
        assert m == rest[key := m[key]];
      } else {
        assert m == rest;
      }
    }

    lemma DeadUnmatched(q: Query)
      ensures q.procName == DEAD ==> Match(cfg, rx, q) == Unmatched(q.state)
    {
    }

    // get_cached_process_result
    method GetCached(key: string, now: int) returns (r: Option<MatchResult>)
      requires Valid()
      modifies this`cache
      ensures Valid() && (r.Some? ==> Explained(key, r.value)) && r == old(Fresh(key, now))
      ensures var b := Bucket(key); cache == if r.Some? then old(cache) else old(cache)[b := old(cache)[b] - {key}]
    {
      hide Compiled, Explained, Bucket;
      var b := Bucket(key);
      if key in cache[b] {
        var entry := cache[b][key];
        if now - entry.timestamp < ttl { return Some(entry.result); }
        Erase(key);
      } else {
        assert cache[b] - {key} == cache[b] && cache[b := cache[b]] == cache;
      }
      return None;
    }

    // The entries of a bucket that have not expired.
    function Live(bucket: map<string, Entry>, now: int): map<string, Entry> {
      map key | key in bucket && now - bucket[key].timestamp < ttl :: bucket[key]
    }

    // The new entry among the live ones, of which an oldest one is dropped if there is no room.
    ghost predicate Replaces(live: map<string, Entry>, key: string, entry: Entry, bucket: map<string, Entry>) {
      if key in live || |live| < MAX_PER_BUCKET then bucket == live[key := entry]
      else exists oldest :: oldest in live && (forall k :: k in live ==> live[oldest].timestamp <= live[k].timestamp)
                            && bucket == (live - {oldest})[key := entry]
    }

    // cache_process_result
    method CacheResult(key: string, entry: Entry, now: int)
      requires Valid() && Explained(key, entry.result)
      modifies this`cache
      ensures Valid()
      ensures forall later :: later - entry.timestamp < ttl ==> Fresh(key, later) == Some(entry.result)
      ensures forall b :: 0 <= b < BUCKETS && b != Bucket(key) ==> cache[b] == old(cache)[b]
      ensures Replaces(Live(old(cache)[Bucket(key)], now), key, entry, cache[Bucket(key)])
      ensures forall k :: k in cache[Bucket(key)] && k != key ==>
        k in old(cache)[Bucket(key)] && cache[Bucket(key)][k] == old(cache)[Bucket(key)][k] && now < cache[Bucket(key)][k].timestamp + ttl
    {
      hide Compiled, Explained;
      var b := Bucket(key);
      var bucket := Unexpired(cache[b], now);
      if key !in bucket && |bucket| >= MAX_PER_BUCKET {
        var oldest := Oldest(bucket);
        LessWithout(bucket, oldest);
        bucket := bucket - {oldest};
      }
      cache := cache[b := bucket[key := entry]];
    }

    method Unexpired(bucket: map<string, Entry>, now: int) returns (r: map<string, Entry>)
      ensures r == Live(bucket, now)
      ensures |r| <= |bucket|
    {
      r := bucket;
      var keys := bucket.Keys;
      while keys != {}
        invariant keys <= r.Keys <= bucket.Keys && |r| <= |bucket|
        invariant forall key :: key in bucket ==>
          (key in r <==> key in keys || now - bucket[key].timestamp < ttl) && (key in r ==> r[key] == bucket[key])
        decreases |keys|
      {
        var key :| key in keys;
        keys := keys - {key};
        LessWithout(r, key);
        if now - r[key].timestamp >= ttl { r := r - {key}; }
      }
    }

    // std::min_element by time
    method Oldest(bucket: map<string, Entry>) returns (key: string)
      requires |bucket| > 0
      ensures key in bucket && forall k :: k in bucket ==> bucket[key].timestamp <= bucket[k].timestamp
    {
      var keys := bucket.Keys;
      assert keys != {};
      key :| key in keys;
      while keys != {}
        invariant keys <= bucket.Keys && key in bucket
        invariant forall k :: k in bucket && k !in keys ==> bucket[key].timestamp <= bucket[k].timestamp
        decreases |keys|
      {
        var k :| k in keys;
        keys := keys - {k};
        if bucket[k].timestamp < bucket[key].timestamp { key := k; }
      }
    }

    // A whole sequence of queries with arbitrary clocks, all of names without '#': the cache cannot
    // be noticed.
    method MatchAll(queries: seq<Query>, clocks: seq<(int, int, int)>) returns (results: seq<MatchResult>)
      requires Valid() && |queries| == |clocks| && asked == {}
      requires forall i :: 0 <= i < |queries| ==> Plain(queries[i])
      modifies this
      ensures Valid() && |results| == |queries|
      ensures forall i :: 0 <= i < |queries| ==> results[i] == Match(cfg, rx, queries[i])
    {
      hide Match, Key, Compiled, Valid;
      results := [];
      for i := 0 to |queries|
        invariant Valid() && |results| == i && (forall q :: q in asked ==> Plain(q))
        invariant forall k :: 0 <= k < i ==> results[k] == Match(cfg, rx, queries[k])
      {
        var r := MatchImpl(queries[i], clocks[i].0, clocks[i].1, clocks[i].2);
        ghost var other :| other in asked && Key(other) == Key(queries[i]) && r == Match(cfg, rx, other);
        PlainKeysDiffer(queries[i], other);
        results := results + [r];
      }
    }
  }

  // ---- Where the promise fails --------------------------------------------------------------------------

  // A rule set whose one thread rule hits the thread named x only, with a limit.
  const HASH_RULE := ProcessRule("r", "p", false, false, [ThreadRule("x", "", "", None, None, true)])
  const HASH_CONFIG := SchedConfig(map[], map[], map[], [HASH_RULE])

  function HashRegexes(): Regexes { Regexes(s => true, (r, s) => Hit, (k, s) => if s == "x" then Hit else Miss) }

  const NAMED_X := Query("p", "x", BG, "y#|#z", false)
  const NAMED_XY := Query("p", "x#|#y", BG, "z", false)

  lemma HashMatches(q: Query)
    requires q.procName == "p" && !q.main
    ensures Match(HASH_CONFIG, HashRegexes(), q).enableLimit == (q.threadName == "x")
  {
    var rx := HashRegexes();
    assert ProcessApplies(rx, HASH_RULE, q.procName, q.cmdline);
    assert FirstRule(rx, HASH_CONFIG.rules, q, 0) == 0;
    var t := HASH_RULE.threadRules[0];
    assert Pattern(t.keyword) == "x" && |MAIN_THREAD| > 1;
    assert ThreadApplies(rx, t, q.threadName, q.main) <==> q.threadName == "x";
    assert FirstThread(rx, HASH_RULE.threadRules, q, 0) == if q.threadName == "x" then 0 else 1;
  }

  // Two threads of different names share a key though a rule tells them apart, so the second one
  // asked gets the first one's rule, here a limit that is not its own.
  lemma NamesWithHashCollide()
    ensures NAMED_X != NAMED_XY && Key(NAMED_X) == Key(NAMED_XY) && !Plain(NAMED_XY)
    ensures Match(HASH_CONFIG, HashRegexes(), NAMED_X) != Match(HASH_CONFIG, HashRegexes(), NAMED_XY)
  {
    assert Body(NAMED_X) == "p#|#x#|#y#|#z" == Body(NAMED_XY);
    assert NAMED_XY.threadName[1] == '#';
    hide Match;
    HashMatches(NAMED_X);
    HashMatches(NAMED_XY);
  }

  lemma HashMatched()
    ensures Match(HASH_CONFIG, HashRegexes(), NAMED_X).matched && Match(HASH_CONFIG, HashRegexes(), NAMED_X).ruleName == "r"
  {
    assert ProcessApplies(HashRegexes(), HASH_RULE, "p", NAMED_X.cmdline);
    assert FirstRule(HashRegexes(), HASH_CONFIG.rules, NAMED_X, 0) == 0;
  }

  // One matcher, both queries: the second answer is wrong.
  method WrongAnswer() returns (r: MatchResult)
    ensures r != Match(HASH_CONFIG, HashRegexes(), NAMED_XY)
  {
    hide Match, Key;
    NamesWithHashCollide();
    HashMatched();
    var m := new CachingMatcher(HASH_CONFIG, HashRegexes(), 100, s => 0);
    r := m.MatchImpl(NAMED_X, 0, 0, 0);
    assert m.Fresh(Key(NAMED_XY), 0) == Some(r);
    r := m.MatchImpl(NAMED_XY, 0, 0, 0);
  }
}
