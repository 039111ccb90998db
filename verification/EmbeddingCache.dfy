/** The LRU cache around an embedding provider: one inner call per batch, for the missing texts only.

    Recent lists every text ever used, least recently used first.  The cache is proved to hold
    exactly the last maxsize of them, for any sequence of batches, including batches larger than the
    cache and batches with repeated texts. */
module EmbeddingCache {
  import opened Assoc

  type Vector = seq<real>

  // ----- recency -----

  function Without(s: seq<string>, x: string): (r: seq<string>) {
    if s == [] then []
    else
      var n := |s| - 1;
      Without(s[..n], x) + if s[n] == x then [] else [s[n]]
  }

  /** Texts by last use, least recent first. */
  function Recent(log: seq<string>): (r: seq<string>) {
    if log == [] then []
    else
      var n := |log| - 1;
      Without(Recent(log[..n]), log[n]) + [log[n]]
  }

  lemma {:induction false} WithoutIn(s: seq<string>, x: string, y: string)
    ensures y in Without(s, x) <==> y in s && y != x
  {
    if s != [] {
      var n := |s| - 1;
      WithoutIn(s[..n], x, y);
      assert s == s[..n] + [s[n]];
    }
  }

  lemma InInit(s: seq<string>, y: string)
    requires s != []
    ensures y in s <==> y in s[..|s| - 1] || y == s[|s| - 1]
  {
    assert s == s[..|s| - 1] + [s[|s| - 1]];
  }

  lemma {:induction false} RecentIn(log: seq<string>, y: string)
    ensures y in Recent(log) <==> y in log
  {
    if log != [] {
      var n := |log| - 1;
      RecentIn(log[..n], y);
      WithoutIn(Recent(log[..n]), log[n], y);
      InInit(log, y);
    }
  }

  /** Position of the last use of x, or -1. */
  function LastUse(log: seq<string>, x: string): (i: int)
    ensures -1 <= i < |log|
  {
    if log == [] then -1
    else if log[|log| - 1] == x then |log| - 1
    else LastUse(log[..|log| - 1], x)
  }

  ghost predicate Rising(r: seq<string>, log: seq<string>) {
    forall i, j :: 0 <= i < j < |r| ==> LastUse(log, r[i]) < LastUse(log, r[j])
  }

  /** What Recent means: every used text once, ordered by its last use. */
  lemma {:induction false} RecentByLastUse(log: seq<string>)
    ensures forall x :: x in Recent(log) <==> x in log
    ensures Rising(Recent(log), log)
  {
    forall x ensures x in Recent(log) <==> x in log {
      RecentIn(log, x);
    }
    if log != [] {
      var n, x := |log| - 1, log[|log| - 1];
      RecentByLastUse(log[..n]);
      WithoutRising(Recent(log[..n]), x, log[..n]);
      WithoutIn(Recent(log[..n]), x, x);
      var r := Without(Recent(log[..n]), x);
      forall i | 0 <= i < |r| ensures LastUse(log, r[i]) == LastUse(log[..n], r[i]) {
        assert r[i] != x;
      }
    }
  }

  lemma {:induction false} WithoutRising(s: seq<string>, x: string, log: seq<string>)
    requires Rising(s, log)
    ensures Rising(Without(s, x), log)
  {
    if s != [] {
      var n := |s| - 1;
      WithoutRising(s[..n], x, log);
      var r := Without(s[..n], x);
      forall i | 0 <= i < |r| ensures LastUse(log, r[i]) < LastUse(log, s[n]) {
        WithoutIn(s[..n], x, r[i]);
        assert r[i] in s[..n];
      }
    }
  }

  function Last(s: seq<string>, n: nat): (r: seq<string>)
    ensures |r| == if |s| <= n then |s| else n
  {
    if |s| <= n then s else s[|s| - n..]
  }

  ghost predicate NoRepeats(s: seq<string>) {
    forall i, j :: 0 <= i < j < |s| ==> s[i] != s[j]
  }

  lemma {:induction false} WithoutSame(s: seq<string>, x: string)
    requires x !in s
    ensures Without(s, x) == s
  {
    if s != [] {
      WithoutSame(s[..|s| - 1], x);
      assert s == s[..|s| - 1] + [s[|s| - 1]];
    }
  }

  /** Removing an element removes it from each half. */
  lemma {:induction false} WithoutConcat(a: seq<string>, b: seq<string>, x: string)
    ensures Without(a + b, x) == Without(a, x) + Without(b, x)
  {
    if b == [] {
      assert a + b == a;
    } else {
      var n := |b| - 1;
      WithoutConcat(a, b[..n], x);
      assert (a + b)[..|a + b| - 1] == a + b[..n];
    }
  }

  lemma Push(s: seq<string>, x: string)
    requires NoRepeats(s) && x !in s
    ensures NoRepeats(s + [x])
  {
  }

  lemma {:induction false} WithoutKeepsOrder(s: seq<string>, x: string)
    requires NoRepeats(s)
    ensures NoRepeats(Without(s, x)) && |Without(s, x)| == |s| - if x in s then 1 else 0
  {
    if s != [] {
      var n := |s| - 1;
      WithoutKeepsOrder(s[..n], x);
      assert s == s[..n] + [s[n]] && s[n] !in s[..n];
      if s[n] != x {
        WithoutIn(s[..n], x, s[n]);
        Push(Without(s[..n], x), s[n]);
      }
    }
  }

  lemma {:induction false} RecentDistinct(log: seq<string>)
    ensures NoRepeats(Recent(log))
  {
    if log != [] {
      var n := |log| - 1;
      RecentDistinct(log[..n]);
      WithoutKeepsOrder(Recent(log[..n]), log[n]);
      WithoutIn(Recent(log[..n]), log[n], log[n]);
      Push(Without(Recent(log[..n]), log[n]), log[n]);
    }
  }

  lemma LastOfConcat(a: seq<string>, b: seq<string>)
    ensures Last(a + b, |b|) == b
  {
    if a == [] { assert a + b == b; }
  }

  lemma NotInFront(a: seq<string>, b: seq<string>, x: string)
    requires NoRepeats(a + b) && x in b
    ensures x !in a
  {
    var j :| 0 <= j < |b| && b[j] == x;
    assert (a + b)[|a| + j] == x;
    forall i | 0 <= i < |a| ensures a[i] != x {
      assert (a + b)[i] == a[i];
    }
  }

  /** Using a cached text moves it to the end of the window. */
  lemma TouchCached(r: seq<string>, m: nat, x: string)
    requires NoRepeats(r) && m <= |r| && x in Last(r, m)
    ensures Last(Without(r, x) + [x], m) == Without(Last(r, m), x) + [x]
  {
    var front, window := r[..|r| - m], Last(r, m);
    assert r == front + window;
    NotInFront(front, window, x);
    WithoutKeepsOrder(window, x);
    assert |Without(window, x) + [x]| == m;
    hide *;
    WithoutConcat(front, window, x);
    WithoutSame(front, x);
    var rest := Without(window, x);
    LastOfConcat(front, rest + [x]);
    Regroup(front, rest, [x]);
  }

  lemma Regroup(a: seq<string>, b: seq<string>, c: seq<string>)
    ensures a + b + c == a + (b + c)
  {
  }

  /** Inserting a text that is not cached widens the window by one, wherever it was before. */
  lemma TouchNew(r: seq<string>, m: nat, x: string)
    requires NoRepeats(r) && m <= |r| && x !in Last(r, m)
    ensures Last(Without(r, x) + [x], m + 1) == Last(r, m) + [x]
  {
    var front, window := r[..|r| - m], Last(r, m);
    assert r == front + window;
    hide *;
    WithoutConcat(front, window, x);
    WithoutSame(window, x);
    LastOfConcat(Without(front, x), window + [x]);
    Regroup(Without(front, x), window, [x]);
  }

  lemma RecentPush(log: seq<string>, x: string)
    ensures Recent(log + [x]) == Without(Recent(log), x) + [x]
  {
    assert (log + [x])[..|log|] == log;
  }

  // ----- what one batch uses -----

  function HitsOf(texts: seq<string>, cached: set<string>): seq<string> {
    if texts == [] then []
    else
      var n := |texts| - 1;
      HitsOf(texts[..n], cached) + if texts[n] in cached then [texts[n]] else []
  }

  function MissesOf(texts: seq<string>, cached: set<string>): (r: seq<string>)
    ensures |r| <= |texts|
  {
    if texts == [] then []
    else
      var n := |texts| - 1;
      var rest := MissesOf(texts[..n], cached);
      if texts[n] in cached || texts[n] in rest then rest else rest + [texts[n]]
  }

  /** The batch's uses in the order they count: cached texts as scanned, then the new ones. */
  function Uses(texts: seq<string>, cached: set<string>): seq<string> {
    HitsOf(texts, cached) + MissesOf(texts, cached)
  }

  function Names(d: Dict<string, Vector>): (r: seq<string>)
    ensures |r| == |d| && forall i :: 0 <= i < |r| ==> r[i] == d[i].0
  {
    seq(|d|, i requires 0 <= i < |d| => d[i].0)
  }

  /** The cached texts are the m most recent ones, each with its own embedding. */
  ghost predicate Window(cache: Dict<string, Vector>, log: seq<string>, embed: string -> Vector) {
    && |cache| <= |Recent(log)|
    && Names(cache) == Last(Recent(log), |cache|)
    && forall i :: 0 <= i < |cache| ==> cache[i].1 == embed(cache[i].0)
  }

  /** ... and nothing that could stay was dropped. */
  ghost predicate Full(cache: Dict<string, Vector>, log: seq<string>, maxsize: nat) {
    |cache| == |Recent(log)| || |cache| >= maxsize
  }

  /** So a cache that is never over its size holds exactly the maxsize most recently used texts. */
  lemma HoldsTheMostRecent(cache: Dict<string, Vector>, log: seq<string>, embed: string -> Vector, maxsize: nat)
    requires Window(cache, log, embed) && Full(cache, log, maxsize) && |cache| <= maxsize
    ensures Names(cache) == Last(Recent(log), maxsize)
    ensures forall x :: Has(cache, x) <==> x in Last(Recent(log), maxsize)
  {
    forall x ensures Has(cache, x) <==> x in Names(cache) {
      HasName(cache, x);
    }
  }

  function MoveToEnd(d: Dict<string, Vector>, x: string): Dict<string, Vector> {
    var i := Find(d, x);
    if i >= 0 then Del(d, x) + [d[i]] else d
  }

  lemma WindowDistinct(cache: Dict<string, Vector>, log: seq<string>, embed: string -> Vector)
    requires Window(cache, log, embed)
    ensures Distinct(cache)
  {
    RecentDistinct(log);
  }

  lemma HasName(d: Dict<string, Vector>, x: string)
    ensures Has(d, x) <==> x in Names(d)
  {
    if Has(d, x) { assert Names(d)[Find(d, x)] == x; }
  }

  lemma {:induction false} WithoutAt(s: seq<string>, i: nat)
    requires NoRepeats(s) && i < |s|
    ensures Without(s, s[i]) == RemoveAt(s, i)
  {
    var n := |s| - 1;
    if i == n {
      WithoutSame(s[..n], s[n]);
    } else {
      WithoutAt(s[..n], i);
      LaterRemoved(s, i);
    }
  }

  lemma LaterRemoved(s: seq<string>, i: nat)
    requires i < |s| - 1
    ensures RemoveAt(s, i) == RemoveAt(s[..|s| - 1], i) + [s[|s| - 1]]
  {
    hide RemoveAt;
  }

  lemma NamesMoved(d: Dict<string, Vector>, x: string)
    requires Distinct(d) && Has(d, x)
    ensures Names(MoveToEnd(d, x)) == Without(Names(d), x) + [x]
    ensures |MoveToEnd(d, x)| == |d|
  {
    var i := Find(d, x);
    assert MoveToEnd(d, x) == RemoveAt(d, i) + [d[i]];
    assert NoRepeats(Names(d));
    hide Find, Has, Distinct, MoveToEnd, RemoveAt, Without, NoRepeats;
    NamesPush(RemoveAt(d, i), d[i]);
    WithoutAt(Names(d), i);
    NamesRemoved(d, i);
  }

  lemma NamesPush(d: Dict<string, Vector>, e: (string, Vector))
    ensures Names(d + [e]) == Names(d) + [e.0]
  {
  }

  lemma NamesRemoved(d: Dict<string, Vector>, i: nat)
    requires i < |d|
    ensures Names(RemoveAt(d, i)) == RemoveAt(Names(d), i)
  {
    hide RemoveAt;
  }

  lemma OwnVectors(d: Dict<string, Vector>, x: string, embed: string -> Vector)
    requires Has(d, x) && forall i :: 0 <= i < |d| ==> d[i].1 == embed(d[i].0)
    ensures forall i :: 0 <= i < |MoveToEnd(d, x)| ==> MoveToEnd(d, x)[i].1 == embed(MoveToEnd(d, x)[i].0)
  {
    hide RemoveAt;
  }

  /** A hit: the window stays as wide, its text goes to the end. */
  lemma HitKeeps(cache: Dict<string, Vector>, log: seq<string>, embed: string -> Vector, x: string)
    requires Window(cache, log, embed) && Has(cache, x)
    ensures Window(MoveToEnd(cache, x), log + [x], embed) && |MoveToEnd(cache, x)| == |cache|
    ensures |Recent(log + [x])| == |Recent(log)|
  {
    WindowDistinct(cache, log, embed);
    RecentDistinct(log);
    HasName(cache, x);
    NamesMoved(cache, x);
    OwnVectors(cache, x, embed);
    hide MoveToEnd, Recent, Has, NoRepeats;
    RecentPush(log, x);
    TouchCached(Recent(log), |cache|, x);
    WithoutKeepsOrder(Recent(log), x);
  }

  lemma SameKeysMoved(d: Dict<string, Vector>, x: string, y: string)
    requires Distinct(d) && Has(d, x)
    ensures Has(MoveToEnd(d, x), y) <==> Has(d, y)
  {
    NamesMoved(d, x);
    HasName(d, x);
    HasName(d, y);
    HasName(MoveToEnd(d, x), y);
    WithoutIn(Names(d), x, y);
  }

  /** A miss: the window widens by the new text. */
  lemma MissKeeps(cache: Dict<string, Vector>, log: seq<string>, embed: string -> Vector, x: string, maxsize: nat)
    requires Window(cache, log, embed) && !Has(cache, x) && Full(cache, log, maxsize)
    ensures Window(cache + [(x, embed(x))], log + [x], embed) && Full(cache + [(x, embed(x))], log + [x], maxsize)
  {
    RecentDistinct(log);
    HasName(cache, x);
    hide Recent, Has, NoRepeats;
    RecentPush(log, x);
    TouchNew(Recent(log), |cache|, x);
    WithoutKeepsOrder(Recent(log), x);
    assert Names(cache + [(x, embed(x))]) == Names(cache) + [x];
  }

  // ----- the provider -----

  class CachedEmbeddingProvider {
    const embed: string -> Vector
    const maxsize: nat
    var cache: Dict<string, Vector>
    var hits: nat
    var misses: nat
    /** Every use since the last clear. */
    ghost var log: seq<string>

    /** The cache is exactly the maxsize most recently used texts (all of them while they fit). */
    ghost predicate Valid()
      reads this
    {
      Window(cache, log, embed) && Full(cache, log, maxsize) && |cache| <= maxsize && maxsize >= 1
    }

    constructor (embed: string -> Vector, maxsize: nat)
      requires maxsize >= 1
      ensures Valid() && log == [] && hits == 0 && misses == 0
      ensures this.embed == embed && this.maxsize == maxsize
    {
      this.embed, this.maxsize := embed, maxsize;
      cache, hits, misses, log := [], 0, 0, [];
    }

    /** The constructor, which refuses a maxsize below 1. */
    static method Create(embed: string -> Vector, maxsize: int) returns (r: Option<CachedEmbeddingProvider>)
      ensures r.Some? <==> maxsize >= 1
      ensures r.Some? ==> fresh(r.value) && r.value.Valid() && r.value.embed == embed && r.value.maxsize == maxsize
      ensures r.Some? ==> r.value.log == [] && r.value.hits == 0 && r.value.misses == 0
    {
      if maxsize < 1 {
        return None;
      }
      var provider := new CachedEmbeddingProvider(embed, maxsize);
      r := Some(provider);
    }

    /** Scan the batch: hits move to the end, the other texts are collected with their positions. */
    method Scan(texts: seq<string>) returns (results: seq<Option<Vector>>, missing: Dict<string, seq<nat>>)
      requires Valid()
      modifies this
      ensures Valid() && log == old(log) + HitsOf(texts, Keys(old(cache))) && Keys(cache) == Keys(old(cache))
      ensures misses == old(misses) && hits + |missing| == old(hits) + |texts|
      ensures |results| == |texts| && Distinct(missing)
      ensures Wanted(missing) == MissesOf(texts, Keys(old(cache))) && Absent(cache, missing, 0)
      ensures AnsweredUpTo(texts, results, missing, embed, |texts|)
    {
      results := seq(|texts|, _ => None);
      missing := [];
      ghost var cached := Keys(cache);
      for p := 0 to |texts|
        invariant Valid() && Keys(cache) == cached && |results| == |texts| && Distinct(missing)
        invariant Scanned(texts, p, cached, old(log), log, missing)
        invariant misses == old(misses) && hits + |missing| == old(hits) + p
        invariant AnsweredUpTo(texts, results, missing, embed, p)
      {
        hide Valid, Keys, AnsweredUpTo, Distinct, Scanned;
        InKeys(cache, texts[p]);
        if Find(cache, texts[p]) >= 0 {
          ScannedHit(texts, p, cached, old(log), log, missing);
          HitAnswer(texts, results, missing, embed, p);
          var vector := Hit(texts[p]);
          results := results[p := Some(vector)];
        } else {
          ScannedMiss(texts, p, cached, old(log), log, missing);
          missing := Miss(texts, results, missing, p);
        }
      }
      assert texts[..|texts|] == texts;
      MissingAbsent(cache, missing, texts);
    }

    /** One computed vector goes into the cache, as its newest entry. */
    method Store(text: string)
      requires Window(cache, log, embed) && Full(cache, log, maxsize) && !Has(cache, text)
      modifies this
      ensures Window(cache, log, embed) && Full(cache, log, maxsize)
      ensures cache == old(cache) + [(text, embed(text))] && log == old(log) + [text]
      ensures misses == old(misses) + 1 && hits == old(hits)
    {
      hide Full, Window, Has, MoveToEnd, Put;
      MissKeeps(cache, log, embed, text, maxsize);
      PutThenEnd(cache, text, embed(text));
      cache := MoveToEnd(Put(cache, text, embed(text)), text);
      misses := misses + 1;
      log := log + [text];
    }

    /** A cached text is used: it moves to the end. */
    method Hit(text: string) returns (vector: Vector)
      requires Valid() && Has(cache, text)
      modifies this
      ensures Valid() && vector == embed(text) && Keys(cache) == Keys(old(cache))
      ensures log == old(log) + [text] && hits == old(hits) + 1 && misses == old(misses)
    {
      hide Full, Window, MoveToEnd, Keys;
      HitWindow(cache, log, embed, maxsize, text);
      vector := cache[Find(cache, text)].1;
      cache := MoveToEnd(cache, text);
      hits := hits + 1;
      log := log + [text];
    }

    /** A text that is not cached: a repeated one counts as a hit, and its position is noted. */
    method Miss(texts: seq<string>, results: seq<Option<Vector>>, noted: Dict<string, seq<nat>>, p: nat)
      returns (missing: Dict<string, seq<nat>>)
      requires p < |texts| && |results| == |texts| && Distinct(noted) && AnsweredUpTo(texts, results, noted, embed, p)
      modifies this`hits
      ensures Distinct(missing) && AnsweredUpTo(texts, results, missing, embed, p + 1)
      ensures missing == Noted(noted, texts[p], p)
      ensures hits + |missing| == old(hits) + |noted| + 1
    {
      hide AnsweredUpTo, Distinct;
      InWanted(noted, texts[p]);
      if Find(noted, texts[p]) >= 0 {
        hits := hits + 1;
      }
      MissAnswer(texts, results, noted, embed, p);
      missing := Noted(noted, texts[p], p);
    }

    /** Store one computed vector and hand it to every position that asked for it. */
    method StoreOne(texts: seq<string>, answers: seq<Option<Vector>>, missing: Dict<string, seq<nat>>, i: nat)
      returns (results: seq<Option<Vector>>)
      requires Window(cache, log, embed) && Full(cache, log, maxsize)
      requires |answers| == |texts| && Distinct(missing) && i < |missing| && Absent(cache, missing, i)
      requires AnsweredUpTo(texts, answers, missing, embed, |texts|) && GivenBelow(texts, answers, missing, embed, i)
      modifies this
      ensures Window(cache, log, embed) && Full(cache, log, maxsize) && Absent(cache, missing, i + 1)
      ensures log == old(log) + [missing[i].0] && misses == old(misses) + 1 && hits == old(hits)
      ensures |results| == |texts| && AnsweredUpTo(texts, results, missing, embed, |texts|)
      ensures GivenBelow(texts, results, missing, embed, i + 1)
    {
      hide Full, Window, AnsweredUpTo, Absent, GivenBelow, Distinct, Has;
      OthersAbsent(cache, missing, i, embed(missing[i].0));
      Store(missing[i].0);
      results := HandOut(texts, answers, missing, embed, i);
    }

    /** Store the computed vectors and hand them to every position that asked. */
    method StoreAll(texts: seq<string>, answers: seq<Option<Vector>>, missing: Dict<string, seq<nat>>)
      returns (results: seq<Option<Vector>>)
      requires Window(cache, log, embed) && Full(cache, log, maxsize)
      requires |answers| == |texts| && Distinct(missing) && Absent(cache, missing, 0)
      requires AnsweredUpTo(texts, answers, missing, embed, |texts|)
      modifies this
      ensures Window(cache, log, embed) && Full(cache, log, maxsize)
      ensures log == old(log) + Wanted(missing) && misses == old(misses) + |missing| && hits == old(hits)
      ensures |results| == |texts| && AnsweredUpTo(texts, results, missing, embed, |texts|)
      ensures GivenBelow(texts, results, missing, embed, |missing|)
    {
      results := answers;
      ghost var names := Wanted(missing);
      NoneGiven(texts, results, missing, embed);
      hide Full, Window, AnsweredUpTo, Absent, GivenBelow, Distinct, Wanted;
      for i := 0 to |missing|
        invariant Window(cache, log, embed) && Full(cache, log, maxsize) && Absent(cache, missing, i)
        invariant log == old(log) + names[..i] && misses == old(misses) + i && hits == old(hits)
        invariant |results| == |texts| && AnsweredUpTo(texts, results, missing, embed, |texts|)
        invariant GivenBelow(texts, results, missing, embed, i)
      {
        results := StoreOne(texts, results, missing, i);
        OneMoreName(old(log), names, i);
      }
      assert names[..|missing|] == names;
    }

    /** Store and hand out, then evict. */
    method Fill(texts: seq<string>, answers: seq<Option<Vector>>, missing: Dict<string, seq<nat>>)
      returns (results: seq<Option<Vector>>)
      requires Valid() && |answers| == |texts| && Distinct(missing) && Absent(cache, missing, 0)
      requires AnsweredUpTo(texts, answers, missing, embed, |texts|)
      modifies this
      ensures Valid() && log == old(log) + Wanted(missing)
      ensures misses == old(misses) + |missing| && hits == old(hits)
      ensures |results| == |texts| && forall p :: 0 <= p < |texts| ==> results[p] == Some(embed(texts[p]))
    {
      hide Window, Full, AnsweredUpTo, GivenBelow, Absent;
      results := StoreAll(texts, answers, missing);
      AllGiven(texts, results, missing, embed);
      Trim();
    }

    /** Drop the oldest entries until the cache fits. */
    method Trim()
      requires Window(cache, log, embed) && Full(cache, log, maxsize) && maxsize >= 1
      modifies this`cache
      ensures Valid()
    {
      while |cache| > maxsize
        invariant Window(cache, log, embed) && Full(cache, log, maxsize)
      {
        Evict(cache, log, embed);
        cache := cache[1..];
      }
    }

    /** embed_batch: one vector per text, whatever was cached. */
    method EmbedBatch(texts: seq<string>) returns (vectors: seq<Vector>)
      requires Valid()
      modifies this
      ensures Valid() && log == old(log) + Uses(texts, Keys(old(cache)))
      ensures |vectors| == |texts| && forall p :: 0 <= p < |texts| ==> vectors[p] == embed(texts[p])
      ensures hits + misses == old(hits) + old(misses) + |texts|
      ensures misses == old(misses) + |MissesOf(texts, Keys(old(cache)))|
    {
      hide Valid, AnsweredUpTo, Absent, HitsOf, MissesOf, Keys;
      var results, missing := Scan(texts);
      if missing != [] {
        results := Fill(texts, results, missing);
      } else {
        AllGiven(texts, results, missing, embed);
      }
      vectors := seq(|texts|, p requires 0 <= p < |texts| => if results[p].Some? then results[p].value else []);
    }

    method Clear()
      requires Valid()
      modifies this
      ensures Valid() && log == [] && hits == 0 && misses == 0
    {
      cache, hits, misses, log := [], 0, 0, [];
    }
  }

  lemma OneMoreUse(texts: seq<string>, p: nat, cached: set<string>)
    requires p < |texts|
    ensures HitsOf(texts[..p + 1], cached) == HitsOf(texts[..p], cached) + if texts[p] in cached then [texts[p]] else []
    ensures var rest := MissesOf(texts[..p], cached);
      MissesOf(texts[..p + 1], cached) == if texts[p] in cached || texts[p] in rest then rest else rest + [texts[p]]
  {
    assert texts[..p + 1][..p] == texts[..p];
  }

  /** What the scan has used and collected of the first p texts. */
  ghost predicate Scanned(texts: seq<string>, p: nat, cached: set<string>, start: seq<string>, log: seq<string>,
                          missing: Dict<string, seq<nat>>)
    requires p <= |texts|
  {
    log == start + HitsOf(texts[..p], cached) && Wanted(missing) == MissesOf(texts[..p], cached)
  }

  lemma ScannedHit(texts: seq<string>, p: nat, cached: set<string>, start: seq<string>, log: seq<string>,
                   missing: Dict<string, seq<nat>>)
    requires p < |texts| && texts[p] in cached && Scanned(texts, p, cached, start, log, missing)
    ensures Scanned(texts, p + 1, cached, start, log + [texts[p]], missing)
  {
    OneMoreUse(texts, p, cached);
  }

  lemma ScannedMiss(texts: seq<string>, p: nat, cached: set<string>, start: seq<string>, log: seq<string>,
                    missing: Dict<string, seq<nat>>)
    requires p < |texts| && texts[p] !in cached && Distinct(missing)
    requires Scanned(texts, p, cached, start, log, missing)
    ensures Scanned(texts, p + 1, cached, start, log, Noted(missing, texts[p], p))
  {
    OneMoreUse(texts, p, cached);
    NotedWanted(missing, texts[p], p);
  }

  lemma {:induction false} MissesNew(texts: seq<string>, cached: set<string>)
    ensures forall x :: x in MissesOf(texts, cached) ==> x !in cached
  {
    if texts != [] { MissesNew(texts[..|texts| - 1], cached); }
  }

  lemma MissingAbsent(cache: Dict<string, Vector>, missing: Dict<string, seq<nat>>, texts: seq<string>)
    requires Wanted(missing) == MissesOf(texts, Keys(cache))
    ensures Absent(cache, missing, 0)
  {
    MissesNew(texts, Keys(cache));
    forall i | 0 <= i < |missing| ensures !Has(cache, missing[i].0) {
      assert Wanted(missing)[i] in MissesOf(texts, Keys(cache));
      InKeys(cache, missing[i].0);
    }
  }

  /** A new entry is already at the end. */
  lemma PutThenEnd(cache: Dict<string, Vector>, text: string, v: Vector)
    requires !Has(cache, text)
    ensures MoveToEnd(Put(cache, text, v), text) == cache + [(text, v)]
  {
    var d := cache + [(text, v)];
    assert d[|cache|].0 == text;
    assert Find(d, text) == |cache|;
  }

  lemma OthersAbsent(cache: Dict<string, Vector>, missing: Dict<string, seq<nat>>, i: nat, v: Vector)
    requires i < |missing| && Distinct(missing) && Absent(cache, missing, i)
    ensures !Has(cache, missing[i].0) && Absent(cache + [(missing[i].0, v)], missing, i + 1)
  {
    var d := cache + [(missing[i].0, v)];
    forall j | i < j < |missing| ensures !Has(d, missing[j].0) {
      assert !Has(cache, missing[j].0);
    }
  }

  /** Dropping the oldest entry narrows the window. */
  lemma Evict(cache: Dict<string, Vector>, log: seq<string>, embed: string -> Vector)
    requires Window(cache, log, embed) && cache != []
    ensures Window(cache[1..], log, embed)
  {
    assert Names(cache[1..]) == Names(cache)[1..];
  }

  method HandOut(texts: seq<string>, answers: seq<Option<Vector>>, missing: Dict<string, seq<nat>>,
                 embed: string -> Vector, i: nat) returns (results: seq<Option<Vector>>)
    requires i < |missing| && |answers| == |texts| && AnsweredUpTo(texts, answers, missing, embed, |texts|)
    requires GivenBelow(texts, answers, missing, embed, i)
    ensures |results| == |texts| && AnsweredUpTo(texts, results, missing, embed, |texts|)
    ensures GivenBelow(texts, results, missing, embed, i + 1)
  {
    results := answers;
    var (text, positions) := missing[i];
    assert PositionsOf(texts, missing[i]);
    for k := 0 to |positions|
      invariant |results| == |texts|
      invariant forall q: nat :: Given(texts, answers, embed, q) ==> Given(texts, results, embed, q)
      invariant forall m :: 0 <= m < k ==> Given(texts, results, embed, positions[m])
    {
      results := results[positions[k] := Some(embed(text))];
    }
    forall q | 0 <= q < |texts| ensures Answered(texts, results, missing, embed, q) {
      assert Answered(texts, answers, missing, embed, q);
    }
  }

  lemma NoneGiven(texts: seq<string>, results: seq<Option<Vector>>, missing: Dict<string, seq<nat>>,
                  embed: string -> Vector)
    ensures GivenBelow(texts, results, missing, embed, 0)
  {
  }

  lemma OneMoreName(start: seq<string>, names: seq<string>, i: nat)
    requires i < |names|
    ensures start + names[..i] + [names[i]] == start + names[..i + 1]
  {
  }

  lemma AllGiven(texts: seq<string>, results: seq<Option<Vector>>, missing: Dict<string, seq<nat>>,
                 embed: string -> Vector)
    requires |results| == |texts| && AnsweredUpTo(texts, results, missing, embed, |texts|)
    requires GivenBelow(texts, results, missing, embed, |missing|)
    ensures forall p :: 0 <= p < |texts| ==> results[p] == Some(embed(texts[p]))
  {
    forall p | 0 <= p < |texts| ensures results[p] == Some(embed(texts[p])) {
      assert Answered(texts, results, missing, embed, p);
      if i :| 0 <= i < |missing| && missing[i].0 == texts[p] && p in missing[i].1 {
        var k :| 0 <= k < |missing[i].1| && missing[i].1[k] == p;
        assert Given(texts, results, embed, missing[i].1[k]);
      }
    }
  }

  /** The position joins those waiting for the text. */
  function Noted(missing: Dict<string, seq<nat>>, text: string, p: nat): Dict<string, seq<nat>> {
    var j := Find(missing, text);
    Put(missing, text, if j >= 0 then missing[j].1 + [p] else [p])
  }

  lemma NotedWanted(missing: Dict<string, seq<nat>>, text: string, p: nat)
    requires Distinct(missing)
    ensures Wanted(Noted(missing, text, p)) ==
            if text in Wanted(missing) then Wanted(missing) else Wanted(missing) + [text]
  {
    InWanted(missing, text);
  }

  lemma InWanted(missing: Dict<string, seq<nat>>, text: string)
    ensures text in Wanted(missing) <==> Find(missing, text) >= 0
  {
    if Find(missing, text) >= 0 { assert Wanted(missing)[Find(missing, text)] == text; }
  }

  lemma HitWindow(cache: Dict<string, Vector>, log: seq<string>, embed: string -> Vector, maxsize: nat, text: string)
    requires Window(cache, log, embed) && Full(cache, log, maxsize) && Has(cache, text)
    ensures Window(MoveToEnd(cache, text), log + [text], embed) && Full(MoveToEnd(cache, text), log + [text], maxsize)
    ensures |MoveToEnd(cache, text)| == |cache| && Keys(MoveToEnd(cache, text)) == Keys(cache)
    ensures cache[Find(cache, text)].1 == embed(text)
  {
    HitKeeps(cache, log, embed, text);
    WindowDistinct(cache, log, embed);
    forall y ensures y in Keys(MoveToEnd(cache, text)) <==> y in Keys(cache) {
      SameKeysMoved(cache, text, y);
      InKeys(cache, y);
      InKeys(MoveToEnd(cache, text), y);
    }
  }

  lemma HitAnswer(texts: seq<string>, results: seq<Option<Vector>>, missing: Dict<string, seq<nat>>,
                  embed: string -> Vector, p: nat)
    requires p < |texts| && |results| == |texts| && AnsweredUpTo(texts, results, missing, embed, p)
    ensures AnsweredUpTo(texts, results[p := Some(embed(texts[p]))], missing, embed, p + 1)
  {
    var results' := results[p := Some(embed(texts[p]))];
    forall q | 0 <= q < p ensures Answered(texts, results', missing, embed, q) {
      assert Answered(texts, results, missing, embed, q);
    }
  }

  lemma MissAnswer(texts: seq<string>, results: seq<Option<Vector>>, missing: Dict<string, seq<nat>>,
                   embed: string -> Vector, p: nat)
    requires p < |texts| && |results| == |texts| && Distinct(missing) && AnsweredUpTo(texts, results, missing, embed, p)
    ensures var missing' := Noted(missing, texts[p], p);
      Distinct(missing') && AnsweredUpTo(texts, results, missing', embed, p + 1)
  {
    PutKeys(missing, texts[p], [p]);
    var j := Find(missing, texts[p]);
    var missing' := Noted(missing, texts[p], p);
    var k := if j >= 0 then j else |missing|;
    assert missing'[k].0 == texts[p] && p in missing'[k].1;
    forall q | 0 <= q < p ensures Answered(texts, results, missing', embed, q) {
      assert Answered(texts, results, missing, embed, q);
      if i :| 0 <= i < |missing| && missing[i].0 == texts[q] && q in missing[i].1 {
        assert missing'[i].0 == texts[q] && q in missing'[i].1;
      }
    }
  }

  function Wanted(missing: Dict<string, seq<nat>>): (r: seq<string>)
    ensures |r| == |missing| && forall i :: 0 <= i < |r| ==> r[i] == missing[i].0
  {
    seq(|missing|, i requires 0 <= i < |missing| => missing[i].0)
  }

  /** The position has its vector, or waits in missing. */
  ghost predicate Answered(texts: seq<string>, results: seq<Option<Vector>>, missing: Dict<string, seq<nat>>,
                           embed: string -> Vector, p: nat)
    requires p < |texts| && |results| == |texts|
  {
    Given(texts, results, embed, p) || exists i :: 0 <= i < |missing| && missing[i].0 == texts[p] && p in missing[i].1
  }

  /** The first n positions are answered, and the noted positions are positions of their text. */
  ghost predicate AnsweredUpTo(texts: seq<string>, results: seq<Option<Vector>>, missing: Dict<string, seq<nat>>,
                               embed: string -> Vector, n: nat)
    requires n <= |texts| && |results| == |texts|
  {
    && (forall q :: 0 <= q < n ==> Answered(texts, results, missing, embed, q))
    && (forall i :: 0 <= i < |missing| ==> PositionsOf(texts, missing[i]))
  }

  ghost predicate PositionsOf(texts: seq<string>, e: (string, seq<nat>)) {
    forall k :: 0 <= k < |e.1| ==> e.1[k] < |texts| && texts[e.1[k]] == e.0
  }

  ghost predicate Given(texts: seq<string>, results: seq<Option<Vector>>, embed: string -> Vector, p: nat) {
    p < |texts| && p < |results| && results[p] == Some(embed(texts[p]))
  }

  /** From the i-th on, the missing texts are not cached. */
  ghost predicate Absent(cache: Dict<string, Vector>, missing: Dict<string, seq<nat>>, i: nat) {
    forall j :: i <= j < |missing| ==> !Has(cache, missing[j].0)
  }

  ghost predicate GivenBelow(texts: seq<string>, results: seq<Option<Vector>>, missing: Dict<string, seq<nat>>,
                             embed: string -> Vector, i: nat) {
    forall j, k :: 0 <= j < i && j < |missing| && 0 <= k < |missing[j].1| ==>
      Given(texts, results, embed, missing[j].1[k])
  }

  // ----- hits before misses, or in the order asked for -----

  /** The cached texts after these uses. */
  function Kept(log: seq<string>, maxsize: nat): seq<string> {
    Last(Recent(log), maxsize)
  }

  function Members(s: seq<string>): set<string> {
    set x | x in s
  }

  /** A batch counts its hits before its misses.  Counting them in the order asked for would leave the same
      texts cached, whatever was cached before, if and only if the batch's different texts all fit. */
  lemma SameCacheIff(texts: seq<string>, maxsize: nat)
    requires maxsize >= 1
    ensures (forall log: seq<string> :: Members(Kept(log + Uses(texts, Members(Kept(log, maxsize))), maxsize)) ==
                                        Members(Kept(log + texts, maxsize)))
            <==> |Recent(texts)| <= maxsize
  {
    if |Recent(texts)| <= maxsize {
      forall log: seq<string>
        ensures Members(Kept(log + Uses(texts, Members(Kept(log, maxsize))), maxsize)) ==
                Members(Kept(log + texts, maxsize))
      {
        SameWhenFitting(log, Uses(texts, Members(Kept(log, maxsize))), texts, maxsize) by {
          UsesSame(texts, Members(Kept(log, maxsize)));
        }
      }
    } else {
      var x := texts[|texts| - 1];
      LastAskedLost(texts, maxsize, x);
    }
  }

  function Minus(s: seq<string>, gone: set<string>): (r: seq<string>) {
    if s == [] then []
    else
      var n := |s| - 1;
      Minus(s[..n], gone) + if s[n] in gone then [] else [s[n]]
  }

  lemma {:induction false} MinusWithout(s: seq<string>, gone: set<string>, x: string)
    ensures Without(Minus(s, gone), x) == Minus(s, gone + {x})
  {
    if s != [] {
      var n := |s| - 1;
      MinusWithout(s[..n], gone, x);
      var front := Minus(s[..n], gone);
      WithoutLast(front, s[n], x);
      assert front + [] == front && Without(front, x) + [] == Without(front, x);
      hide Without;
    }
  }

  lemma WithoutLast(s: seq<string>, y: string, x: string)
    ensures Without(s + [y], x) == Without(s, x) + if y == x then [] else [y]
  {
    assert (s + [y])[..|s|] == s;
  }

  lemma {:induction false} MinusNone(s: seq<string>)
    ensures Minus(s, {}) == s
  {
    if s != [] {
      MinusNone(s[..|s| - 1]);
      assert s == s[..|s| - 1] + [s[|s| - 1]];
    }
  }

  /** The later uses come last; of the earlier ones those stay that were not used again. */
  lemma {:induction false} RecentConcat(a: seq<string>, b: seq<string>)
    ensures Recent(a + b) == Minus(Recent(a), Members(b)) + Recent(b)
  {
    if b == [] {
      assert a + b == a && Members(b) == {};
      MinusNone(Recent(a));
    } else {
      var n := |b| - 1;
      var x := b[n];
      RecentConcat(a, b[..n]);
      assert b == b[..n] + [x] && a + b == a + b[..n] + [x];
      assert Members(b) == Members(b[..n]) + {x};
      hide Members, Minus, Without;
      RecentPush(a + b[..n], x);
      RecentPush(b[..n], x);
      WithoutConcat(Minus(Recent(a), Members(b[..n])), Recent(b[..n]), x);
      MinusWithout(Recent(a), Members(b[..n]), x);
      Regroup(Minus(Recent(a), Members(b)), Without(Recent(b[..n]), x), [x]);
    }
  }

  lemma {:induction false} MemberCount(s: seq<string>)
    requires NoRepeats(s)
    ensures |Members(s)| == |s|
  {
    if s != [] {
      var n := |s| - 1;
      MemberCount(s[..n]);
      assert s == s[..n] + [s[n]];
      assert Members(s) == Members(s[..n]) + {s[n]};
    }
  }

  lemma RecentMembers(log: seq<string>)
    ensures Members(Recent(log)) == Members(log) && |Recent(log)| == |Members(log)|
  {
    RecentByLastUse(log);
    RecentDistinct(log);
    MemberCount(Recent(log));
  }

  lemma LastOfSuffix(a: seq<string>, b: seq<string>, n: nat)
    ensures |b| <= n ==> Last(a + b, n) == Last(a, n - |b|) + b
    ensures |b| >= n ==> Last(a + b, n) == Last(b, n)
  {
  }

  lemma SameWhenFitting(log: seq<string>, used: seq<string>, texts: seq<string>, maxsize: nat)
    requires Members(used) == Members(texts) && |Recent(texts)| <= maxsize
    ensures Members(Kept(log + used, maxsize)) == Members(Kept(log + texts, maxsize))
  {
    RecentMembers(used);
    RecentMembers(texts);
    RecentConcat(log, used);
    RecentConcat(log, texts);
    var front := Minus(Recent(log), Members(texts));
    hide Recent, Last, Minus;
    LastOfSuffix(front, Recent(used), maxsize);
    LastOfSuffix(front, Recent(texts), maxsize);
    MembersConcat(Last(front, maxsize - |Recent(texts)|), Recent(used));
    MembersConcat(Last(front, maxsize - |Recent(texts)|), Recent(texts));
  }

  lemma MembersConcat(a: seq<string>, b: seq<string>)
    ensures Members(a + b) == Members(a) + Members(b)
  {
  }

  lemma UsesSame(texts: seq<string>, cached: set<string>)
    ensures Members(Uses(texts, cached)) == Members(texts)
  {
    HitsMembers(texts, cached);
    MissesMembers(texts, cached);
    MembersConcat(HitsOf(texts, cached), MissesOf(texts, cached));
    hide HitsOf, MissesOf, Members;
  }

  lemma OneMember(s: seq<string>)
    requires s != []
    ensures Members(s) == Members(s[..|s| - 1]) + {s[|s| - 1]}
  {
    assert s == s[..|s| - 1] + [s[|s| - 1]];
  }

  lemma {:induction false} HitsMembers(texts: seq<string>, cached: set<string>)
    ensures Members(HitsOf(texts, cached)) == Members(texts) * cached
  {
    if texts != [] {
      var n := |texts| - 1;
      HitsMembers(texts[..n], cached);
      OneMember(texts);
      MembersConcat(HitsOf(texts[..n], cached), [texts[n]]);
      assert Members([texts[n]]) == {texts[n]};
      assert HitsOf(texts[..n], cached) + [] == HitsOf(texts[..n], cached);
      hide Members;
    }
  }

  lemma {:induction false} MissesMembers(texts: seq<string>, cached: set<string>)
    ensures Members(MissesOf(texts, cached)) == Members(texts) - cached && NoRepeats(MissesOf(texts, cached))
  {
    if texts != [] {
      var n := |texts| - 1;
      MissesMembers(texts[..n], cached);
      OneMember(texts);
      MembersConcat(MissesOf(texts[..n], cached), [texts[n]]);
      assert Members([texts[n]]) == {texts[n]};
    }
  }

  lemma {:induction false} RecentOfDistinct(s: seq<string>)
    requires NoRepeats(s)
    ensures Recent(s) == s
  {
    if s != [] {
      var n := |s| - 1;
      RecentOfDistinct(s[..n]);
      WithoutSame(s[..n], s[n]);
      assert s == s[..n] + [s[n]];
    }
  }

  /** The text asked for last, and the only one cached, is lost to the new ones. */
  lemma LastAskedLost(texts: seq<string>, maxsize: nat, x: string)
    requires 1 <= maxsize < |Recent(texts)| && texts != [] && x == texts[|texts| - 1]
    ensures var cached := Members(Kept([x], maxsize));
      x !in Members(Kept([x] + Uses(texts, cached), maxsize)) && x in Members(Kept([x] + texts, maxsize))
  {
    OneKept(x, maxsize);
    var misses := MissesOf(texts, {x});
    MissesMembers(texts, {x});
    MemberCount(misses);
    RecentMembers(texts);
    OneMember(texts);
    RecentOfDistinct(misses);
    KeptSuffix([x] + HitsOf(texts, {x}), misses, maxsize);
    Regroup([x], HitsOf(texts, {x}), misses);
    LastIn(misses, maxsize, x);
    EndsKept([x], texts, maxsize);
    hide Recent, Last, HitsOf, MissesOf;
  }

  lemma OneKept(x: string, maxsize: nat)
    requires maxsize >= 1
    ensures Members(Kept([x], maxsize)) == {x}
  {
    RecentOfDistinct([x]);
  }

  lemma KeptSuffix(a: seq<string>, b: seq<string>, maxsize: nat)
    requires Recent(b) == b && |b| >= maxsize
    ensures Kept(a + b, maxsize) == Last(b, maxsize)
  {
    RecentConcat(a, b);
    LastOfSuffix(Minus(Recent(a), Members(b)), b, maxsize);
  }

  lemma LastIn(s: seq<string>, n: nat, x: string)
    requires x !in Members(s)
    ensures x !in Members(Last(s, n))
  {
  }

  /** The text used last is kept. */
  lemma EndsKept(log: seq<string>, texts: seq<string>, maxsize: nat)
    requires texts != [] && maxsize >= 1
    ensures texts[|texts| - 1] in Members(Kept(log + texts, maxsize))
  {
    var all, n := log + texts, |log + texts| - 1;
    var r := Recent(all);
    assert all[n] == texts[|texts| - 1] && r[|r| - 1] == all[n];
    hide Recent;
    assert Last(r, maxsize)[|Last(r, maxsize)| - 1] == all[n];
  }

  /** Room for one text: "a" is cached and asked for after "b", and "b" is what stays. */
  method LostExample(embed: string -> Vector) returns (c: CachedEmbeddingProvider)
    ensures c.Valid() && c.maxsize == 1 && Names(c.cache) == ["b"]
  {
    hide Window, Full, Uses, Recent, Last;
    c := new CachedEmbeddingProvider(embed, 1);
    NothingCached(c.cache, embed);
    OnlyUses();
    var first := c.EmbedBatch(["a"]);
    HoldsTheMostRecent(c.cache, c.log, embed, 1);
    LastUsed([], "a");
    assert [] + ["a"] == ["a"];
    OnlyName(c.cache, "a");
    var second := c.EmbedBatch(["b", "a"]);
    HoldsTheMostRecent(c.cache, c.log, embed, 1);
    LastUsed(["a", "a"], "b");
    assert ["a"] + ["a", "b"] == ["a", "a"] + ["b"];
  }

  lemma NothingCached(cache: Dict<string, Vector>, embed: string -> Vector)
    requires Window(cache, [], embed)
    ensures Keys(cache) == {}
  {
  }

  lemma OnlyUses()
    ensures Uses(["a"], {}) == ["a"] && Uses(["b", "a"], {"a"}) == ["a", "b"]
  {
    assert ["a"][..0] == [] && ["b", "a"][..1] == ["b"] && ["b"][..0] == [];
    assert HitsOf([], {}) == [] && MissesOf([], {}) == [];
    assert HitsOf(["b"], {"a"}) == [] && MissesOf(["b"], {"a"}) == ["b"];
  }

  lemma LastUsed(log: seq<string>, x: string)
    ensures Last(Recent(log + [x]), 1) == [x]
  {
    RecentPush(log, x);
    LastOfConcat(Without(Recent(log), x), [x]);
  }

  lemma OnlyName(d: Dict<string, Vector>, x: string)
    requires Names(d) == [x]
    ensures Keys(d) == {x}
  {
    assert d[0].0 == x;
  }
}
