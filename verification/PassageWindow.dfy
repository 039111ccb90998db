/** The window of a long memory that answers the query best.

    The query's terms found in the memory are given, as hits; the boundary pattern is a parameter. */
module PassageWindow {
  import opened Assoc

  /** A query term at a position of the memory. */
  datatype Hit = Hit(pos: nat, stem: string)

  /** Hits come from left to right, inside the memory. */
  ghost predicate InText(hits: seq<Hit>, length: nat) {
    && (forall i, j :: 0 <= i < j < |hits| ==> hits[i].pos < hits[j].pos)
    && (forall i :: 0 <= i < |hits| ==> hits[i].pos < length)
  }

  // ----- weights -----

  /** How often a stem occurs among hits[lo..hi]. */
  function Count(hits: seq<Hit>, lo: nat, hi: nat, stem: string): nat
    requires lo <= hi <= |hits|
    decreases hi
  {
    if lo == hi then 0 else Count(hits, lo, hi - 1, stem) + if hits[hi - 1].stem == stem then 1 else 0
  }

  /** The stems of the first n hits, each once. */
  function Stems(hits: seq<Hit>, n: nat): (r: seq<string>)
    requires n <= |hits|
    ensures forall a, b :: 0 <= a < b < |r| ==> r[a] != r[b]
    ensures forall i :: 0 <= i < n ==> hits[i].stem in r
  {
    if n == 0 then []
    else
      var r := Stems(hits, n - 1);
      if hits[n - 1].stem in r then r else r + [hits[n - 1].stem]
  }

  /** Rare terms weigh more: 1 / occurrences. */
  function Weight(hits: seq<Hit>, stem: string): real {
    var n := Count(hits, 0, |hits|, stem);
    if n == 0 then 0.0 else 1.0 / n as real
  }

  /** The distinct terms' weights, added up. */
  function Total(hits: seq<Hit>, stems: seq<string>, present: set<string>): real {
    if stems == [] then 0.0
    else
      var s := stems[|stems| - 1];
      Total(hits, stems[..|stems| - 1], present) + if s in present then Weight(hits, s) else 0.0
  }

  function Score(hits: seq<Hit>, present: set<string>): real {
    Total(hits, Stems(hits, |hits|), present)
  }

  function Present(hits: seq<Hit>, lo: nat, hi: nat): set<string>
    requires hi <= |hits|
  {
    set k | lo <= k < hi :: hits[k].stem
  }

  lemma {:induction false} TotalSame(hits: seq<Hit>, stems: seq<string>, a: set<string>, x: string)
    requires x !in stems
    ensures Total(hits, stems, a + {x}) == Total(hits, stems, a)
  {
    if stems != [] { TotalSame(hits, stems[..|stems| - 1], a, x); }
  }

  lemma {:induction false} TotalPlus(hits: seq<Hit>, stems: seq<string>, a: set<string>, x: string)
    requires x !in a && x in stems && forall i, j :: 0 <= i < j < |stems| ==> stems[i] != stems[j]
    ensures Total(hits, stems, a + {x}) == Total(hits, stems, a) + Weight(hits, x)
  {
    var n := |stems| - 1;
    assert stems == stems[..n] + [stems[n]];
    if stems[n] == x { TotalSame(hits, stems[..n], a, x); } else { TotalPlus(hits, stems[..n], a, x); }
  }

  lemma {:induction false} TotalMonotone(hits: seq<Hit>, stems: seq<string>, a: set<string>, b: set<string>)
    requires a <= b
    ensures 0.0 <= Total(hits, stems, a) <= Total(hits, stems, b)
  {
    if stems != [] { TotalMonotone(hits, stems[..|stems| - 1], a, b); }
  }

  lemma {:induction false} CountPresent(hits: seq<Hit>, lo: nat, hi: nat, stem: string)
    requires lo <= hi <= |hits|
    ensures Count(hits, lo, hi, stem) > 0 <==> stem in Present(hits, lo, hi)
    decreases hi
  {
    if lo < hi {
      CountPresent(hits, lo, hi - 1, stem);
      if hits[hi - 1].stem == stem { assert stem in Present(hits, lo, hi); }
    }
  }

  lemma {:induction false} CountFront(hits: seq<Hit>, lo: nat, hi: nat, stem: string)
    requires lo < hi <= |hits|
    ensures Count(hits, lo, hi, stem) == Count(hits, lo + 1, hi, stem) + if hits[lo].stem == stem then 1 else 0
    decreases hi
  {
    if lo + 1 < hi { CountFront(hits, lo, hi - 1, stem); }
  }

  // ----- the sliding span -----

  function Get(inside: map<string, nat>, stem: string): nat {
    if stem in inside then inside[stem] else 0
  }

  ghost predicate Counted(hits: seq<Hit>, i: nat, j: nat, inside: map<string, nat>) {
    i <= j <= |hits| && forall s :: Get(inside, s) == Count(hits, i, j, s)
  }

  /** inside counts the hits from i to j, and score is the weight of the terms among them. */
  ghost predicate Tallied(hits: seq<Hit>, i: nat, j: nat, inside: map<string, nat>, score: real) {
    Counted(hits, i, j, inside) && score == Score(hits, Present(hits, i, j))
  }

  lemma ScorePlus(hits: seq<Hit>, a: set<string>, k: nat)
    requires k < |hits| && hits[k].stem !in a
    ensures Score(hits, a + {hits[k].stem}) == Score(hits, a) + Weight(hits, hits[k].stem)
  {
    TotalPlus(hits, Stems(hits, |hits|), a, hits[k].stem);
  }

  /** Take in the hit at j. */
  lemma Enter(hits: seq<Hit>, i: nat, j: nat, inside: map<string, nat>, score: real)
    requires j < |hits| && Tallied(hits, i, j, inside, score)
    ensures var s := hits[j].stem; var inside' := inside[s := Get(inside, s) + 1];
      Tallied(hits, i, j + 1, inside', if inside'[s] == 1 then score + Weight(hits, s) else score)
  {
    var s := hits[j].stem;
    var before := Present(hits, i, j);
    CountPresent(hits, i, j, s);
    assert Present(hits, i, j + 1) == before + {s};
    if s !in before { ScorePlus(hits, before, j); } else { assert before + {s} == before; }
    EnterCount(hits, i, j, inside);
    hide Score, Present, Weight, Count;
  }

  lemma EnterCount(hits: seq<Hit>, i: nat, j: nat, inside: map<string, nat>)
    requires j < |hits| && Counted(hits, i, j, inside)
    ensures var s := hits[j].stem; Counted(hits, i, j + 1, inside[s := Get(inside, s) + 1])
    ensures Get(inside, hits[j].stem) == Count(hits, i, j, hits[j].stem)
  {
    var s := hits[j].stem;
    var inside' := inside[s := Get(inside, s) + 1];
    forall x ensures Get(inside', x) == Count(hits, i, j + 1, x) {
      assert Get(inside, x) == Count(hits, i, j, x);
    }
  }

  /** Let go of the hit at i. */
  lemma Leave(hits: seq<Hit>, i: nat, j: nat, inside: map<string, nat>, score: real)
    requires i < j && Tallied(hits, i, j, inside, score)
    ensures var s := hits[i].stem;
      && s in inside && inside[s] > 0
      && var inside' := inside[s := inside[s] - 1];
         Tallied(hits, i + 1, j, inside', if inside'[s] == 0 then score - Weight(hits, s) else score)
  {
    var s := hits[i].stem;
    var after := Present(hits, i + 1, j);
    CountPresent(hits, i + 1, j, s);
    assert Present(hits, i, j) == after + {s};
    if s !in after { ScorePlus(hits, after, i); } else { assert after + {s} == after; }
    LeaveCount(hits, i, j, inside);
    hide Score, Present, Weight, Count;
  }

  lemma LeaveCount(hits: seq<Hit>, i: nat, j: nat, inside: map<string, nat>)
    requires i < j && Counted(hits, i, j, inside)
    ensures var s := hits[i].stem;
      s in inside && inside[s] == Count(hits, i + 1, j, s) + 1 && Counted(hits, i + 1, j, inside[s := inside[s] - 1])
  {
    var s := hits[i].stem;
    CountFront(hits, i, j, s);
    assert Get(inside, s) == Count(hits, i, j, s);
    var inside' := inside[s := inside[s] - 1];
    forall x ensures Get(inside', x) == Count(hits, i + 1, j, x) {
      CountFront(hits, i, j, x);
      assert Get(inside, x) == Count(hits, i, j, x);
    }
  }

  /** j is where the span of size characters from hit i ends. */
  ghost predicate SpanEnd(hits: seq<Hit>, i: nat, j: nat, size: nat) {
    && i < j <= |hits|
    && (forall k :: i <= k < j ==> hits[k].pos < hits[i].pos + size)
    && (j < |hits| ==> hits[j].pos >= hits[i].pos + size)
  }

  /** Of the spans that start at the first n hits, the one from i to j is the first with the highest score. */
  ghost predicate BestUpTo(hits: seq<Hit>, n: nat, size: nat, i: nat, j: nat) {
    && i < n && SpanEnd(hits, i, j, size)
    && (forall a, b :: 0 <= a < n && SpanEnd(hits, a, b, size) ==>
          Score(hits, Present(hits, a, b)) <= Score(hits, Present(hits, i, j)))
    && (forall a, b :: 0 <= a < i && SpanEnd(hits, a, b, size) ==>
          Score(hits, Present(hits, a, b)) < Score(hits, Present(hits, i, j)))
  }

  /** The best of the spans that start at the first n hits, and its score; -1 before the first. */
  ghost predicate BestYet(hits: seq<Hit>, n: nat, size: nat, first: nat, last: nat, best: real) {
    if n == 0 then best == -1.0
    else BestUpTo(hits, n, size, first, last) && best == Score(hits, Present(hits, first, last))
  }

  lemma NoneYet(hits: seq<Hit>, size: nat)
    ensures BestYet(hits, 0, size, 0, 0, -1.0)
  {
  }

  lemma BestAtLast(hits: seq<Hit>, n: nat, size: nat, first: nat, last: nat, best: real)
    requires n > 0 && BestYet(hits, n, size, first, last, best)
    ensures BestUpTo(hits, n, size, first, last)
  {
  }

  /** One end of a span only. */
  lemma OneEnd(hits: seq<Hit>, i: nat, j: nat, k: nat, size: nat)
    requires SpanEnd(hits, i, j, size) && SpanEnd(hits, i, k, size)
    ensures j == k
  {
  }

  /** Take in one hit. */
  method TakeIn(hits: seq<Hit>, i: nat, j: nat, inside0: map<string, nat>, score0: real)
    returns (inside: map<string, nat>, score: real)
    requires j < |hits| && Tallied(hits, i, j, inside0, score0)
    ensures Tallied(hits, i, j + 1, inside, score)
  {
    Enter(hits, i, j, inside0, score0);
    hide Tallied, Weight, Get;
    var s := hits[j].stem;
    inside, score := inside0[s := Get(inside0, s) + 1], score0;
    if inside[s] == 1 {
      score := score + Weight(hits, s);
    }
  }

  /** Move the right end to the end of hit i's span. */
  method Extend(hits: seq<Hit>, i: nat, j0: nat, inside0: map<string, nat>, score0: real, size: nat)
    returns (j: nat, inside: map<string, nat>, score: real)
    requires i < |hits| && j0 <= |hits| && Tallied(hits, i, j0, inside0, score0)
    requires forall k :: i <= k < j0 ==> hits[k].pos < hits[i].pos + size
    ensures Tallied(hits, i, j, inside, score) && j <= |hits|
    ensures forall k :: i <= k < j ==> hits[k].pos < hits[i].pos + size
    ensures j < |hits| ==> hits[j].pos >= hits[i].pos + size
  {
    hide Tallied;
    j, inside, score := j0, inside0, score0;
    while j < |hits| && hits[j].pos < hits[i].pos + size
      invariant j <= |hits| && Tallied(hits, i, j, inside, score)
      invariant forall k :: i <= k < j ==> hits[k].pos < hits[i].pos + size
    {
      inside, score := TakeIn(hits, i, j, inside, score);
      j := j + 1;
    }
  }

  /** Move the left end past hit i. */
  method Drop(hits: seq<Hit>, i: nat, j: nat, inside0: map<string, nat>, score0: real)
    returns (inside: map<string, nat>, score: real)
    requires i < j && Tallied(hits, i, j, inside0, score0)
    ensures Tallied(hits, i + 1, j, inside, score)
  {
    Leave(hits, i, j, inside0, score0);
    hide Tallied, Weight;
    var s := hits[i].stem;
    inside, score := inside0[s := inside0[s] - 1], score0;
    if inside[s] == 0 {
      score := score - Weight(hits, s);
    }
  }

  /** The first span of the highest score, by two moving ends and running counts. */
  method BestSpan(hits: seq<Hit>, length: nat, size: nat) returns (first: nat, last: nat)
    requires InText(hits, length) && hits != [] && size > 0
    ensures BestUpTo(hits, |hits|, size, first, last)
  {
    hide Tallied, BestYet, BestUpTo, InText;
    var inside: map<string, nat> := map[];
    var score, best := 0.0, -1.0;
    var j: nat := 0;
    first, last := 0, 0;
    NothingTallied(hits);
    NoneYet(hits, size);
    for i := 0 to |hits|
      invariant Tallied(hits, i, j, inside, score) && j <= |hits|
      invariant i < |hits| ==> forall k :: i <= k < j ==> hits[k].pos < hits[i].pos + size
      invariant BestYet(hits, i, size, first, last, best)
    {
      j, inside, score := Extend(hits, i, j, inside, score, size);
      Step(hits, length, size, i, j, first, last, best, inside, score);
      if score > best {
        best, first, last := score, i, j;
      }
      inside, score := Drop(hits, i, j, inside, score);
    }
    BestAtLast(hits, |hits|, size, first, last, best);
  }

  lemma NothingTallied(hits: seq<Hit>)
    ensures Tallied(hits, 0, 0, map[], 0.0)
  {
    TotalNone(hits, Stems(hits, |hits|));
    assert Present(hits, 0, 0) == {};
  }

  lemma {:induction false} TotalNone(hits: seq<Hit>, stems: seq<string>)
    ensures Total(hits, stems, {}) == 0.0
  {
    if stems != [] { TotalNone(hits, stems[..|stems| - 1]); }
  }

  /** After hit i's span has been scored. */
  lemma Step(hits: seq<Hit>, length: nat, size: nat, i: nat, j: nat, first: nat, last: nat, best: real,
             inside: map<string, nat>, score: real)
    requires InText(hits, length) && size > 0 && i < |hits| && Tallied(hits, i, j, inside, score)
    requires forall k :: i <= k < j ==> hits[k].pos < hits[i].pos + size
    requires j < |hits| ==> hits[j].pos >= hits[i].pos + size
    requires BestYet(hits, i, size, first, last, best)
    ensures i < j && BestYet(hits, i + 1, size, if score > best then i else first, if score > best then j else last,
                             if score > best then score else best)
    ensures i + 1 < |hits| ==> forall k :: i + 1 <= k < j ==> hits[k].pos < hits[i + 1].pos + size
  {
    SpanScore(hits, i, j, inside, score);
    hide Tallied, Count, Score, Present;
    forall b | SpanEnd(hits, i, b, size) ensures b == j {
      OneEnd(hits, i, j, b, size);
    }
    BestSoFar(hits, size, i, j, first, last, best, score);
  }

  lemma SpanScore(hits: seq<Hit>, i: nat, j: nat, inside: map<string, nat>, score: real)
    requires Tallied(hits, i, j, inside, score)
    ensures score == Score(hits, Present(hits, i, j)) >= 0.0
  {
    TotalMonotone(hits, Stems(hits, |hits|), {}, Present(hits, i, j));
    TotalNone(hits, Stems(hits, |hits|));
    hide Counted, Count;
  }

  lemma BestSoFar(hits: seq<Hit>, size: nat, i: nat, j: nat, first: nat, last: nat, best: real, score: real)
    requires i < |hits| && SpanEnd(hits, i, j, size) && forall b :: SpanEnd(hits, i, b, size) ==> b == j
    requires score == Score(hits, Present(hits, i, j)) >= 0.0
    requires BestYet(hits, i, size, first, last, best)
    ensures BestYet(hits, i + 1, size, if score > best then i else first, if score > best then j else last,
                    if score > best then score else best)
  {
    hide Score, Present, SpanEnd;
  }

  /** The hits of any window of that size. */
  ghost function WindowStems(hits: seq<Hit>, from: int, size: nat): set<string> {
    set k | 0 <= k < |hits| && from <= hits[k].pos < from + size :: hits[k].stem
  }

  lemma EndOf(hits: seq<Hit>, length: nat, i: nat, size: nat) returns (j: nat)
    requires InText(hits, length) && size > 0 && i < |hits|
    ensures SpanEnd(hits, i, j, size)
  {
    j := i + 1;
    while j < |hits| && hits[j].pos < hits[i].pos + size
      invariant i < j <= |hits| && forall k :: i <= k < j ==> hits[k].pos < hits[i].pos + size
    {
      j := j + 1;
    }
  }

  /** A window's hits are among those of the span that starts with its first hit. */
  lemma WindowInSpan(hits: seq<Hit>, length: nat, size: nat, i: nat, j: nat, from: int)
    requires InText(hits, length) && SpanEnd(hits, i, j, size) && from <= hits[i].pos
    requires forall k :: 0 <= k < i ==> hits[k].pos < from
    ensures WindowStems(hits, from, size) <= Present(hits, i, j)
  {
    forall s | s in WindowStems(hits, from, size) ensures s in Present(hits, i, j) {
      var k :| 0 <= k < |hits| && from <= hits[k].pos < from + size && hits[k].stem == s;
      assert i <= k < j;
    }
  }

  /** No window of the size, wherever it starts, holds more distinct-term weight than the best span. */
  lemma BestOfAllWindows(hits: seq<Hit>, length: nat, size: nat, first: nat, last: nat, from: int)
    requires InText(hits, length) && size > 0 && BestUpTo(hits, |hits|, size, first, last)
    ensures Score(hits, WindowStems(hits, from, size)) <= Score(hits, Present(hits, first, last))
  {
    var i := 0;
    while i < |hits| && hits[i].pos < from
      invariant i <= |hits| && forall k :: 0 <= k < i ==> hits[k].pos < from
    {
      i := i + 1;
    }
    if i == |hits| {
      assert WindowStems(hits, from, size) == {};
      TotalMonotone(hits, Stems(hits, |hits|), {}, Present(hits, first, last));
    } else {
      var j := EndOf(hits, length, i, size);
      WindowInSpan(hits, length, size, i, j, from);
      TotalMonotone(hits, Stems(hits, |hits|), WindowStems(hits, from, size), Present(hits, i, j));
    }
  }

  // ----- where the window starts -----

  function TopWeight(hits: seq<Hit>, i: nat, j: nat): (w: real)
    requires i < j <= |hits|
    ensures forall k :: i <= k < j ==> Weight(hits, hits[k].stem) <= w
    ensures exists k :: i <= k < j && Weight(hits, hits[k].stem) == w
    decreases j
  {
    var last := Weight(hits, hits[j - 1].stem);
    if i + 1 == j then last
    else
      var rest := TopWeight(hits, i, j - 1);
      if last > rest then last else rest
  }

  /** The rarest terms of the span. */
  predicate Focal(hits: seq<Hit>, i: nat, j: nat, k: nat)
    requires i < j <= |hits|
  {
    i <= k < j && Weight(hits, hits[k].stem) >= TopWeight(hits, i, j) / 2.0
  }

  /** A window starts where the rarest terms of the best span are centred; without hits, at the start. */
  ghost predicate StartsAtBest(hits: seq<Hit>, length: nat, size: nat, start: nat) {
    if hits == [] then start == 0
    else exists first: nat, last: nat, low: nat, high: nat ::
           CentresBest(hits, length, size, start, first, last, low, high)
  }

  ghost predicate CentresBest(hits: seq<Hit>, length: nat, size: nat, start: nat, first: nat, last: nat, low: nat,
                              high: nat) {
    && BestUpTo(hits, |hits|, size, first, last) && Focused(hits, first, last, low, high)
    && size <= length && start == Centred(hits[low].pos, hits[high].pos, length, size)
  }

  /** The start that centres the window on the first and the last focal hit of the best span. */
  method BestStart(hits: seq<Hit>, length: nat, size: nat) returns (start: nat)
    requires InText(hits, length) && 0 < size < length
    ensures start <= length - size && StartsAtBest(hits, length, size, start)
  {
    if hits == [] {
      return 0;
    }
    var i, j := BestSpan(hits, length, size);
    SpanIn(hits, |hits|, size, i, j);
    hide BestUpTo, Focused;
    var low, high := FocalEnds(hits, i, j);
    FocalIn(hits, i, j, low, high);
    start := Centred(hits[low].pos, hits[high].pos, length, size);
    assert CentresBest(hits, length, size, start, i, j, low, high);
  }

  lemma FocalIn(hits: seq<Hit>, i: nat, j: nat, low: nat, high: nat)
    requires Focused(hits, i, j, low, high)
    ensures low < |hits| && high < |hits|
  {
  }

  method FocalEnds(hits: seq<Hit>, i: nat, j: nat) returns (low: nat, high: nat)
    requires i < j <= |hits|
    ensures Focused(hits, i, j, low, high)
  {
    SomeFocal(hits, i, j);
    hide Focal;
    low := i;
    while !Focal(hits, i, j, low)
      invariant i <= low < j && forall k :: i <= k < low ==> !Focal(hits, i, j, k)
      invariant exists k :: low <= k < j && Focal(hits, i, j, k)
      decreases j - low
    {
      low := low + 1;
    }
    high := j - 1;
    while !Focal(hits, i, j, high)
      invariant low <= high < j && forall k :: high < k < j ==> !Focal(hits, i, j, k)
      decreases high
    {
      high := high - 1;
    }
  }

  lemma SpanIn(hits: seq<Hit>, n: nat, size: nat, i: nat, j: nat)
    requires BestUpTo(hits, n, size, i, j)
    ensures i < j <= |hits|
  {
  }

  lemma SomeFocal(hits: seq<Hit>, i: nat, j: nat)
    requires i < j <= |hits|
    ensures exists k :: i <= k < j && Focal(hits, i, j, k)
  {
    var k :| i <= k < j && Weight(hits, hits[k].stem) == TopWeight(hits, i, j);
    assert Focal(hits, i, j, k);
  }

  /** low and high are the outermost focal hits. */
  ghost predicate Focused(hits: seq<Hit>, i: nat, j: nat, low: nat, high: nat) {
    && i <= low <= high < j <= |hits|
    && Focal(hits, i, j, low) && Focal(hits, i, j, high)
    && forall k :: i <= k < j && Focal(hits, i, j, k) ==> low <= k <= high
  }

  /** The window's start when its middle is put between two positions, kept inside the memory. */
  function Centred(low: nat, high: nat, length: nat, size: nat): (start: nat)
    requires size <= length
    ensures start <= length - size
  {
    var wanted := (low + high) / 2 - size / 2;
    var most := if wanted < length - size then wanted else length - size;
    if most < 0 then 0 else most
  }

  /** There is one such span only. */
  lemma OneBest(hits: seq<Hit>, size: nat, first: nat, last: nat, first': nat, last': nat)
    requires BestUpTo(hits, |hits|, size, first, last) && BestUpTo(hits, |hits|, size, first', last')
    ensures first == first' && last == last'
  {
    hide Score, Present;
    if first == first' { OneEnd(hits, first, last, last', size); }
  }

  /** So a window has one start only. */
  lemma OneStart(hits: seq<Hit>, length: nat, size: nat, start: nat, start': nat)
    requires StartsAtBest(hits, length, size, start) && StartsAtBest(hits, length, size, start')
    ensures start == start'
  {
    if hits != [] {
      hide BestUpTo, Focused, Focal, Centred;
      var first: nat, last: nat, low: nat, high: nat :|
        CentresBest(hits, length, size, start, first, last, low, high);
      var first': nat, last': nat, low': nat, high': nat :|
        CentresBest(hits, length, size, start', first', last', low', high');
      OneBest(hits, size, first, last, first', last');
      OneFocus(hits, first, last, low, high, low', high');
    }
  }

  lemma OneFocus(hits: seq<Hit>, i: nat, j: nat, low: nat, high: nat, low': nat, high': nat)
    requires Focused(hits, i, j, low, high) && Focused(hits, i, j, low', high')
    ensures low == low' && high == high'
  {
    hide Focal;
  }

  /** Every rarest term of the best span is in the window it is centred on, except the last one when the
      size is even and the terms are as far apart as a span allows: it may start just after the window. */
  lemma FocusInWindow(hits: seq<Hit>, length: nat, size: nat, first: nat, last: nat, low: nat, high: nat, k: nat)
    requires InText(hits, length) && 0 < size < length
    requires BestUpTo(hits, |hits|, size, first, last) && Focused(hits, first, last, low, high)
             && Focal(hits, first, last, k)
    ensures var start := Centred(hits[low].pos, hits[high].pos, length, size);
      && start <= hits[k].pos <= start + size
      && (size % 2 == 1 || hits[high].pos - hits[low].pos < size - 1 ==> hits[k].pos < start + size)
  {
    assert hits[low].pos <= hits[k].pos <= hits[high].pos < hits[first].pos + size;
    assert hits[first].pos <= hits[low].pos;
  }

  // ----- edges on boundaries -----

  const SNAP := 80

  /** boundary: the first match of the boundary pattern between two positions; cut: where the last match
      in a text starts. */
  datatype Patterns = Patterns(boundary: (string, nat, nat) -> Option<(nat, nat)>, cut: string -> Option<nat>,
                               space: char -> bool)

  /** Matches are not empty, and lie where they are looked for. */
  ghost predicate Fair(pat: Patterns) {
    && (forall s: string, from: nat, to: nat :: pat.boundary(s, from, to).Some? ==>
          from <= pat.boundary(s, from, to).value.0 < pat.boundary(s, from, to).value.1 <= to)
    && (forall s :: pat.cut(s).Some? ==> pat.cut(s).value < |s|)
  }

  function Min(a: nat, b: nat): nat {
    if a < b then a else b
  }

  /** The left edge: the end of a near boundary, unless the window starts the memory. */
  function SnapFrom(pat: Patterns, content: string, start: nat, end: nat): nat {
    if start == 0 then start
    else
      var near := pat.boundary(content, start, Min(|content|, start + SNAP));
      if near.Some? && near.value.1 < end then near.value.1 else start
  }

  /** The right edge: the last boundary of the window's tail, unless the window ends the memory. */
  function SnapTo(pat: Patterns, content: string, from: nat, end: nat): nat
    requires Fair(pat) && from < end <= |content|
  {
    if end == |content| then end
    else
      var tail := content[(if end - SNAP > from then end - SNAP else from)..end];
      var cut := pat.cut(tail);
      if cut.Some? && end - |tail| + cut.value > from then end - |tail| + cut.value else end
  }

  /** Snapping never widens the window, and never empties it. */
  lemma SnapInside(pat: Patterns, content: string, start: nat, end: nat)
    requires Fair(pat) && start < end <= |content|
    ensures var from := SnapFrom(pat, content, start, end);
      start <= from < end && from < SnapTo(pat, content, from, end) <= end
  {
    assert start > 0 ==> start <= Min(|content|, start + SNAP);
    var near := pat.boundary(content, start, Min(|content|, start + SNAP));
    assert near.Some? ==> start <= near.value.0 < near.value.1;
  }

  // ----- the rendered window -----

  function Strip(pat: Patterns, s: string): (r: string)
    ensures |r| <= |s|
    decreases |s|
  {
    if s == "" then s
    else if pat.space(s[0]) then Strip(pat, s[1..])
    else if pat.space(s[|s| - 1]) then Strip(pat, s[..|s| - 1])
    else s
  }

  const ELLIPSIS := "\U{2026}"

  /** The text between the edges, with a mark where something was left out. */
  function Rendered(pat: Patterns, content: string, from: nat, to: nat): (r: string)
    requires from <= to <= |content|
    ensures |r| <= to - from + 2
  {
    (if from > 0 then ELLIPSIS else "") + Strip(pat, content[from..to]) + (if to < |content| then ELLIPSIS else "")
  }

  // ----- limits of one and two characters -----

  /** The first of the rarest hits below n. */
  function FirstRarest(hits: seq<Hit>, n: nat): (r: nat)
    requires 0 < n <= |hits|
    ensures r < n && forall k :: 0 <= k < n ==> Weight(hits, hits[k].stem) <= Weight(hits, hits[r].stem)
    ensures forall k :: 0 <= k < r ==> Weight(hits, hits[k].stem) < Weight(hits, hits[r].stem)
  {
    if n == 1 then 0
    else
      var r := FirstRarest(hits, n - 1);
      if Weight(hits, hits[n - 1].stem) > Weight(hits, hits[r].stem) then n - 1 else r
  }

  /** Where a window of one character is put. */
  function TinyStart(hits: seq<Hit>): nat {
    if hits == [] then 0 else hits[FirstRarest(hits, |hits|)].pos
  }

  /** A span of one character holds its first hit only, and scores that hit's weight. */
  lemma OneHitSpan(hits: seq<Hit>, length: nat, a: nat, b: nat)
    requires InText(hits, length) && a < |hits|
    ensures SpanEnd(hits, a, b, 1) <==> b == a + 1
    ensures Score(hits, Present(hits, a, a + 1)) == Weight(hits, hits[a].stem)
  {
    assert a + 1 < |hits| ==> hits[a + 1].pos >= hits[a].pos + 1;
    TotalNone(hits, Stems(hits, |hits|));
    ScorePlus(hits, {}, a);
    assert Present(hits, a, a + 1) == {} + {hits[a].stem};
  }

  lemma TinySpan(hits: seq<Hit>, length: nat, first: nat, last: nat)
    requires InText(hits, length) && hits != [] && BestUpTo(hits, |hits|, 1, first, last)
    ensures first == FirstRarest(hits, |hits|) && last == first + 1
  {
    hide Score, Present, SpanEnd, Weight, FirstRarest, InText;
    var r := FirstRarest(hits, |hits|);
    FirstIsHit(hits, |hits|, first, last);
    OneHitSpan(hits, length, first, last);
    OneHitSpan(hits, length, r, r + 1);
  }

  lemma FirstIsHit(hits: seq<Hit>, n: nat, first: nat, last: nat)
    requires BestUpTo(hits, n, 1, first, last)
    ensures first < |hits|
  {
  }

  lemma CentredTiny(hits: seq<Hit>, length: nat, i: nat, low: nat, high: nat)
    requires InText(hits, length) && length > 0 && Focused(hits, i, i + 1, low, high)
    ensures low == high == i && Centred(hits[i].pos, hits[i].pos, length, 1) == hits[i].pos
  {
    hide Focal;
  }

  /** One start is possible: the position of the first of the rarest hits. */
  lemma StartsTiny(hits: seq<Hit>, length: nat, start: nat)
    requires InText(hits, length) && StartsAtBest(hits, length, 1, start)
    ensures start == TinyStart(hits)
  {
    if hits != [] {
      hide BestUpTo, Focused, FirstRarest, Centred, Weight, InText;
      var first: nat, last: nat, low: nat, high: nat :| CentresBest(hits, length, 1, start, first, last, low, high);
      TinySpan(hits, length, first, last);
      CentredTiny(hits, length, first, low, high);
    }
  }

  /** At a limit of one or two characters: whether the window is at an end of the memory, and shows a blank
      (one), or either (two). */
  predicate TinyFits(pat: Patterns, content: string, hits: seq<Hit>, maxChars: int)
    requires InText(hits, |content|) && content != ""
  {
    TinyInside(hits, |content|);
    var start := TinyStart(hits);
    var atEnd, blank := start == 0 || start == |content| - 1, pat.space(content[start]);
    if maxChars == 1 then atEnd && blank else atEnd || blank
  }

  lemma TinyInside(hits: seq<Hit>, length: nat)
    requires InText(hits, length) && length > 0
    ensures TinyStart(hits) < length
  {
  }

  /** The rendering of such a window fits in just these cases. */
  lemma TinyFitsIff(pat: Patterns, content: string, hits: seq<Hit>, maxChars: int, start: nat)
    requires InText(hits, |content|) && 0 < maxChars < 3 && maxChars < |content|
    requires StartsAtBest(hits, |content|, 1, start)
    ensures start < |content|
    ensures |Rendered(pat, content, start, start + 1)| <= maxChars <==> TinyFits(pat, content, hits, maxChars)
  {
    StartsTiny(hits, |content|, start);
    TinyInside(hits, |content|);
    hide TinyStart;
    var one := content[start..start + 1];
    assert one == [content[start]];
    assert one[1..] == "";
    assert |Strip(pat, one)| == if pat.space(content[start]) then 0 else 1;
  }

  /** window: the memory itself when it fits, else its best window, its edges snapped.  The window is a
      non-empty part of the memory.  What is shown has at most maxChars characters, but for limits of one and
      two: then exactly when TinyFits says so. */
  method Window(pat: Patterns, content: string, hits: seq<Hit>, maxChars: int)
    returns (text: string, windowed: bool, ghost start: nat, ghost from: nat, ghost to: nat)
    requires Fair(pat) && InText(hits, |content|)
    ensures maxChars <= 0 ==> text == "" && (windowed <==> content != "")
    ensures 0 < maxChars && |content| <= maxChars ==> text == content && !windowed
    ensures 0 < maxChars < |content| ==>
              windowed && start <= from < to <= |content| && text == Rendered(pat, content, from, to)
              && to - start <= Body(maxChars) && start <= |content| - Body(maxChars)
    ensures 0 < maxChars < |content| ==>
              StartsAtBest(hits, |content|, Body(maxChars), start)
              && from == SnapFrom(pat, content, start, start + Body(maxChars))
              && to == SnapTo(pat, content, from, start + Body(maxChars))
    ensures |text| <= Max(maxChars, 0) <==>
              (0 < maxChars < 3 && maxChars < |content| ==> TinyFits(pat, content, hits, maxChars))
  {
    hide StartsAtBest, Strip, Rendered, TinyFits, SnapFrom, SnapTo, InText;
    start, from, to := 0, 0, 0;
    if maxChars <= 0 {
      return "", content != "", start, from, to;
    }
    if |content| <= maxChars {
      return content, false, start, from, to;
    }
    var body := Body(maxChars);
    var s := BestStart(hits, |content|, body);
    var end := Min(|content|, s + body);
    SnapInside(pat, content, s, end);
    var f := SnapFrom(pat, content, s, end);
    var e := SnapTo(pat, content, f, end);
    start, from, to := s, f, e;
    if maxChars < 3 { TinyFitsIff(pat, content, hits, maxChars, s); }
    text, windowed := Rendered(pat, content, f, e), true;
  }

  /** Room for the two marks. */
  function Body(maxChars: int): (n: nat)
    ensures n >= 1
  {
    if maxChars - 2 > 1 then maxChars - 2 else 1
  }

  function Max(a: int, b: int): int {
    if a > b then a else b
  }

  /** A limit of two characters, and three shown. */
  method TinyExample(pat: Patterns) returns (text: string)
    requires Fair(pat) && !pat.space('b')
    ensures !TinyFits(pat, "abc", [Hit(1, "b")], 2) && |text| == 3
  {
    var windowed;
    ghost var start, from, to;
    hide StartsAtBest, SnapFrom, SnapTo, Weight, Rendered;
    text, windowed, start, from, to := Window(pat, "abc", [Hit(1, "b")], 2);
    assert TinyStart([Hit(1, "b")]) == 1;
  }
}
