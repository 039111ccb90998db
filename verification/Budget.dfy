/** The token budget: a hard cap on one rendered block, filled by section priority.

    The counter and the renderer are arbitrary functions.  The fill charges a cost per line, the
    verification loop then removes the lowest priorities until the real text fits. */
module Budget {
  import opened Assoc

  datatype Section = Corrections | Unknown | Relevant | Facts | Records | Linked | Related | Assistant

  function Rank(s: Section): nat {
    match s
    case Corrections => 0
    case Unknown => 1
    case Relevant => 2
    case Facts => 3
    case Records => 4
    case Linked => 5
    case Related => 6
    case Assistant => 7
  }

  /** group is the header line before the group's first item, "" for none. */
  datatype Item = Item(section: Section, text: string, group: string, ref: string)

  type Renderer = seq<Item> -> string

  datatype ContextBudget = ContextBudget(maxTokens: nat, counter: string -> int)

  const MIN_TRUNCATED_CHARS := 8
  const ELLIPSIS := "\U{2026}"

  function Count(b: ContextBudget, text: string): nat {
    if text == "" || b.counter(text) < 0 then 0 else b.counter(text)
  }

  // ----- priority order -----

  predicate Prior(items: seq<Item>, i: nat, j: nat)
    requires i < |items| && j < |items|
  {
    Rank(items[i].section) < Rank(items[j].section) || (Rank(items[i].section) == Rank(items[j].section) && i < j)
  }

  ghost predicate InOrder(items: seq<Item>, s: seq<nat>) {
    && (forall a :: 0 <= a < |s| ==> s[a] < |items|)
    && (forall a, b :: 0 <= a < b < |s| ==> Prior(items, s[a], s[b]))
  }

  function Insert(items: seq<Item>, i: nat, s: seq<nat>): (r: seq<nat>)
    requires i < |items| && forall a :: 0 <= a < |s| ==> s[a] < |items|
    ensures |r| == |s| + 1 && forall a :: 0 <= a < |r| ==> r[a] < |items|
    ensures forall x: nat :: x in r <==> x in s || x == i
  {
    if s == [] then [i]
    else
      var n := |s| - 1;
      assert s == s[..n] + [s[n]];
      if Prior(items, s[n], i) then s + [i] else Insert(items, i, s[..n]) + [s[n]]
  }

  lemma {:induction false} InsertInOrder(items: seq<Item>, i: nat, s: seq<nat>)
    requires i < |items| && i !in s && InOrder(items, s)
    ensures InOrder(items, Insert(items, i, s))
  {
    if s != [] {
      var n := |s| - 1;
      if !Prior(items, s[n], i) {
        InsertInOrder(items, i, s[..n]);
        var r := Insert(items, i, s[..n]);
        forall a | 0 <= a < |r| ensures Prior(items, r[a], s[n]) {
          assert r[a] in r;
          OneAfter(items, s[..n], s[n], i, r[a]);
        }
        hide Prior, InOrder;
        LastInOrder(items, r, s[n]);
      } else {
        forall a | 0 <= a < n ensures Prior(items, s[a], i) {
          assert Prior(items, s[a], s[n]);
        }
        hide Prior, InOrder;
        LastInOrder(items, s, i);
      }
    } else {
      LastInOrder(items, s, i);
    }
  }

  lemma OneAfter(items: seq<Item>, s: seq<nat>, last: nat, i: nat, x: nat)
    requires last < |items| && i < |items| && i != last && !Prior(items, last, i) && (x in s || x == i)
    requires forall a :: 0 <= a < |s| ==> s[a] < |items| && Prior(items, s[a], last)
    ensures x < |items| && Prior(items, x, last)
  {
  }

  lemma LastInOrder(items: seq<Item>, s: seq<nat>, x: nat)
    requires x < |items| && InOrder(items, s) && forall a :: 0 <= a < |s| ==> Prior(items, s[a], x)
    ensures InOrder(items, s + [x])
  {
    hide Prior;
  }

  /** The positions in the order the budget is spent: by section, then as given. */
  function OrderUpTo(items: seq<Item>, n: nat): (r: seq<nat>)
    requires n <= |items|
    ensures |r| == n && forall a :: 0 <= a < |r| ==> r[a] < |items|
    ensures forall x: nat :: x in r <==> x < n
  {
    if n == 0 then [] else Insert(items, n - 1, OrderUpTo(items, n - 1))
  }

  function Order(items: seq<Item>): (r: seq<nat>)
    ensures |r| == |items| && forall a :: 0 <= a < |r| ==> r[a] < |items|
  {
    OrderUpTo(items, |items|)
  }

  lemma {:induction false} OrderSorted(items: seq<Item>, n: nat)
    requires n <= |items|
    ensures InOrder(items, OrderUpTo(items, n))
  {
    if n > 0 {
      OrderSorted(items, n - 1);
      InsertInOrder(items, n - 1, OrderUpTo(items, n - 1));
    }
  }

  /** Priority orders a set of items in one way only. */
  lemma {:induction false} OneOrder(items: seq<Item>, s: seq<nat>, t: seq<nat>)
    requires InOrder(items, s) && InOrder(items, t) && forall x :: x in s <==> x in t
    ensures s == t
  {
    if s == [] {
      assert forall a :: 0 <= a < |t| ==> t[a] in s;
    } else {
      assert s[0] in t;
      assert t[0] in s;
      assert s[0] == t[0];
      forall x ensures x in s[1..] <==> x in t[1..] {
        InTail(items, s, x);
        InTail(items, t, x);
      }
      OneOrder(items, s[1..], t[1..]);
      assert s == [s[0]] + s[1..] && t == [t[0]] + t[1..];
    }
  }

  lemma InTail(items: seq<Item>, s: seq<nat>, x: nat)
    requires InOrder(items, s) && s != []
    ensures x in s[1..] <==> x in s && x != s[0]
  {
    assert s == [s[0]] + s[1..];
  }

  // ----- cutting the first item -----

  predicate Space(c: char) {
    || c == ' ' || 9 <= c as int <= 13 || 28 <= c as int <= 31 || c as int in {0x85, 0xA0, 0x1680}
    || 0x2000 <= c as int <= 0x200A || c as int in {0x2028, 0x2029, 0x202F, 0x205F, 0x3000}
  }

  function RStrip(s: string): (r: string)
    ensures r <= s
  {
    if s != "" && Space(s[|s| - 1]) then RStrip(s[..|s| - 1]) else s
  }

  /** The item cut after n characters. */
  function Cut(item: Item, n: nat): Item
    requires n <= |item.text|
  {
    item.(text := RStrip(item.text[..n]) + ELLIPSIS)
  }

  predicate Admissible(b: ContextBudget, render: Renderer, item: Item, n: nat)
    requires n <= |item.text|
  {
    Count(b, render([Cut(item, n)])) <= b.maxTokens
  }

  /** What the binary search finds from here on. */
  function CutBetween(b: ContextBudget, render: Renderer, item: Item, low: nat, high: int,
                      best: Option<nat>): (r: Option<nat>)
    requires high < |item.text|
    requires best.Some? ==> best.value < |item.text|
    ensures r.Some? ==> r.value < |item.text|
    decreases high - low + 1
  {
    if low > high then best
    else
      var middle := (low + high) / 2;
      if Admissible(b, render, item, middle) then CutBetween(b, render, item, middle + 1, high, Some(middle))
      else CutBetween(b, render, item, low, middle - 1, best)
  }

  function Truncation(b: ContextBudget, render: Renderer, item: Item): (r: Option<nat>)
    ensures r.Some? ==> r.value < |item.text|
  {
    CutBetween(b, render, item, MIN_TRUNCATED_CHARS, |item.text| - 1, None)
  }

  method Truncate(b: ContextBudget, render: Renderer, item: Item) returns (r: Option<Item>)
    ensures r == match Truncation(b, render, item) case None => None case Some(n) => Some(Cut(item, n))
  {
    hide Cut, Count;
    var low: nat, high: int, best: Option<nat> := MIN_TRUNCATED_CHARS, |item.text| - 1, None;
    r := None;
    while low <= high
      invariant high < |item.text| && (best.Some? ==> best.value < |item.text|)
      invariant r == match best case None => None case Some(n) => Some(Cut(item, n))
      invariant Truncation(b, render, item) == CutBetween(b, render, item, low, high, best)
      decreases high - low + 1
    {
      var middle := (low + high) / 2;
      var candidate := Cut(item, middle);
      if Count(b, render([candidate])) <= b.maxTokens {
        r, best, low := Some(candidate), Some(middle), middle + 1;
      } else {
        high := middle - 1;
      }
    }
  }

  lemma {:induction false} CutIsEdge(b: ContextBudget, render: Renderer, item: Item, low: nat, high: int,
                                     best: Option<nat>)
    requires MIN_TRUNCATED_CHARS <= low && high < |item.text| && low <= high + 1
    requires high < |item.text| - 1 ==> high + 1 >= 0 && !Admissible(b, render, item, high + 1)
    requires best == if low == MIN_TRUNCATED_CHARS then None else Some(low - 1)
    requires best.Some? ==> Admissible(b, render, item, best.value)
    ensures var r := CutBetween(b, render, item, low, high, best);
      && (r.Some? ==> MIN_TRUNCATED_CHARS <= r.value && Admissible(b, render, item, r.value)
                      && (r.value + 1 < |item.text| ==> !Admissible(b, render, item, r.value + 1)))
      && (r.None? ==> MIN_TRUNCATED_CHARS < |item.text| ==> !Admissible(b, render, item, MIN_TRUNCATED_CHARS))
    decreases high - low + 1
  {
    hide Admissible;
    if low <= high {
      var middle := (low + high) / 2;
      if Admissible(b, render, item, middle) {
        CutIsEdge(b, render, item, middle + 1, high, Some(middle));
      } else {
        CutIsEdge(b, render, item, low, middle - 1, best);
      }
    }
  }

  ghost predicate DownwardClosed(b: ContextBudget, render: Renderer, item: Item) {
    forall m, n :: MIN_TRUNCATED_CHARS <= m < n < |item.text| && Admissible(b, render, item, n) ==>
                     Admissible(b, render, item, m)
  }

  /** The cut fits; when a shorter cut never costs more, it is the longest that fits, and there is none
      only if no cut fits. */
  lemma LongestCut(b: ContextBudget, render: Renderer, item: Item)
    ensures var r := Truncation(b, render, item);
      && (r.Some? ==> r.value >= MIN_TRUNCATED_CHARS && Admissible(b, render, item, r.value))
      && (DownwardClosed(b, render, item) ==>
            forall n :: MIN_TRUNCATED_CHARS <= n < |item.text| && Admissible(b, render, item, n) ==>
              (r.Some? && n <= r.value))
  {
    hide Admissible;
    var r := Truncation(b, render, item);
    if |item.text| >= MIN_TRUNCATED_CHARS {
      CutIsEdge(b, render, item, MIN_TRUNCATED_CHARS, |item.text| - 1, None);
    }
    if DownwardClosed(b, render, item) {
      forall n | MIN_TRUNCATED_CHARS <= n < |item.text| && Admissible(b, render, item, n)
        ensures r.Some? && n <= r.value
      {
        assert forall m :: MIN_TRUNCATED_CHARS <= m <= n ==> Admissible(b, render, item, m);
      }
    }
  }

  /** A counter that only grows with the length makes shorter cuts cheaper under render_lines. */
  lemma LengthCounterDownwardClosed(b: ContextBudget, item: Item)
    requires forall s: string, t: string :: |s| <= |t| ==> Count(b, s) <= Count(b, t)
    ensures DownwardClosed(b, RenderLines, item)
  {
    forall m, n | MIN_TRUNCATED_CHARS <= m < n < |item.text| && Admissible(b, RenderLines, item, n)
      ensures Admissible(b, RenderLines, item, m)
    {
      RStripShorter(item.text, m, n);
      OneLine(Cut(item, m));
      OneLine(Cut(item, n));
      var s, t := RenderLines([Cut(item, m)]), RenderLines([Cut(item, n)]);
      assert |s| <= |t|;
    }
  }

  lemma {:induction false} RStripShorter(s: string, m: nat, n: nat)
    requires m <= n <= |s|
    ensures |RStrip(s[..m])| <= |RStrip(s[..n])|
  {
    if m < n && Space(s[n - 1]) {
      RStripShorter(s, m, n - 1);
      assert s[..n][..n - 1] == s[..n - 1];
    }
  }

  // ----- the fill -----

  /** After some of the priority order: what was picked, in that order, whether the first one was cut,
      the groups whose header is paid, and the tokens left. */
  datatype Filled = Filled(picked: seq<nat>, cut: Option<Item>, groups: set<string>, remaining: int)

  function Cost(b: ContextBudget, item: Item, groups: set<string>): nat {
    Count(b, item.text) + 1 + if item.group != "" && item.group !in groups then Count(b, item.group) + 1 else 0
  }

  function Overhead(b: ContextBudget, render: Renderer): nat {
    Count(b, render([Item(Records, "", "", "")]))
  }

  function Pick(f: Filled, i: nat, item: Item, cost: int): Filled {
    Filled(f.picked + [i], f.cut, if item.group != "" then f.groups + {item.group} else f.groups, f.remaining - cost)
  }

  function FillUpTo(b: ContextBudget, render: Renderer, items: seq<Item>, order: seq<nat>, n: nat): (f: Filled)
    requires n <= |order| && forall a :: 0 <= a < |order| ==> order[a] < |items|
    ensures forall i :: i in f.picked ==> i < |items|
  {
    if n == 0 then Filled([], None, {}, b.maxTokens - Overhead(b, render))
    else
      var f := FillUpTo(b, render, items, order, n - 1);
      var item := items[order[n - 1]];
      var cost := Cost(b, item, f.groups);
      if cost <= f.remaining then Pick(f, order[n - 1], item, cost)
      else if n == 1 then
        match Truncation(b, render, item)
        case None => f
        case Some(at) =>
          var cut := Cut(item, at);
          Pick(f.(cut := Some(cut)), order[0], item, Count(b, render([cut])))
      else f
  }

  function Fill(b: ContextBudget, render: Renderer, items: seq<Item>): (f: Filled)
    ensures forall i :: i in f.picked ==> i < |items|
  {
    FillUpTo(b, render, items, Order(items), |items|)
  }

  /** The items as chosen: the first of the order possibly cut. */
  function Chosen(items: seq<Item>, f: Filled): (r: seq<Item>)
    ensures |r| == |items|
  {
    if f.cut.Some? && items != [] then items[Order(items)[0] := f.cut.value] else items
  }

  // ----- the verification -----

  /** The members of s below n, in rising order. */
  function Rising(s: set<nat>, n: nat): (r: seq<nat>)
    ensures forall a :: 0 <= a < |r| ==> r[a] < n
  {
    if n == 0 then [] else if n - 1 in s then Rising(s, n - 1) + [n - 1] else Rising(s, n - 1)
  }

  lemma {:induction false} RisingFacts(s: set<nat>, n: nat)
    ensures var r := Rising(s, n);
      && (forall x :: x in r <==> x in s && x < n)
      && (forall a, b :: 0 <= a < b < |r| ==> r[a] < r[b])
  {
    if n > 0 { RisingFacts(s, n - 1); }
  }

  /** The first m picks, as a set. */
  function Top(picked: seq<nat>, m: nat): (r: set<nat>)
    requires m <= |picked|
    ensures forall a :: 0 <= a < m ==> picked[a] in r
    ensures forall x :: x in r ==> x in picked
  {
    if m == 0 then {} else Top(picked, m - 1) + {picked[m - 1]}
  }

  function ItemsAt(items: seq<Item>, at: seq<nat>): (r: seq<Item>)
    requires forall a :: 0 <= a < |at| ==> at[a] < |items|
    ensures |r| == |at| && forall a :: 0 <= a < |r| ==> r[a] == items[at[a]]
  {
    seq(|at|, a requires 0 <= a < |at| => items[at[a]])
  }

  /** The kept items in input order, when the first m picks stay. */
  function Kept(chosen: seq<Item>, picked: seq<nat>, m: nat): seq<Item>
    requires m <= |picked|
  {
    ItemsAt(chosen, Rising(Top(picked, m), |chosen|))
  }

  function TextOf(render: Renderer, chosen: seq<Item>, picked: seq<nat>, m: nat): string
    requires m <= |picked|
  {
    if m == 0 then "" else render(Kept(chosen, picked, m))
  }

  predicate Fits(b: ContextBudget, render: Renderer, chosen: seq<Item>, picked: seq<nat>, m: nat)
    requires m <= |picked|
  {
    Count(b, TextOf(render, chosen, picked, m)) <= b.maxTokens
  }

  /** The longest run of picks, from the highest priority, whose rendering fits. */
  function Verified(b: ContextBudget, render: Renderer, chosen: seq<Item>, picked: seq<nat>, m: nat): (r: nat)
    requires m <= |picked|
    ensures r <= m
  {
    if m == 0 || Fits(b, render, chosen, picked, m) then m else Verified(b, render, chosen, picked, m - 1)
  }

  lemma NothingFits(b: ContextBudget, render: Renderer, chosen: seq<Item>, picked: seq<nat>)
    ensures Fits(b, render, chosen, picked, 0)
  {
  }

  lemma {:induction false} VerifiedIsLongest(b: ContextBudget, render: Renderer, chosen: seq<Item>,
                                             picked: seq<nat>, m: nat)
    requires m <= |picked|
    ensures var r := Verified(b, render, chosen, picked, m);
      Fits(b, render, chosen, picked, r) && forall k :: r < k <= m ==> !Fits(b, render, chosen, picked, k)
  {
    hide Fits;
    if m > 0 && !Fits(b, render, chosen, picked, m) {
      VerifiedIsLongest(b, render, chosen, picked, m - 1);
    } else if m == 0 {
      NothingFits(b, render, chosen, picked);
    }
  }

  /** The result of fit, without the per-section usage. */
  datatype BudgetFit = BudgetFit(items: seq<Item>, text: string, truncated: bool)

  function FitOf(b: ContextBudget, render: Renderer, items: seq<Item>): BudgetFit {
    var f := Fill(b, render, items);
    var chosen := Chosen(items, f);
    var m := Verified(b, render, chosen, f.picked, |f.picked|);
    BudgetFit(Kept(chosen, f.picked, m), TextOf(render, chosen, f.picked, m), f.cut.Some? && m > 0)
  }

  // ----- rendering -----

  function LinesOf(items: seq<Item>): seq<string> {
    if items == [] then []
    else
      var n := |items| - 1;
      var header := items[n].group != "" && (n == 0 || items[n].group != items[n - 1].group);
      LinesOf(items[..n]) + (if header then [items[n].group] else []) + [items[n].text]
  }

  function Join(lines: seq<string>): string {
    if |lines| <= 1 then (if lines == [] then "" else lines[0])
    else Join(lines[..|lines| - 1]) + "\n" + lines[|lines| - 1]
  }

  function RenderLines(items: seq<Item>): string {
    Join(LinesOf(items))
  }

  lemma OneLine(item: Item)
    ensures RenderLines([item]) == if item.group != "" then item.group + "\n" + item.text else item.text
  {
    assert LinesOf([item][..0]) == [];
    var lines := LinesOf([item]);
    if item.group != "" {
      assert lines == [item.group, item.text];
      assert lines[..1] == [item.group];
      assert Join(lines) == Join(lines[..1]) + "\n" + item.text;
    } else {
      assert lines == [item.text];
    }
  }

  // ----- fit -----

  /** What the fill has picked is in priority order, from the part of the order it has seen; a cut item
      is the first of the order, and is picked. */
  lemma {:induction false} PickedInOrder(b: ContextBudget, render: Renderer, items: seq<Item>, n: nat)
    requires n <= |items|
    ensures var f := FillUpTo(b, render, items, Order(items), n);
      && InOrder(items, f.picked)
      && AllBefore(items, f.picked, Order(items), n)
      && (f.cut.Some? ==> f.picked != [] && f.picked[0] == Order(items)[0])
  {
    OrderSorted(items, |items|);
    if n > 0 {
      hide FillUpTo, Count, Cost, Truncation, InOrder, AllBefore;
      PickedInOrder(b, render, items, n - 1);
      PickedOnce(b, render, items, Order(items), n - 1);
      OneMorePick(items, Order(items), FillUpTo(b, render, items, Order(items), n - 1),
                  FillUpTo(b, render, items, Order(items), n), n - 1);
    }
  }

  lemma OneMorePick(items: seq<Item>, order: seq<nat>, f: Filled, next: Filled, n: nat)
    requires n < |order| && InOrder(items, order) && InOrder(items, f.picked) && AllBefore(items, f.picked, order, n)
    requires next.picked == f.picked || next.picked == f.picked + [order[n]]
    requires next.cut.Some? ==> f.cut.Some? || (f.picked == [] && next.picked == [order[0]])
    requires f.cut.Some? ==> f.picked != [] && f.picked[0] == order[0]
    ensures InOrder(items, next.picked) && AllBefore(items, next.picked, order, n + 1)
    ensures next.cut.Some? ==> next.picked != [] && next.picked[0] == order[0]
  {
    hide InOrder, AllBefore;
    PickLater(items, f.picked, order, n);
  }

  /** A step of the fill picks the next position or nothing; only the first may be picked cut. */
  lemma PickedOnce(b: ContextBudget, render: Renderer, items: seq<Item>, order: seq<nat>, n: nat)
    requires n < |order| && forall a :: 0 <= a < |order| ==> order[a] < |items|
    ensures var f, next := FillUpTo(b, render, items, order, n), FillUpTo(b, render, items, order, n + 1);
      && (next.picked == f.picked || next.picked == f.picked + [order[n]])
      && (next.cut.Some? ==> f.cut.Some? || (f.picked == [] && next.picked == [order[0]]))
  {
    FillStep(b, render, items, order, n);
    hide FillUpTo, Count, Cost, Truncation;
  }

  ghost predicate AllBefore(items: seq<Item>, picked: seq<nat>, order: seq<nat>, n: nat) {
    && (forall a :: 0 <= a < |picked| ==> picked[a] < |items|)
    && (forall k :: 0 <= k < |order| ==> order[k] < |items|)
    && forall a, k :: 0 <= a < |picked| && n <= k < |order| ==> Prior(items, picked[a], order[k])
  }

  lemma PickLater(items: seq<Item>, picked: seq<nat>, order: seq<nat>, n: nat)
    requires n < |order| && InOrder(items, order) && InOrder(items, picked) && AllBefore(items, picked, order, n)
    ensures InOrder(items, picked + [order[n]]) && AllBefore(items, picked + [order[n]], order, n + 1)
    ensures AllBefore(items, picked, order, n + 1)
  {
    hide Prior;
  }

  /** The dict of chosen items holds the picks. */
  ghost predicate Holds(chosen: map<nat, Item>, items: seq<Item>, f: Filled) {
    && (forall i: nat :: i in chosen <==> i in f.picked)
    && forall i :: i in chosen ==> i < |items| && chosen[i] == Chosen(items, f)[i]
  }

  method FillItems(b: ContextBudget, render: Renderer, items: seq<Item>)
    returns (chosen: map<nat, Item>, truncated: bool, order: seq<nat>)
    ensures order == Order(items) && Holds(chosen, items, Fill(b, render, items))
    ensures truncated == Fill(b, render, items).cut.Some?
  {
    order := Order(items);
    var remaining: int := b.maxTokens - Overhead(b, render);
    var groups: set<string> := {};
    chosen, truncated := map[], false;
    for rank := 0 to |order|
      invariant var f := FillUpTo(b, render, items, order, rank);
        && Holds(chosen, items, f) && groups == f.groups && remaining == f.remaining && truncated == f.cut.Some?
    {
      ghost var f := FillUpTo(b, render, items, order, rank);
      PickedInOrder(b, render, items, rank);
      FillStep(b, render, items, order, rank);
      hide Count, Overhead, Truncation, Order, InOrder, Cut, Cost, Holds, Chosen, FillUpTo;
      var item := items[order[rank]];
      var cost := Cost(b, item, groups);
      if cost <= remaining {
        NotYetPicked(b, render, items, order, rank);
        HoldsMore(chosen, items, f, order[rank], cost);
        chosen := chosen[order[rank] := item];
      } else if rank == 0 {
        var cut := Truncate(b, render, item);
        if cut.None? {
          continue;
        }
        HoldsCut(chosen, items, f, cut.value, Count(b, render([cut.value])));
        chosen := chosen[order[rank] := cut.value];
        truncated := true;
        cost := Count(b, render([cut.value]));
      } else {
        continue;
      }
      remaining := remaining - cost;
      if item.group != "" {
        groups := groups + {item.group};
      }
    }
  }

  lemma FillStep(b: ContextBudget, render: Renderer, items: seq<Item>, order: seq<nat>, n: nat)
    requires n < |order| && forall a :: 0 <= a < |order| ==> order[a] < |items|
    ensures var f, next := FillUpTo(b, render, items, order, n), FillUpTo(b, render, items, order, n + 1);
      var item, at := items[order[n]], Truncation(b, render, items[order[n]]);
      var cost := Cost(b, item, f.groups);
      && (cost <= f.remaining ==> next == Pick(f, order[n], item, cost))
      && (cost > f.remaining && (n > 0 || at.None?) ==> next == f)
      && (cost > f.remaining && n == 0 && at.Some? ==>
            var cut := Cut(item, at.value);
            next == Pick(f.(cut := Some(cut)), order[0], item, Count(b, render([cut]))))
      && (n == 0 ==> f.picked == [])
  {
  }

  lemma HoldsMore(chosen: map<nat, Item>, items: seq<Item>, f: Filled, i: nat, cost: int)
    requires Holds(chosen, items, f) && i < |items| && (f.cut.Some? ==> i != Order(items)[0])
    ensures Holds(chosen[i := items[i]], items, Pick(f, i, items[i], cost))
  {
    hide Order;
  }

  lemma HoldsCut(chosen: map<nat, Item>, items: seq<Item>, f: Filled, cut: Item, cost: int)
    requires Holds(chosen, items, f) && f.picked == [] && items != []
    ensures var i := Order(items)[0]; Holds(chosen[i := cut], items, Pick(f.(cut := Some(cut)), i, items[i], cost))
  {
    hide Order;
  }

  lemma NotYetPicked(b: ContextBudget, render: Renderer, items: seq<Item>, order: seq<nat>, n: nat)
    requires n < |items| && order == Order(items)
    ensures order[n] !in FillUpTo(b, render, items, order, n).picked
    ensures FillUpTo(b, render, items, order, n).cut.Some? ==> order[n] != order[0]
  {
    PickedInOrder(b, render, items, n);
    OrderSorted(items, |items|);
  }

  /** Where in keep the lowest priority is. */
  method Worst(items: seq<Item>, keep: seq<nat>) returns (k: nat)
    requires keep != [] && forall a :: 0 <= a < |keep| ==> keep[a] < |items|
    ensures k < |keep| && forall a :: 0 <= a < |keep| ==> !Prior(items, keep[k], keep[a])
  {
    k := 0;
    for a := 0 to |keep|
      invariant k < |keep| && forall c :: 0 <= c < a ==> !Prior(items, keep[k], keep[c])
    {
      if Prior(items, keep[k], keep[a]) {
        k := a;
      }
    }
  }

  /** Taking the k-th out of the rising list is taking it out of the set. */
  lemma {:induction false} RisingWithout(s: set<nat>, n: nat, k: nat)
    requires k < |Rising(s, n)|
    ensures RemoveAt(Rising(s, n), k) == Rising(s - {Rising(s, n)[k]}, n)
  {
    var r := Rising(s, n);
    if n - 1 in s && k == |r| - 1 {
      RisingSame(s, s - {n - 1}, n - 1);
    } else {
      RisingWithout(s, n - 1, k);
      var x := Rising(s, n - 1)[k];
      assert r[k] == x < n - 1;
      if n - 1 in s { LaterTaken(Rising(s, n - 1), k, n - 1); }
    }
  }

  lemma LaterTaken(r: seq<nat>, k: nat, last: nat)
    requires k < |r|
    ensures RemoveAt(r + [last], k) == RemoveAt(r, k) + [last]
  {
    hide RemoveAt;
  }

  lemma {:induction false} RisingSame(s: set<nat>, t: set<nat>, n: nat)
    requires forall x :: 0 <= x < n ==> (x in s <==> x in t)
    ensures Rising(s, n) == Rising(t, n)
  {
    if n > 0 { RisingSame(s, t, n - 1); }
  }

  function FromDict(chosen: map<nat, Item>, keep: seq<nat>): seq<Item>
    requires forall a :: 0 <= a < |keep| ==> keep[a] in chosen
  {
    seq(|keep|, a requires 0 <= a < |keep| => chosen[keep[a]])
  }

  /** The first m picks without the lowest priority of them are the first m - 1. */
  lemma WorstIsLast(items: seq<Item>, picked: seq<nat>, m: nat, keep: seq<nat>, k: nat)
    requires InOrder(items, picked) && 0 < m <= |picked| && keep == Rising(Top(picked, m), |items|)
    requires k < |keep| && forall a :: 0 <= a < |keep| ==> !Prior(items, keep[k], keep[a])
    ensures keep[k] == picked[m - 1]
    ensures RemoveAt(keep, k) == Rising(Top(picked, m - 1), |items|)
  {
    var last := picked[m - 1];
    TopLast(items, picked, m);
    RisingFacts(Top(picked, m), |items|);
    assert keep[k] in keep;
    TopBefore(items, picked, m, keep[k]);
    hide InOrder, Top;
    assert last in keep;
    RisingWithout(Top(picked, m), |items|, k);
  }

  lemma TopLast(items: seq<Item>, picked: seq<nat>, m: nat)
    requires InOrder(items, picked) && 0 < m <= |picked|
    ensures Top(picked, m - 1) == Top(picked, m) - {picked[m - 1]} && picked[m - 1] in Top(picked, m)
    ensures picked[m - 1] < |items|
  {
    TopIn(picked, m - 1, picked[m - 1]);
  }

  lemma {:induction false} TopIn(picked: seq<nat>, m: nat, x: nat)
    requires m <= |picked|
    ensures x in Top(picked, m) <==> exists a :: 0 <= a < m && picked[a] == x
  {
    if m > 0 { TopIn(picked, m - 1, x); }
  }

  lemma TopBefore(items: seq<Item>, picked: seq<nat>, m: nat, x: nat)
    requires InOrder(items, picked) && 0 < m <= |picked| && x in Top(picked, m)
    ensures x < |items| && (x == picked[m - 1] || Prior(items, x, picked[m - 1]))
  {
    TopIn(picked, m, x);
  }

  /** keep is the first m picks in input order, and text is what they render to. */
  ghost predicate Shown(render: Renderer, items: seq<Item>, f: Filled, m: nat, keep: seq<nat>, text: string) {
    && m <= |f.picked|
    && (forall i :: i in f.picked ==> i < |items|)
    && keep == Rising(Top(f.picked, m), |items|)
    && text == TextOf(render, Chosen(items, f), f.picked, m)
  }

  lemma {:induction false} RisingNone(n: nat)
    ensures Rising({}, n) == []
  {
    if n > 0 { RisingNone(n - 1); }
  }

  lemma NoneKept(items: seq<Item>, f: Filled, m: nat)
    requires m <= |f.picked| && forall i :: i in f.picked ==> i < |items|
    ensures Rising(Top(f.picked, m), |items|) == [] <==> m == 0
  {
    if m > 0 {
      assert f.picked[0] in Top(f.picked, m);
      RisingFacts(Top(f.picked, m), |items|);
      assert f.picked[0] in Rising(Top(f.picked, m), |items|);
    } else {
      RisingNone(|items|);
    }
  }

  /** Rendering the chosen items at the kept positions. */
  method Show(render: Renderer, items: seq<Item>, chosen: map<nat, Item>, keep: seq<nat>, ghost f: Filled, ghost m: nat)
    returns (text: string, shown: seq<Item>)
    requires Holds(chosen, items, f) && m <= |f.picked| && keep == Rising(Top(f.picked, m), |items|)
    ensures Shown(render, items, f, m, keep, text) && shown == Kept(Chosen(items, f), f.picked, m)
  {
    InDict(chosen, items, f, m);
    hide Holds, Chosen;
    shown := FromDict(chosen, keep);
    NoneKept(items, f, m);
    text := if keep != [] then render(shown) else "";
  }

  lemma InDict(chosen: map<nat, Item>, items: seq<Item>, f: Filled, m: nat)
    requires Holds(chosen, items, f) && m <= |f.picked|
    ensures forall i :: i in f.picked ==> i < |items|
    ensures var keep := Rising(Top(f.picked, m), |items|);
      && (forall a :: 0 <= a < |keep| ==> keep[a] in chosen)
      && FromDict(chosen, keep) == Kept(Chosen(items, f), f.picked, m)
  {
    hide Chosen, Rising;
    RisingFacts(Top(f.picked, m), |items|);
    var keep := Rising(Top(f.picked, m), |items|);
    forall a | 0 <= a < |keep| ensures keep[a] in chosen {
      assert keep[a] in keep;
      assert keep[a] in f.picked;
    }
  }

  lemma DictOfPicks(chosen: map<nat, Item>, items: seq<Item>, f: Filled)
    requires Holds(chosen, items, f)
    ensures Rising(chosen.Keys, |items|) == Rising(Top(f.picked, |f.picked|), |items|)
  {
    forall x | 0 <= x < |items| ensures x in chosen.Keys <==> x in Top(f.picked, |f.picked|) {
      TopIn(f.picked, |f.picked|, x);
    }
    RisingSame(chosen.Keys, Top(f.picked, |f.picked|), |items|);
  }

  /** One round of the verification loop. */
  lemma WorstDropped(b: ContextBudget, render: Renderer, items: seq<Item>, f: Filled, m: nat, keep: seq<nat>,
                     text: string, k: nat)
    requires Shown(render, items, f, m, keep, text) && InOrder(items, f.picked) && Count(b, text) > b.maxTokens
    requires f.cut.Some? ==> f.picked != [] && f.picked[0] == Order(items)[0]
    requires k < |keep| && forall a :: 0 <= a < |keep| ==> !Prior(items, keep[k], keep[a])
    ensures m > 0 && RemoveAt(keep, k) == Rising(Top(f.picked, m - 1), |items|)
    ensures f.cut.Some? ==> (keep[k] == Order(items)[0] <==> m == 1)
    ensures Verified(b, render, Chosen(items, f), f.picked, m) == Verified(b, render, Chosen(items, f), f.picked, m - 1)
  {
    NoneKept(items, f, m);
    RisingFacts(Top(f.picked, m), |items|);
    WorstIsLast(items, f.picked, m, keep, k);
  }

  lemma FitShown(b: ContextBudget, render: Renderer, items: seq<Item>, f: Filled, m: nat, keep: seq<nat>, text: string)
    requires f == Fill(b, render, items) && Shown(render, items, f, m, keep, text)
    requires keep == [] || Count(b, text) <= b.maxTokens
    requires Verified(b, render, Chosen(items, f), f.picked, |f.picked|) ==
             Verified(b, render, Chosen(items, f), f.picked, m)
    ensures FitOf(b, render, items) == BudgetFit(Kept(Chosen(items, f), f.picked, m), text, f.cut.Some? && m > 0)
  {
    NoneKept(items, f, m);
  }

  /** The verification loop's state after dropping all but the first m picks. */
  ghost predicate Verifying(b: ContextBudget, render: Renderer, items: seq<Item>, f: Filled, m: nat,
                            keep: seq<nat>, text: string, shown: seq<Item>, truncated: bool) {
    && Shown(render, items, f, m, keep, text)
    && shown == Kept(Chosen(items, f), f.picked, m)
    && truncated == (f.cut.Some? && m > 0)
    && Verified(b, render, Chosen(items, f), f.picked, |f.picked|) == Verified(b, render, Chosen(items, f), f.picked, m)
  }

  /** Remove the lowest priority and render again. */
  method DropWorst(b: ContextBudget, render: Renderer, items: seq<Item>, chosen: map<nat, Item>, order: seq<nat>,
                   keep: seq<nat>, text: string, shown: seq<Item>, truncated: bool, ghost f: Filled, ghost m: nat)
    returns (keep': seq<nat>, text': string, shown': seq<Item>, truncated': bool)
    requires f == Fill(b, render, items) && Holds(chosen, items, f) && order == Order(items)
    requires Verifying(b, render, items, f, m, keep, text, shown, truncated)
    requires keep != [] && Count(b, text) > b.maxTokens
    ensures m > 0 && Verifying(b, render, items, f, m - 1, keep', text', shown', truncated')
  {
    PickedInOrder(b, render, items, |items|);
    var k := Worst(items, keep);
    WorstDropped(b, render, items, f, m, keep, text, k);
    hide Order, Top, Rising, Verified, Shown, InOrder, Kept, Chosen, Holds, Fill, RemoveAt, Prior;
    assert items != [];
    truncated' := truncated && keep[k] != order[0];
    keep' := RemoveAt(keep, k);
    text', shown' := Show(render, items, chosen, keep', f, m - 1);
  }

  /** fit: the kept items in input order, their text, and whether the first one is shown cut. */
  method Fit(b: ContextBudget, render: Renderer, items: seq<Item>) returns (r: BudgetFit)
    ensures r == FitOf(b, render, items)
  {
    var chosen, truncated, order := FillItems(b, render, items);
    ghost var f := Fill(b, render, items);
    ghost var m: nat := |f.picked|;
    DictOfPicks(chosen, items, f);
    var keep := Rising(chosen.Keys, |items|);
    var text, shown := Show(render, items, chosen, keep, f, m);
    assert Verifying(b, render, items, f, m, keep, text, shown, truncated) by {
      PickedInOrder(b, render, items, |items|);
      hide Order, Top, Rising, Verified, Shown, InOrder, Kept, Chosen, Holds, Fill;
    }
    while keep != [] && Count(b, text) > b.maxTokens
      invariant Verifying(b, render, items, f, m, keep, text, shown, truncated)
      decreases m
    {
      hide Verifying, Holds, Fill, Order, Count, Rising;
      keep, text, shown, truncated := DropWorst(b, render, items, chosen, order, keep, text, shown, truncated, f, m);
      m := m - 1;
    }
    hide Order, Top, Rising, Verified, Shown, InOrder, Kept, Chosen, Holds, Fill, FitOf;
    FitShown(b, render, items, f, m, keep, text);
    r := BudgetFit(shown, text, truncated);
  }
}
