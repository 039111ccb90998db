/** The per-line estimates of the fill against the real text of render_lines.

    With the default counter and groups that stay together, the charged costs bound the count of the
    joined text, so the verification loop has nothing to remove. */
module BudgetEstimate {
  import opened Assoc
  import opened Budget

  // ----- sums -----

  ghost function Sum(w: nat -> int, n: nat): int {
    if n == 0 then 0 else Sum(w, n - 1) + w(n - 1)
  }

  lemma {:induction false} SumSame(v: nat -> int, w: nat -> int, n: nat)
    requires forall k: nat :: k < n ==> v(k) == w(k)
    ensures Sum(v, n) == Sum(w, n)
  {
    if n > 0 { SumSame(v, w, n - 1); }
  }

  lemma {:induction false} SumChangedAt(v: nat -> int, w: nat -> int, i: nat, n: nat)
    requires forall k: nat :: k < n && k != i ==> v(k) == w(k)
    ensures Sum(v, n) == Sum(w, n) + if i < n then v(i) - w(i) else 0
  {
    if n > 0 {
      if n - 1 == i { SumSame(v, w, n - 1); } else { SumChangedAt(v, w, i, n - 1); }
    }
  }

  lemma SumChangedAtTwo(v: nat -> int, w: nat -> int, i: nat, j: nat, n: nat)
    requires i < n && j < n && i != j && forall k: nat :: k < n && k != i && k != j ==> v(k) == w(k)
    ensures Sum(v, n) == Sum(w, n) + (v(i) - w(i)) + (v(j) - w(j))
  {
    var u := (k: nat) => if k == i then v(i) else w(k);
    SumChangedAt(u, w, i, n);
    SumChangedAt(v, u, j, n);
  }

  // ----- the characters of the rendered lines -----

  /** Items of one group stand together. */
  ghost predicate Contiguous(items: seq<Item>) {
    forall i, j, k :: 0 <= i < j < k < |items| && items[i].group == items[k].group != "" ==>
                        items[j].group == items[i].group
  }

  ghost predicate FirstOf(items: seq<Item>, s: set<nat>, k: nat)
    requires k < |items|
  {
    forall j :: 0 <= j < k && j in s ==> items[j].group != items[k].group
  }

  function Header(item: Item): nat {
    if item.group != "" then |item.group| + 1 else 0
  }

  /** What item k adds to the rendering of the items in s, line ends included. */
  ghost function Chars(items: seq<Item>, s: set<nat>, k: nat): int {
    if k >= |items| || k !in s then 0
    else |items[k].text| + 1 + if FirstOf(items, s, k) then Header(items[k]) else 0
  }

  ghost function Weights(items: seq<Item>, s: set<nat>): (w: nat -> int)
    ensures forall k: nat :: w(k) == Chars(items, s, k)
  {
    (k: nat) => Chars(items, s, k)
  }

  ghost function Total(items: seq<Item>, s: set<nat>): int {
    Sum(Weights(items, s), |items|)
  }

  function LineChars(lines: seq<string>): nat {
    if lines == [] then 0 else LineChars(lines[..|lines| - 1]) + |lines[|lines| - 1]| + 1
  }

  lemma LineCharsPush(lines: seq<string>, line: string)
    ensures LineChars(lines + [line]) == LineChars(lines) + |line| + 1
  {
    assert (lines + [line])[..|lines|] == lines;
  }

  lemma {:induction false} JoinedLength(lines: seq<string>)
    ensures |Join(lines)| == if lines == [] then 0 else LineChars(lines) - 1
  {
    if |lines| == 1 {
      LineCharsPush([], lines[0]);
      assert lines == [] + [lines[0]];
    } else if |lines| > 1 {
      JoinedLength(lines[..|lines| - 1]);
    }
  }

  ghost function Rendered(items: seq<Item>, s: set<nat>, n: nat): nat
    requires n <= |items|
  {
    LineChars(LinesOf(ItemsAt(items, Rising(s, n))))
  }

  /** The rendering of the items in s below n has exactly their characters. */
  lemma {:induction false} RenderedChars(items: seq<Item>, s: set<nat>, n: nat)
    requires Contiguous(items) && n <= |items|
    ensures Rendered(items, s, n) == Sum(Weights(items, s), n)
  {
    if n == 0 {
      assert Rising(s, 0) == [];
    } else {
      RenderedChars(items, s, n - 1);
      RenderedStep(items, s, n - 1);
      hide Rendered;
    }
  }

  lemma RenderedStep(items: seq<Item>, s: set<nat>, k: nat)
    requires Contiguous(items) && k < |items|
    ensures Rendered(items, s, k + 1) == Rendered(items, s, k) + Chars(items, s, k)
  {
    if k in s {
      RisingPush(items, s, k);
      HeaderIffFirst(items, s, k);
      hide *;
      LinesPush(ItemsAt(items, Rising(s, k)), items[k]);
      RenderedIs(items, s, k);
      RenderedIs(items, s, k + 1);
    }
  }

  lemma RenderedIs(items: seq<Item>, s: set<nat>, k: nat)
    requires k <= |items|
    ensures Rendered(items, s, k) == LineChars(LinesOf(ItemsAt(items, Rising(s, k))))
  {
  }

  lemma RisingPush(items: seq<Item>, s: set<nat>, k: nat)
    requires k < |items| && k in s
    ensures ItemsAt(items, Rising(s, k + 1)) == ItemsAt(items, Rising(s, k)) + [items[k]]
    ensures Chars(items, s, k) == |items[k].text| + 1 + if FirstOf(items, s, k) then Header(items[k]) else 0
  {
    assert Rising(s, k + 1) == Rising(s, k) + [k];
  }

  ghost predicate HeaderBefore(items: seq<Item>, item: Item) {
    item.group != "" && (items == [] || items[|items| - 1].group != item.group)
  }

  lemma LinesPush(items: seq<Item>, item: Item)
    ensures LineChars(LinesOf(items + [item])) ==
            LineChars(LinesOf(items)) + |item.text| + 1 + if HeaderBefore(items, item) then Header(item) else 0
  {
    var all := items + [item];
    assert all[..|items|] == items;
    var lines := LinesOf(items);
    if HeaderBefore(items, item) {
      LineCharsPush(lines, item.group);
      LineCharsPush(lines + [item.group], item.text);
    } else {
      assert lines + [] == lines;
      LineCharsPush(lines, item.text);
    }
  }

  lemma HeaderIffFirst(items: seq<Item>, s: set<nat>, k: nat)
    requires Contiguous(items) && k < |items|
    ensures (if HeaderBefore(ItemsAt(items, Rising(s, k)), items[k]) then Header(items[k]) else 0) ==
            (if FirstOf(items, s, k) then Header(items[k]) else 0)
  {
    LastBefore(s, k);
    var before := Rising(s, k);
    hide Rising;
    if before != [] {
      var last := before[|before| - 1];
      var shown := ItemsAt(items, before);
      assert shown[|shown| - 1] == items[last];
      GroupBegins(items, s, k, last);
    }
  }

  /** The last member of s below k. */
  lemma LastBefore(s: set<nat>, k: nat)
    ensures var before := Rising(s, k);
      if before == [] then forall j :: 0 <= j < k ==> j !in s
      else var last := before[|before| - 1];
        last < k && last in s && forall j :: 0 <= j < k && j in s ==> j <= last
  {
    var before := Rising(s, k);
    RisingFacts(s, k);
    hide Rising;
    if before != [] {
      var last := before[|before| - 1];
      assert last in before;
      forall j | 0 <= j < k && j in s ensures j <= last {
        assert j in before;
      }
    } else {
      forall j | 0 <= j < k ensures j !in s {
        assert j !in before;
      }
    }
  }

  lemma GroupBegins(items: seq<Item>, s: set<nat>, k: nat, last: nat)
    requires Contiguous(items) && last < k < |items| && last in s
    requires forall j :: 0 <= j < k && j in s ==> j <= last
    ensures items[k].group != "" ==> (FirstOf(items, s, k) <==> items[last].group != items[k].group)
  {
  }

  // ----- one more item -----

  ghost predicate NewGroup(items: seq<Item>, s: set<nat>, i: nat)
    requires i < |items|
  {
    forall j :: j in s && j < |items| ==> items[j].group != items[i].group
  }

  /** Adding an item adds its line, and its header if its group is new: wherever in the input it is. */
  lemma OneMore(items: seq<Item>, s: set<nat>, i: nat)
    requires i < |items| && i !in s
    ensures Total(items, s + {i}) ==
            Total(items, s) + |items[i].text| + 1 + if NewGroup(items, s, i) then Header(items[i]) else 0
  {
    var t := s + {i};
    var v, w := Weights(items, t), Weights(items, s);
    if NewGroup(items, s, i) || items[i].group == "" {
      NewGroupElsewhere(items, s, i);
      SumChangedAt(v, w, i, |items|);
      assert NewGroup(items, s, i) ==> FirstOf(items, t, i);
    } else {
      var j := FirstWithGroup(items, s, items[i].group);
      OldGroupElsewhere(items, s, i, j);
      if j < i {
        SumChangedAt(v, w, i, |items|);
      } else {
        SumChangedAtTwo(v, w, i, j, |items|);
      }
    }
  }

  lemma NewGroupElsewhere(items: seq<Item>, s: set<nat>, i: nat)
    requires i < |items| && i !in s && (NewGroup(items, s, i) || items[i].group == "")
    ensures forall k: nat :: k != i ==> Chars(items, s + {i}, k) == Chars(items, s, k)
  {
    forall k: nat | k != i ensures Chars(items, s + {i}, k) == Chars(items, s, k) {
      if k < |items| && k in s && Header(items[k]) > 0 {
        assert FirstOf(items, s + {i}, k) <==> FirstOf(items, s, k);
      }
    }
  }

  lemma FirstWithGroup(items: seq<Item>, s: set<nat>, group: string) returns (j: nat)
    requires exists k :: k in s && k < |items| && items[k].group == group
    ensures j in s && j < |items| && items[j].group == group && FirstOf(items, s, j)
  {
    j := 0;
    while j < |items| && !(j in s && items[j].group == group)
      invariant j <= |items| && forall k :: 0 <= k < j && k in s ==> items[k].group != group
    {
      j := j + 1;
    }
  }

  lemma OldGroupElsewhere(items: seq<Item>, s: set<nat>, i: nat, j: nat)
    requires i < |items| && i !in s && items[i].group != ""
    requires j in s && j < |items| && items[j].group == items[i].group && FirstOf(items, s, j)
    ensures forall k: nat :: k != i && k != j ==> Chars(items, s + {i}, k) == Chars(items, s, k)
    ensures j < i ==> Chars(items, s + {i}, j) == Chars(items, s, j) && !FirstOf(items, s + {i}, i)
    ensures i < j ==> Chars(items, s + {i}, j) == Chars(items, s, j) - Header(items[i]) && FirstOf(items, s + {i}, i)
  {
    var t := s + {i};
    forall k: nat | k != i && (k != j || j < i) ensures Chars(items, t, k) == Chars(items, s, k) {
      if k < |items| && k in s {
        if FirstOf(items, s, k) && items[k].group == items[i].group { assert k <= j; }
        assert FirstOf(items, t, k) <==> FirstOf(items, s, k);
      }
    }
  }

  // ----- the charged costs bound the text -----

  /** The default counter: four characters to a token, rounded up. */
  ghost predicate Estimates(b: ContextBudget) {
    forall t :: Count(b, t) == (|t| + 3) / 4
  }

  /** The groups whose header is paid are those of the picks. */
  ghost predicate GroupsPaid(items: seq<Item>, f: Filled) {
    forall i :: 0 <= i < |items| && items[i].group != "" ==>
                  (items[i].group !in f.groups <==> NewGroup(items, Top(f.picked, |f.picked|), i))
  }

  ghost predicate Bounded(b: ContextBudget, items: seq<Item>, f: Filled) {
    && GroupsPaid(items, f)
    && 0 <= f.remaining <= b.maxTokens
    && 4 * (b.maxTokens - f.remaining) >= Total(items, Top(f.picked, |f.picked|)) - 1
  }

  lemma {:induction false} TopPush(picked: seq<nat>, i: nat, m: nat)
    requires m <= |picked|
    ensures Top(picked + [i], m) == Top(picked, m)
  {
    if m > 0 { TopPush(picked, i, m - 1); }
  }

  lemma TopPick(f: Filled, i: nat, item: Item, cost: int)
    ensures var g := Pick(f, i, item, cost);
      Top(g.picked, |g.picked|) == Top(f.picked, |f.picked|) + {i}
  {
    TopPush(f.picked, i, |f.picked|);
  }

  lemma GroupsPick(items: seq<Item>, f: Filled, i: nat, cost: int)
    requires i < |items| && GroupsPaid(items, f)
    ensures GroupsPaid(items, Pick(f, i, items[i], cost))
  {
    var g := Pick(f, i, items[i], cost);
    TopPick(f, i, items[i], cost);
    hide Top;
    forall k | 0 <= k < |items| && items[k].group != ""
      ensures items[k].group !in g.groups <==> NewGroup(items, Top(g.picked, |g.picked|), k)
    {
    }
  }

  /** What a pick adds to the text. */
  function Added(item: Item, groups: set<string>): nat {
    |item.text| + 1 + if item.group != "" && item.group !in groups then |item.group| + 1 else 0
  }

  lemma PickTotal(items: seq<Item>, f: Filled, i: nat, cost: int)
    requires GroupsPaid(items, f) && i < |items| && i !in Top(f.picked, |f.picked|)
    ensures var g := Pick(f, i, items[i], cost);
      Total(items, Top(g.picked, |g.picked|)) == Total(items, Top(f.picked, |f.picked|)) + Added(items[i], f.groups)
  {
    TopPick(f, i, items[i], cost);
    OneMore(items, Top(f.picked, |f.picked|), i);
    assert items[i].group != "" ==> (items[i].group !in f.groups <==> NewGroup(items, Top(f.picked, |f.picked|), i));
  }

  lemma CostCovers(b: ContextBudget, item: Item, groups: set<string>)
    requires Estimates(b)
    ensures 4 * Cost(b, item, groups) >= Added(item, groups)
  {
    hide Count;
    assert 4 * Count(b, item.text) >= |item.text| && 4 * Count(b, item.group) >= |item.group|;
  }

  lemma PickBounded(b: ContextBudget, items: seq<Item>, f: Filled, i: nat)
    requires Estimates(b) && Bounded(b, items, f) && i < |items| && i !in Top(f.picked, |f.picked|)
    requires Cost(b, items[i], f.groups) <= f.remaining
    ensures Bounded(b, items, Pick(f, i, items[i], Cost(b, items[i], f.groups)))
  {
    var cost := Cost(b, items[i], f.groups);
    GroupsPick(items, f, i, cost);
    PickTotal(items, f, i, cost);
    CostCovers(b, items[i], f.groups);
    hide Total, Top, GroupsPaid, Added, Cost, Estimates;
  }

  lemma {:induction false} NothingYet(items: seq<Item>, n: nat)
    ensures Sum(Weights(items, {}), n) == 0
  {
    if n > 0 { NothingYet(items, n - 1); }
  }

  lemma StartBounded(b: ContextBudget, items: seq<Item>)
    requires Estimates(b)
    ensures Overhead(b, RenderLines) == 0
    ensures Bounded(b, items, Filled([], None, {}, b.maxTokens))
  {
    OneLine(Item(Records, "", "", ""));
    NothingYet(items, |items|);
  }

  /** The cut item is charged what its rendering costs. */
  lemma CutBounded(b: ContextBudget, items: seq<Item>, i: nat, f: Filled)
    requires Estimates(b) && i < |items| && Count(b, RenderLines([items[i]])) <= b.maxTokens
    requires f.picked == [] && f.groups == {} && f.remaining == b.maxTokens
    ensures Bounded(b, items, Pick(f, i, items[i], Count(b, RenderLines([items[i]]))))
  {
    var cost := Count(b, RenderLines([items[i]]));
    NothingYet(items, |items|);
    GroupsPick(items, f, i, cost);
    PickTotal(items, f, i, cost);
    OneLine(items[i]);
    assert 4 * cost >= |RenderLines([items[i]])|;
    hide RenderLines, GroupsPaid, Estimates, Count;
  }

  // ----- every fill -----

  lemma {:induction false} FillBounded(b: ContextBudget, items: seq<Item>, n: nat)
    requires Estimates(b) && n <= |items|
    ensures var f := FillUpTo(b, RenderLines, items, Order(items), n); Bounded(b, Chosen(items, f), f)
  {
    hide Bounded, Order, FillUpTo, Estimates, Chosen;
    if n == 0 {
      FillStarts(b, items);
    } else {
      FillBounded(b, items, n - 1);
      FillBoundedStep(b, items, n - 1);
    }
  }

  lemma FillStarts(b: ContextBudget, items: seq<Item>)
    requires Estimates(b)
    ensures var f := FillUpTo(b, RenderLines, items, Order(items), 0); Bounded(b, Chosen(items, f), f)
  {
    StartBounded(b, items);
    var f := FillUpTo(b, RenderLines, items, Order(items), 0);
    hide Bounded, Order, RenderLines, Count, Estimates;
    assert f == Filled([], None, {}, b.maxTokens);
    assert Chosen(items, f) == items;
  }

  lemma FillBoundedStep(b: ContextBudget, items: seq<Item>, n: nat)
    requires Estimates(b) && n < |items|
    requires var f := FillUpTo(b, RenderLines, items, Order(items), n); Bounded(b, Chosen(items, f), f)
    ensures var f := FillUpTo(b, RenderLines, items, Order(items), n + 1); Bounded(b, Chosen(items, f), f)
  {
    var order := Order(items);
    var f, next := FillUpTo(b, RenderLines, items, order, n), FillUpTo(b, RenderLines, items, order, n + 1);
    FillStep(b, RenderLines, items, order, n);
    NotYetPicked(b, RenderLines, items, order, n);
    var item, all := items[order[n]], Chosen(items, f);
    assert all[order[n]] == item;
    TopIn(f.picked, |f.picked|, order[n]);
    if Cost(b, item, f.groups) <= f.remaining {
      hide Bounded, FillUpTo, Order, Cost, Count, Truncation, Top;
      PickBounded(b, all, f, order[n]);
    } else if n == 0 && Truncation(b, RenderLines, item).Some? {
      StartBounded(b, items);
      assert f == Filled([], None, {}, b.maxTokens);
      LongestCut(b, RenderLines, item);
      hide Bounded, FillUpTo, Order, Cost, Count, Truncation, Top, RenderLines;
      var cut := Cut(item, Truncation(b, RenderLines, item).value);
      CutBounded(b, items[order[0] := cut], order[0], f.(cut := Some(cut)));
    }
  }

  /** With the default counter and contiguous groups, verification removes nothing: everything the fill
      picked is shown. */
  lemma EstimatesSuffice(b: ContextBudget, items: seq<Item>)
    requires Estimates(b) && Contiguous(items)
    ensures var f := Fill(b, RenderLines, items);
      FitOf(b, RenderLines, items).items == Kept(Chosen(items, f), f.picked, |f.picked|)
  {
    var f := Fill(b, RenderLines, items);
    FillBounded(b, items, |items|);
    CutGroup(b, items, |items|);
    SameGroups(items, f);
    PickedInOrder(b, RenderLines, items, |items|);
    hide Bounded, FillUpTo, Order, Contiguous, Fits, Estimates;
    PicksFit(b, Chosen(items, f), f);
  }

  lemma PicksFit(b: ContextBudget, items: seq<Item>, f: Filled)
    requires Estimates(b) && Contiguous(items) && Bounded(b, items, f)
    ensures Fits(b, RenderLines, items, f.picked, |f.picked|)
  {
    var m := |f.picked|;
    if m > 0 {
      RenderedChars(items, Top(f.picked, m), |items|);
      var lines := LinesOf(Kept(items, f.picked, m));
      JoinedLength(lines);
      hide Join, LinesOf, LineChars, Top, Rising, Contiguous, GroupsPaid, Sum;
      assert LineChars(lines) == Total(items, Top(f.picked, m));
      assert TextOf(RenderLines, items, f.picked, m) == Join(lines);
      assert 4 * b.maxTokens >= |Join(lines)|;
    }
  }

  lemma {:induction false} CutGroup(b: ContextBudget, items: seq<Item>, n: nat)
    requires n <= |items|
    ensures var f := FillUpTo(b, RenderLines, items, Order(items), n);
      f.cut.Some? && items != [] ==> f.cut.value.group == items[Order(items)[0]].group
  {
    if n > 0 {
      CutGroup(b, items, n - 1);
      FillStep(b, RenderLines, items, Order(items), n - 1);
      hide FillUpTo, Order, Cost, Count, Truncation;
    }
  }

  lemma SameGroups(items: seq<Item>, f: Filled)
    requires Contiguous(items) && (f.cut.Some? && items != [] ==> f.cut.value.group == items[Order(items)[0]].group)
    ensures Contiguous(Chosen(items, f))
  {
    hide Order;
    assert forall i :: 0 <= i < |items| ==> Chosen(items, f)[i].group == items[i].group;
  }
}
