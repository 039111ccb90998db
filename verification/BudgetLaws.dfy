/** What the token budget promises: a hard cap, the longest priority prefix of what was chosen, a
    second fit that changes nothing, and estimates that never undercharge render_lines. */
module BudgetLaws {
  import opened Assoc
  import opened Budget

  /** The cap holds for every counter and renderer; what is kept is, in input order, the longest run of
      picks from the highest priority that fits; every item is kept as it was, except that the first of
      the priority order may be cut. */
  lemma FitKeepsPriorityPrefix(b: ContextBudget, render: Renderer, items: seq<Item>)
    ensures var r, f := FitOf(b, render, items), Fill(b, render, items);
      var chosen := Chosen(items, f);
      var m := Verified(b, render, chosen, f.picked, |f.picked|);
      && Count(b, r.text) <= b.maxTokens
      && InOrder(items, f.picked)
      && r.items == ItemsAt(chosen, Rising(Top(f.picked, m), |items|))
      && (forall k :: m < k <= |f.picked| ==> Count(b, TextOf(render, chosen, f.picked, k)) > b.maxTokens)
      && (!r.truncated ==> r.items == ItemsAt(items, Rising(Top(f.picked, m), |items|)))
      && (forall i :: 0 <= i < |items| && i != Order(items)[0] ==> chosen[i] == items[i])
  {
    var f := Fill(b, render, items);
    var chosen := Chosen(items, f);
    PickedInOrder(b, render, items, |items|);
    VerifiedIsLongest(b, render, chosen, f.picked, |f.picked|);
    var m := Verified(b, render, chosen, f.picked, |f.picked|);
    forall k | m < k <= |f.picked| ensures Count(b, TextOf(render, chosen, f.picked, k)) > b.maxTokens {
      assert !Fits(b, render, chosen, f.picked, k);
    }
    if m == 0 { RisingNone(|items|); }
  }

  // ----- fitting what was kept -----

  lemma {:induction false} RisingAll(s: set<nat>, n: nat)
    requires forall x :: 0 <= x < n ==> x in s
    ensures Rising(s, n) == seq(n, (i: nat) requires i < n => i)
  {
    if n > 0 { RisingAll(s, n - 1); }
  }

  /** The order of the kept items is the order they were picked in. */
  lemma KeptOrder(items: seq<Item>, picked: seq<nat>, m: nat)
    requires InOrder(items, picked) && m <= |picked|
    ensures var keep := Rising(Top(picked, m), |items|);
      var kept := ItemsAt(items, keep);
      |kept| == m && forall j :: 0 <= j < m ==> keep[Order(kept)[j]] == picked[j]
  {
    var keep := Rising(Top(picked, m), |items|);
    var kept := ItemsAt(items, keep);
    var o := Order(kept);
    RisingFacts(Top(picked, m), |items|);
    OrderSorted(kept, |kept|);
    var t := seq(|kept|, j requires 0 <= j < |kept| => keep[o[j]]);
    ReorderedInOrder(items, keep, o, t);
    assert forall y: nat :: y < |keep| ==> y in o;
    hide *;
    SameFront(picked, m, keep, o, t);
    FrontInOrder(items, picked, m);
    OneOrder(items, picked[..m], t);
  }

  lemma SameFront(picked: seq<nat>, m: nat, keep: seq<nat>, o: seq<nat>, t: seq<nat>)
    requires m <= |picked| && forall x :: x in keep <==> x in Top(picked, m)
    requires |o| == |keep| == |t| && (forall y: nat :: y < |keep| ==> y in o)
    requires forall j :: 0 <= j < |t| ==> o[j] < |keep| && t[j] == keep[o[j]]
    ensures forall x :: x in picked[..m] <==> x in t
  {
    hide Top;
    forall x ensures x in picked[..m] <==> x in t {
      TopIn(picked, m, x);
      InFront(picked, m, x);
      if x in keep { InReordered(keep, o, t, x); }
      if x in t { FromReordered(keep, o, t, x); }
    }
  }

  lemma FrontInOrder(items: seq<Item>, picked: seq<nat>, m: nat)
    requires InOrder(items, picked) && m <= |picked|
    ensures InOrder(items, picked[..m])
  {
  }

  lemma InFront(picked: seq<nat>, m: nat, x: nat)
    requires m <= |picked|
    ensures x in picked[..m] <==> exists a :: 0 <= a < m && picked[a] == x
  {
  }

  lemma ReorderedInOrder(items: seq<Item>, keep: seq<nat>, o: seq<nat>, t: seq<nat>)
    requires forall a :: 0 <= a < |keep| ==> keep[a] < |items|
    requires forall a, c :: 0 <= a < c < |keep| ==> keep[a] < keep[c]
    requires InOrder(ItemsAt(items, keep), o) && |t| == |o| && forall j :: 0 <= j < |t| ==> t[j] == keep[o[j]]
    ensures InOrder(items, t)
  {
    forall i, j | 0 <= i < j < |t| ensures Prior(items, t[i], t[j]) {
      assert Prior(ItemsAt(items, keep), o[i], o[j]);
    }
  }

  lemma FromReordered(keep: seq<nat>, o: seq<nat>, t: seq<nat>, x: nat)
    requires |o| == |t| && (forall j :: 0 <= j < |o| ==> o[j] < |keep|)
    requires forall j :: 0 <= j < |t| ==> t[j] == keep[o[j]]
    requires x in t
    ensures x in keep
  {
  }

  lemma InReordered(keep: seq<nat>, o: seq<nat>, t: seq<nat>, x: nat)
    requires |o| == |keep| == |t| && (forall y: nat :: y < |keep| ==> y in o)
             && (forall j :: 0 <= j < |o| ==> o[j] < |keep|)
    requires forall j :: 0 <= j < |t| ==> t[j] == keep[o[j]]
    requires x in keep
    ensures x in t
  {
    var a: nat :| a < |keep| && keep[a] == x;
    assert a in o;
    var j :| 0 <= j < |o| && o[j] == a;
    assert t[j] == x;
  }

  lemma {:induction false} FillGrows(b: ContextBudget, render: Renderer, items: seq<Item>, n: nat, last: nat)
    requires n <= last <= |items|
    ensures var f, g := FillUpTo(b, render, items, Order(items), n), FillUpTo(b, render, items, Order(items), last);
      f.picked <= g.picked && (f.cut.Some? ==> g.cut.Some?)
  {
    if n < last {
      FillGrows(b, render, items, n, last - 1);
      FillStep(b, render, items, Order(items), last - 1);
      hide FillUpTo, Order, Cost, Count, Truncation;
    }
  }

  /** As long as they last, the kept items have been filled as f was. */
  ghost predicate Retraced(b: ContextBudget, render: Renderer, kept: seq<Item>, f: Filled) {
    |f.picked| <= |kept| ==>
      FillUpTo(b, render, kept, Order(kept), |f.picked|) ==
        Filled(Order(kept)[..|f.picked|], None, f.groups, f.remaining)
  }

  lemma RetracePick(b: ContextBudget, render: Renderer, kept: seq<Item>, f: Filled, i: nat, item: Item)
    requires Retraced(b, render, kept, f) && Cost(b, item, f.groups) <= f.remaining
    requires |f.picked| < |kept| ==> kept[Order(kept)[|f.picked|]] == item
    ensures Retraced(b, render, kept, Pick(f, i, item, Cost(b, item, f.groups)))
  {
    if |f.picked| < |kept| {
      hide FillUpTo, Order, Cost;
      NextFilled(b, render, kept, Order(kept), |f.picked|, f.groups, f.remaining);
    }
  }

  /** An item that fits is picked next. */
  lemma NextFilled(b: ContextBudget, render: Renderer, items: seq<Item>, order: seq<nat>, p: nat, groups: set<string>,
                   remaining: int)
    requires p < |order| && forall a :: 0 <= a < |order| ==> order[a] < |items|
    requires FillUpTo(b, render, items, order, p) == Filled(order[..p], None, groups, remaining)
    requires Cost(b, items[order[p]], groups) <= remaining
    ensures var item, before := items[order[p]], Filled(order[..p], None, groups, remaining);
      FillUpTo(b, render, items, order, p + 1) ==
        Pick(before, order[p], item, Cost(b, item, groups)).(picked := order[..p + 1])
  {
    FillStep(b, render, items, order, p);
    hide FillUpTo, Cost, Count, Truncation;
    assert order[..p + 1] == order[..p] + [order[p]];
  }

  /** Filling from the kept items alone retraces the original fill, pick by pick. */
  lemma {:induction false} RetraceAll(b: ContextBudget, render: Renderer, items: seq<Item>, kept: seq<Item>,
                                      all: seq<nat>, n: nat)
    requires n <= |items| && |kept| <= |all|
    requires forall j :: 0 <= j < |kept| ==> all[j] < |items| && kept[Order(kept)[j]] == items[all[j]]
    requires var f := FillUpTo(b, render, items, Order(items), n); f.picked <= all && f.cut.None?
    ensures Retraced(b, render, kept, FillUpTo(b, render, items, Order(items), n))
  {
    if n == 0 {
      assert Order(kept)[..0] == [];
    } else {
      hide FillUpTo, Order, Retraced;
      FillGrows(b, render, items, n - 1, n);
      RetraceAll(b, render, items, kept, all, n - 1);
      RefitNext(b, render, items, kept, all, n - 1);
    }
  }

  lemma RefitFollows(b: ContextBudget, render: Renderer, items: seq<Item>, m: nat, n: nat)
    requires n <= |items|
    requires var f := Fill(b, render, items); f.cut.None? && m <= |f.picked|
    ensures var kept := Kept(items, Fill(b, render, items).picked, m);
      |kept| == m && Retraced(b, render, kept, FillUpTo(b, render, items, Order(items), n))
  {
    var all := Fill(b, render, items);
    PickedInOrder(b, render, items, |items|);
    FillGrows(b, render, items, n, |items|);
    hide FillUpTo, Order, Retraced;
    KeptOrder(items, all.picked, m);
    hide Rising, Top;
    RetraceAll(b, render, items, Kept(items, all.picked, m), all.picked, n);
  }

  lemma RefitNext(b: ContextBudget, render: Renderer, items: seq<Item>, kept: seq<Item>, all: seq<nat>, n: nat)
    requires n < |items| && |kept| <= |all|
    requires forall j :: 0 <= j < |kept| ==> all[j] < |items| && kept[Order(kept)[j]] == items[all[j]]
    requires Retraced(b, render, kept, FillUpTo(b, render, items, Order(items), n))
    requires var next := FillUpTo(b, render, items, Order(items), n + 1); next.picked <= all && next.cut.None?
    ensures Retraced(b, render, kept, FillUpTo(b, render, items, Order(items), n + 1))
  {
    var order := Order(items);
    var f, next := FillUpTo(b, render, items, order, n), FillUpTo(b, render, items, order, n + 1);
    FillStep(b, render, items, order, n);
    hide FillUpTo, Order, Cost, Count, Truncation, Retraced;
    if next != f {
      assert next.picked == f.picked + [order[n]];
      assert all[|f.picked|] == next.picked[|f.picked|];
      RetracePick(b, render, kept, f, order[n], items[order[n]]);
    }
  }

  lemma {:induction false} FillReaches(b: ContextBudget, render: Renderer, items: seq<Item>, m: nat, last: nat)
    returns (n: nat)
    requires last <= |items| && m <= |FillUpTo(b, render, items, Order(items), last).picked|
    ensures n <= last && |FillUpTo(b, render, items, Order(items), n).picked| == m
  {
    if |FillUpTo(b, render, items, Order(items), last).picked| == m {
      n := last;
    } else {
      FillStep(b, render, items, Order(items), last - 1);
      n := FillReaches(b, render, items, m, last - 1);
    }
  }

  /** Fitting the kept items again keeps them all, with the same text, when nothing was cut. */
  lemma RefitIsSame(b: ContextBudget, render: Renderer, items: seq<Item>)
    requires !FitOf(b, render, items).truncated
    ensures FitOf(b, render, FitOf(b, render, items).items) == FitOf(b, render, items)
  {
    var f, r := Fill(b, render, items), FitOf(b, render, items);
    var m := Verified(b, render, Chosen(items, f), f.picked, |f.picked|);
    if m == 0 {
      RisingNone(|items|);
      assert r.items == [];
    } else {
      var n := FillReaches(b, render, items, m, |items|);
      RefitFollows(b, render, items, m, n);
      var kept := r.items;
      var o := Order(kept);
      assert o[..m] == o;
      assert Fill(b, render, kept).picked == o && Fill(b, render, kept).cut.None?;
      VerifiedIsLongest(b, render, Chosen(items, f), f.picked, |f.picked|);
      hide FillUpTo, Fill;
      AllKept(kept);
      assert Fits(b, render, kept, o, m);
    }
  }

  lemma AllKept(items: seq<Item>)
    ensures Kept(items, Order(items), |items|) == items
  {
    var o := Order(items);
    forall x | 0 <= x < |items| ensures x in Top(o, |o|) {
      assert x in o;
      TopIn(o, |o|, x);
    }
    RisingAll(Top(o, |o|), |items|);
  }

  // ----- usage per section -----

  datatype SectionUsage = SectionUsage(included: nat, dropped: nat, tokens: nat)

  /** Of the first n items, what a section's items amount to. */
  function UsageOf(b: ContextBudget, items: seq<Item>, chosen: seq<Item>, kept: set<nat>, section: Section,
                   n: nat): (u: SectionUsage)
    requires n <= |items| == |chosen|
  {
    if n == 0 then SectionUsage(0, 0, 0)
    else
      var u := UsageOf(b, items, chosen, kept, section, n - 1);
      if items[n - 1].section != section then u
      else if n - 1 in kept then SectionUsage(u.included + 1, u.dropped, u.tokens + Count(b, chosen[n - 1].text))
      else SectionUsage(u.included, u.dropped + 1, u.tokens)
  }

  /** _usage: one entry per section that occurs. */
  method Usage(b: ContextBudget, items: seq<Item>, chosen: seq<Item>, kept: set<nat>)
    returns (sections: map<Section, SectionUsage>)
    requires |chosen| == |items|
    ensures forall s :: s in sections <==> exists i :: 0 <= i < |items| && items[i].section == s
    ensures forall s :: s in sections ==> sections[s] == UsageOf(b, items, chosen, kept, s, |items|)
  {
    sections := map[];
    for n := 0 to |items|
      invariant forall s :: s in sections <==> exists i :: 0 <= i < n && items[i].section == s
      invariant forall s :: s !in sections ==> UsageOf(b, items, chosen, kept, s, n) == SectionUsage(0, 0, 0)
      invariant forall s :: s in sections ==> sections[s] == UsageOf(b, items, chosen, kept, s, n)
    {
      hide Count;
      var s := items[n].section;
      var u := if s in sections then sections[s] else SectionUsage(0, 0, 0);
      if n in kept {
        sections := sections[s := SectionUsage(u.included + 1, u.dropped, u.tokens + Count(b, chosen[n].text))];
      } else {
        sections := sections[s := SectionUsage(u.included, u.dropped + 1, u.tokens)];
      }
    }
  }

  /** What a usage report adds up to over its sections; a section without items adds nothing. */
  function Totals(b: ContextBudget, items: seq<Item>, chosen: seq<Item>, kept: set<nat>, n: nat): (nat, nat)
    requires n <= |items| == |chosen|
  {
    var u := (s: Section) => UsageOf(b, items, chosen, kept, s, n);
    (u(Corrections).included + u(Unknown).included + u(Relevant).included + u(Facts).included
     + u(Records).included + u(Linked).included + u(Related).included + u(Assistant).included,
     u(Corrections).dropped + u(Unknown).dropped + u(Relevant).dropped + u(Facts).dropped
     + u(Records).dropped + u(Linked).dropped + u(Related).dropped + u(Assistant).dropped)
  }

  /** As many items are included as are kept, and every other item is dropped. */
  lemma {:induction false} UsageCountsEveryItem(b: ContextBudget, items: seq<Item>, chosen: seq<Item>,
                                                kept: set<nat>, n: nat)
    requires n <= |items| == |chosen|
    ensures Totals(b, items, chosen, kept, n).0 == |Rising(kept, n)|
    ensures Totals(b, items, chosen, kept, n).0 + Totals(b, items, chosen, kept, n).1 == n
  {
    if n > 0 { UsageCountsEveryItem(b, items, chosen, kept, n - 1); }
  }

  // ----- the briefing renderer -----

  const OPEN := "<mark_briefing>"
  const CLOSE := "</mark_briefing>"

  function RenderBriefing(items: seq<Item>): string {
    var body := RenderLines(items);
    if body == "" then "" else OPEN + "\n" + body + "\n" + CLOSE
  }

  /** The comment at budget.py:172 takes the wrapper's tags for the measured overhead.  For the briefing renderer the
      overhead measured on one empty line is 0, though its tags cost 33 characters in every briefing:
      there the verification loop, not the estimate, keeps the cap. */
  lemma BriefingOverheadIsZero(b: ContextBudget, items: seq<Item>)
    ensures Overhead(b, RenderBriefing) == 0
    ensures RenderBriefing(items) != "" ==> |RenderBriefing(items)| == |RenderLines(items)| + 33
    ensures Count(b, FitOf(b, RenderBriefing, items).text) <= b.maxTokens
  {
    OneLine(Item(Records, "", "", ""));
    FitKeepsPriorityPrefix(b, RenderBriefing, items);
  }

  /** Two records under a cap of nine tokens, four characters each: their estimates need five, their briefing
      forty characters.  Both are picked, and the second is removed again. */
  lemma BriefingExample() returns (b: ContextBudget, items: seq<Item>)
    ensures b.maxTokens == 9 && forall s :: b.counter(s) == (|s| + 3) / 4
    ensures items == [Item(Records, "a", "", ""), Item(Records, "abcde", "", "")]
    ensures Fill(b, RenderBriefing, items).picked == [0, 1] && Fill(b, RenderBriefing, items).remaining == 4
    ensures FitOf(b, RenderBriefing, items).items == [items[0]]
  {
    b := ContextBudget(9, s => (|s| + 3) / 4);
    items := [Item(Records, "a", "", ""), Item(Records, "abcde", "", "")];
    hide *;
    SecondRemoved(b, items);
  }

  lemma SecondRemoved(b: ContextBudget, items: seq<Item>)
    requires b.maxTokens == 9 && forall s :: b.counter(s) == (|s| + 3) / 4
    requires |items| == 2 && items[0].section == items[1].section && items[0].group == items[1].group == ""
    requires |items[0].text| == 1 && |items[1].text| == 5
    ensures Fill(b, RenderBriefing, items).picked == [0, 1] && Fill(b, RenderBriefing, items).remaining == 4
    ensures FitOf(b, RenderBriefing, items).items == [items[0]]
  {
    OneLine(items[0]);
    TwoLines(items[0], items[1]);
    assert [items[0], items[1]] == items;
    BriefingCount(b, [items[0]], 1);
    BriefingCount(b, items, 7);
    BriefingOverheadIsZero(b, items);
    assert Count(b, items[0].text) == 1 && Count(b, items[1].text) == 2;
    hide *;
    BothPicked(b, RenderBriefing, items);
    OneKept(b, RenderBriefing, items, Fill(b, RenderBriefing, items));
  }

  lemma BriefingCount(b: ContextBudget, items: seq<Item>, chars: nat)
    requires (forall s :: b.counter(s) == (|s| + 3) / 4) && |RenderLines(items)| == chars > 0
    ensures Count(b, RenderBriefing(items)) == (chars + 36) / 4
  {
    BriefingOverheadIsZero(b, items);
    hide RenderLines, FitOf, Overhead;
    var text := RenderBriefing(items);
    assert RenderLines(items) != "" && text != "";
  }

  lemma TwoLines(first: Item, second: Item)
    requires first.group == "" && second.group == ""
    ensures RenderLines([first, second]) == first.text + "\n" + second.text
  {
    var items := [first, second];
    assert items[..1] == [first];
    assert LinesOf([first]) == [first.text] by {
      assert [first][..0] == [] && LinesOf([first][..0]) == [];
      assert [] + [] + [first.text] == [first.text];
    }
    assert LinesOf(items) == [first.text] + [] + [second.text] == [first.text, second.text];
    var lines := [first.text, second.text];
    assert lines[..1] == [first.text] && Join([first.text]) == first.text;
  }

  lemma BothPicked(b: ContextBudget, render: Renderer, items: seq<Item>)
    requires |items| == 2 && items[0].section == items[1].section && items[0].group == items[1].group == ""
    requires Count(b, items[0].text) + Count(b, items[1].text) + 2 <= b.maxTokens - Overhead(b, render)
    ensures var f := Fill(b, render, items);
      f.picked == [0, 1] && f.cut.None?
      && f.remaining == b.maxTokens - Overhead(b, render) - Count(b, items[0].text) - Count(b, items[1].text) - 2
  {
    var order := Order(items);
    OrderSorted(items, 2);
    assert InOrder(items, [0, 1]);
    OneOrder(items, order, [0, 1]);
    FillStep(b, render, items, order, 0);
    FillStep(b, render, items, order, 1);
    assert FillUpTo(b, render, items, order, 0) == Filled([], None, {}, b.maxTokens - Overhead(b, render));
    hide FillUpTo, Count, Overhead, Order, InOrder, Truncation;
  }

  lemma OneKept(b: ContextBudget, render: Renderer, items: seq<Item>, f: Filled)
    requires |items| == 2 && f == Fill(b, render, items) && f.picked == [0, 1] && f.cut.None?
    requires Count(b, render([items[0]])) <= b.maxTokens < Count(b, render(items))
    ensures FitOf(b, render, items).items == [items[0]]
  {
    FirstTwo(items, f.picked);
    hide Kept, Count, Fill;
    assert !Fits(b, render, items, f.picked, 2) && Fits(b, render, items, f.picked, 1);
    VerifiedIsLongest(b, render, items, f.picked, 2);
    hide Fits;
    assert Verified(b, render, items, f.picked, 2) == 1;
  }

  lemma FirstTwo(items: seq<Item>, picked: seq<nat>)
    requires |items| == 2 && picked == [0, 1]
    ensures Kept(items, picked, 1) == [items[0]] && Kept(items, picked, 2) == items
  {
    TopOne(picked);
    RisingTwo(Top(picked, 1));
    RisingTwo(Top(picked, 2));
    hide Top, Rising;
  }

  lemma TopOne(picked: seq<nat>)
    requires picked == [0, 1]
    ensures 0 in Top(picked, 1) && 1 !in Top(picked, 1) && 0 in Top(picked, 2) && 1 in Top(picked, 2)
  {
    assert Top(picked, 0) == {};
    assert picked[0] in Top(picked, 2) && picked[1] in Top(picked, 2);
  }

  lemma RisingTwo(s: set<nat>)
    requires 0 in s
    ensures Rising(s, 2) == if 1 in s then [0, 1] else [0]
  {
    assert Rising(s, 0) == [];
    assert Rising(s, 1) == [0];
  }
}
