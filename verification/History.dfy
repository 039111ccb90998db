/** The sliding conversation window: which messages the model still sees.

    Messages other than system messages form the body; a split keeps every system message and some
    of the body.  KeptRule says which, without following the code's loops. */
module History {
  import opened Assoc

  datatype Role = System | User | Assistant | Tool | Other(raw: string)

  datatype Message = Message(role: Role, content: string)

  datatype HistorySplit = HistorySplit(kept: seq<Message>, dropped: seq<Message>)

  function BodyOf(items: seq<Message>): (body: seq<Message>)
    ensures forall p :: 0 <= p < |body| ==> !body[p].role.System?
  {
    if items == [] then []
    else
      var n := |items| - 1;
      if items[n].role.System? then BodyOf(items[..n]) else BodyOf(items[..n]) + [items[n]]
  }

  /** The messages kept when flags says which of the body stay. */
  function Keep(items: seq<Message>, flags: seq<bool>): seq<Message>
    requires |flags| == |BodyOf(items)|
  {
    if items == [] then []
    else
      var n := |items| - 1;
      if items[n].role.System? then Keep(items[..n], flags) + [items[n]]
      else
        var m := |flags| - 1;
        if flags[m] then Keep(items[..n], flags[..m]) + [items[n]] else Keep(items[..n], flags[..m])
  }

  function Select(body: seq<Message>, flags: seq<bool>, which: bool): seq<Message>
    requires |flags| == |body|
  {
    if body == [] then []
    else
      var n := |body| - 1;
      if flags[n] == which then Select(body[..n], flags[..n], which) + [body[n]]
      else Select(body[..n], flags[..n], which)
  }

  function SplitBy(items: seq<Message>, flags: seq<bool>): HistorySplit
    requires |flags| == |BodyOf(items)|
  {
    HistorySplit(Keep(items, flags), Select(BodyOf(items), flags, false))
  }

  function LastUser(body: seq<Message>): (u: int)
    ensures -1 <= u < |body|
    ensures u >= 0 ==> body[u].role.User?
    ensures forall p :: u < p < |body| ==> !body[p].role.User?
  {
    if body == [] then -1
    else if body[|body| - 1].role.User? then |body| - 1
    else LastUser(body[..|body| - 1])
  }

  /** Every message of body[lo..hi] is a tool result. */
  ghost predicate OnlyTools(body: seq<Message>, lo: int, hi: int) {
    forall p :: 0 <= p < |body| && lo <= p < hi ==> body[p].role.Tool?
  }

  /** Kept is: the newest keepLast messages; the messages before them that only tool results separate
      from them; not a tool result that nothing but tool results precede; and the last user message. */
  ghost predicate InWindow(body: seq<Message>, keepLast: nat, p: nat)
    requires p < |body|
  {
    var start := |body| - keepLast;
    (p >= start || OnlyTools(body, p + 1, start + 1)) && !OnlyTools(body, 0, p + 1)
  }

  ghost predicate KeptRule(body: seq<Message>, keepLast: nat, p: nat)
    requires p < |body|
  {
    |body| <= keepLast || InWindow(body, keepLast, p) || p == LastUser(body)
  }

  ghost function Rule(body: seq<Message>, keepLast: nat): (flags: seq<bool>)
    ensures |flags| == |body|
    ensures forall p :: 0 <= p < |flags| ==> (flags[p] <==> KeptRule(body, keepLast, p))
  {
    seq(|body|, p requires 0 <= p < |body| => KeptRule(body, keepLast, p))
  }

  /** Where the window starts: back to the message that made the calls, then past orphaned results. */
  method WindowStart(body: seq<Message>, keepLast: nat) returns (w: nat)
    requires 1 <= keepLast < |body|
    ensures w <= |body| && forall p :: 0 <= p < |body| ==> (p >= w <==> InWindow(body, keepLast, p))
  {
    var start := |body| - keepLast;
    while start > 0 && body[start].role.Tool?
      invariant 0 <= start <= |body| - keepLast
      invariant OnlyTools(body, start + 1, |body| - keepLast + 1)
    {
      start := start - 1;
    }
    w := start;
    while w < |body| && body[w].role.Tool?
      invariant start <= w <= |body|
      invariant w > start ==> start == 0 && body[0].role.Tool?
      invariant OnlyTools(body, start, w)
    {
      w := w + 1;
    }
    forall p | 0 <= p < |body| ensures p >= w <==> InWindow(body, keepLast, p) {
      if p >= w { assert !body[w].role.Tool?; }
      if p < start { assert !body[start].role.Tool?; }
    }
  }

  /** split_history: None is the ValueError for a keep_last below 1. */
  method SplitHistory(items: seq<Message>, keepLast: int) returns (r: Option<HistorySplit>)
    ensures r.Some? <==> keepLast >= 1
    ensures r.Some? ==> r.value == SplitBy(items, Rule(BodyOf(items), keepLast))
  {
    if keepLast < 1 {
      return None;
    }
    var body := BodyOf(items);
    if |body| <= keepLast {
      KeepAll(items, Rule(body, keepLast));
      SelectNone(body, Rule(body, keepLast));
      return Some(HistorySplit(items, []));
    }
    var w := WindowStart(body, keepLast);
    var u := LastUser(body);
    var flags := seq(|body|, p requires 0 <= p < |body| => p >= w || p == u);
    assert flags == Rule(body, keepLast);
    r := Some(SplitBy(items, flags));
  }

  // ----- kept and dropped are a partition, in order -----

  lemma {:induction false} KeepAll(items: seq<Message>, flags: seq<bool>)
    requires |flags| == |BodyOf(items)| && forall p :: 0 <= p < |flags| ==> flags[p]
    ensures Keep(items, flags) == items
  {
    if items != [] {
      var n := |items| - 1;
      assert items == items[..n] + [items[n]];
      if items[n].role.System? {
        KeepAll(items[..n], flags);
      } else {
        KeepAll(items[..n], flags[..|flags| - 1]);
      }
    }
  }

  lemma {:induction false} SelectNone(body: seq<Message>, flags: seq<bool>)
    requires |flags| == |body| && forall p :: 0 <= p < |flags| ==> flags[p]
    ensures Select(body, flags, false) == []
  {
    if body != [] { SelectNone(body[..|body| - 1], flags[..|body| - 1]); }
  }

  /** The flags of all messages but the last. */
  function Front(items: seq<Message>, flags: seq<bool>): (front: seq<bool>)
    requires items != [] && |flags| == |BodyOf(items)|
    ensures |front| == |BodyOf(items[..|items| - 1])|
  {
    if items[|items| - 1].role.System? then flags else flags[..|flags| - 1]
  }

  lemma BodyStep(items: seq<Message>)
    requires items != []
    ensures var n := |items| - 1;
      BodyOf(items) == if items[n].role.System? then BodyOf(items[..n]) else BodyOf(items[..n]) + [items[n]]
  {
  }

  /** What is kept of the body is exactly the flagged part, in order. */
  lemma {:induction false} KeptBody(items: seq<Message>, flags: seq<bool>)
    requires |flags| == |BodyOf(items)|
    ensures BodyOf(Keep(items, flags)) == Select(BodyOf(items), flags, true)
  {
    if items != [] {
      var n := |items| - 1;
      var front := Front(items, flags);
      KeptBody(items[..n], front);
      BodyPush(Keep(items[..n], front), items[n]);
      BodyStep(items);
      LastMark(items, flags);
      hide Keep, Marks, BodyOf, Front, Select;
      if !items[n].role.System? {
        SelectPush(BodyOf(items[..n]), front, items[n], flags[|front|], true);
      }
    }
  }

  lemma SelectPush(body: seq<Message>, flags: seq<bool>, m: Message, flag: bool, which: bool)
    requires |flags| == |body|
    ensures flag == which ==> Select(body + [m], flags + [flag], which) == Select(body, flags, which) + [m]
    ensures flag != which ==> Select(body + [m], flags + [flag], which) == Select(body, flags, which)
  {
    assert (body + [m])[..|body|] == body && (flags + [flag])[..|flags|] == flags;
  }

  lemma BodyPush(items: seq<Message>, m: Message)
    ensures BodyOf(items + [m]) == if m.role.System? then BodyOf(items) else BodyOf(items) + [m]
  {
    assert (items + [m])[..|items|] == items;
  }

  /** Which of all the messages are kept. */
  function Marks(items: seq<Message>, flags: seq<bool>): (marks: seq<bool>)
    requires |flags| == |BodyOf(items)|
    ensures |marks| == |items|
  {
    if items == [] then []
    else
      var n := |items| - 1;
      if items[n].role.System? then Marks(items[..n], flags) + [true]
      else
        var m := |flags| - 1;
        Marks(items[..n], flags[..m]) + [flags[m]]
  }

  /** The last message's own mark. */
  lemma LastMark(items: seq<Message>, flags: seq<bool>)
    requires items != [] && |flags| == |BodyOf(items)|
    ensures var n, front := |items| - 1, Front(items, flags);
      var mark := if items[n].role.System? then true else flags[|front|];
      && Marks(items, flags) == Marks(items[..n], front) + [mark]
      && Keep(items, flags) == (if mark then Keep(items[..n], front) + [items[n]] else Keep(items[..n], front))
      && flags == (if items[n].role.System? then front else front + [mark])
  {
  }

  lemma {:induction false} KeptMarked(items: seq<Message>, flags: seq<bool>)
    requires |flags| == |BodyOf(items)|
    ensures Keep(items, flags) == Select(items, Marks(items, flags), true)
    ensures forall i :: 0 <= i < |items| && items[i].role.System? ==> Marks(items, flags)[i]
  {
    if items != [] {
      var n, front := |items| - 1, Front(items, flags);
      KeptMarked(items[..n], front);
      LastMark(items, flags);
      hide Keep, Marks, BodyOf, Front, Select;
      assert items == items[..n] + [items[n]];
      SelectPush(items[..n], Marks(items[..n], front), items[n], Marks(items, flags)[n], true);
    }
  }

  lemma {:induction false} DroppedMarked(items: seq<Message>, flags: seq<bool>)
    requires |flags| == |BodyOf(items)|
    ensures Select(BodyOf(items), flags, false) == Select(items, Marks(items, flags), false)
  {
    if items != [] {
      var n, front := |items| - 1, Front(items, flags);
      DroppedMarked(items[..n], front);
      BodyStep(items);
      LastMark(items, flags);
      hide Keep, Marks, BodyOf, Front, Select;
      assert items == items[..n] + [items[n]];
      SelectPush(items[..n], Marks(items[..n], front), items[n], Marks(items, flags)[n], false);
      if !items[n].role.System? {
        SelectPush(BodyOf(items[..n]), front, items[n], flags[|front|], false);
      }
    }
  }

  /** Kept and dropped are complementary parts of the messages, each in order: every message is in
      exactly one of them; and every system message is kept. */
  lemma SplitPartitions(items: seq<Message>, flags: seq<bool>)
    requires |flags| == |BodyOf(items)|
    ensures SplitBy(items, flags).kept == Select(items, Marks(items, flags), true)
    ensures SplitBy(items, flags).dropped == Select(items, Marks(items, flags), false)
    ensures forall i :: 0 <= i < |items| && items[i].role.System? ==> Marks(items, flags)[i]
  {
    KeptMarked(items, flags);
    DroppedMarked(items, flags);
  }

  // ----- what the window guarantees -----

  /** The exchange a tool result belongs to: the message it follows, whoever wrote it, then only results. */
  ghost predicate Exchange(body: seq<Message>, call: nat, p: nat) {
    call < p < |body| && !body[call].role.Tool? && OnlyTools(body, call + 1, p + 1)
  }

  lemma NearestCall(body: seq<Message>, p: nat) returns (call: nat)
    requires p < |body| && body[p].role.Tool? && !OnlyTools(body, 0, p + 1)
    ensures Exchange(body, call, p)
  {
    call := p;
    while body[call].role.Tool?
      invariant call <= p && OnlyTools(body, call + 1, p + 1)
      decreases call
    {
      if call == 0 { assert false; }
      call := call - 1;
    }
  }

  /** When anything is dropped: a kept tool result is kept with its whole exchange; the tail after a
      kept message is kept (unless that message is the user's, kept in front of the window); the last
      user message is kept; and of the newest keepLast messages only leading orphans are dropped. */
  lemma WindowIsSafe(body: seq<Message>, keepLast: nat)
    requires 1 <= keepLast < |body|
    ensures var flags := Rule(body, keepLast);
      && (forall p: nat :: p < |body| && flags[p] && body[p].role.Tool? ==>
            exists call: nat :: Exchange(body, call, p) && forall q :: call <= q <= p ==> flags[q])
      && (forall p: nat, q: nat :: p < q < |body| && flags[p] && p != LastUser(body) ==> flags[q])
      && (LastUser(body) >= 0 ==> flags[LastUser(body)])
      && (forall p: nat :: |body| - keepLast <= p < |body| ==> (flags[p] <==> !OnlyTools(body, 0, p + 1)))
  {
    var flags := Rule(body, keepLast);
    forall p: nat | p < |body| && flags[p] && body[p].role.Tool?
      ensures exists call: nat :: Exchange(body, call, p) && forall q :: call <= q <= p ==> flags[q]
    {
      var call := NearestCall(body, p);
      forall q | call <= q <= p ensures flags[q] {
        assert InWindow(body, keepLast, q);
      }
    }
    forall p: nat, q: nat | p < q < |body| && flags[p] && p != LastUser(body) ensures flags[q] {
      assert InWindow(body, keepLast, q);
    }
    forall p: nat | |body| - keepLast <= p < |body| && flags[p] ensures !OnlyTools(body, 0, p + 1) {
      if p == LastUser(body) { assert !body[p].role.Tool?; }
    }
  }

  // ----- what the docstring promises about tool results -----

  /** A tool result with no assistant message before it (history.py:16-17). */
  ghost predicate Orphan(body: seq<Message>, p: nat) {
    p < |body| && body[p].role.Tool? && forall q :: 0 <= q < p ==> !body[q].role.Assistant?
  }

  /** The newest keepLast messages hold an orphan; one that some message precedes, unless nothing is
      dropped anyway. */
  ghost predicate RecentOrphan(body: seq<Message>, keepLast: nat, p: nat) {
    Orphan(body, p) && p >= |body| - keepLast && (|body| <= keepLast || !OnlyTools(body, 0, p))
  }

  /** history.py:16-17 has orphans dropped.  One is kept exactly when the newest keepLast messages hold one
      behind some other message, or any at all when nothing is dropped. */
  lemma OrphansKeptIff(body: seq<Message>, keepLast: nat)
    requires keepLast >= 1
    ensures (exists p: nat :: Orphan(body, p) && Rule(body, keepLast)[p])
            <==> exists p: nat :: RecentOrphan(body, keepLast, p)
  {
    if p: nat :| Orphan(body, p) && Rule(body, keepLast)[p] {
      var start := |body| - keepLast;
      if p < start {
        ToolsFrom(body, keepLast, p);
        assert RecentOrphan(body, keepLast, start);
      } else {
        assert RecentOrphan(body, keepLast, p);
      }
    }
    if p: nat :| RecentOrphan(body, keepLast, p) {
      assert Orphan(body, p) && Rule(body, keepLast)[p];
    }
  }

  /** A tool result kept from before the newest keepLast messages is followed by tool results up to them. */
  lemma ToolsFrom(body: seq<Message>, keepLast: nat, p: nat)
    requires 1 <= keepLast < |body| && p < |body| - keepLast && body[p].role.Tool? && Rule(body, keepLast)[p]
    ensures OnlyTools(body, p, |body| - keepLast + 1) && !OnlyTools(body, 0, p)
  {
  }

  /** The docstring also has the window extended to the assistant message that made the calls.  The message
      it is extended to is an assistant's, for every result that is kept behind one, exactly when it is for
      those among the newest keepLast. */
  lemma CallsAreAssistantsIff(body: seq<Message>, keepLast: nat)
    requires keepLast >= 1
    ensures (forall call: nat, p: nat :: Exchange(body, call, p) && Rule(body, keepLast)[p] ==>
               body[call].role.Assistant?)
            <==> forall call: nat, p: nat :: Exchange(body, call, p) && p >= |body| - keepLast ==>
                   body[call].role.Assistant?
  {
    forall call: nat, p: nat | Exchange(body, call, p) && p >= |body| - keepLast ensures Rule(body, keepLast)[p] {
    }
    forall call: nat, p: nat | Exchange(body, call, p) && Rule(body, keepLast)[p] && p < |body| - keepLast
      ensures Exchange(body, call, |body| - keepLast)
    {
      ToolsFrom(body, keepLast, p);
    }
  }

  /** A lone tool result is an orphan, and is kept. */
  method OrphanExample() returns (items: seq<Message>, r: Option<HistorySplit>)
    ensures items == [Message(Tool, "")] && Orphan(BodyOf(items), 0) && Rule(BodyOf(items), 1)[0]
    ensures r == Some(HistorySplit(items, []))
  {
    items := [Message(Tool, "")];
    AllBody(items);
    KeepAll(items, Rule(items, 1));
    SelectNone(items, Rule(items, 1));
    r := SplitHistory(items, 1);
  }

  /** Of a question, a tool result and an answer, the newest two are asked for: the window is extended from the
      result to the question, and the orphan is kept. */
  method OrphanBehindQuestion() returns (items: seq<Message>, r: Option<HistorySplit>)
    ensures items == [Message(User, ""), Message(Tool, ""), Message(Assistant, "")]
    ensures BodyOf(items) == items && Orphan(items, 1) && Exchange(items, 0, 1) && Rule(items, 2)[1]
    ensures r == Some(HistorySplit(items, []))
  {
    items := [Message(User, ""), Message(Tool, ""), Message(Assistant, "")];
    AllBody(items);
    var flags := Rule(items, 2);
    assert flags[1] by { assert InWindow(items, 2, 1); }
    assert flags[2] by { assert InWindow(items, 2, 2); }
    assert flags[0] by { assert items[0].role.User? && KeptRule(items, 2, 0); }
    KeepAll(items, flags);
    SelectNone(items, flags);
    r := SplitHistory(items, 2);
  }

  lemma {:induction false} AllBody(items: seq<Message>)
    requires forall i :: 0 <= i < |items| ==> !items[i].role.System?
    ensures BodyOf(items) == items
  {
    if items != [] {
      AllBody(items[..|items| - 1]);
      assert items == items[..|items| - 1] + [items[|items| - 1]];
    }
  }

  // ----- splitting what was kept keeps it all -----

  lemma {:induction false} SelectTail(body: seq<Message>, flags: seq<bool>, w: nat)
    requires |flags| == |body| && w <= |body|
    requires forall p :: 0 <= p < |flags| ==> (flags[p] <==> p >= w)
    ensures Select(body, flags, true) == body[w..]
  {
    if body != [] {
      var n := |body| - 1;
      if w <= n {
        SelectTail(body[..n], flags[..n], w);
        assert body[w..] == body[..n][w..] + [body[n]];
      } else {
        SelectTail(body[..n], flags[..n], n);
      }
    }
  }

  lemma {:induction false} SelectOneAndTail(body: seq<Message>, flags: seq<bool>, u: nat, w: nat)
    requires |flags| == |body| && u < w <= |body|
    requires forall p :: 0 <= p < |flags| ==> (flags[p] <==> p >= w || p == u)
    ensures Select(body, flags, true) == [body[u]] + body[w..]
  {
    var n := |body| - 1;
    if w <= n {
      SelectOneAndTail(body[..n], flags[..n], u, w);
      assert body[w..] == body[..n][w..] + [body[n]];
    } else if u < n {
      SelectOneAndTail(body[..n], flags[..n], u, n);
    } else {
      SelectTail(body[..n], flags[..n], n);
    }
  }

  /** The window, as a suffix of the body. */
  lemma WindowFrom(body: seq<Message>, keepLast: nat) returns (w: nat)
    requires 1 <= keepLast < |body|
    ensures w <= |body| && forall p: nat :: p < |body| ==> (p >= w <==> InWindow(body, keepLast, p))
    ensures w < |body| ==> !body[w].role.Tool?
  {
    w := 0;
    while w < |body| && !InWindow(body, keepLast, w)
      invariant w <= |body| && forall p: nat :: p < w && p < |body| ==> !InWindow(body, keepLast, p)
    {
      w := w + 1;
    }
    forall p: nat | w <= p < |body| ensures InWindow(body, keepLast, p) {
    }
    if w < |body| && body[w].role.Tool? {
      CallInWindow(body, keepLast, w);
    }
  }

  /** A tool result in the window has its predecessor there. */
  lemma CallInWindow(body: seq<Message>, keepLast: nat, p: nat)
    requires 1 <= keepLast < |body| && p < |body| && InWindow(body, keepLast, p) && body[p].role.Tool?
    ensures p > 0 && InWindow(body, keepLast, p - 1)
  {
    var call := NearestCall(body, p);
  }

  /** Put in front of the window or not, the last user message leaves the window where it was. */
  lemma SameWindow(body: seq<Message>, keepLast: nat, w: nat, front: seq<Message>)
    requires 1 <= keepLast < |body| && w <= |body| - keepLast && !body[w].role.Tool?
    requires |front| <= 1 && |front + body[w..]| > keepLast
    requires forall p: nat :: p < |body| ==> (p >= w <==> InWindow(body, keepLast, p))
    ensures forall q: nat :: |front| <= q < |front + body[w..]| ==> InWindow(front + body[w..], keepLast, q)
  {
    var kept := front + body[w..];
    forall q: nat | |front| <= q < |kept| ensures InWindow(kept, keepLast, q) {
      var p := q - |front| + w;
      assert InWindow(body, keepLast, p);
      assert !kept[|front|].role.Tool?;
      if p < |body| - keepLast {
        forall r | q + 1 <= r < |kept| - keepLast + 1 ensures kept[r].role.Tool? {
          assert kept[r] == body[r - |front| + w];
        }
      }
    }
  }

  lemma AllKept(body: seq<Message>, keepLast: nat)
    requires keepLast >= 1
    ensures var kept := Select(body, Rule(body, keepLast), true);
      forall q: nat :: q < |kept| ==> KeptRule(kept, keepLast, q)
  {
    var flags := Rule(body, keepLast);
    hide OnlyTools, Select, LastUser;
    if |body| <= keepLast {
      SelectTail(body, flags, 0);
    } else {
      var w := WindowFrom(body, keepLast);
      var u := LastUser(body);
      var front: seq<Message> := [];
      if 0 <= u < w {
        SelectOneAndTail(body, flags, u, w);
        front := [body[u]];
      } else {
        SelectTail(body, flags, w);
        assert [] + body[w..] == body[w..];
      }
      var kept := front + body[w..];
      if |kept| > keepLast {
        SameWindow(body, keepLast, w, front);
        if 0 <= u < w { StillLast(body, u, w); }
      }
    }
  }

  lemma StillLast(body: seq<Message>, u: nat, w: nat)
    requires u < w <= |body| && u == LastUser(body)
    ensures LastUser([body[u]] + body[w..]) == 0
  {
    var kept := [body[u]] + body[w..];
    assert kept[0].role.User?;
    forall q | 1 <= q < |kept| ensures !kept[q].role.User? {
      assert kept[q] == body[q - 1 + w];
    }
  }

  /** Splitting the kept messages again keeps them all. */
  lemma SplitIdempotent(items: seq<Message>, keepLast: nat)
    requires keepLast >= 1
    ensures var kept := SplitBy(items, Rule(BodyOf(items), keepLast)).kept;
      SplitBy(kept, Rule(BodyOf(kept), keepLast)) == HistorySplit(kept, [])
  {
    var body := BodyOf(items);
    var flags := Rule(body, keepLast);
    KeptBody(items, flags);
    AllKept(body, keepLast);
    var kept := Keep(items, flags);
    KeepAll(kept, Rule(BodyOf(kept), keepLast));
    SelectNone(BodyOf(kept), Rule(BodyOf(kept), keepLast));
  }
}
