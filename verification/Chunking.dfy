/** Packing a document's blocks into chunks of a token budget, with overlap.

    Character classes, the fence pattern and the sentence splitter are parameters. */
module Chunking {
  import opened Assoc

  datatype Class = Word | Space | Punct

  /** fence: the marker of a text that starts like a code fence. */
  datatype Text = Text(cls: char -> Class, fence: string -> Option<string>, sentences: string -> seq<string>)
  {
    predicate isFence(s: string) { fence(s).Some? }
  }

  /** What the patterns guarantee: blanks and line ends are white space; splitting at sentence ends
      yields at least one part and only takes white space away. */
  ghost predicate Blanks(t: Text) {
    t.cls(' ') == Space && t.cls('\n') == Space
  }

  ghost predicate Ok(t: Text) {
    Blanks(t) && forall s :: t.sentences(s) != [] && SumTokens(t, t.sentences(s)) == Tokens(t, s)
  }

  // ----- token estimates -----

  /** estimate_tokens: runs of word characters, and punctuation marks. */
  function Tokens(t: Text, s: string): nat {
    if s == "" then 0
    else
      var n := |s| - 1;
      var c := t.cls(s[n]);
      Tokens(t, s[..n]) + if c.Punct? || (c.Word? && (n == 0 || !t.cls(s[n - 1]).Word?)) then 1 else 0
  }

  /** Counts add up where no word is cut in two. */
  lemma {:induction false} TokensConcat(t: Text, a: string, b: string)
    requires a == "" || b == "" || !t.cls(a[|a| - 1]).Word? || !t.cls(b[0]).Word?
    ensures Tokens(t, a + b) == Tokens(t, a) + Tokens(t, b)
  {
    if b == "" {
      assert a + b == a;
    } else {
      var n := |b| - 1;
      assert (a + b)[..|a| + n] == a + b[..n];
      TokensConcat(t, a, b[..n]);
    }
  }

  predicate Separator(s: string) {
    s == " " || s == "\n" || s == "\n\n"
  }

  lemma NoTokens(t: Text)
    requires Blanks(t)
    ensures Tokens(t, " ") == Tokens(t, "\n") == Tokens(t, "\n\n") == 0
  {
    assert "\n\n"[..1] == "\n" && "\n"[..0] == "" && " "[..0] == "";
    assert Tokens(t, "\n") == 0;
  }

  lemma TokensJoin(t: Text, a: string, sep: string, b: string)
    requires Blanks(t) && Separator(sep)
    ensures Tokens(t, a + sep + b) == Tokens(t, a) + Tokens(t, b)
  {
    NoTokens(t);
    hide Tokens;
    TokensConcat(t, a, sep);
    TokensConcat(t, a + sep, b);
  }

  // ----- pieces -----

  /** A text, and what goes before it when it follows another piece. */
  datatype Piece = Piece(sep: string, text: string)

  function Join(pieces: seq<Piece>): string {
    if pieces == [] then ""
    else if |pieces| == 1 then pieces[0].text
    else
      var n := |pieces| - 1;
      Join(pieces[..n]) + pieces[n].sep + pieces[n].text
  }

  function Size(t: Text, pieces: seq<Piece>): nat {
    if pieces == [] then 0 else Size(t, pieces[..|pieces| - 1]) + Tokens(t, pieces[|pieces| - 1].text)
  }

  ghost predicate Separated(pieces: seq<Piece>) {
    forall i :: 0 <= i < |pieces| ==> Separator(pieces[i].sep)
  }

  /** Joining pieces neither loses nor makes tokens. */
  lemma {:induction false} JoinTokens(t: Text, pieces: seq<Piece>)
    requires Blanks(t) && Separated(pieces)
    ensures Tokens(t, Join(pieces)) == Size(t, pieces)
  {
    if |pieces| == 1 {
      assert pieces[..0] == [];
    } else if pieces != [] {
      var n := |pieces| - 1;
      JoinTokens(t, pieces[..n]);
      TokensJoin(t, Join(pieces[..n]), pieces[n].sep, pieces[n].text);
    }
  }

  lemma {:induction false} SizeConcat(t: Text, a: seq<Piece>, b: seq<Piece>)
    ensures Size(t, a + b) == Size(t, a) + Size(t, b)
  {
    if b == [] {
      assert a + b == a;
    } else {
      var n := |b| - 1;
      assert (a + b)[..|a| + n] == a + b[..n];
      SizeConcat(t, a, b[..n]);
    }
  }

  lemma SizeOne(t: Text, p: Piece)
    ensures Size(t, [p]) == Tokens(t, p.text)
  {
    assert [p][..0] == [];
    assert Size(t, [p][..0]) == 0;
  }

  function Min(a: int, b: int): int {
    if a < b then a else b
  }

  /** The last m pieces are the overlap: no fence among them, within the limits, and one more would be
      a fence or too much. */
  ghost predicate TailOk(t: Text, pieces: seq<Piece>, m: nat, overlap: int, room: int) {
    && m <= |pieces|
    && (forall i :: |pieces| - m <= i < |pieces| ==> !t.isFence(pieces[i].text))
    && (m > 0 ==> Size(t, pieces[|pieces| - m..]) <= Min(overlap, room))
    && (m < |pieces| ==> (Min(overlap, room) <= 0 || t.isFence(pieces[|pieces| - m - 1].text)
                          || Size(t, pieces[|pieces| - m - 1..]) > Min(overlap, room)))
  }

  lemma SizeMore(t: Text, pieces: seq<Piece>, i: nat)
    requires i < |pieces|
    ensures Size(t, pieces[i..]) == Tokens(t, pieces[i].text) + Size(t, pieces[i + 1..])
  {
    assert pieces[i..] == [pieces[i]] + pieces[i + 1..];
    SizeConcat(t, [pieces[i]], pieces[i + 1..]);
    SizeOne(t, pieces[i]);
  }

  /** The last pieces of a chunk that the next one repeats: as many as the overlap has room for. */
  method Tail(t: Text, pieces: seq<Piece>, overlap: int, room: int) returns (kept: seq<Piece>)
    ensures |kept| <= |pieces| && kept == pieces[|pieces| - |kept|..]
    ensures TailOk(t, pieces, |kept|, overlap, room)
  {
    kept := [];
    if overlap <= 0 || room <= 0 {
      return;
    }
    hide TailOk, Size, Tokens;
    NoPieces(t);
    var size := 0;
    var i := |pieces|;
    while i > 0
      invariant 0 <= i <= |pieces| && kept == pieces[i..] && size == Size(t, kept) <= Min(overlap, room)
      invariant forall k :: i <= k < |pieces| ==> !t.isFence(pieces[k].text)
    {
      var piece := pieces[i - 1];
      var cost := Tokens(t, piece.text);
      SizeMore(t, pieces, i - 1);
      if t.isFence(piece.text) || size + cost > Min(overlap, room) {
        break;
      }
      kept := [piece] + kept;
      size := size + cost;
      i := i - 1;
    }
    TailFound(t, pieces, i, overlap, room);
  }

  lemma NoPieces(t: Text)
    ensures Size(t, []) == 0
  {
  }

  lemma TailFound(t: Text, pieces: seq<Piece>, i: nat, overlap: int, room: int)
    requires i <= |pieces| && Size(t, pieces[i..]) <= Min(overlap, room)
    requires forall k :: i <= k < |pieces| ==> !t.isFence(pieces[k].text)
    requires i > 0 ==> t.isFence(pieces[i - 1].text) || Size(t, pieces[i - 1..]) > Min(overlap, room)
    ensures TailOk(t, pieces, |pieces| - i, overlap, room)
  {
    hide Size, Min;
  }

  // ----- packing -----

  /** A chunk is the pieces from lo up to hi. */
  datatype Run = Run(lo: nat, hi: nat)

  ghost predicate RunOk(t: Text, pieces: seq<Piece>, run: Run, body: string, budget: int) {
    && run.lo < run.hi <= |pieces|
    && body == Join(pieces[run.lo..run.hi])
    && (Tokens(t, body) <= budget || run.hi == run.lo + 1)
  }

  /** The pieces from start to hi are the overlap of the chunk from lo to hi (TailOk, in place). */
  ghost predicate Overlaps(t: Text, pieces: seq<Piece>, lo: nat, hi: nat, start: nat, overlap: int, room: int) {
    && lo <= start <= hi <= |pieces|
    && (forall i :: start <= i < hi ==> !t.isFence(pieces[i].text))
    && (start < hi ==> Size(t, pieces[start..hi]) <= Min(overlap, room))
    && (lo < start ==> (Min(overlap, room) <= 0 || t.isFence(pieces[start - 1].text)
                        || Size(t, pieces[start - 1..hi]) > Min(overlap, room)))
  }

  lemma SliceOfSlice(pieces: seq<Piece>, lo: nat, hi: nat, start: nat)
    requires lo <= start <= hi <= |pieces|
    ensures pieces[lo..hi][start - lo..] == pieces[start..hi]
  {
  }

  lemma TailOverlaps(t: Text, pieces: seq<Piece>, lo: nat, hi: nat, m: nat, overlap: int, room: int)
    requires lo <= hi <= |pieces| && TailOk(t, pieces[lo..hi], m, overlap, room)
    ensures m <= hi - lo && Overlaps(t, pieces, lo, hi, hi - m, overlap, room)
  {
    TailShort(t, pieces[lo..hi], m, overlap, room);
    hide *;
    var start := hi - m;
    SliceOfSlice(pieces, lo, hi, start);
    if lo < start { SliceOfSlice(pieces, lo, hi, start - 1); }
    TailInside(t, pieces, pieces[lo..hi], lo, hi, start, overlap, room);
  }

  lemma TailShort(t: Text, pieces: seq<Piece>, m: nat, overlap: int, room: int)
    requires TailOk(t, pieces, m, overlap, room)
    ensures m <= |pieces|
  {
  }

  lemma TailInside(t: Text, pieces: seq<Piece>, current: seq<Piece>, lo: nat, hi: nat, start: nat, overlap: int,
                   room: int)
    requires lo <= start <= hi <= |pieces| && |current| == hi - lo && TailOk(t, current, hi - start, overlap, room)
    requires forall i :: lo <= i < hi ==> pieces[i] == current[i - lo]
    requires current[start - lo..] == pieces[start..hi]
    requires lo < start ==> current[start - 1 - lo..] == pieces[start - 1..hi]
    ensures Overlaps(t, pieces, lo, hi, start, overlap, room)
  {
    hide Size, Min;
    forall i | start <= i < hi ensures !t.isFence(pieces[i].text) {
      assert pieces[i] == current[i - lo];
    }
    if lo < start { assert pieces[start - 1] == current[start - 1 - lo]; }
  }

  /** The next chunk starts with the piece that no longer fitted, and repeats the overlap before it. */
  ghost predicate Follows(t: Text, pieces: seq<Piece>, a: Run, b: Run, budget: int, overlap: int) {
    && a.lo < a.hi < |pieces| && a.lo <= b.lo <= a.hi < b.hi
    && Size(t, pieces[a.lo..a.hi]) + Tokens(t, pieces[a.hi].text) > budget
    && Overlaps(t, pieces, a.lo, a.hi, b.lo, overlap, budget - Tokens(t, pieces[a.hi].text))
  }

  /** Each chunk has its body. */
  ghost predicate RunsOk(t: Text, pieces: seq<Piece>, runs: seq<Run>, bodies: seq<string>, budget: int) {
    |runs| == |bodies| && forall k :: 0 <= k < |runs| ==> RunOk(t, pieces, runs[k], bodies[k], budget)
  }

  /** The chunks start with the first piece, and each follows the one before it. */
  ghost predicate Chained(t: Text, pieces: seq<Piece>, runs: seq<Run>, budget: int, overlap: int) {
    && (runs != [] ==> runs[0].lo == 0)
    && forall k :: 0 <= k < |runs| - 1 ==> Follows(t, pieces, runs[k], runs[k + 1], budget, overlap)
  }

  /** Runs that cover every piece below n in order. */
  ghost predicate Packed(t: Text, pieces: seq<Piece>, runs: seq<Run>, bodies: seq<string>, budget: int,
                         overlap: int, n: nat) {
    && RunsOk(t, pieces, runs, bodies, budget)
    && Chained(t, pieces, runs, budget, overlap)
    && (n > 0 <==> runs != [])
    && (n > 0 ==> runs[|runs| - 1].hi == n)
  }

  lemma ChainPush(t: Text, pieces: seq<Piece>, runs: seq<Run>, next: Run, budget: int, overlap: int)
    requires runs != [] && Chained(t, pieces, runs, budget, overlap)
    requires Follows(t, pieces, runs[|runs| - 1], next, budget, overlap)
    ensures Chained(t, pieces, runs + [next], budget, overlap)
  {
    hide Follows;
  }

  /** The last chunk may take more pieces. */
  lemma ChainGrow(t: Text, pieces: seq<Piece>, runs: seq<Run>, last: Run, budget: int, overlap: int)
    requires last.hi < |pieces| && Chained(t, pieces, runs + [last], budget, overlap)
    ensures Chained(t, pieces, runs + [last.(hi := last.hi + 1)], budget, overlap)
  {
    var before, after := runs + [last], runs + [last.(hi := last.hi + 1)];
    hide TailOk, Size, Tokens, Overlaps;
    forall k | 0 <= k < |after| - 1 ensures Follows(t, pieces, after[k], after[k + 1], budget, overlap) {
      assert Follows(t, pieces, before[k], before[k + 1], budget, overlap);
    }
  }

  lemma RunsPush(t: Text, pieces: seq<Piece>, runs: seq<Run>, bodies: seq<string>, budget: int, run: Run, body: string)
    requires RunsOk(t, pieces, runs, bodies, budget) && RunOk(t, pieces, run, body, budget)
    ensures RunsOk(t, pieces, runs + [run], bodies + [body], budget)
  {
    hide RunOk;
  }

  /** What the chunk being packed holds. */
  ghost predicate Filling(t: Text, pieces: seq<Piece>, run: Run, current: seq<Piece>, size: int, budget: int) {
    && run.lo <= run.hi <= |pieces| && current == pieces[run.lo..run.hi]
    && size == Size(t, current)
    && (size <= budget || run.hi == run.lo + 1)
  }

  lemma FillingBody(t: Text, pieces: seq<Piece>, run: Run, current: seq<Piece>, size: int, budget: int)
    requires Blanks(t) && Separated(pieces) && current != [] && Filling(t, pieces, run, current, size, budget)
    ensures RunOk(t, pieces, run, Join(current), budget)
  {
    JoinTokens(t, current);
    hide Join, Tokens, Size;
  }

  lemma SlicePush(pieces: seq<Piece>, lo: nat, hi: nat)
    requires lo <= hi < |pieces|
    ensures pieces[lo..hi] + [pieces[hi]] == pieces[lo..hi + 1]
  {
  }

  lemma SizePush(t: Text, pieces: seq<Piece>, piece: Piece)
    ensures Size(t, pieces + [piece]) == Size(t, pieces) + Tokens(t, piece.text)
  {
    assert (pieces + [piece])[..|pieces|] == pieces;
  }

  lemma FillingMore(t: Text, pieces: seq<Piece>, run: Run, current: seq<Piece>, size: int, budget: int)
    requires run.hi < |pieces| && Filling(t, pieces, run, current, size, budget)
    requires current == [] || size + Tokens(t, pieces[run.hi].text) <= budget
    ensures var piece := pieces[run.hi];
      Filling(t, pieces, run.(hi := run.hi + 1), current + [piece], size + Tokens(t, piece.text), budget)
  {
    SizePush(t, current, pieces[run.hi]);
    SlicePush(pieces, run.lo, run.hi);
    hide Size, Tokens;
  }

  ghost predicate IsSlice(pieces: seq<Piece>, lo: nat, hi: nat, s: seq<Piece>) {
    lo <= hi <= |pieces| && s == pieces[lo..hi]
  }

  /** The overlap, and the piece that did not fit. */
  lemma FillingAnew(t: Text, pieces: seq<Piece>, lo: nat, i: nat, start: nat, kept: seq<Piece>, budget: int,
                    overlap: int)
    requires i < |pieces| && IsSlice(pieces, start, i, kept)
    requires Overlaps(t, pieces, lo, i, start, overlap, budget - Tokens(t, pieces[i].text))
    ensures Filling(t, pieces, Run(start, i + 1), kept + [pieces[i]], Size(t, kept) + Tokens(t, pieces[i].text), budget)
  {
    SizePush(t, kept, pieces[i]);
    SlicePush(pieces, start, i);
    hide Size, Tokens;
  }

  /** The tail to repeat, and where it starts among all the pieces. */
  method TailOf(t: Text, pieces: seq<Piece>, ghost run: Run, current: seq<Piece>, ghost size: int, ghost budget: int,
                overlap: int, room: int) returns (kept: seq<Piece>, ghost start: nat)
    requires Filling(t, pieces, run, current, size, budget)
    ensures Overlaps(t, pieces, run.lo, run.hi, start, overlap, room) && IsSlice(pieces, start, run.hi, kept)
  {
    kept := Tail(t, current, overlap, room);
    TailOverlaps(t, pieces, run.lo, run.hi, |kept|, overlap, room);
    start := run.hi - |kept|;
    SliceOfSlice(pieces, run.lo, run.hi, start);
    hide Overlaps, TailOk, Size;
    assert |current| - |kept| == start - run.lo;
  }

  lemma TailFollows(t: Text, pieces: seq<Piece>, run: Run, current: seq<Piece>, size: int, budget: int,
                    overlap: int, start: nat)
    requires current != [] && run.hi < |pieces| && Filling(t, pieces, run, current, size, budget)
    requires size + Tokens(t, pieces[run.hi].text) > budget
    requires Overlaps(t, pieces, run.lo, run.hi, start, overlap, budget - Tokens(t, pieces[run.hi].text))
    ensures Follows(t, pieces, run, Run(start, run.hi + 1), budget, overlap)
  {
    hide Size, Tokens, Min;
  }

  /** The loop of _pack after i pieces: the finished chunks, and the one being packed. */
  ghost predicate Packing(t: Text, pieces: seq<Piece>, runs: seq<Run>, bodies: seq<string>, budget: int,
                          overlap: int, run: Run) {
    && RunsOk(t, pieces, runs, bodies, budget)
    && Chained(t, pieces, runs + [run], budget, overlap)
  }

  lemma Closed(t: Text, pieces: seq<Piece>, runs: seq<Run>, bodies: seq<string>, budget: int, overlap: int, run: Run,
               body: string, next: Run)
    requires Packing(t, pieces, runs, bodies, budget, overlap, run) && RunOk(t, pieces, run, body, budget)
    requires Follows(t, pieces, run, next, budget, overlap)
    ensures Packing(t, pieces, runs + [run], bodies + [body], budget, overlap, next)
  {
    RunsPush(t, pieces, runs, bodies, budget, run, body);
    ChainPush(t, pieces, runs + [run], next, budget, overlap);
  }

  lemma Grown(t: Text, pieces: seq<Piece>, runs: seq<Run>, bodies: seq<string>, budget: int, overlap: int, run: Run)
    requires run.hi < |pieces| && Packing(t, pieces, runs, bodies, budget, overlap, run)
    ensures Packing(t, pieces, runs, bodies, budget, overlap, run.(hi := run.hi + 1))
  {
    ChainGrow(t, pieces, runs, run, budget, overlap);
  }

  lemma Finish(t: Text, pieces: seq<Piece>, runs: seq<Run>, bodies: seq<string>, budget: int, overlap: int, run: Run,
               body: string)
    requires run.hi > 0 && Packing(t, pieces, runs, bodies, budget, overlap, run) && RunOk(t, pieces, run, body, budget)
    ensures Packed(t, pieces, runs + [run], bodies + [body], budget, overlap, run.hi)
  {
    RunsPush(t, pieces, runs, bodies, budget, run, body);
  }

  lemma Nothing(t: Text, pieces: seq<Piece>, budget: int, overlap: int)
    requires budget > 0
    ensures Packing(t, pieces, [], [], budget, overlap, Run(0, 0)) && Filling(t, pieces, Run(0, 0), [], 0, budget)
    ensures Packed(t, pieces, [], [], budget, overlap, 0)
  {
  }

  /** One piece: it joins the chunk being packed, or closes it and starts the next. */
  method PackOne(t: Text, pieces: seq<Piece>, piece: Piece, budget: int, overlap: int, done: seq<string>,
                 filled: seq<Piece>, used: int, ghost doneRuns: seq<Run>, ghost doneRun: Run)
    returns (bodies: seq<string>, current: seq<Piece>, size: int, ghost runs: seq<Run>, ghost run: Run)
    requires Blanks(t) && Separated(pieces) && doneRun.hi < |pieces| && piece == pieces[doneRun.hi]
    requires Packing(t, pieces, doneRuns, done, budget, overlap, doneRun)
    requires Filling(t, pieces, doneRun, filled, used, budget)
    ensures run.hi == doneRun.hi + 1 && current != [] && Packing(t, pieces, runs, bodies, budget, overlap, run)
    ensures Filling(t, pieces, run, current, size, budget)
  {
    hide Packing, Filling, IsSlice, Tokens, Join, Size, Overlaps, Blanks, Separated, Follows, RunOk;
    var cost := Tokens(t, piece.text);
    if filled != [] && used + cost > budget {
      FillingBody(t, pieces, doneRun, filled, used, budget);
      ghost var start;
      current, start := TailOf(t, pieces, doneRun, filled, used, budget, overlap, budget - cost);
      TailFollows(t, pieces, doneRun, filled, used, budget, overlap, start);
      FillingAnew(t, pieces, doneRun.lo, doneRun.hi, start, current, budget, overlap);
      runs, run := doneRuns + [doneRun], Run(start, doneRun.hi + 1);
      bodies := done + [Join(filled)];
      Closed(t, pieces, doneRuns, done, budget, overlap, doneRun, Join(filled), run);
      size := Size(t, current) + cost;
    } else {
      FillingMore(t, pieces, doneRun, filled, used, budget);
      Grown(t, pieces, doneRuns, done, budget, overlap, doneRun);
      bodies, runs, run := done, doneRuns, doneRun.(hi := doneRun.hi + 1);
      current, size := filled, used + cost;
    }
    current := current + [piece];
  }

  /** The loop of _pack. */
  method Pack(t: Text, pieces: seq<Piece>, budget: int, overlap: int)
    returns (bodies: seq<string>, ghost runs: seq<Run>)
    requires Blanks(t) && Separated(pieces) && 0 <= overlap < budget
    ensures Packed(t, pieces, runs, bodies, budget, overlap, |pieces|)
  {
    bodies, runs := [], [];
    var current: seq<Piece> := [];
    var size := 0;
    ghost var run := Run(0, 0);
    Nothing(t, pieces, budget, overlap);
    hide Packing, Filling, Packed, Join, Blanks, Separated;
    for i := 0 to |pieces|
      invariant run.hi == i && Packing(t, pieces, runs, bodies, budget, overlap, run)
      invariant Filling(t, pieces, run, current, size, budget) && (i > 0 ==> current != [])
      invariant i == 0 ==> runs == [] && bodies == [] && current == []
    {
      bodies, current, size, runs, run := PackOne(t, pieces, pieces[i], budget, overlap, bodies, current, size,
                                                  runs, run);
    }
    if current != [] {
      FillingBody(t, pieces, run, current, size, budget);
      Finish(t, pieces, runs, bodies, budget, overlap, run, Join(current));
      bodies := bodies + [Join(current)];
      runs := runs + [run];
    }
  }

  // ----- splitting a block -----

  predicate OneWord(t: Text, s: string) {
    s != "" && forall i :: 0 <= i < |s| ==> !t.cls(s[i]).Space?
  }

  /** The words of a text, cut at white space. */
  function Words(t: Text, s: string): (ws: seq<string>)
    ensures forall i :: 0 <= i < |ws| ==> OneWord(t, ws[i])
  {
    if s == "" then []
    else
      var n := |s| - 1;
      var ws := Words(t, s[..n]);
      if t.cls(s[n]).Space? then ws
      else if n > 0 && !t.cls(s[n - 1]).Space? && ws != [] then ws[|ws| - 1 := ws[|ws| - 1] + [s[n]]]
      else ws + [[s[n]]]
  }

  function JoinBy(ws: seq<string>, sep: string): string {
    if ws == [] then ""
    else if |ws| == 1 then ws[0]
    else JoinBy(ws[..|ws| - 1], sep) + sep + ws[|ws| - 1]
  }

  function Flat(groups: seq<seq<string>>): seq<string> {
    if groups == [] then [] else Flat(groups[..|groups| - 1]) + groups[|groups| - 1]
  }

  /** Words, or lines, that fit together, or a single one that does not. */
  ghost predicate PartOk(t: Text, group: seq<string>, sep: string, budget: int) {
    group != [] && (Tokens(t, JoinBy(group, sep)) <= budget || |group| == 1)
  }

  /** The first group could not have taken the second one's first word. */
  ghost predicate Full(t: Text, a: seq<string>, b: seq<string>, sep: string, budget: int) {
    b != [] && Tokens(t, JoinBy(a + [b[0]], sep)) > budget
  }

  /** Every group holds as much as it can. */
  ghost predicate Greedy(t: Text, groups: seq<seq<string>>, sep: string, budget: int) {
    && (forall k :: 0 <= k < |groups| ==> PartOk(t, groups[k], sep, budget))
    && (forall k :: 0 <= k < |groups| - 1 ==> Full(t, groups[k], groups[k + 1], sep, budget))
  }

  ghost predicate WordGroups(t: Text, groups: seq<seq<string>>, parts: seq<string>, budget: int) {
    && Greedy(t, groups, " ", budget)
    && |parts| == |groups| && forall k :: 0 <= k < |parts| ==> parts[k] == JoinBy(groups[k], " ")
  }

  lemma GroupPush(t: Text, groups: seq<seq<string>>, sep: string, budget: int, group: seq<string>)
    requires Greedy(t, groups, sep, budget) && PartOk(t, group, sep, budget)
    requires groups != [] ==> Full(t, groups[|groups| - 1], group, sep, budget)
    ensures Greedy(t, groups + [group], sep, budget)
    ensures Flat(groups + [group]) == Flat(groups) + group
  {
    FlatPush(groups, group);
    hide Full, PartOk, Flat;
    var all := groups + [group];
    assert forall k :: 0 <= k < |groups| ==> all[k] == groups[k];
  }

  /** The words so far are those of the groups and of the one being filled. */
  ghost predicate Splitting(t: Text, words: seq<string>, i: nat, groups: seq<seq<string>>, current: seq<string>,
                            sep: string, budget: int) {
    && i <= |words| && Flat(groups) + current == words[..i] && Greedy(t, groups, sep, budget)
    && (current != [] ==> PartOk(t, current, sep, budget))
    && (i > 0 ==> current != [])
    && (groups != [] ==> current != [] && Full(t, groups[|groups| - 1], current, sep, budget))
  }

  lemma WordJoins(t: Text, words: seq<string>, i: nat, groups: seq<seq<string>>, current: seq<string>, sep: string,
                  budget: int)
    requires i < |words| && Splitting(t, words, i, groups, current, sep, budget)
    requires current == [] || Tokens(t, JoinBy(current + [words[i]], sep)) <= budget
    ensures Splitting(t, words, i + 1, groups, current + [words[i]], sep, budget)
  {
    hide Tokens, JoinBy, Flat, Greedy;
    assert words[..i + 1] == words[..i] + [words[i]];
    assert Flat(groups) + (current + [words[i]]) == Flat(groups) + current + [words[i]];
    if groups != [] {
      var last := groups[|groups| - 1];
      assert (current + [words[i]])[0] == current[0];
    }
  }

  lemma WordStarts(t: Text, words: seq<string>, i: nat, groups: seq<seq<string>>, current: seq<string>, sep: string,
                   budget: int)
    requires i < |words| && Splitting(t, words, i, groups, current, sep, budget)
    requires current != [] && Tokens(t, JoinBy(current + [words[i]], sep)) > budget
    ensures Splitting(t, words, i + 1, groups + [current], [words[i]], sep, budget)
  {
    hide Tokens, JoinBy, Flat, Greedy, PartOk, Full;
    GroupPush(t, groups, sep, budget, current);
    OneFits(t, current, words[i], sep, budget);
    assert words[..i + 1] == words[..i] + [words[i]];
    assert (groups + [current])[|groups|] == current;
  }

  lemma OneFits(t: Text, current: seq<string>, word: string, sep: string, budget: int)
    ensures PartOk(t, [word], sep, budget)
    ensures Full(t, current, [word], sep, budget) <==> Tokens(t, JoinBy(current + [word], sep)) > budget
  {
    hide Tokens, JoinBy;
  }

  lemma NoWords(t: Text, words: seq<string>, sep: string, budget: int)
    ensures Splitting(t, words, 0, [], [], sep, budget)
  {
  }

  /** The last group ends the splitting. */
  lemma LastWords(t: Text, words: seq<string>, groups: seq<seq<string>>, current: seq<string>, sep: string, budget: int)
    requires Splitting(t, words, |words|, groups, current, sep, budget)
    ensures var all := if current == [] then groups else groups + [current];
      Greedy(t, all, sep, budget) && Flat(all) == words
  {
    assert words[..|words|] == words;
    if current != [] { GroupPush(t, groups, sep, budget, current); }
    hide Greedy, Flat, Full, PartOk;
  }

  /** _split_words: every word once, in order, in parts that fit or are one word; no part could have
      taken the next word. */
  method SplitWords(t: Text, text: string, budget: int) returns (parts: seq<string>, ghost groups: seq<seq<string>>)
    ensures WordGroups(t, groups, parts, budget) && Flat(groups) == Words(t, text)
  {
    var words := Words(t, text);
    parts, groups := [], [];
    var current: seq<string> := [];
    NoWords(t, words, " ", budget);
    hide Splitting, Greedy, JoinBy, Tokens, Words, Flat;
    for i := 0 to |words|
      invariant Splitting(t, words, i, groups, current, " ", budget)
      invariant |parts| == |groups| && forall k :: 0 <= k < |parts| ==> parts[k] == JoinBy(groups[k], " ")
    {
      var word := words[i];
      if current != [] && Tokens(t, JoinBy(current + [word], " ")) > budget {
        WordStarts(t, words, i, groups, current, " ", budget);
        parts := parts + [JoinBy(current, " ")];
        groups := groups + [current];
        current := [word];
      } else {
        WordJoins(t, words, i, groups, current, " ", budget);
        current := current + [word];
      }
    }
    LastWords(t, words, groups, current, " ", budget);
    if current != [] {
      parts := parts + [JoinBy(current, " ")];
      groups := groups + [current];
    }
  }

  // ----- splitting an oversized fence -----

  /** The lines of a text, at least one. */
  function LinesOf(s: string): (lines: seq<string>)
    ensures lines != []
  {
    if s == "" then [""]
    else
      var n := |s| - 1;
      var lines := LinesOf(s[..n]);
      if s[n] == '\n' then lines + [""] else lines[|lines| - 1 := lines[|lines| - 1] + [s[n]]]
  }

  /** Joined again, the lines are the text. */
  lemma {:induction false} LinesAreTheText(s: string)
    ensures JoinBy(LinesOf(s), "\n") == s
  {
    if s != "" {
      var n := |s| - 1;
      LinesAreTheText(s[..n]);
      assert s == s[..n] + [s[n]];
      assert LinesOf(s) == AfterChar(LinesOf(s[..n]), s[n]);
      hide LinesOf;
      OneMoreChar(LinesOf(s[..n]), s[n]);
    }
  }

  function AfterChar(lines: seq<string>, c: char): seq<string>
    requires lines != []
  {
    var m := |lines| - 1;
    if c == '\n' then lines + [""] else lines[m := lines[m] + [c]]
  }

  lemma OneMoreChar(lines: seq<string>, c: char)
    requires lines != []
    ensures JoinBy(AfterChar(lines, c), "\n") == JoinBy(lines, "\n") + [c]
  {
    var m := |lines| - 1;
    var front, last := lines[..m], lines[m];
    assert lines == front + [last];
    if c == '\n' {
      LastJoined(lines, "", "\n");
    } else {
      LastJoined(front, last, "\n");
      LastJoined(front, last + [c], "\n");
      assert AfterChar(lines, c) == front + [last + [c]];
    }
    hide JoinBy;
  }

  /** No line holds a line end. */
  lemma {:induction false} LinesAreLines(s: string)
    ensures forall i :: 0 <= i < |LinesOf(s)| ==> '\n' !in LinesOf(s)[i]
  {
    if s != "" { LinesAreLines(s[..|s| - 1]); }
  }

  lemma LastJoined(ws: seq<string>, last: string, sep: string)
    ensures JoinBy(ws + [last], sep) == if ws == [] then last else JoinBy(ws, sep) + sep + last
  {
    assert (ws + [last])[..|ws|] == ws;
  }

  /** The lines that do not look like a fence themselves. */
  function PlainLines(t: Text, lines: seq<string>): seq<string> {
    if lines == [] then []
    else
      var n := |lines| - 1;
      PlainLines(t, lines[..n]) + if t.isFence(lines[n]) then [] else [lines[n]]
  }

  /** What a fence encloses. */
  function Inner(t: Text, block: string): seq<string> {
    PlainLines(t, LinesOf(block)[1..])
  }

  function Refenced(opener: string, lines: seq<string>, marker: string): string {
    JoinBy([opener] + lines + [marker], "\n")
  }

  /** The lines a fence encloses, in order, in greedy groups, each fenced like the whole. */
  ghost predicate FenceParts(t: Text, block: string, groups: seq<seq<string>>, parts: seq<string>, cap: int) {
    var opener := LinesOf(block)[0];
    && t.isFence(opener) && Greedy(t, groups, "\n", cap) && Flat(groups) == Inner(t, block)
    && |parts| == |groups|
    && forall k :: 0 <= k < |parts| ==> parts[k] == Refenced(opener, groups[k], t.fence(opener).value)
  }

  /** _split_lines: every plain line once, in order, in fences of their own; None when the marker is not on the
      first line. */
  method SplitLines(t: Text, block: string, cap: int) returns (r: Option<seq<string>>, ghost groups: seq<seq<string>>)
    ensures r.Some? <==> t.isFence(LinesOf(block)[0])
    ensures r.Some? ==> FenceParts(t, block, groups, r.value, cap)
  {
    hide Splitting, Greedy, JoinBy, Tokens, Flat, Inner, LinesOf, Refenced;
    var opener, body := LinesOf(block)[0], Inner(t, block);
    groups := [];
    if t.fence(opener).None? {
      return None, groups;
    }
    var marker := t.fence(opener).value;
    var parts: seq<string>, current: seq<string> := [], [];
    NoWords(t, body, "\n", cap);
    for i := 0 to |body|
      invariant Splitting(t, body, i, groups, current, "\n", cap)
      invariant |parts| == |groups|
      invariant forall k :: 0 <= k < |parts| ==> parts[k] == Refenced(opener, groups[k], marker)
    {
      var line := body[i];
      if current != [] && Tokens(t, JoinBy(current + [line], "\n")) > cap {
        WordStarts(t, body, i, groups, current, "\n", cap);
        parts := parts + [Refenced(opener, current, marker)];
        groups := groups + [current];
        current := [line];
      } else {
        WordJoins(t, body, i, groups, current, "\n", cap);
        current := current + [line];
      }
    }
    LastWords(t, body, groups, current, "\n", cap);
    if current != [] {
      parts := parts + [Refenced(opener, current, marker)];
      groups := groups + [current];
    }
    r := Some(parts);
  }

  /** No part is made exactly when the fence encloses no plain line. */
  lemma PartsIffLines(t: Text, block: string, groups: seq<seq<string>>, parts: seq<string>, cap: int)
    requires FenceParts(t, block, groups, parts, cap)
    ensures parts == [] <==> Inner(t, block) == []
  {
    if groups != [] {
      var n := |groups| - 1;
      assert PartOk(t, groups[n], "\n", cap);
      assert Flat(groups) == Flat(groups[..n]) + groups[n];
    }
  }

  /** What the fences of n parts add. */
  function FenceCost(t: Text, opener: string, marker: string, n: nat): nat {
    Times(n, Tokens(t, opener) + Tokens(t, marker))
  }

  function Times(n: nat, more: nat): nat {
    n * more
  }

  /** The plain lines keep their tokens; every part adds those of a first and a last line. */
  lemma FenceTokens(t: Text, block: string, groups: seq<seq<string>>, parts: seq<string>, cap: int)
    requires Blanks(t) && FenceParts(t, block, groups, parts, cap)
    ensures var opener := LinesOf(block)[0];
      SumTokens(t, parts) ==
        SumTokens(t, Inner(t, block)) + FenceCost(t, opener, t.fence(opener).value, |parts|)
  {
    RefencedParts(t, LinesOf(block)[0], t.fence(LinesOf(block)[0]).value, groups, parts);
    hide Tokens, Refenced, Greedy, SumTokens, Flat, LinesOf, Inner, FenceCost;
  }

  lemma RefencedParts(t: Text, opener: string, marker: string, groups: seq<seq<string>>, parts: seq<string>)
    requires Blanks(t) && |parts| == |groups|
    requires forall k :: 0 <= k < |parts| ==> parts[k] == Refenced(opener, groups[k], marker)
    ensures SumTokens(t, parts) == SumTokens(t, Flat(groups)) + FenceCost(t, opener, marker, |parts|)
  {
    hide Times, Tokens, SumTokens, Flat, Refenced, Blanks;
    forall k | 0 <= k < |parts|
      ensures Tokens(t, parts[k]) == SumTokens(t, groups[k]) + (Tokens(t, opener) + Tokens(t, marker))
    {
      RefencedTokens(t, opener, groups[k], marker);
    }
    SumShifted(t, groups, parts, Tokens(t, opener) + Tokens(t, marker));
  }

  lemma {:induction false} SumShifted(t: Text, groups: seq<seq<string>>, parts: seq<string>, more: nat)
    requires |parts| == |groups|
    requires forall k :: 0 <= k < |parts| ==> Tokens(t, parts[k]) == SumTokens(t, groups[k]) + more
    ensures SumTokens(t, parts) == SumTokens(t, Flat(groups)) + Times(|parts|, more)
  {
    if groups != [] {
      var n := |groups| - 1;
      LastSum(t, groups, parts);
      OneMoreTime(n, more);
      hide *;
      SumShifted(t, groups[..n], parts[..n], more);
    } else {
      assert Times(0, more) == 0;
    }
  }

  lemma LastSum(t: Text, groups: seq<seq<string>>, parts: seq<string>)
    requires |parts| == |groups| > 0
    ensures var n := |groups| - 1;
      && SumTokens(t, parts) == SumTokens(t, parts[..n]) + Tokens(t, parts[n])
      && SumTokens(t, Flat(groups)) == SumTokens(t, Flat(groups[..n])) + SumTokens(t, groups[n])
  {
    var n := |groups| - 1;
    SumConcat(t, Flat(groups[..n]), groups[n]);
    hide Tokens;
  }

  lemma OneMoreTime(n: nat, more: nat)
    ensures Times(n + 1, more) == Times(n, more) + more
  {
  }

  lemma RefencedTokens(t: Text, opener: string, lines: seq<string>, marker: string)
    requires Blanks(t)
    ensures Tokens(t, Refenced(opener, lines, marker)) == Tokens(t, opener) + SumTokens(t, lines) + Tokens(t, marker)
  {
    JoinByTokens(t, [opener] + lines + [marker], "\n");
    SumConcat(t, [opener] + lines, [marker]);
    SumConcat(t, [opener], lines);
    SumPush(t, [], opener);
    SumPush(t, [], marker);
    assert [] + [opener] == [opener] && [] + [marker] == [marker];
    hide Tokens, JoinBy;
  }

  lemma FlatPush(groups: seq<seq<string>>, group: seq<string>)
    ensures Flat(groups + [group]) == Flat(groups) + group
  {
    assert (groups + [group])[..|groups|] == groups;
  }

  /** Splitting into words keeps every token. */
  lemma {:induction false} WordsKeepTokens(t: Text, s: string)
    ensures SumTokens(t, Words(t, s)) == Tokens(t, s)
    ensures s != "" && !t.cls(s[|s| - 1]).Space? ==> Words(t, s) != [] && EndsLike(Words(t, s), s)
  {
    if s != "" {
      var n := |s| - 1;
      var ws := Words(t, s[..n]);
      WordsKeepTokens(t, s[..n]);
      if !t.cls(s[n]).Space? {
        if n > 0 && !t.cls(s[n - 1]).Space? && ws != [] {
          var last := ws[|ws| - 1];
          assert (last + [s[n]])[..|last|] == last;
          SumPush(t, ws[..|ws| - 1], last);
          SumPush(t, ws[..|ws| - 1], last + [s[n]]);
          assert ws == ws[..|ws| - 1] + [last];
          assert Words(t, s) == ws[..|ws| - 1] + [last + [s[n]]];
        } else {
          SumPush(t, ws, [s[n]]);
          assert [s[n]][..0] == "";
        }
      }
    }
  }

  ghost predicate EndsLike(ws: seq<string>, s: string) {
    ws != [] && s != "" && ws[|ws| - 1] != "" && ws[|ws| - 1][|ws[|ws| - 1]| - 1] == s[|s| - 1]
  }

  function SumTokens(t: Text, ws: seq<string>): nat {
    if ws == [] then 0 else SumTokens(t, ws[..|ws| - 1]) + Tokens(t, ws[|ws| - 1])
  }

  lemma SumPush(t: Text, ws: seq<string>, w: string)
    ensures SumTokens(t, ws + [w]) == SumTokens(t, ws) + Tokens(t, w)
  {
    assert (ws + [w])[..|ws|] == ws;
  }

  lemma {:induction false} SumConcat(t: Text, a: seq<string>, b: seq<string>)
    ensures SumTokens(t, a + b) == SumTokens(t, a) + SumTokens(t, b)
  {
    if b == [] {
      assert a + b == a;
    } else {
      var n := |b| - 1;
      assert (a + b)[..|a| + n] == a + b[..n];
      SumConcat(t, a, b[..n]);
    }
  }

  lemma {:induction false} JoinByTokens(t: Text, ws: seq<string>, sep: string)
    requires Blanks(t) && Separator(sep)
    ensures Tokens(t, JoinBy(ws, sep)) == SumTokens(t, ws)
  {
    if |ws| == 1 {
      assert ws[..0] == [];
    } else if ws != [] {
      JoinByTokens(t, ws[..|ws| - 1], sep);
      TokensJoin(t, JoinBy(ws[..|ws| - 1], sep), sep, ws[|ws| - 1]);
    }
  }

  lemma {:induction false} GroupsTokens(t: Text, groups: seq<seq<string>>, parts: seq<string>, budget: int)
    requires Blanks(t) && WordGroups(t, groups, parts, budget)
    ensures SumTokens(t, parts) == SumTokens(t, Flat(groups))
  {
    if groups != [] {
      var n := |groups| - 1;
      GroupsTokens(t, groups[..n], parts[..n], budget);
      JoinByTokens(t, groups[n], " ");
      SumConcat(t, Flat(groups[..n]), groups[n]);
    }
  }

  /** The parts of a sentence: itself when it fits, else its words in greedy groups. */
  ghost predicate SentenceParts(t: Text, sentence: string, parts: seq<string>, budget: int) {
    if Tokens(t, sentence) <= budget then parts == [sentence]
    else exists groups :: WordGroups(t, groups, parts, budget) && Flat(groups) == Words(t, sentence)
  }

  /** A fence that is not kept whole. */
  predicate Oversized(t: Text, block: string, budget: int) {
    Tokens(t, block) > budget && t.isFence(block) && Tokens(t, block) > Cap(budget)
  }

  /** The parts of a block: itself when it fits or is a fence within the cap; a larger fence's plain lines in
      fences; else its sentences' parts, in order. */
  ghost predicate BlockParts(t: Text, block: string, parts: seq<string>, budget: int) {
    if Oversized(t, block, budget) then exists groups :: FenceParts(t, block, groups, parts, Cap(budget))
    else if Tokens(t, block) <= budget || t.isFence(block) then parts == [block]
    else exists groups :: BySentence(t, t.sentences(block), groups, budget) && parts == Flat(groups)
  }

  ghost predicate BySentence(t: Text, sentences: seq<string>, groups: seq<seq<string>>, budget: int) {
    |groups| == |sentences| && forall i :: 0 <= i < |groups| ==> SentenceParts(t, sentences[i], groups[i], budget)
  }

  function Cap(budget: int): int {
    if budget * 8 > 2000 then budget * 8 else 2000
  }

  /** _split_block; None when an oversized fence does not show its marker on the first line. */
  method SplitBlock(t: Text, block: string, budget: int) returns (r: Option<seq<string>>)
    ensures r.None? <==> Oversized(t, block, budget) && !t.isFence(LinesOf(block)[0])
    ensures r.Some? ==> BlockParts(t, block, r.value, budget)
  {
    if Tokens(t, block) <= budget {
      return Some([block]);
    }
    if t.isFence(block) {
      if Tokens(t, block) <= Cap(budget) {
        return Some([block]);
      }
      ghost var lines;
      r, lines := SplitLines(t, block, Cap(budget));
      return;
    }
    var parts: seq<string> := [];
    var sentences := t.sentences(block);
    ghost var groups: seq<seq<string>> := [];
    for i := 0 to |sentences|
      invariant parts == Flat(groups) && BySentence(t, sentences[..i], groups, budget)
    {
      var more := SplitSentence(t, sentences[i], budget);
      hide SentenceParts;
      FlatPush(groups, more);
      parts := parts + more;
      groups := groups + [more];
    }
    assert sentences[..|sentences|] == sentences;
    r := Some(parts);
  }

  method SplitSentence(t: Text, sentence: string, budget: int) returns (parts: seq<string>)
    ensures SentenceParts(t, sentence, parts, budget)
  {
    if Tokens(t, sentence) <= budget {
      parts := [sentence];
    } else {
      ghost var groups;
      parts, groups := SplitWords(t, sentence, budget);
    }
  }

  // ----- what splitting keeps -----

  /** A part fits the budget, is one word, a whole fence within the cap, or a fence around some lines of a
      larger one. */
  ghost predicate Fitting(t: Text, part: string, block: string, budget: int) {
    Tokens(t, part) <= budget || OneWord(t, part) || FencePart(t, part, block, budget)
  }

  ghost predicate FencePart(t: Text, part: string, block: string, budget: int) {
    && t.isFence(block)
    && if Tokens(t, block) <= Cap(budget) then part == block else LinesPart(t, part, block, Cap(budget))
  }

  /** Lines within the cap, or a single one, fenced like the block. */
  ghost predicate LinesPart(t: Text, part: string, block: string, cap: int) {
    var opener := LinesOf(block)[0];
    && t.isFence(opener)
    && exists group :: PartOk(t, group, "\n", cap) && part == Refenced(opener, group, t.fence(opener).value)
  }

  /** Where a group's first word is among all the words. */
  lemma {:induction false} WordOf(groups: seq<seq<string>>, k: nat) returns (i: nat)
    requires k < |groups| && groups[k] != []
    ensures i < |Flat(groups)| && Flat(groups)[i] == groups[k][0]
  {
    var n := |groups| - 1;
    if k == n { i := |Flat(groups[..n])|; } else { i := WordOf(groups[..n], k); }
  }

  lemma SentenceFacts(t: Text, sentence: string, parts: seq<string>, budget: int)
    requires Blanks(t) && SentenceParts(t, sentence, parts, budget)
    ensures SumTokens(t, parts) == Tokens(t, sentence)
    ensures forall k :: 0 <= k < |parts| ==> Tokens(t, parts[k]) <= budget || OneWord(t, parts[k])
  {
    if Tokens(t, sentence) <= budget {
      assert [sentence][..0] == [];
    } else {
      var groups :| WordGroups(t, groups, parts, budget) && Flat(groups) == Words(t, sentence);
      GroupsTokens(t, groups, parts, budget);
      WordsKeepTokens(t, sentence);
      forall k | 0 <= k < |parts| && Tokens(t, parts[k]) > budget ensures OneWord(t, parts[k]) {
        assert PartOk(t, groups[k], " ", budget);
        var i := WordOf(groups, k);
        assert parts[k] == groups[k][0] == Words(t, sentence)[i];
      }
    }
  }

  lemma {:induction false} SentencesFacts(t: Text, sentences: seq<string>, groups: seq<seq<string>>, budget: int)
    requires Blanks(t) && BySentence(t, sentences, groups, budget)
    ensures SumTokens(t, Flat(groups)) == SumTokens(t, sentences)
    ensures forall k :: 0 <= k < |Flat(groups)| ==> Tokens(t, Flat(groups)[k]) <= budget || OneWord(t, Flat(groups)[k])
  {
    if groups != [] {
      var n := |groups| - 1;
      SentencesFacts(t, sentences[..n], groups[..n], budget);
      SentenceFacts(t, sentences[n], groups[n], budget);
      SumConcat(t, Flat(groups[..n]), groups[n]);
      hide Tokens, OneWord, SentenceParts;
    }
  }

  /** A block's parts hold all its tokens, unless it is an oversized fence, and each is of a size that fits;
      there is none exactly when an oversized fence encloses no plain line. */
  lemma BlockFacts(t: Text, block: string, parts: seq<string>, budget: int)
    requires Ok(t) && budget > 0 && BlockParts(t, block, parts, budget)
    ensures !Oversized(t, block, budget) ==> SumTokens(t, parts) == Tokens(t, block)
    ensures parts == [] <==> Oversized(t, block, budget) && Inner(t, block) == []
    ensures forall k :: 0 <= k < |parts| ==> Fitting(t, parts[k], block, budget)
  {
    if Oversized(t, block, budget) {
      var groups :| FenceParts(t, block, groups, parts, Cap(budget));
      PartsIffLines(t, block, groups, parts, Cap(budget));
      hide Tokens, JoinBy, Refenced, LinesOf, Flat;
      forall k | 0 <= k < |parts| ensures Fitting(t, parts[k], block, budget) {
        assert PartOk(t, groups[k], "\n", Cap(budget));
      }
    } else if Tokens(t, block) <= budget || t.isFence(block) {
      assert [block][..0] == [];
    } else {
      var groups :| BySentence(t, t.sentences(block), groups, budget) && parts == Flat(groups);
      SentencesFacts(t, t.sentences(block), groups, budget);
    }
  }

  // ----- pieces of blocks -----

  /** A blank line before a block's first part; a blank between its others, or a blank line in a fence. */
  function PiecesOfParts(parts: seq<string>, fence: bool): (r: seq<Piece>)
    ensures |r| == |parts| && Separated(r) && forall k :: 0 <= k < |r| ==> r[k].text == parts[k]
  {
    seq(|parts|, k requires 0 <= k < |parts| => Piece(if k == 0 || fence then "\n\n" else " ", parts[k]))
  }

  function AllPieces(t: Text, blocks: seq<string>, groups: seq<seq<string>>): (r: seq<Piece>)
    requires |groups| == |blocks|
    ensures Separated(r)
  {
    if blocks == [] then []
    else
      var n := |blocks| - 1;
      AllPieces(t, blocks[..n], groups[..n]) + PiecesOfParts(groups[n], t.isFence(blocks[n]))
  }

  ghost predicate ByBlock(t: Text, blocks: seq<string>, groups: seq<seq<string>>, budget: int) {
    |groups| == |blocks| && forall i :: 0 <= i < |groups| ==> BlockParts(t, blocks[i], groups[i], budget)
  }

  /** Splitting the block fails: in an oversized fence without its marker on the first line, or without a plain
      line. */
  predicate Unsplittable(t: Text, block: string, budget: int) {
    Oversized(t, block, budget) && (!t.isFence(LinesOf(block)[0]) || Inner(t, block) == [])
  }

  /** The pieces of all blocks; None for the exception a block without parts raises. */
  method PiecesOf(t: Text, blocks: seq<string>, budget: int)
    returns (r: Option<seq<Piece>>, ghost groups: seq<seq<string>>)
    requires Ok(t) && budget > 0
    ensures r.None? <==> exists i :: 0 <= i < |blocks| && Unsplittable(t, blocks[i], budget)
    ensures r.Some? ==> ByBlock(t, blocks, groups, budget) && r.value == AllPieces(t, blocks, groups)
  {
    var pieces: seq<Piece> := [];
    groups := [];
    NoPiecesYet(t, blocks, budget);
    hide ByBlock, AllPieces, PiecesOfParts, Unsplittable, Ok, BlockParts;
    for i := 0 to |blocks|
      invariant |groups| == i && ByBlock(t, blocks[..i], groups, budget)
      invariant pieces == AllPieces(t, blocks[..i], groups)
      invariant forall j :: 0 <= j < i ==> !Unsplittable(t, blocks[j], budget)
    {
      var parts := PartsOfBlock(t, blocks[i], budget);
      if parts.None? {
        return None, groups;
      }
      PiecesPush(t, blocks, i, groups, parts.value, budget);
      pieces := pieces + PiecesOfParts(parts.value, t.isFence(blocks[i]));
      groups := groups + [parts.value];
    }
    assert blocks[..|blocks|] == blocks;
    r := Some(pieces);
  }

  lemma NoPiecesYet(t: Text, blocks: seq<string>, budget: int)
    ensures ByBlock(t, blocks[..0], [], budget) && AllPieces(t, blocks[..0], []) == []
  {
  }

  /** The parts of one block; None when there are none, or splitting failed. */
  method PartsOfBlock(t: Text, block: string, budget: int) returns (r: Option<seq<string>>)
    requires Ok(t) && budget > 0
    ensures r.None? <==> Unsplittable(t, block, budget)
    ensures r.Some? ==> BlockParts(t, block, r.value, budget)
  {
    hide BlockParts, Oversized, Inner, LinesOf, Ok;
    r := SplitBlock(t, block, budget);
    if r.Some? {
      BlockFacts(t, block, r.value, budget);
      if r.value == [] {
        r := None;
      } else if Oversized(t, block, budget) {
        MarkerShown(t, block, r.value, budget);
      }
    }
  }

  lemma MarkerShown(t: Text, block: string, parts: seq<string>, budget: int)
    requires Oversized(t, block, budget) && BlockParts(t, block, parts, budget)
    ensures t.isFence(LinesOf(block)[0])
  {
  }

  lemma PiecesPush(t: Text, blocks: seq<string>, i: nat, groups: seq<seq<string>>, parts: seq<string>, budget: int)
    requires i < |blocks| && ByBlock(t, blocks[..i], groups, budget) && BlockParts(t, blocks[i], parts, budget)
    ensures ByBlock(t, blocks[..i + 1], groups + [parts], budget)
    ensures AllPieces(t, blocks[..i + 1], groups + [parts]) ==
            AllPieces(t, blocks[..i], groups) + PiecesOfParts(parts, t.isFence(blocks[i]))
  {
    hide BlockParts, PiecesOfParts;
    assert blocks[..i + 1][..i] == blocks[..i] && (groups + [parts])[..i] == groups;
  }

  lemma {:induction false} PiecesSize(t: Text, parts: seq<string>, fence: bool)
    ensures Size(t, PiecesOfParts(parts, fence)) == SumTokens(t, parts)
  {
    if parts != [] {
      var n := |parts| - 1;
      PiecesSize(t, parts[..n], fence);
      assert PiecesOfParts(parts, fence)[..n] == PiecesOfParts(parts[..n], fence);
    }
  }

  /** The pieces hold every token of the blocks, but for oversized fences, and each is of a size that fits. */
  lemma PiecesFacts(t: Text, blocks: seq<string>, groups: seq<seq<string>>, budget: int)
    requires Ok(t) && budget > 0 && ByBlock(t, blocks, groups, budget)
    ensures (forall i :: 0 <= i < |blocks| ==> !Oversized(t, blocks[i], budget)) ==>
              Size(t, AllPieces(t, blocks, groups)) == SumTokens(t, blocks)
    ensures forall k :: 0 <= k < |AllPieces(t, blocks, groups)| ==>
              Fits(t, AllPieces(t, blocks, groups)[k].text, blocks, budget)
  {
    hide AllPieces, Fits, Oversized, BlockParts, Tokens, Ok;
    if forall i :: 0 <= i < |blocks| ==> !Oversized(t, blocks[i], budget) {
      AllSized(t, blocks, groups, budget);
    }
    AllFit(t, blocks, groups, budget);
  }

  lemma {:induction false} AllSized(t: Text, blocks: seq<string>, groups: seq<seq<string>>, budget: int)
    requires Ok(t) && budget > 0 && ByBlock(t, blocks, groups, budget)
    requires forall i :: 0 <= i < |blocks| ==> !Oversized(t, blocks[i], budget)
    ensures Size(t, AllPieces(t, blocks, groups)) == SumTokens(t, blocks)
  {
    if blocks != [] {
      var n := |blocks| - 1;
      hide Ok, Size, BlockParts, Tokens, Oversized, Fitting, Inner, PiecesOfParts;
      AllSized(t, blocks[..n], groups[..n], budget);
      BlockFacts(t, blocks[n], groups[n], budget);
      PiecesSize(t, groups[n], t.isFence(blocks[n]));
      SizeConcat(t, AllPieces(t, blocks[..n], groups[..n]), PiecesOfParts(groups[n], t.isFence(blocks[n])));
    }
  }

  lemma {:induction false} AllFit(t: Text, blocks: seq<string>, groups: seq<seq<string>>, budget: int)
    requires Ok(t) && budget > 0 && ByBlock(t, blocks, groups, budget)
    ensures forall k :: 0 <= k < |AllPieces(t, blocks, groups)| ==>
              Fits(t, AllPieces(t, blocks, groups)[k].text, blocks, budget)
  {
    if blocks != [] {
      var n := |blocks| - 1;
      hide Ok, Fits, BlockParts, Tokens, Oversized, Fitting, Inner, PiecesOfParts;
      var before, last := AllPieces(t, blocks[..n], groups[..n]), PiecesOfParts(groups[n], t.isFence(blocks[n]));
      AllFit(t, blocks[..n], groups[..n], budget);
      BlockFacts(t, blocks[n], groups[n], budget);
      forall k | 0 <= k < |before| ensures Fits(t, before[k].text, blocks, budget) {
        FitsMore(t, before[k].text, blocks, budget);
      }
      forall k | 0 <= k < |last| ensures Fits(t, last[k].text, blocks, budget) {
        FitsLast(t, last[k].text, blocks, budget);
      }
    }
  }

  ghost predicate Fits(t: Text, text: string, blocks: seq<string>, budget: int) {
    exists i :: 0 <= i < |blocks| && Fitting(t, text, blocks[i], budget)
  }

  lemma FitsMore(t: Text, text: string, blocks: seq<string>, budget: int)
    requires blocks != [] && Fits(t, text, blocks[..|blocks| - 1], budget)
    ensures Fits(t, text, blocks, budget)
  {
    hide Fitting;
    var front := blocks[..|blocks| - 1];
    var i :| 0 <= i < |front| && Fitting(t, text, front[i], budget);
    assert front[i] == blocks[i];
  }

  lemma FitsLast(t: Text, text: string, blocks: seq<string>, budget: int)
    requires blocks != [] && Fitting(t, text, blocks[|blocks| - 1], budget)
    ensures Fits(t, text, blocks, budget)
  {
    hide Fitting;
  }

  /** _pack: the bodies cover every piece of the blocks in order, so no token is lost outside oversized fences;
      a body over the budget is one word, one whole fence within the cap, or a fence around lines of a larger
      one; each body repeats only the overlap of the one before it.  Packing fails just when a block does. */
  method PackBlocks(t: Text, blocks: seq<string>, budget: int, overlap: int)
    returns (r: Option<seq<string>>, ghost groups: seq<seq<string>>, ghost runs: seq<Run>)
    requires Ok(t) && 0 <= overlap < budget
    ensures r.None? <==> exists i :: 0 <= i < |blocks| && Unsplittable(t, blocks[i], budget)
    ensures r.Some? ==> ByBlock(t, blocks, groups, budget)
    ensures r.Some? ==>
              Packed(t, AllPieces(t, blocks, groups), runs, r.value, budget, overlap, |AllPieces(t, blocks, groups)|)
    ensures r.Some? && (forall i :: 0 <= i < |blocks| ==> !Oversized(t, blocks[i], budget)) ==>
              Size(t, AllPieces(t, blocks, groups)) == SumTokens(t, blocks)
    ensures r.Some? ==> forall k :: 0 <= k < |r.value| && Tokens(t, r.value[k]) > budget ==>
              Excused(t, r.value[k], blocks, budget)
  {
    ghost var g;
    var pieces;
    pieces, g := PiecesOf(t, blocks, budget);
    groups, runs := g, [];
    if pieces.None? {
      return None, groups, runs;
    }
    var bodies;
    hide Unsplittable, Fits, Excused, AllPieces, BlockParts, Oversized, Packed;
    bodies, runs := Pack(t, pieces.value, budget, overlap);
    PiecesFacts(t, blocks, groups, budget);
    forall k | 0 <= k < |bodies| && Tokens(t, bodies[k]) > budget ensures Excused(t, bodies[k], blocks, budget) {
      PackedBody(t, pieces.value, runs, bodies, budget, overlap, k);
      OversizedBody(t, pieces.value, blocks, runs[k], bodies[k], budget);
    }
    r := Some(bodies);
  }

  lemma PackedBody(t: Text, pieces: seq<Piece>, runs: seq<Run>, bodies: seq<string>, budget: int, overlap: int, k: nat)
    requires Packed(t, pieces, runs, bodies, budget, overlap, |pieces|) && k < |bodies|
    ensures k < |runs| && RunOk(t, pieces, runs[k], bodies[k], budget)
  {
  }

  /** What may be larger than the budget. */
  ghost predicate Excused(t: Text, body: string, blocks: seq<string>, budget: int) {
    OneWord(t, body) || exists i :: 0 <= i < |blocks| && FencePart(t, body, blocks[i], budget)
  }

  lemma OversizedBody(t: Text, pieces: seq<Piece>, blocks: seq<string>, run: Run, body: string, budget: int)
    requires RunOk(t, pieces, run, body, budget) && Tokens(t, body) > budget
    requires forall k :: 0 <= k < |pieces| ==> Fits(t, pieces[k].text, blocks, budget)
    ensures Excused(t, body, blocks, budget)
  {
    hide FencePart, OneWord, Tokens;
    assert pieces[run.lo..run.hi] == [pieces[run.lo]];
    assert body == pieces[run.lo].text;
    assert Fits(t, pieces[run.lo].text, blocks, budget);
  }

  /** A fence of one long line encloses nothing, and is too large to be kept: packing it fails. */
  method FenceWithoutLines() returns (t: Text, block: string, r: Option<seq<string>>)
    ensures Ok(t) && t.isFence(block) && t.isFence(LinesOf(block)[0]) && Unsplittable(t, block, 10) && r.None?
  {
    t := Text(c => if c == ' ' || c == '\n' then Space else Punct,
              s => if s != "" && s[0] == '`' then Some("```") else None, s => [s]);
    forall s ensures t.sentences(s) != [] && SumTokens(t, t.sentences(s)) == Tokens(t, s) {
      SumPush(t, [], s);
      assert [] + [s] == [s];
    }
    block := seq(2001, _ => '`');
    MarksOnly(t, block);
    ghost var groups, runs;
    r, groups, runs := PackBlocks(t, [block], 10, 0);
    assert [block][0] == block;
  }

  lemma {:induction false} MarksOnly(t: Text, s: string)
    requires forall i :: 0 <= i < |s| ==> s[i] == '`'
    requires t.cls('`').Punct?
    ensures Tokens(t, s) == |s| && LinesOf(s) == [s]
  {
    if s != "" {
      MarksOnly(t, s[..|s| - 1]);
      assert s == s[..|s| - 1] + [s[|s| - 1]];
    }
  }
}
