/** Which lines a later line replaced, and putting each of them after its replacement.

    A fragment's analysed profile is given with it; the regular expressions behind it are parameters.
    The word index is proved to find exactly the newest strictly later line that replaces each line. */
module Outdated {
  import opened Assoc

  /** What decides whether one line replaces another; old values come with their negating phrase. */
  datatype Profile = Profile(text: string, words: set<string>, oldValues: seq<(string, string)>, change: bool)

  /** key orders fragments in time. */
  datatype Fragment = Fragment(id: string, key: int, profile: Profile)

  /** How a text is searched for a value, the words that carry content, and what counts as digits. */
  datatype Text = Text(contains: (string, string) -> bool, content: string -> set<string>, digits: string -> bool)

  // ----- one pair -----

  predicate NamesOldValue(t: Text, newer: Profile, older: Profile, v: (string, string)) {
    && |v.1| > 1
    && t.contains(older.text, v.1)
    && (v.0 != "not" || newer.words * older.words - t.content(v.1) != {})
  }

  predicate Replaces(t: Text, newer: Profile, older: Profile) {
    || (exists k :: 0 <= k < |newer.oldValues| && NamesOldValue(t, newer, older, newer.oldValues[k]))
    || (newer.change && |set w | w in newer.words * older.words && !t.digits(w)| >= 2)
  }

  // ----- in time order -----

  function InsertByKey(f: Fragment, s: seq<Fragment>): (r: seq<Fragment>)
    ensures multiset(r) == multiset(s) + multiset{f}
  {
    if s == [] then [f]
    else
      var n := |s| - 1;
      assert s == s[..n] + [s[n]];
      if s[n].key <= f.key then s + [f] else InsertByKey(f, s[..n]) + [s[n]]
  }

  /** Oldest first; equal keys keep their order. */
  function ByKey(s: seq<Fragment>): (r: seq<Fragment>)
    ensures multiset(r) == multiset(s)
  {
    if s == [] then []
    else
      assert s == s[..|s| - 1] + [s[|s| - 1]];
      InsertByKey(s[|s| - 1], ByKey(s[..|s| - 1]))
  }

  ghost predicate Sorted(s: seq<Fragment>) {
    forall i, j :: 0 <= i < j < |s| ==> s[i].key <= s[j].key
  }

  lemma {:induction false} InsertSorted(f: Fragment, s: seq<Fragment>)
    requires Sorted(s)
    ensures Sorted(InsertByKey(f, s))
  {
    if s != [] && s[|s| - 1].key > f.key {
      var n := |s| - 1;
      InsertSorted(f, s[..n]);
      var r := InsertByKey(f, s[..n]);
      forall i | 0 <= i < |r| ensures r[i].key <= s[n].key {
        assert r[i] in multiset(r);
        assert r[i] == f || r[i] in s[..n];
      }
      hide InsertByKey;
      LastSorted(r, s[n]);
    } else {
      LastSorted(s, f);
    }
  }

  lemma LastSorted(s: seq<Fragment>, f: Fragment)
    requires Sorted(s) && forall i :: 0 <= i < |s| ==> s[i].key <= f.key
    ensures Sorted(s + [f])
  {
  }

  lemma {:induction false} ByKeySorted(s: seq<Fragment>)
    ensures Sorted(ByKey(s))
  {
    if s != [] {
      ByKeySorted(s[..|s| - 1]);
      InsertSorted(s[|s| - 1], ByKey(s[..|s| - 1]));
    }
  }

  /** One fragment per id, the last one given; a missing id is left out. */
  function Pool(fragments: seq<Fragment>): Dict<string, Fragment> {
    if fragments == [] then []
    else
      var f := fragments[|fragments| - 1];
      var pool := Pool(fragments[..|fragments| - 1]);
      if f.id == "" then pool else Put(pool, f.id, f)
  }

  function Values(pool: Dict<string, Fragment>): (r: seq<Fragment>)
    ensures |r| == |pool| && forall i :: 0 <= i < |r| ==> r[i] == pool[i].1
  {
    seq(|pool|, i requires 0 <= i < |pool| => pool[i].1)
  }

  function Timed(fragments: seq<Fragment>): seq<Fragment> {
    ByKey(Values(Pool(fragments)))
  }

  ghost predicate DistinctIds(s: seq<Fragment>) {
    forall i, j :: 0 <= i < j < |s| ==> s[i].id != s[j].id
  }

  lemma {:induction false} PoolOk(fragments: seq<Fragment>)
    ensures Distinct(Pool(fragments))
    ensures forall i :: 0 <= i < |Pool(fragments)| ==> Pool(fragments)[i].1.id == Pool(fragments)[i].0
  {
    if fragments != [] {
      var f, rest := fragments[|fragments| - 1], fragments[..|fragments| - 1];
      PoolOk(rest);
      PutKeys(Pool(rest), f.id, f);
    }
  }

  /** One fragment per id, oldest first. */
  lemma TimedOk(fragments: seq<Fragment>)
    ensures Sorted(Timed(fragments)) && DistinctIds(Timed(fragments))
  {
    var values := Values(Pool(fragments));
    PoolOk(fragments);
    ByKeySorted(values);
    assert DistinctIds(values);
    DistinctPermuted(values, ByKey(values));
  }

  lemma DistinctPermuted(s: seq<Fragment>, r: seq<Fragment>)
    requires DistinctIds(s) && multiset(r) == multiset(s)
    ensures DistinctIds(r)
  {
    forall i, j | 0 <= i < j < |r| ensures r[i].id != r[j].id {
      if r[i].id == r[j].id {
        assert r[i] in multiset(r) && r[j] in multiset(r);
        var a :| 0 <= a < |s| && s[a] == r[i];
        var b :| 0 <= b < |s| && s[b] == r[j];
        assert a == b;
        Twice(r, i, j);
        Once(s, a);
      }
    }
  }

  lemma Twice(r: seq<Fragment>, i: nat, j: nat)
    requires i < j < |r| && r[i] == r[j]
    ensures multiset(r)[r[i]] >= 2
  {
    assert r == r[..i] + [r[i]] + r[i + 1..j] + [r[j]] + r[j + 1..];
  }

  lemma Once(s: seq<Fragment>, a: nat)
    requires a < |s| && DistinctIds(s)
    ensures multiset(s)[s[a]] == 1
  {
    assert s == s[..a] + [s[a]] + s[a + 1..];
    assert s[a] !in s[..a] && s[a] !in s[a + 1..];
  }

  // ----- the newest strictly later line that replaces each -----

  predicate LaterReplaces(t: Text, timed: seq<Fragment>, j: nat, i: nat)
    requires i < |timed| && j < |timed|
  {
    j > i && timed[j].key != timed[i].key && Replaces(t, timed[j].profile, timed[i].profile)
  }

  /** Every pair compared: the highest position below n that replaces line i, or -1. */
  function Newest(t: Text, timed: seq<Fragment>, i: nat, n: nat): (r: int)
    requires i < |timed| && n <= |timed|
    ensures r == -1 || (0 <= r < n && LaterReplaces(t, timed, r, i))
    ensures forall j :: r < j < n && 0 <= j ==> !LaterReplaces(t, timed, j, i)
  {
    if n == 0 then -1 else if LaterReplaces(t, timed, n - 1, i) then n - 1 else Newest(t, timed, i, n - 1)
  }

  /** The replaced lines among the first n, with the line that replaced each. */
  function Links(t: Text, timed: seq<Fragment>, n: nat): map<string, string>
    requires n <= |timed|
  {
    if n == 0 then map[]
    else
      var j := Newest(t, timed, n - 1, |timed|);
      if j >= 0 then Links(t, timed, n - 1)[timed[n - 1].id := timed[j].id] else Links(t, timed, n - 1)
  }

  /** replaced_by, as the all-pairs definition gives it. */
  function ReplacedBy(t: Text, fragments: seq<Fragment>): map<string, string> {
    Links(t, Timed(fragments), |Timed(fragments)|)
  }

  /** A line may replace another through a word they share, or by naming an old value. */
  predicate Indexed(p: Profile) {
    p.change || p.oldValues != []
  }

  predicate Naming(p: Profile) {
    exists k :: 0 <= k < |p.oldValues| && p.oldValues[k].0 != "not"
  }

  predicate Candidate(timed: seq<Fragment>, j: nat, i: nat)
    requires i < |timed| && j < |timed|
  {
    || (Indexed(timed[j].profile) && timed[j].profile.words * timed[i].profile.words != {})
    || Naming(timed[j].profile)
  }

  /** The index leaves out no pair that could match. */
  lemma NoPairMissed(t: Text, timed: seq<Fragment>, j: nat, i: nat)
    requires i < |timed| && j < |timed| && LaterReplaces(t, timed, j, i)
    ensures Candidate(timed, j, i)
  {
    var newer, older := timed[j].profile, timed[i].profile;
    var shared := newer.words * older.words;
    if k :| 0 <= k < |newer.oldValues| && NamesOldValue(t, newer, older, newer.oldValues[k]) {
      if newer.oldValues[k].0 == "not" {
        assert shared != {};
      }
    } else {
      var both := set w | w in shared && !t.digits(w);
      assert both <= shared;
      assert both != {};
    }
  }

  /** by_word: the positions, rising, of the lines that can replace and hold the word. */
  ghost predicate IndexOf(byWord: map<string, seq<nat>>, timed: seq<Fragment>, n: nat) {
    && (forall w :: w in byWord ==> forall k :: 0 <= k < |byWord[w]| ==>
          byWord[w][k] < n && Holds(timed, byWord[w][k], w))
    && (forall j: nat, w :: j < n && Holds(timed, j, w) ==> w in byWord && j in byWord[w])
  }

  ghost predicate Holds(timed: seq<Fragment>, j: nat, w: string) {
    j < |timed| && Indexed(timed[j].profile) && w in timed[j].profile.words
  }

  method BuildIndex(timed: seq<Fragment>) returns (byWord: map<string, seq<nat>>, naming: set<nat>)
    ensures IndexOf(byWord, timed, |timed|)
    ensures forall j: nat :: j in naming <==> j < |timed| && Naming(timed[j].profile)
  {
    byWord := map[];
    for position := 0 to |timed|
      invariant IndexOf(byWord, timed, position)
    {
      if Indexed(timed[position].profile) {
        byWord := AddWords(byWord, timed, position);
      }
    }
    naming := set j: nat | j < |timed| && Naming(timed[j].profile);
  }

  method AddWords(index: map<string, seq<nat>>, timed: seq<Fragment>, position: nat)
    returns (byWord: map<string, seq<nat>>)
    requires position < |timed| && IndexOf(index, timed, position) && Indexed(timed[position].profile)
    ensures IndexOf(byWord, timed, position + 1)
  {
    byWord := index;
    var words, todo := timed[position].profile.words, timed[position].profile.words;
    while todo != {}
      invariant todo <= words
      invariant forall w :: w in byWord ==> forall k :: 0 <= k < |byWord[w]| ==>
                (byWord[w][k] <= position && Holds(timed, byWord[w][k], w))
      invariant forall j: nat, w :: j < position && Holds(timed, j, w) ==> w in byWord && j in byWord[w]
      invariant forall w :: w in words && w !in todo ==> w in byWord && position in byWord[w]
      decreases |todo|
    {
      var w :| w in todo;
      byWord := byWord[w := (if w in byWord then byWord[w] else []) + [position]];
      todo := todo - {w};
    }
  }

  /** The candidates of line i: those sharing an indexed word, and those naming an old value. */
  function CandidatesOf(timed: seq<Fragment>, byWord: map<string, seq<nat>>, naming: set<nat>, i: nat): set<nat>
    requires i < |timed|
  {
    (set w, j | w in timed[i].profile.words && w in byWord && j in byWord[w] && j > i :: j) +
    (set j | j in naming && j > i)
  }

  lemma CandidatesOk(timed: seq<Fragment>, byWord: map<string, seq<nat>>, naming: set<nat>, i: nat, j: nat)
    requires i < |timed| && IndexOf(byWord, timed, |timed|)
    requires forall m: nat :: m in naming <==> m < |timed| && Naming(timed[m].profile)
    ensures j in CandidatesOf(timed, byWord, naming, i) <==> i < j < |timed| && Candidate(timed, j, i)
  {
    if i < j < |timed| && Indexed(timed[j].profile) && timed[j].profile.words * timed[i].profile.words != {} {
      var w :| w in timed[j].profile.words * timed[i].profile.words;
      assert Holds(timed, j, w);
    }
    if w :| w in timed[i].profile.words && w in byWord && j in byWord[w] && j > i {
      var k :| 0 <= k < |byWord[w]| && byWord[w][k] == j;
      assert Holds(timed, byWord[w][k], w);
      assert w in timed[j].profile.words * timed[i].profile.words;
    }
  }

  /** The candidates from the newest down, up to the first that replaces. */
  method NewestCandidate(t: Text, timed: seq<Fragment>, candidates: set<nat>, i: nat) returns (r: int)
    requires i < |timed|
    requires forall j :: j in candidates <==> i < j < |timed| && Candidate(timed, j, i)
    ensures r == Newest(t, timed, i, |timed|)
  {
    r := |timed| - 1;
    while r >= 0 && !(r in candidates && timed[r].key != timed[i].key
                      && Replaces(t, timed[r].profile, timed[i].profile))
      invariant -1 <= r < |timed| && Newest(t, timed, i, r + 1) == Newest(t, timed, i, |timed|)
    {
      if LaterReplaces(t, timed, r, i) { NoPairMissed(t, timed, r, i); }
      r := r - 1;
    }
  }

  /** replaced_by with its word index: exactly what comparing every pair gives. */
  method ReplacedByIndex(t: Text, fragments: seq<Fragment>) returns (out: map<string, string>)
    ensures out == ReplacedBy(t, fragments)
  {
    var timed := Timed(fragments);
    var byWord, naming := BuildIndex(timed);
    out := map[];
    for i := 0 to |timed|
      invariant out == Links(t, timed, i)
    {
      var candidates := CandidatesOf(timed, byWord, naming, i);
      forall j: nat ensures j in candidates <==> i < j < |timed| && Candidate(timed, j, i) {
        CandidatesOk(timed, byWord, naming, i, j);
      }
      hide CandidatesOf, Candidate, Newest, LaterReplaces;
      var j := NewestCandidate(t, timed, candidates, i);
      if j >= 0 {
        out := out[timed[i].id := timed[j].id];
      }
    }
  }

  lemma {:induction false} InLinks(t: Text, timed: seq<Fragment>, n: nat, i: nat)
    requires i < n <= |timed| && DistinctIds(timed)
    ensures timed[i].id in Links(t, timed, n) <==> Newest(t, timed, i, |timed|) >= 0
    ensures timed[i].id in Links(t, timed, n) ==>
              Links(t, timed, n)[timed[i].id] == timed[Newest(t, timed, i, |timed|)].id
  {
    if i == n - 1 {
      NotYetLinked(t, timed, n - 1, i);
    } else {
      InLinks(t, timed, n - 1, i);
    }
  }

  lemma {:induction false} NotYetLinked(t: Text, timed: seq<Fragment>, n: nat, i: nat)
    requires n <= i < |timed| && DistinctIds(timed)
    ensures timed[i].id !in Links(t, timed, n)
  {
    if n > 0 { NotYetLinked(t, timed, n - 1, i); }
  }

  lemma {:induction false} LinkedFrom(t: Text, timed: seq<Fragment>, n: nat, id: string) returns (i: nat)
    requires n <= |timed| && id in Links(t, timed, n)
    ensures i < n && timed[i].id == id
  {
    if n > 0 && timed[n - 1].id == id { i := n - 1; } else { i := LinkedFrom(t, timed, n - 1, id); }
  }

  /** The link of line i: to the newest line that replaces it. */
  ghost predicate LinkedTo(t: Text, timed: seq<Fragment>, out: map<string, string>, i: nat, j: nat)
    requires i < |timed|
  {
    && i < j < |timed| && timed[i].id in out && out[timed[i].id] == timed[j].id
    && timed[i].key < timed[j].key
    && LaterReplaces(t, timed, j, i)
    && forall k :: j < k < |timed| ==> !LaterReplaces(t, timed, k, i)
  }

  /** Line i's link goes strictly forward in time; without a link, no later line replaces it. */
  lemma OneLink(t: Text, timed: seq<Fragment>, i: nat) returns (j: int)
    requires i < |timed| && Sorted(timed) && DistinctIds(timed)
    ensures timed[i].id in Links(t, timed, |timed|) <==> j >= 0
    ensures j >= 0 ==> LinkedTo(t, timed, Links(t, timed, |timed|), i, j)
    ensures j < 0 ==> forall k :: 0 <= k < |timed| ==> !LaterReplaces(t, timed, k, i)
  {
    InLinks(t, timed, |timed|, i);
    hide Links, DistinctIds, Replaces;
    j := Newest(t, timed, i, |timed|);
    if j >= 0 { assert timed[i].key <= timed[j].key; }
  }

  /** Every link goes strictly forward in time, to the newest line that replaces; a line without a link
      is replaced by no later line. */
  lemma LinksGoForward(t: Text, fragments: seq<Fragment>)
    ensures var timed, out := Timed(fragments), ReplacedBy(t, fragments);
      && (forall i: nat :: i < |timed| ==>
            (timed[i].id in out <==> exists j: nat :: LinkedTo(t, timed, out, i, j)))
      && (forall i: nat :: i < |timed| && timed[i].id !in out ==>
            forall j :: 0 <= j < |timed| ==> !LaterReplaces(t, timed, j, i))
      && (forall id :: id in out ==> exists i :: 0 <= i < |timed| && timed[i].id == id)
  {
    var timed, out := Timed(fragments), ReplacedBy(t, fragments);
    TimedOk(fragments);
    hide LaterReplaces, Links, Timed, Sorted, DistinctIds;
    forall i: nat | i < |timed|
      ensures timed[i].id in out <==> exists j: nat :: LinkedTo(t, timed, out, i, j)
      ensures timed[i].id !in out ==> forall j :: 0 <= j < |timed| ==> !LaterReplaces(t, timed, j, i)
    {
      var j := OneLink(t, timed, i);
      if j >= 0 { assert LinkedTo(t, timed, out, i, j); }
    }
    forall id | id in out ensures exists i :: 0 <= i < |timed| && timed[i].id == id {
      var i := LinkedFrom(t, timed, |timed|, id);
    }
  }
}
