/** The loopback HTTP client: reading one response, in whatever pieces the socket delivers it.

    The reader stops as soon as the Content-Length is reached (RFC 9112, sections 6.2 and 6.3).
    int() is a parameter; a value it does not accept raises ValueError. */
module Wire {
  import opened Assoc

  type Byte = b: int | 0 <= b < 256
  type Bytes = seq<Byte>

  const CRLF: Bytes := [13, 10]
  const BLANK: Bytes := [13, 10, 13, 10]
  const CONTENT_LENGTH: Bytes := [99, 111, 110, 116, 101, 110, 116, 45, 108, 101, 110, 103, 116, 104]
  const HTTP: Bytes := [72, 84, 84, 80, 47]

  datatype Outcome = Answer(status: int, body: Bytes) | WireError | ValueError

  /** What _length finds: no header, a number, or a value int() refuses. */
  datatype Length = Absent | Given(n: int) | Refused

  // ----- bytes -----

  predicate OccursAt(raw: Bytes, sep: Bytes, i: int) {
    0 <= i <= |raw| - |sep| && raw[i..i + |sep|] == sep
  }

  /** First occurrence of sep at or after i, or -1. */
  function IndexFrom(raw: Bytes, sep: Bytes, i: nat): (r: int)
    requires i <= |raw|
    ensures r == -1 || (r >= i && OccursAt(raw, sep, r))
    ensures forall j :: i <= j && (r == -1 || j < r) ==> !OccursAt(raw, sep, j)
    decreases |raw| - i
  {
    if OccursAt(raw, sep, i) then i
    else if i == |raw| then -1
    else IndexFrom(raw, sep, i + 1)
  }

  function Index(raw: Bytes, sep: Bytes): (r: int)
    ensures r == -1 || OccursAt(raw, sep, r)
    ensures forall j :: 0 <= j && (r == -1 || j < r) ==> !OccursAt(raw, sep, j)
  {
    IndexFrom(raw, sep, 0)
  }

  predicate Space(b: Byte) {
    b == 32 || 9 <= b <= 13
  }

  function Strip(s: Bytes): Bytes
    decreases |s|
  {
    if s == [] then s
    else if Space(s[0]) then Strip(s[1..])
    else if Space(s[|s| - 1]) then Strip(s[..|s| - 1])
    else s
  }

  function Lower(s: Bytes): Bytes {
    seq(|s|, i requires 0 <= i < |s| => if 65 <= s[i] <= 90 then s[i] + 32 else s[i])
  }

  function Lines(head: Bytes): seq<Bytes>
    decreases |head|
  {
    var i := Index(head, CRLF);
    if i < 0 then [head] else [head[..i]] + Lines(head[i + 2..])
  }

  function Fields(line: Bytes): seq<Bytes>
    decreases |line|
  {
    var s := Strip(line);
    StripShorter(line);
    if s == [] then []
    else
      var n := WordEnd(s, 0);
      [s[..n]] + Fields(s[n..])
  }

  lemma StripShorter(s: Bytes)
    ensures |Strip(s)| <= |s| && (Strip(s) != [] ==> !Space(Strip(s)[0]))
    decreases |s|
  {
    if s != [] {
      if Space(s[0]) { StripShorter(s[1..]); }
      else if Space(s[|s| - 1]) { StripShorter(s[..|s| - 1]); }
    }
  }

  function WordEnd(s: Bytes, i: nat): (n: nat)
    requires i <= |s|
    ensures i <= n <= |s| && (i < |s| && !Space(s[i]) ==> n > i)
    decreases |s| - i
  {
    if i == |s| || Space(s[i]) then i else WordEnd(s, i + 1)
  }

  // ----- one response -----

  function LengthIn(lines: seq<Bytes>, parseInt: Bytes -> Option<int>): Length {
    if lines == [] then Absent
    else
      var i := Index(lines[0], [58]);
      var name := if i < 0 then lines[0] else lines[0][..i];
      var value := if i < 0 then [] else lines[0][i + 1..];
      if Lower(Strip(name)) == CONTENT_LENGTH then
        var n := parseInt(Strip(value));
        if n.Some? then Given(n.value) else Refused
      else LengthIn(lines[1..], parseInt)
  }

  /** _length: the first Content-Length header after the status line. */
  function LengthOf(head: Bytes, parseInt: Bytes -> Option<int>): Length {
    var lines := Lines(head);
    if lines == [] then Absent else LengthIn(lines[1..], parseInt)
  }

  function HeadEnd(raw: Bytes): int {
    Index(raw, BLANK)
  }

  function HeadOf(raw: Bytes): Bytes
    requires HeadEnd(raw) >= 0
  {
    raw[..HeadEnd(raw)]
  }

  function RestOf(raw: Bytes): Bytes
    requires HeadEnd(raw) >= 0
  {
    raw[HeadEnd(raw) + 4..]
  }

  datatype Progress = More | Done | Raise

  /** _complete, or the ValueError int() raises inside it. */
  function Complete(raw: Bytes, parseInt: Bytes -> Option<int>): Progress {
    if HeadEnd(raw) < 0 then More
    else
      match LengthOf(HeadOf(raw), parseInt)
      case Absent => More
      case Refused => Raise
      case Given(n) => if |RestOf(raw)| >= n then Done else More
  }

  predicate Digits(s: Bytes) {
    s != [] && forall i :: 0 <= i < |s| ==> 48 <= s[i] <= 57
  }

  function Number(s: Bytes): int {
    if s == [] then 0 else 10 * Number(s[..|s| - 1]) + (s[|s| - 1] as int - 48)
  }

  /** The status in the status line, unless it is not an HTTP one. */
  function StatusOf(head: Bytes): Option<int> {
    var fields := if Lines(head) == [] then [] else Fields(Lines(head)[0]);
    if |fields| >= 2 && HTTP <= fields[0] && Digits(fields[1]) then Some(Number(fields[1])) else None
  }

  /** The first n bytes, in Python's sense: a negative n counts from the end. */
  function Slice(rest: Bytes, n: int): Bytes {
    var end := if n < 0 then |rest| + n else n;
    if end < 0 then [] else if end > |rest| then rest else rest[..end]
  }

  function Parse(raw: Bytes, parseInt: Bytes -> Option<int>): Outcome {
    if HeadEnd(raw) < 0 then WireError
    else
      var status := StatusOf(HeadOf(raw));
      if status.None? then WireError
      else
        match LengthOf(HeadOf(raw), parseInt)
        case Refused => ValueError
        case Absent => Answer(status.value, RestOf(raw))
        case Given(n) => Answer(status.value, Slice(RestOf(raw), n))
  }

  // ----- the receive loop -----

  /** What reading on from raw yields, when the socket delivers these pieces and then ends. */
  function ReadOn(raw: Bytes, pieces: seq<Bytes>, parseInt: Bytes -> Option<int>): Outcome
    decreases |pieces|
  {
    if pieces == [] || pieces[0] == [] then Parse(raw, parseInt)
    else
      var more := raw + pieces[0];
      match Complete(more, parseInt)
      case Raise => ValueError
      case Done => Parse(more, parseInt)
      case More => ReadOn(more, pieces[1..], parseInt)
  }

  method Receive(pieces: seq<Bytes>, parseInt: Bytes -> Option<int>) returns (r: Outcome)
    ensures r == ReadOn([], pieces, parseInt)
  {
    var raw: Bytes := [];
    var i := 0;
    while i < |pieces| && pieces[i] != []
      invariant i <= |pieces| && ReadOn(raw, pieces[i..], parseInt) == ReadOn([], pieces, parseInt)
    {
      raw := raw + pieces[i];
      assert pieces[i..][1..] == pieces[i + 1..];
      i := i + 1;
      var progress := Complete(raw, parseInt);
      if progress.Raise? {
        return ValueError;
      }
      if progress.Done? {
        break;
      }
    }
    r := Parse(raw, parseInt);
  }

  function Concat(pieces: seq<Bytes>): Bytes {
    if pieces == [] then [] else pieces[0] + Concat(pieces[1..])
  }

  ghost predicate NonEmpty(pieces: seq<Bytes>) {
    forall i :: 0 <= i < |pieces| ==> pieces[i] != []
  }

  // ----- completeness and the parse are stable -----

  lemma OnePiece(raw: Bytes, piece: Bytes, parseInt: Bytes -> Option<int>)
    ensures Concat([piece]) == piece
    ensures piece != [] ==> (ReadOn(raw, [piece], parseInt) ==
      (if Complete(raw + piece, parseInt).Raise? then ValueError else Parse(raw + piece, parseInt)))
  {
    var pieces := [piece];
    assert pieces[1..] == [];
  }

  /** More bytes do not move the end of the head. */
  lemma HeadStable(raw: Bytes, more: Bytes)
    requires HeadEnd(raw) >= 0
    ensures HeadEnd(raw + more) == HeadEnd(raw) && HeadOf(raw + more) == HeadOf(raw)
    ensures RestOf(raw + more) == RestOf(raw) + more
  {
    var i := HeadEnd(raw);
    var all := raw + more;
    assert all[i..i + 4] == raw[i..i + 4];
    assert OccursAt(all, BLANK, i);
    forall j | 0 <= j < i ensures !OccursAt(all, BLANK, j) {
      assert all[j..j + 4] == raw[j..j + 4];
      assert !OccursAt(raw, BLANK, j);
    }
    assert HeadEnd(all) == i;
  }

  /** A complete response stays complete and parses the same, whatever follows. */
  lemma CompleteStable(raw: Bytes, more: Bytes, parseInt: Bytes -> Option<int>)
    requires Complete(raw, parseInt).Done? && LengthOf(HeadOf(raw), parseInt).n >= 0
    ensures Complete(raw + more, parseInt).Done? && Parse(raw + more, parseInt) == Parse(raw, parseInt)
  {
    HeadStable(raw, more);
  }

  lemma RaiseStable(raw: Bytes, more: Bytes, parseInt: Bytes -> Option<int>)
    requires Complete(raw, parseInt).Raise?
    ensures Complete(raw + more, parseInt).Raise?
  {
    HeadStable(raw, more);
  }

  /** The bytes announce a negative length, and hold more than that many after the head. */
  predicate CutsFromTheEnd(raw: Bytes, parseInt: Bytes -> Option<int>) {
    && HeadEnd(raw) >= 0
    && var length := LengthOf(HeadOf(raw), parseInt);
    && length.Given?
    && length.n < 0
    && |RestOf(raw)| > -length.n
  }

  lemma {:induction false} PiecesAgree(raw: Bytes, pieces: seq<Bytes>, parseInt: Bytes -> Option<int>)
    requires NonEmpty(pieces) && pieces != [] && !CutsFromTheEnd(raw + Concat(pieces), parseInt)
    ensures ReadOn(raw, pieces, parseInt) == ReadOn(raw, [Concat(pieces)], parseInt)
    decreases |pieces|
  {
    hide StatusOf, LengthOf, Index;
    var first, rest := raw + pieces[0], Concat(pieces[1..]);
    var all := raw + Concat(pieces);
    assert all == first + rest;
    OnePiece(raw, Concat(pieces), parseInt);
    match Complete(first, parseInt) {
      case Raise => RaiseStable(first, rest, parseInt);
      case Done =>
        HeadStable(first, rest);
      case More =>
        if |pieces| == 1 {
          assert pieces[1..] == [] && rest == [] && Concat(pieces) == pieces[0];
        } else {
          assert rest != [] by { assert pieces[1] != []; }
          PiecesAgree(first, pieces[1..], parseInt);
          OnePiece(first, rest, parseInt);
        }
    }
  }

  lemma FromTheStart(raw: Bytes, pieces: seq<Bytes>, parseInt: Bytes -> Option<int>)
    requires NonEmpty(pieces) && Concat(pieces) == raw && raw != [] && !CutsFromTheEnd(raw, parseInt)
    ensures ReadOn([], pieces, parseInt) == ReadOn([], [raw], parseInt)
    ensures !Complete(raw, parseInt).Raise? ==> ReadOn([], pieces, parseInt) == Parse(raw, parseInt)
  {
    hide Complete, Parse, CutsFromTheEnd;
    assert [] + raw == raw;
    PiecesAgree([], pieces, parseInt);
    OnePiece([], raw, parseInt);
  }

  /** How a response was cut into pieces never shows in the result, except for one kind of response:
      one that announces a negative length shorter than what follows the head. */
  lemma PiecesIrrelevantIff(raw: Bytes, parseInt: Bytes -> Option<int>)
    requires raw != []
    ensures (forall pieces :: NonEmpty(pieces) && Concat(pieces) == raw ==>
               ReadOn([], pieces, parseInt) == ReadOn([], [raw], parseInt))
            <==> !(CutsFromTheEnd(raw, parseInt) && StatusOf(HeadOf(raw)).Some?)
  {
    hide StatusOf, LengthOf, Index, ReadOn;
    assert [] + raw == raw;
    if CutsFromTheEnd(raw, parseInt) && StatusOf(HeadOf(raw)).Some? {
      CutAfterHead(raw, parseInt);
    } else {
      forall pieces | NonEmpty(pieces) && Concat(pieces) == raw
        ensures ReadOn([], pieces, parseInt) == ReadOn([], [raw], parseInt)
      {
        if CutsFromTheEnd(raw, parseInt) {
          NoStatusAgrees([], pieces, parseInt);
        } else {
          FromTheStart(raw, pieces, parseInt);
        }
      }
    }
  }

  /** Without a status line every way of cutting such a response ends in the same error. */
  lemma {:induction false} NoStatusAgrees(raw: Bytes, pieces: seq<Bytes>, parseInt: Bytes -> Option<int>)
    requires NonEmpty(pieces) && pieces != []
    requires var all := raw + Concat(pieces);
      CutsFromTheEnd(all, parseInt) && StatusOf(HeadOf(all)).None?
    ensures ReadOn(raw, pieces, parseInt) == ReadOn(raw, [Concat(pieces)], parseInt) == WireError
    decreases |pieces|
  {
    hide StatusOf, LengthOf, Index;
    var first, rest := raw + pieces[0], Concat(pieces[1..]);
    assert raw + Concat(pieces) == first + rest;
    OnePiece(raw, Concat(pieces), parseInt);
    if HeadEnd(first) >= 0 {
      HeadStable(first, rest);
    } else {
      assert pieces[1..] == [] ==> first + rest == first;
      NoStatusAgrees(first, pieces[1..], parseInt);
      OnePiece(first, rest, parseInt);
    }
  }

  /** Delivered up to the blank line first, the body of such a response is lost. */
  lemma CutAfterHead(raw: Bytes, parseInt: Bytes -> Option<int>)
    requires CutsFromTheEnd(raw, parseInt) && StatusOf(HeadOf(raw)).Some?
    ensures var pieces := [raw[..HeadEnd(raw) + 4], RestOf(raw)];
      && NonEmpty(pieces) && Concat(pieces) == raw
      && ReadOn([], pieces, parseInt) != ReadOn([], [raw], parseInt)
  {
    hide StatusOf, LengthOf, Index;
    var head, rest := raw[..HeadEnd(raw) + 4], RestOf(raw);
    var pieces := [head, rest];
    OnePiece(head, rest, parseInt);
    OnePiece([], raw, parseInt);
    assert pieces[1..] == [rest];
    assert head + rest == raw;
    HeadEndsThere(raw);
    assert [] + head == head && [] + raw == raw;
    assert RestOf(head) == [];
    assert ReadOn([], pieces, parseInt) == Parse(head, parseInt);
    assert ReadOn([], [raw], parseInt) == Parse(raw, parseInt);
  }

  lemma HeadEndsThere(raw: Bytes)
    requires HeadEnd(raw) >= 0
    ensures var head := raw[..HeadEnd(raw) + 4]; HeadEnd(head) == HeadEnd(raw) && HeadOf(head) == HeadOf(raw)
  {
    var i := HeadEnd(raw);
    var head := raw[..i + 4];
    assert head[i..i + 4] == raw[i..i + 4];
    assert OccursAt(head, BLANK, i);
    forall j | 0 <= j < i ensures !OccursAt(head, BLANK, j) {
      assert head[j..j + 4] == raw[j..j + 4];
      assert !OccursAt(raw, BLANK, j);
    }
  }

  // ----- what was sent is what is read -----

  /** A response with a Content-Length, cut any way, followed by anything: the status and exactly the
      body, blank lines inside the body included. */
  lemma ReadsWhatWasSent(head: Bytes, body: Bytes, after: Bytes, pieces: seq<Bytes>, parseInt: Bytes -> Option<int>)
    requires HeadEnd(head + BLANK) == |head|
    requires LengthOf(head, parseInt) == Given(|body|) && StatusOf(head).Some?
    requires NonEmpty(pieces) && Concat(pieces) == head + BLANK + body + after
    ensures ReadOn([], pieces, parseInt) == Answer(StatusOf(head).value, body)
  {
    var raw := head + BLANK + body + after;
    SentParts(head, body, after);
    hide StatusOf, LengthOf, Index, ReadOn;
    assert raw != [];
    FromTheStart(raw, pieces, parseInt);
  }

  lemma SentParts(head: Bytes, body: Bytes, after: Bytes)
    requires HeadEnd(head + BLANK) == |head|
    ensures var raw := head + BLANK + body + after;
      HeadEnd(raw) == |head| && HeadOf(raw) == head && RestOf(raw) == body + after
    ensures Slice(body + after, |body|) == body
  {
    var raw := head + BLANK + body + after;
    assert raw == head + BLANK + (body + after);
    HeadStable(head + BLANK, body + after);
    hide Index;
    assert RestOf(head + BLANK) == [];
    assert HeadOf(raw) == head;
  }

  /** A stream that ends early is not an error: the answer is the short body.  The body has the length
      the head announced if and only if that many bytes came. */
  lemma FullLengthIff(raw: Bytes, pieces: seq<Bytes>, parseInt: Bytes -> Option<int>)
    requires NonEmpty(pieces) && Concat(pieces) == raw && HeadEnd(raw) >= 0 && StatusOf(HeadOf(raw)).Some?
    requires LengthOf(HeadOf(raw), parseInt).Given? && LengthOf(HeadOf(raw), parseInt).n >= 0
    ensures var r := ReadOn([], pieces, parseInt);
      var n := LengthOf(HeadOf(raw), parseInt).n;
      && r.Answer?
      && r.body <= RestOf(raw)
      && (|r.body| == n <==> |RestOf(raw)| >= n)
      && (|RestOf(raw)| < n ==> r.body == RestOf(raw))
  {
    hide StatusOf, LengthOf, Index, ReadOn;
    FromTheStart(raw, pieces, parseInt);
  }

  // ----- two short responses -----

  const OK_LINE: Bytes := HTTP + [32, 50]

  /** "HTTP/ 2", and a Content-Length whose value is one or two other bytes. */
  function ShortHead(value: Bytes): Bytes {
    OK_LINE + CRLF + (CONTENT_LENGTH + [58] + value)
  }

  lemma IndexIs(raw: Bytes, sep: Bytes, i: nat)
    requires OccursAt(raw, sep, i) && forall j :: 0 <= j < i ==> !OccursAt(raw, sep, j)
    ensures Index(raw, sep) == i
  {
  }

  /** Where sep occurs, so do its bytes. */
  lemma AtOffset(raw: Bytes, sep: Bytes, i: int, k: nat)
    requires k < |sep|
    ensures OccursAt(raw, sep, i) ==> 0 <= i && i + k < |raw| && raw[i + k] == sep[k]
  {
    if OccursAt(raw, sep, i) { assert raw[i..i + |sep|][k] == raw[i + k]; }
  }

  lemma IndexNone(raw: Bytes, sep: Bytes)
    requires forall j :: !OccursAt(raw, sep, j)
    ensures Index(raw, sep) == -1
  {
  }

  /** No line end inside: two lines. */
  lemma TwoLines(a: Bytes, b: Bytes)
    requires 13 !in a && 13 !in b
    ensures Lines(a + CRLF + b) == [a, b]
  {
    var raw := a + CRLF + b;
    forall j | 0 <= j < |a| ensures !OccursAt(raw, CRLF, j) {
      assert raw[j] == a[j];
      AtOffset(raw, CRLF, j, 0);
    }
    assert OccursAt(raw, CRLF, |a|);
    IndexIs(raw, CRLF, |a|);
    forall j ensures !OccursAt(b, CRLF, j) {
      assert 0 <= j < |b| ==> b[j] in b;
      AtOffset(b, CRLF, j, 0);
    }
    IndexNone(b, CRLF);
    assert raw[..|a|] == a && raw[|a| + 2..] == b;
    assert Lines(b) == [b];
  }

  /** The head ends where the blank line is put. */
  lemma HeadHere(a: Bytes, b: Bytes, rest: Bytes)
    requires 13 !in a && 13 !in b && b != []
    ensures var head := a + CRLF + b; var raw := head + BLANK + rest;
      HeadEnd(raw) == |head| && HeadOf(raw) == head && RestOf(raw) == rest
  {
    var head := a + CRLF + b;
    var raw := head + BLANK + rest;
    forall j | 0 <= j < |head| ensures !OccursAt(raw, BLANK, j) {
      if j == |a| {
        assert raw[j + 2] == b[0];
        AtOffset(raw, BLANK, j, 2);
      } else {
        assert raw[j] != 13 by {
          if j < |a| { assert raw[j] == a[j]; }
          else if j == |a| + 1 { assert raw[j] == 10; }
          else { assert raw[j] == b[j - |a| - 2]; }
        }
        AtOffset(raw, BLANK, j, 0);
      }
    }
    assert OccursAt(raw, BLANK, |head|);
    IndexIs(raw, BLANK, |head|);
  }

  lemma ShortLength(value: Bytes, parseInt: Bytes -> Option<int>, n: int)
    requires 13 !in value && 58 !in value && parseInt(Strip(value)) == Some(n)
    ensures LengthOf(ShortHead(value), parseInt) == Given(n)
  {
    var header := CONTENT_LENGTH + [58] + value;
    assert 13 !in OK_LINE && 13 !in CONTENT_LENGTH;
    TwoLines(OK_LINE, header);
    hide *;
    ColonAfterName(value);
    PlainName();
    HeaderLength(CONTENT_LENGTH, value, parseInt);
    TwoLinesLength(ShortHead(value), OK_LINE, header, parseInt);
  }

  lemma TwoLinesLength(head: Bytes, first: Bytes, header: Bytes, parseInt: Bytes -> Option<int>)
    requires Lines(head) == [first, header]
    ensures LengthOf(head, parseInt) == LengthIn([header], parseInt)
  {
    hide Lines, LengthIn;
    assert [first, header][1..] == [header];
  }

  lemma HeaderLength(name: Bytes, value: Bytes, parseInt: Bytes -> Option<int>)
    requires Index(name + [58] + value, [58]) == |name| && Lower(Strip(name)) == CONTENT_LENGTH
    requires parseInt(Strip(value)).Some?
    ensures LengthIn([name + [58] + value], parseInt) == Given(parseInt(Strip(value)).value)
  {
    hide Strip, Lower, Index;
    var line := name + [58] + value;
    assert line[..|name|] == name && line[|name| + 1..] == value;
  }

  lemma ColonAfterName(value: Bytes)
    ensures Index(CONTENT_LENGTH + [58] + value, [58]) == |CONTENT_LENGTH|
  {
    var header, k := CONTENT_LENGTH + [58] + value, |CONTENT_LENGTH|;
    assert 58 !in CONTENT_LENGTH;
    forall j | 0 <= j < k ensures !OccursAt(header, [58], j) {
      assert header[j] == CONTENT_LENGTH[j];
      AtOffset(header, [58], j, 0);
    }
    assert OccursAt(header, [58], k) by { assert header[k..k + 1] == [58]; }
    IndexIs(header, [58], k);
  }

  lemma PlainName()
    ensures Lower(Strip(CONTENT_LENGTH)) == CONTENT_LENGTH
  {
    assert Strip(CONTENT_LENGTH) == CONTENT_LENGTH;
  }

  lemma ShortStatus(value: Bytes)
    requires 13 !in value
    ensures StatusOf(ShortHead(value)) == Some(2)
  {
    assert 13 !in OK_LINE && 13 !in CONTENT_LENGTH;
    TwoLines(OK_LINE, CONTENT_LENGTH + [58] + value);
    FieldsOfOk();
    assert Number([50]) == 2 by { assert [50][..0] == []; assert Number([50][..0]) == 0; }
  }

  lemma FieldsOfOk()
    ensures Fields(OK_LINE) == [HTTP, [50]]
  {
    var s := OK_LINE;
    assert Strip(s) == s;
    assert WordEnd(s, 5) == 5;
    assert WordEnd(s, 3) == WordEnd(s, 4) == 5;
    assert WordEnd(s, 0) == WordEnd(s, 1) == WordEnd(s, 2) == 5;
    assert s[..5] == HTTP && s[5..] == [32, 50];
    OneField();
  }

  lemma OneField()
    ensures Fields([32, 50]) == [[50]]
  {
    var t: Bytes := [32, 50];
    assert t[1..] == [50];
    assert Strip([50]) == [50] && Strip(t) == [50];
    assert WordEnd([50], 1) == 1 && WordEnd([50], 0) == 1;
    assert [50][..1] == [50] && [50][1..] == [];
  }

  /** "Content-Length: -1" and the body "ab": the answer depends on how it was cut. */
  lemma NegativeLengthExample(parseInt: Bytes -> Option<int>) returns (raw: Bytes)
    requires parseInt(Strip([45, 49])) == Some(-1)
    ensures CutsFromTheEnd(raw, parseInt) && StatusOf(HeadOf(raw)).Some?
    ensures exists pieces ::
              NonEmpty(pieces) && Concat(pieces) == raw && ReadOn([], pieces, parseInt) != ReadOn([], [raw], parseInt)
  {
    var value: Bytes := [45, 49];
    raw := ShortHead(value) + BLANK + [97, 98];
    assert 13 !in OK_LINE && 13 !in CONTENT_LENGTH + [58] + value;
    HeadHere(OK_LINE, CONTENT_LENGTH + [58] + value, [97, 98]);
    ShortLength(value, parseInt, -1);
    ShortStatus(value);
    hide StatusOf, LengthOf, Index, ShortHead;
    CutAfterHead(raw, parseInt);
  }

  /** "Content-Length: 5" and a stream that ends after "ab": no error, but the two bytes. */
  lemma CutShortExample(parseInt: Bytes -> Option<int>) returns (raw: Bytes)
    requires parseInt(Strip([53])) == Some(5)
    ensures ReadOn([], [raw], parseInt) == Answer(2, [97, 98])
    ensures HeadEnd(raw) >= 0 && LengthOf(HeadOf(raw), parseInt) == Given(5)
  {
    var value: Bytes := [53];
    raw := ShortHead(value) + BLANK + [97, 98];
    assert 13 !in OK_LINE && 13 !in CONTENT_LENGTH + [58] + value;
    HeadHere(OK_LINE, CONTENT_LENGTH + [58] + value, [97, 98]);
    ShortLength(value, parseInt, 5);
    ShortStatus(value);
    hide StatusOf, LengthOf, Index, ShortHead;
    OnePiece([], raw, parseInt);
    assert [] + raw == raw;
  }
}
