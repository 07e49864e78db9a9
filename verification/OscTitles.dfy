/** The scanner that finds window titles in a pty's output
    (crates/machine/src/osc_title.rs). */
module OscTitles {
  import opened Basics

  const MAX_TITLE_BYTES: nat := 128
  const MAX_SEQUENCE_BYTES: nat := 4096

  const BEL: byte := 0x07
  const ESC: byte := 0x1b
  const SEMICOLON: byte := 0x3b
  const BACKSLASH: byte := 0x5c
  const BRACKET: byte := 0x5d

  datatype State =
    | Ground
    | Escape
    | Command
    | Semicolon
    | Title(bytes: seq<byte>, count: nat, escape: bool)
    | Ignore(count: nat, escape: bool)

  predicate AsciiControl(b: byte)
  {
    b < 0x20 || b == 0x7f
  }

  predicate Selects(b: byte)
  {
    b == 0x30 || b == 0x32
  }

  /** One byte: the next state. */
  function Step(s: State, b: byte): State
  {
    match s
    case Ground => if b == ESC then Escape else Ground
    case Escape => if b == BRACKET then Command else if b == ESC then Escape else Ground
    case Command =>
      if Selects(b) then Semicolon
      else if b == BEL then Ground
      else Ignore(1, b == ESC)
    case Semicolon =>
      if b == SEMICOLON then Title([], 0, false)
      else if b == BEL then Ground
      else Ignore(1, b == ESC)
    case Title(bytes, count, escape) =>
      if escape && b == BACKSLASH then Ground
      else if escape && b == BRACKET then Command
      else if b == BEL then Ground
      else if count + 1 >= MAX_SEQUENCE_BYTES then (if b == ESC then Escape else Ground)
      else Title(if !escape && b != ESC then Room(bytes, b) else bytes, count + 1, b == ESC)
    case Ignore(count, escape) =>
      if b == BEL || (escape && b == BACKSLASH) then Ground
      else if escape && b == BRACKET then Command
      else if count + 1 >= MAX_SEQUENCE_BYTES then (if b == ESC then Escape else Ground)
      else Ignore(count + 1, b == ESC)
  }

  function Room(bytes: seq<byte>, b: byte): seq<byte>
  {
    if !AsciiControl(b) && |bytes| < MAX_TITLE_BYTES then bytes + [b] else bytes
  }

  /** One byte: the title it completes. */
  predicate Completes(s: State, b: byte)
  {
    s.Title? && (b == BEL || (s.escape && b == BACKSLASH))
  }

  function After(s: State, input: seq<byte>): State
  {
    if input == [] then s else Step(After(s, input[..|input| - 1]), input[|input| - 1])
  }

  // ----- titles as text -----

  /** Decodes bytes as text; only its behaviour on ASCII matters here. */
  ghost predicate KeepsAscii(decode: seq<byte> -> string)
  {
    forall w: seq<byte> | Printable(w) :: decode(w) == AsciiText(w)
  }

  predicate Printable(w: seq<byte>)
  {
    forall i | 0 <= i < |w| :: 0x20 <= w[i] < 0x7f
  }

  function AsciiText(w: seq<byte>): string
  {
    seq(|w|, i requires 0 <= i < |w| => w[i] as char)
  }

  function NoControls(text: string): string
  {
    if text == "" then ""
    else NoControls(text[..|text| - 1]) + (if IsControl(text[|text| - 1]) then "" else [text[|text| - 1]])
  }

  /** The longest prefix of whole characters that fits. */
  function Cut(text: string): (r: string)
    ensures r <= text && WidthOf(r) <= MAX_TITLE_BYTES
    ensures r == text || WidthOf(text[..|r| + 1]) > MAX_TITLE_BYTES
  {
    if WidthOf(text) <= MAX_TITLE_BYTES then text
    else
      var shorter := Cut(text[..|text| - 1]);
      assert shorter != text[..|text| - 1] ==> text[..|text| - 1][..|shorter| + 1] == text[..|shorter| + 1];
      assert text[..|text|] == text;
      shorter
  }

  function Sanitized(decode: seq<byte> -> string, bytes: seq<byte>): string
  {
    Cut(NoControls(decode(bytes)))
  }

  function TitleOf(decode: seq<byte> -> string, bytes: seq<byte>): seq<string>
  {
    if Sanitized(decode, bytes) == "" then [] else [Sanitized(decode, bytes)]
  }

  function Titles(decode: seq<byte> -> string, s: State, input: seq<byte>): seq<string>
  {
    if input == [] then []
    else
      var n := |input| - 1;
      Titles(decode, s, input[..n]) + TitleAt(decode, After(s, input[..n]), input[n])
  }

  /** The title a byte completes, if any. */
  function TitleAt(decode: seq<byte> -> string, s: State, b: byte): seq<string>
  {
    if Completes(s, b) then TitleOf(decode, s.bytes) else []
  }

  lemma {:induction false} Longer(text: string, n: nat)
    requires n <= |text|
    ensures WidthOf(text[..n]) <= WidthOf(text)
  {
    if n == |text| {
      assert text[..n] == text;
    } else {
      Longer(text[..|text| - 1], n);
      assert text[..|text| - 1][..n] == text[..n];
    }
  }

  /** A prefix that fits while the next character does not is the cut. */
  lemma {:induction false} CutIsUnique(text: string, r: string)
    requires r <= text && WidthOf(r) <= MAX_TITLE_BYTES
    requires r == text || WidthOf(text[..|r| + 1]) > MAX_TITLE_BYTES
    ensures r == Cut(text)
  {
    var c := Cut(text);
    assert r == text[..|r|] && c == text[..|c|];
    if |r| < |c| {
      assert c[..|r| + 1] == text[..|r| + 1];
      Longer(c, |r| + 1);
    } else if |c| < |r| {
      assert r[..|c| + 1] == text[..|c| + 1];
      Longer(r, |c| + 1);
    }
  }

  /** The scanner as the program runs it. */
  class OscTitleScanner {
    var state: State
    const decode: seq<byte> -> string

    constructor (decode: seq<byte> -> string)
      ensures state == Ground && this.decode == decode
    {
      state := Ground;
      this.decode := decode;
    }

    method Push(chunk: seq<byte>) returns (titles: seq<string>)
      modifies this
      ensures state == After(old(state), chunk)
      ensures titles == Titles(decode, old(state), chunk)
    {
      titles := [];
      var i := 0;
      while i < |chunk|
        invariant 0 <= i <= |chunk|
        invariant state == After(old(state), chunk[..i])
        invariant titles == Titles(decode, old(state), chunk[..i])
      {
        assert chunk[..i + 1][..i] == chunk[..i];
        var found := PushByte(chunk[i]);
        titles := titles + found;
        i := i + 1;
      }
      assert chunk[..i] == chunk;
    }

    method PushByte(byte: byte) returns (titles: seq<string>)
      modifies this
      ensures state == Step(old(state), byte) && titles == TitleAt(decode, old(state), byte)
    {
      titles := [];
      match state {
        case Ground => state := if byte == ESC then Escape else Ground;
        case Escape => state := if byte == BRACKET then Command else if byte == ESC then Escape else Ground;
        case Command =>
          state := if byte == 0x30 || byte == 0x32 then Semicolon
                   else if byte == BEL then Ground
                   else Ignore(1, byte == ESC);
        case Semicolon =>
          state := if byte == SEMICOLON then Title([], 0, false)
                   else if byte == BEL then Ground
                   else Ignore(1, byte == ESC);
        case Title(bytes, count, escape) =>
          if (escape && byte == BACKSLASH) || byte == BEL {
            titles := PushTitle(titles, bytes);
            state := Ground;
          } else if escape && byte == BRACKET {
            state := Command;
          } else if count + 1 >= MAX_SEQUENCE_BYTES {
            state := if byte == ESC then Escape else Ground;
          } else {
            var kept := bytes;
            if !escape && byte != ESC && !AsciiControl(byte) && |kept| < MAX_TITLE_BYTES {
              kept := kept + [byte];
            }
            state := Title(kept, count + 1, byte == ESC);
          }
        case Ignore(count, escape) =>
          if byte == BEL || (escape && byte == BACKSLASH) {
            state := Ground;
          } else if escape && byte == BRACKET {
            state := Command;
          } else if count + 1 >= MAX_SEQUENCE_BYTES {
            state := if byte == ESC then Escape else Ground;
          } else {
            state := Ignore(count + 1, byte == ESC);
          }
      }
    }

    method PushTitle(titles: seq<string>, bytes: seq<byte>) returns (r: seq<string>)
      ensures r == titles + TitleOf(decode, bytes)
    {
      var title := SanitizeTitle(decode, bytes);
      r := if title == "" then titles else titles + [title];
    }
  }

  /** Filters and cuts in one pass, stopping at the first character that does
      not fit. */
  method SanitizeTitle(decode: seq<byte> -> string, bytes: seq<byte>) returns (title: string)
    ensures title == Sanitized(decode, bytes)
  {
    title := "";
    var text := decode(bytes);
    var i, width := 0, 0;
    while i < |text|
      invariant 0 <= i <= |text|
      invariant title == NoControls(text[..i]) && width == WidthOf(title) <= MAX_TITLE_BYTES
    {
      CharacterMore(text, i);
      if !IsControl(text[i]) {
        if width + Width(text[i]) > MAX_TITLE_BYTES {
          CutHere(text, i);
          return;
        }
        title := title + [text[i]];
        width := width + Width(text[i]);
      }
      i := i + 1;
    }
    assert text[..i] == text;
    CutIsUnique(title, title);
  }

  lemma CharacterMore(text: string, i: nat)
    requires i < |text|
    ensures var title, c := NoControls(text[..i]), text[i];
      && NoControls(text[..i + 1]) == (if IsControl(c) then title else title + [c])
      && WidthOf(title + [c]) == WidthOf(title) + Width(c)
  {
    var title := NoControls(text[..i]);
    assert text[..i + 1][..i] == text[..i];
    assert (title + [text[i]])[..|title|] == title && title + "" == title;
  }

  /** The first character that does not fit is where the title is cut. */
  lemma CutHere(text: string, i: nat)
    requires i < |text| && !IsControl(text[i])
    requires WidthOf(NoControls(text[..i])) <= MAX_TITLE_BYTES
    requires WidthOf(NoControls(text[..i])) + Width(text[i]) > MAX_TITLE_BYTES
    ensures NoControls(text[..i]) == Cut(NoControls(text))
  {
    var title := NoControls(text[..i]);
    CharacterMore(text, i);
    NoControlsPrefix(text, i + 1);
    NoControlsPrefix(text, i);
    assert NoControls(text)[..|title| + 1] == title + [text[i]];
    CutIsUnique(NoControls(text), title);
  }

  lemma {:induction false} NoControlsPrefix(text: string, n: nat)
    requires n <= |text|
    ensures NoControls(text[..n]) <= NoControls(text)
  {
    if n == |text| {
      assert text[..n] == text;
    } else {
      NoControlsPrefix(text[..|text| - 1], n);
      assert text[..|text| - 1][..n] == text[..n];
    }
  }

  // ----- chunks do not matter, buffers stay small -----

  lemma {:induction false} ChunksDoNotMatter(decode: seq<byte> -> string, s: State, a: seq<byte>, b: seq<byte>)
    ensures After(s, a + b) == After(After(s, a), b)
    ensures Titles(decode, s, a + b) == Titles(decode, s, a) + Titles(decode, After(s, a), b)
    decreases |b|
  {
    if b == [] {
      assert a + b == a;
    } else {
      var t, x := b[..|b| - 1], b[|b| - 1];
      assert b == t + [x] && a + b == (a + t) + [x];
      ChunksDoNotMatter(decode, s, a, t);
      OneMore(decode, s, a + t, x);
      OneMore(decode, After(s, a), t, x);
      Assoc(Titles(decode, s, a), Titles(decode, After(s, a), t), TitleAt(decode, After(After(s, a), t), x));
    }
  }

  lemma OneMore(decode: seq<byte> -> string, s: State, input: seq<byte>, b: byte)
    ensures After(s, input + [b]) == Step(After(s, input), b)
    ensures Titles(decode, s, input + [b]) == Titles(decode, s, input) + TitleAt(decode, After(s, input), b)
  {
    assert (input + [b])[..|input|] == input;
  }

  predicate Bounded(s: State)
  {
    match s
    case Title(bytes, count, _) => |bytes| <= MAX_TITLE_BYTES && |bytes| <= count < MAX_SEQUENCE_BYTES
    case Ignore(count, _) => count < MAX_SEQUENCE_BYTES
    case _ => true
  }

  lemma {:induction false} AlwaysBounded(s: State, input: seq<byte>)
    requires Bounded(s)
    ensures Bounded(After(s, input))
  {
    if input != [] {
      AlwaysBounded(s, input[..|input| - 1]);
    }
  }

  // ----- which inputs end inside a title -----

  /** What may stand between the introducer and the terminator. */
  predicate Body(w: seq<byte>)
  {
    forall i | 0 <= i < |w| ::
      w[i] != BEL && (i > 0 && w[i - 1] == ESC ==> w[i] != BACKSLASH && w[i] != BRACKET)
  }

  predicate EndsInEscape(w: seq<byte>)
  {
    w != [] && w[|w| - 1] == ESC
  }

  /** The bytes of a body that make the title. */
  function Kept(w: seq<byte>): seq<byte>
  {
    if w == [] then []
    else
      var before, b := w[..|w| - 1], w[|w| - 1];
      if EndsInEscape(before) || b == ESC then Kept(before) else Room(Kept(before), b)
  }

  /** ESC ] 0 ; or ESC ] 2 ; */
  predicate Introducer(x: seq<byte>)
  {
    x == [0x1b, 0x5d, 0x30, 0x3b] || x == [0x1b, 0x5d, 0x32, 0x3b]
  }

  /** The input ends in an introducer and n bytes of title. */
  predicate Framed(input: seq<byte>, n: nat)
  {
    && n < MAX_SEQUENCE_BYTES && n + 4 <= |input|
    && Introducer(input[|input| - n - 4..|input| - n])
    && Body(input[|input| - n..])
  }

  /** What each state says about the input so far. */
  predicate Explained(s: State, input: seq<byte>)
  {
    var n := |input|;
    match s
    case Ground => true
    case Escape => n >= 1 && input[n - 1] == ESC
    case Command => n >= 2 && input[n - 2] == ESC && input[n - 1] == BRACKET
    case Semicolon => n >= 3 && input[n - 3] == ESC && input[n - 2] == BRACKET && Selects(input[n - 1])
    case Title(bytes, count, escape) =>
      Framed(input, count) && bytes == Kept(input[n - count..]) && escape == EndsInEscape(input[n - count..])
    case Ignore(_, escape) => n >= 1 && (escape <==> input[n - 1] == ESC)
  }

  /** The body's end and the introducer before it, one byte later. */
  lemma Slices(input: seq<byte>, b: byte, k: nat)
    requires k + 4 <= |input|
    ensures var n := |input|;
      && (input + [b])[n - k..] == input[n - k..] + [b]
      && (input + [b])[n - k - 4..n - k] == input[n - k - 4..n - k]
  {
  }

  lemma BodyGrows(w: seq<byte>, b: byte)
    requires Body(w) && b != BEL && (EndsInEscape(w) ==> b != BACKSLASH && b != BRACKET)
    ensures Body(w + [b]) && EndsInEscape(w + [b]) == (b == ESC)
    ensures Kept(w + [b]) == if EndsInEscape(w) || b == ESC then Kept(w) else Room(Kept(w), b)
  {
    assert (w + [b])[..|w|] == w;
  }

  lemma ExplainedTitle(s: State, input: seq<byte>, b: byte)
    requires s.Title? && Explained(s, input)
    ensures Explained(Step(s, b), input + [b])
  {
    var n := |input|;
    var w := input[n - s.count..];
    if w != [] {
      assert w[|w| - 1] == input[n - 1];
    }
    if Step(s, b).Title? {
      TitleGoesOn(s, input, b);
    } else {
      TitleEnds(s, input, b);
    }
  }

  lemma TitleGoesOn(s: State, input: seq<byte>, b: byte)
    requires s.Title? && Explained(s, input) && Step(s, b).Title?
    ensures Explained(Step(s, b), input + [b])
  {
    var w := input[|input| - s.count..];
    Slices(input, b, s.count);
    BodyGrows(w, b);
    FramedOn(input, s.count, b);
  }

  lemma FramedOn(input: seq<byte>, k: nat, b: byte)
    requires Framed(input, k) && k + 1 < MAX_SEQUENCE_BYTES && Body(input[|input| - k..] + [b])
    ensures Framed(input + [b], k + 1)
  {
    Slices(input, b, k);
  }

  lemma TitleEnds(s: State, input: seq<byte>, b: byte)
    requires s.Title? && Explained(s, input) && !Step(s, b).Title?
    requires s.escape ==> input[|input| - 1] == ESC
    ensures Explained(Step(s, b), input + [b])
  {
  }

  lemma ExplainedOther(s: State, input: seq<byte>, b: byte)
    requires !s.Title? && Explained(s, input)
    ensures Explained(Step(s, b), input + [b])
  {
    if s.Semicolon? && b == SEMICOLON {
      var n := |input|;
      assert (input + [b])[n + 1..] == [];
      assert (input + [b])[n - 3..n + 1] == [input[n - 3], input[n - 2], input[n - 1], b];
    }
  }

  lemma {:induction false} EveryStateExplained(input: seq<byte>)
    ensures Explained(After(Ground, input), input)
  {
    if input != [] {
      var before, b := input[..|input| - 1], input[|input| - 1];
      EveryStateExplained(before);
      assert before + [b] == input;
      var s := After(Ground, before);
      if s.Title? {
        ExplainedTitle(s, before, b);
      } else {
        ExplainedOther(s, before, b);
      }
    }
  }

  /** An introducer is recognised in whatever state it finds the scanner. */
  lemma IntroducerAlwaysHeard(decode: seq<byte> -> string, s: State, x: seq<byte>)
    requires Introducer(x)
    ensures After(s, x) == Title([], 0, false)
    ensures Titles(decode, s, x) == []
  {
    assert x[..3][..2] == x[..2] && x[..2][..1] == x[..1] && x[..1][..0] == [];
    var s1 := After(s, x[..1]);
    assert s1 == Step(s, ESC) by { assert After(s, x[..1][..0]) == s; }
    var s2 := After(s, x[..2]);
    assert s2 == Step(s1, BRACKET) == Command;
    assert After(s, x[..3]) == Semicolon;
    assert Titles(decode, s, x[..1]) == [];
    assert Titles(decode, s, x[..2]) == [];
    assert Titles(decode, s, x[..3]) == [];
  }

  lemma {:induction false} BodyIsCollected(decode: seq<byte> -> string, w: seq<byte>)
    requires Body(w) && |w| < MAX_SEQUENCE_BYTES
    ensures After(Title([], 0, false), w) == Title(Kept(w), |w|, EndsInEscape(w))
    ensures Titles(decode, Title([], 0, false), w) == []
  {
    if w != [] {
      var before := w[..|w| - 1];
      assert forall i | 0 <= i < |before| :: before[i] == w[i];
      BodyIsCollected(decode, before);
    }
  }

  /** Main result: the scanner is inside a title exactly when the input says so,
      whatever came before. */
  lemma InTitleExactly(input: seq<byte>, n: nat)
    ensures Framed(input, n) <==>
            After(Ground, input).Title? && After(Ground, input).count == n
    ensures Framed(input, n) ==>
              var w := input[|input| - n..];
              After(Ground, input) == Title(Kept(w), n, EndsInEscape(w))
  {
    EveryStateExplained(input);
    if Framed(input, n) {
      var at := |input| - n;
      var p, x, w := input[..at - 4], input[at - 4..at], input[at..];
      assert input == (p + x) + w;
      var decode := (bytes: seq<byte>) => "";
      ChunksDoNotMatter(decode, Ground, p + x, w);
      ChunksDoNotMatter(decode, Ground, p, x);
      IntroducerAlwaysHeard(decode, After(Ground, p), x);
      BodyIsCollected(decode, w);
    }
  }

  /** A byte completes a title exactly when it terminates a framed body. */
  lemma CompletesExactly(input: seq<byte>, b: byte)
    ensures Completes(After(Ground, input), b) <==>
            exists n :: Framed(input, n)
              && (b == BEL || (b == BACKSLASH && EndsInEscape(input[|input| - n..])))
  {
    var s := After(Ground, input);
    if s.Title? {
      InTitleExactly(input, s.count);
    }
    if n :| Framed(input, n) && (b == BEL || (b == BACKSLASH && EndsInEscape(input[|input| - n..]))) {
      InTitleExactly(input, n);
    }
  }

  // ----- whole sequences -----

  datatype Terminator = ByBel | BySt

  function Ending(t: Terminator): seq<byte>
  {
    if t.ByBel? then [0x07] else [0x1b, 0x5c]
  }

  /** The longest body a terminator still closes. */
  function Longest(t: Terminator): nat
  {
    if t.ByBel? then MAX_SEQUENCE_BYTES - 1 else MAX_SEQUENCE_BYTES - 2
  }

  predicate NoEscapes(w: seq<byte>)
  {
    ESC !in w && BEL !in w
  }

  /** Too long a title falls back to Ground and stays there. */
  lemma {:induction false} TooLong(decode: seq<byte> -> string, w: seq<byte>)
    requires NoEscapes(w) && |w| >= MAX_SEQUENCE_BYTES
    ensures After(Title([], 0, false), w) == Ground
    ensures Titles(decode, Title([], 0, false), w) == []
  {
    var before := w[..|w| - 1];
    if |w| == MAX_SEQUENCE_BYTES {
      BodyIsCollected(decode, before);
    } else {
      TooLong(decode, before);
    }
  }

  lemma TerminatorCloses(decode: seq<byte> -> string, w: seq<byte>, t: Terminator)
    requires NoEscapes(w)
    ensures After(After(Title([], 0, false), w), Ending(t)) == Ground
    ensures Titles(decode, After(Title([], 0, false), w), Ending(t))
            == if |w| <= Longest(t) then TitleOf(decode, Kept(w)) else []
  {
    if |w| < MAX_SEQUENCE_BYTES {
      BodyIsCollected(decode, w);
    } else {
      TooLong(decode, w);
    }
    EndingHeard(decode, After(Title([], 0, false), w), t);
  }

  lemma EndingHeard(decode: seq<byte> -> string, s: State, t: Terminator)
    requires s.Ground? || (s.Title? && !s.escape && s.count < MAX_SEQUENCE_BYTES)
    ensures After(s, Ending(t)) == Ground
    ensures Titles(decode, s, Ending(t))
            == if s.Title? && s.count <= Longest(t) then TitleOf(decode, s.bytes) else []
  {
    TwoBytes(decode, s, if t.ByBel? then BEL else ESC, BACKSLASH);
  }

  lemma OneByte(decode: seq<byte> -> string, s: State, x: byte)
    ensures After(s, [x]) == Step(s, x) && Titles(decode, s, [x]) == TitleAt(decode, s, x)
  {
    assert [x][..0] == [];
    assert [] + TitleAt(decode, s, x) == TitleAt(decode, s, x);
  }

  lemma TwoBytes(decode: seq<byte> -> string, s: State, x: byte, y: byte)
    ensures After(s, [x]) == Step(s, x) && Titles(decode, s, [x]) == TitleAt(decode, s, x)
    ensures After(s, [x, y]) == Step(Step(s, x), y)
    ensures Titles(decode, s, [x, y]) == TitleAt(decode, s, x) + TitleAt(decode, Step(s, x), y)
  {
    OneByte(decode, s, x);
    assert [x, y][..1] == [x];
  }

  /** Main result: after any input whatever, a title sequence adds its title and
      nothing else, if it is not too long for its terminator, and nothing if it
      is; either way the scanner is back in Ground. */
  lemma TitleSequenceHeard(decode: seq<byte> -> string, p: seq<byte>, x: seq<byte>, w: seq<byte>, t: Terminator)
    requires Introducer(x) && NoEscapes(w)
    ensures After(Ground, p + (x + (w + Ending(t)))) == Ground
    ensures Titles(decode, Ground, p + (x + (w + Ending(t))))
            == Titles(decode, Ground, p) + if |w| <= Longest(t) then TitleOf(decode, Kept(w)) else []
  {
    ChunksDoNotMatter(decode, Ground, p, x + (w + Ending(t)));
    IntroducerAlwaysHeard(decode, After(Ground, p), x);
    SilentThen(decode, After(Ground, p), x, w + Ending(t));
    if |w| < MAX_SEQUENCE_BYTES { BodyIsCollected(decode, w); } else { TooLong(decode, w); }
    SilentThen(decode, Title([], 0, false), w, Ending(t));
    TerminatorCloses(decode, w, t);
  }

  lemma SilentThen(decode: seq<byte> -> string, s: State, a: seq<byte>, b: seq<byte>)
    requires Titles(decode, s, a) == []
    ensures After(s, a + b) == After(After(s, a), b)
    ensures Titles(decode, s, a + b) == Titles(decode, After(s, a), b)
  {
    ChunksDoNotMatter(decode, s, a, b);
  }

  /** What of a body can be seen: no control bytes, and nothing right after an escape. */
  function Visible(w: seq<byte>): seq<byte>
  {
    if w == [] then []
    else
      var n := |w| - 1;
      Visible(w[..n])
      + if w[n] < 0x20 || w[n] == 0x7f || (n > 0 && w[n - 1] == 0x1b) then [] else [w[n]]
  }

  /** A title's bytes are the first 128 that can be seen. */
  lemma {:induction false} KeptIsVisible(w: seq<byte>)
    ensures Kept(w) == if |Visible(w)| <= 128 then Visible(w) else Visible(w)[..128]
  {
    if w != [] {
      KeptIsVisible(w[..|w| - 1]);
    }
  }

  /** Control characters leave the text, all others stay in their places. */
  lemma {:induction false} ControlsDropped(a: string, c: char, b: string)
    ensures NoControls(a + [c] + b)
            == NoControls(a)
               + (if c < 0x20 as char || 0x7f as char <= c <= 0x9f as char then "" else [c])
               + NoControls(b)
    decreases |b|
  {
    var kept := if IsControl(c) then "" else [c];
    if b == "" {
      assert a + [c] + b == a + [c] && (a + [c])[..|a|] == a;
      assert NoControls(a) + kept + "" == NoControls(a) + kept;
    } else {
      var n := |b| - 1;
      ButLast(a + [c], b);
      ControlsDropped(a, c, b[..n]);
      Assoc(NoControls(a) + kept, NoControls(b[..n]), if IsControl(b[n]) then "" else [b[n]]);
    }
  }

  lemma {:induction false} PrintableKept(w: seq<byte>)
    requires Printable(w)
    ensures Kept(w) == w[..if |w| < MAX_TITLE_BYTES then |w| else MAX_TITLE_BYTES]
  {
    if w != [] {
      PrintableKept(w[..|w| - 1]);
    }
  }

  lemma {:induction false} PlainText(text: string)
    requires forall i | 0 <= i < |text| :: 0x20 as char <= text[i] < 0x7f as char
    ensures NoControls(text) == text && WidthOf(text) == |text|
  {
    if text != "" {
      PlainText(text[..|text| - 1]);
    }
  }

  lemma PlainIsKept(decode: seq<byte> -> string, bytes: seq<byte>)
    requires KeepsAscii(decode) && Printable(bytes) && |bytes| <= MAX_TITLE_BYTES
    ensures Sanitized(decode, bytes) == AsciiText(bytes)
  {
    assert decode(bytes) == AsciiText(bytes);
    PlainText(AsciiText(bytes));
    CutIsUnique(AsciiText(bytes), AsciiText(bytes));
  }

  function First128(w: seq<byte>): seq<byte>
  {
    w[..if |w| < 128 then |w| else 128]
  }

  lemma PrintableTitle(decode: seq<byte> -> string, w: seq<byte>)
    requires KeepsAscii(decode) && Printable(w)
    ensures TitleOf(decode, Kept(w)) == if w == [] then [] else [AsciiText(First128(w))]
  {
    PrintableKept(w);
    assert Printable(First128(w));
    PlainIsKept(decode, First128(w));
  }

  /** For plain text the title is the text's first 128 characters. */
  lemma PrintableTitleHeard(decode: seq<byte> -> string, p: seq<byte>, x: seq<byte>, w: seq<byte>, t: Terminator)
    requires KeepsAscii(decode) && Introducer(x) && Printable(w)
    ensures Titles(decode, Ground, p + (x + (w + Ending(t))))
            == Titles(decode, Ground, p) + if 1 <= |w| <= Longest(t) then [AsciiText(First128(w))] else []
  {
    TitleSequenceHeard(decode, p, x, w, t);
    PrintableTitle(decode, w);
  }
}
