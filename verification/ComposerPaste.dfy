/** Composer messages: which are accepted, and what is pasted for them
    (crates/protocol/src/composer.rs; crates/machine/src/hub_conn.rs,
    `prepare_composer` and the functions below it). */
module ComposerPaste {
  import opened Basics

  const MAX_TEXT: nat := 64 * 1024
  const MAX_ATTACHMENTS: nat := 4
  const MAX_ATTACHMENT_BYTES: nat := 20 * 1024 * 1024
  const MAX_NAME_CHARS: nat := 180

  const ESC: char := 0x1b as char
  const BEGIN: string := [0x1b as char] + "[200~"
  const END: string := [0x1b as char] + "[201~"

  datatype Attachment = Attachment(data: string, mime: string, filename: Option<string>)
  datatype Message = Message(id: string, text: string, attachments: seq<Attachment>)

  datatype Refusal =
    | InvalidId | TooLarge | Empty | ControlCharacters | MetadataTooLong | FilesTooLarge
    | InvalidFile | NotSaved

  // ----- validation -----

  predicate IsUuid(id: string)
  {
    || (|id| == 32 && forall i | 0 <= i < 32 :: HexDigit(id[i]))
    || IsHyphenatedUuid(id)
    || (|id| == 38 && id[0] == '{' && id[37] == '}' && IsHyphenatedUuid(id[1..37]))
    || (|id| == 45 && id[..9] == "urn:uuid:" && IsHyphenatedUuid(id[9..]))
  }

  predicate IsSpace(c: char)
  {
    || (0x09 as char <= c <= 0x0d as char) || c == ' ' || c == 0x85 as char || c == 0xa0 as char
    || c == 0x1680 as char || (0x2000 as char <= c <= 0x200a as char) || c == 0x2028 as char
    || c == 0x2029 as char || c == 0x202f as char || c == 0x205f as char || c == 0x3000 as char
  }

  predicate Blank(text: string)
  {
    forall i | 0 <= i < |text| :: IsSpace(text[i])
  }

  predicate Pasteable(c: char)
  {
    !IsControl(c) || c == '\n' || c == '\r' || c == '\t'
  }

  predicate MetadataFits(a: Attachment)
  {
    WidthOf(a.mime) <= 255 && (a.filename.Some? ==> WidthOf(a.filename.value) <= 1024)
  }

  function EncodedSize(attachments: seq<Attachment>): nat
  {
    if attachments == [] then 0
    else EncodedSize(attachments[..|attachments| - 1]) + WidthOf(attachments[|attachments| - 1].data)
  }

  predicate Valid(m: Message)
  {
    && IsUuid(m.id)
    && WidthOf(m.text) <= MAX_TEXT && |m.attachments| <= MAX_ATTACHMENTS
    && !(Blank(m.text) && m.attachments == [])
    && (forall i | 0 <= i < |m.text| :: Pasteable(m.text[i]))
    && (forall i | 0 <= i < |m.attachments| :: MetadataFits(m.attachments[i]))
    && EncodedSize(m.attachments) <= MAX_ATTACHMENT_BYTES * 4 / 3 + 16
  }

  predicate Fits(m: Message) { WidthOf(m.text) <= 64 * 1024 && |m.attachments| <= 4 }

  predicate Something(m: Message) { !Blank(m.text) || m.attachments != [] }

  predicate AllPasteable(text: string)
  {
    forall i | 0 <= i < |text| :: Pasteable(text[i])
  }

  predicate AllMetadataFits(m: Message)
  {
    forall i | 0 <= i < |m.attachments| :: MetadataFits(m.attachments[i])
  }

  /** The checks as the program makes them, one after the other: the first that fails
      is told. */
  method Validate(m: Message) returns (refusal: Option<Refusal>)
    ensures refusal.None? <==> Valid(m)
    ensures refusal == Some(InvalidId) <==> !IsUuid(m.id)
    ensures refusal == Some(TooLarge) <==> IsUuid(m.id) && !Fits(m)
    ensures refusal == Some(Empty) <==> IsUuid(m.id) && Fits(m) && !Something(m)
    ensures refusal == Some(ControlCharacters) <==> IsUuid(m.id) && Fits(m) && Something(m) && !AllPasteable(m.text)
    ensures refusal == Some(MetadataTooLong) <==>
              IsUuid(m.id) && Fits(m) && Something(m) && AllPasteable(m.text) && !AllMetadataFits(m)
    ensures refusal == Some(FilesTooLarge) <==>
              IsUuid(m.id) && Fits(m) && Something(m) && AllPasteable(m.text) && AllMetadataFits(m)
              && EncodedSize(m.attachments) > 20 * 1024 * 1024 * 4 / 3 + 16
  {
    if !IsUuid(m.id) { return Some(InvalidId); }
    if WidthOf(m.text) > MAX_TEXT || |m.attachments| > MAX_ATTACHMENTS { return Some(TooLarge); }
    if Blank(m.text) && m.attachments == [] { return Some(Empty); }
    if exists i | 0 <= i < |m.text| :: !Pasteable(m.text[i]) { return Some(ControlCharacters); }
    var size, i := 0, 0;
    while i < |m.attachments|
      invariant 0 <= i <= |m.attachments|
      invariant forall j | 0 <= j < i :: MetadataFits(m.attachments[j])
      invariant size == EncodedSize(m.attachments[..i])
    {
      if !MetadataFits(m.attachments[i]) { return Some(MetadataTooLong); }
      assert m.attachments[..i + 1][..i] == m.attachments[..i];
      size := size + WidthOf(m.attachments[i].data);
      i := i + 1;
    }
    assert m.attachments[..i] == m.attachments;
    if size > MAX_ATTACHMENT_BYTES * 4 / 3 + 16 { return Some(FilesTooLarge); }
    return None;
  }

  // ----- text -----

  /** CRLF and lone CR become LF. */
  function Normalized(text: string): string
  {
    if text == "" then ""
    else if text[0] != '\r' then [text[0]] + Normalized(text[1..])
    else if |text| > 1 && text[1] == '\n' then "\n" + Normalized(text[2..])
    else "\n" + Normalized(text[1..])
  }

  /** The program does it in two passes. */
  function ReplaceCrLf(text: string): string
  {
    if text == "" then ""
    else if |text| > 1 && text[0] == '\r' && text[1] == '\n' then "\n" + ReplaceCrLf(text[2..])
    else [text[0]] + ReplaceCrLf(text[1..])
  }

  function ReplaceCr(text: string): string
  {
    if text == "" then "" else [if text[0] == '\r' then '\n' else text[0]] + ReplaceCr(text[1..])
  }

  lemma {:induction false} TwoPassesNormalize(text: string)
    ensures ReplaceCr(ReplaceCrLf(text)) == Normalized(text)
    decreases |text|
  {
    if text != "" {
      if |text| > 1 && text[0] == '\r' && text[1] == '\n' {
        TwoPassesNormalize(text[2..]);
        assert ("\n" + ReplaceCrLf(text[2..]))[1..] == ReplaceCrLf(text[2..]);
      } else {
        TwoPassesNormalize(text[1..]);
        assert ([text[0]] + ReplaceCrLf(text[1..]))[1..] == ReplaceCrLf(text[1..]);
      }
    }
  }

  /** Nothing in it can end or leave the paste. */
  predicate Tame(text: string)
  {
    ESC !in text && '\r' !in text
  }

  lemma {:induction false} NormalizedTame(text: string)
    requires forall i | 0 <= i < |text| :: Pasteable(text[i])
    ensures Tame(Normalized(text))
    decreases |text|
  {
    if text != "" {
      assert Pasteable(text[0]);
      NormalizedTame(text[1..]);
      if |text| > 1 {
        NormalizedTame(text[2..]);
      }
    }
  }

  lemma {:induction false} NormalizedKeeps(text: string)
    requires '\r' !in text
    ensures Normalized(text) == text
  {
    if text != "" {
      NormalizedKeeps(text[1..]);
    }
  }

  predicate SplitsCrLf(a: string, b: string)
  {
    a != "" && b != "" && a[|a| - 1] == '\r' && b[0] == '\n'
  }

  /** Normalising goes piece by piece, unless a CRLF is cut in two. */
  lemma {:induction false} NormalizedJoins(a: string, b: string)
    requires !SplitsCrLf(a, b)
    ensures Normalized(a + b) == Normalized(a) + Normalized(b)
    decreases |a|
  {
    if a == "" {
      assert a + b == b;
    } else {
      assert (a + b)[1..] == a[1..] + b && (a + b)[0] == a[0];
      if a[0] == '\r' && |a| > 1 && a[1] == '\n' {
        assert (a + b)[2..] == a[2..] + b && (a + b)[1] == a[1];
        NormalizedJoins(a[2..], b);
        Assoc("\n", Normalized(a[2..]), Normalized(b));
      } else {
        NormalizedJoins(a[1..], b);
        Assoc(if a[0] == '\r' then "\n" else [a[0]], Normalized(a[1..]), Normalized(b));
      }
    }
  }

  /** Main result: each line end, CRLF, CR or LF, becomes one LF, wherever it stands. */
  lemma LineEndsBecomeLf(a: string, end: string, b: string)
    requires end == "\r\n" || end == "\n" || (end == "\r" && (b == "" || b[0] != '\n'))
    requires end == "\n" ==> a == "" || a[|a| - 1] != '\r'
    ensures ReplaceCr(ReplaceCrLf(a + end + b)) == Normalized(a) + "\n" + Normalized(b)
  {
    TwoPassesNormalize(a + end + b);
    Piece(a, end, b);
    OneEnd(end);
  }

  lemma OneEnd(end: string)
    requires end == "\r\n" || end == "\n" || end == "\r"
    ensures Normalized(end) == "\n"
  {
    assert "\r\n"[2..] == "" && "\n"[1..] == "" && "\r"[1..] == "";
  }

  /** And every other character stays where it is. */
  lemma OthersStay(a: string, c: char, b: string)
    requires c != '\r' && c != '\n'
    ensures ReplaceCr(ReplaceCrLf(a + [c] + b)) == Normalized(a) + [c] + Normalized(b)
  {
    TwoPassesNormalize(a + [c] + b);
    Piece(a, [c], b);
    assert [c][1..] == "";
  }

  lemma Piece(a: string, x: string, b: string)
    requires x != "" && !SplitsCrLf(a, x) && !SplitsCrLf(x, b)
    ensures Normalized(a + x + b) == Normalized(a) + Normalized(x) + Normalized(b)
  {
    assert !SplitsCrLf(a + x, b);
    NormalizedJoins(a + x, b);
    NormalizedJoins(a, x);
  }

  // ----- paths in the shell -----

  predicate AsciiAlphanumeric(c: char)
  {
    '0' <= c <= '9' || 'a' <= c <= 'z' || 'A' <= c <= 'Z'
  }

  /** What is known of the standard library's notion of a letter or digit. */
  ghost predicate Alphabet(alphanumeric: char -> bool)
  {
    forall c: char | c < 0x80 as char :: alphanumeric(c) <==> AsciiAlphanumeric(c)
  }

  predicate Plain(alphanumeric: char -> bool, c: char)
  {
    alphanumeric(c) || c == '/' || c == '_' || c == '-' || c == '.'
  }

  function EscapedQuotes(text: string): string
  {
    if text == "" then ""
    else (if text[0] == '\'' then ['\'', '\\', '\'', '\''] else [text[0]]) + EscapedQuotes(text[1..])
  }

  function PathText(alphanumeric: char -> bool, path: string): string
  {
    if forall i | 0 <= i < |path| :: Plain(alphanumeric, path[i]) then path
    else "'" + EscapedQuotes(path) + "'"
  }

  /** Characters that mean something to the shell outside quotes
      (POSIX.1-2017, Shell Command Language, section 2.2). */
  predicate Special(c: char)
  {
    c in ['|', '&', ';', '<', '>', '(', ')', '$', '`', '\\', '"', '\'', ' ', '\t', '\n',
          '*', '?', '[', '#', '~', '=', '%']
  }

  /** The one word a shell reads, if the text is one word in the shell's quoting
      (POSIX.1-2017, sections 2.2.1 and 2.2.2). */
  function Word(text: string, quoted: bool): Option<string>
    decreases |text|
  {
    if text == "" then (if quoted then None else Some(""))
    else if quoted && text[0] != '\'' then Before(text[0], Word(text[1..], true))
    else if text[0] == '\'' then Word(text[1..], !quoted)
    else if text[0] == '\\' then
      if |text| < 2 || text[1] == '\n' then None else Before(text[1], Word(text[2..], false))
    else if Special(text[0]) then None
    else Before(text[0], Word(text[1..], false))
  }

  function Before(c: char, word: Option<string>): Option<string>
  {
    if word.None? then None else Some([c] + word.value)
  }

  lemma {:induction false} PlainWord(alphanumeric: char -> bool, path: string)
    requires Alphabet(alphanumeric) && forall i | 0 <= i < |path| :: Plain(alphanumeric, path[i])
    ensures Word(path, false) == Some(path)
  {
    if path != "" {
      assert Plain(alphanumeric, path[0]);
      assert !Special(path[0]) && path == [path[0]] + path[1..];
      PlainWord(alphanumeric, path[1..]);
    }
  }

  lemma {:induction false} QuotedWord(path: string)
    ensures Word(EscapedQuotes(path) + "'", true) == Some(path)
  {
    if path == "" {
      assert Word("'"[1..], false) == Some("");
    } else {
      QuotedWord(path[1..]);
      var rest := EscapedQuotes(path[1..]) + "'";
      assert path == [path[0]] + path[1..];
      if path[0] == '\'' {
        QuoteWord(rest);
        assert EscapedQuotes(path) + "'" == ['\'', '\\', '\'', '\''] + rest;
      } else {
        assert EscapedQuotes(path) + "'" == [path[0]] + rest;
      }
    }
  }

  /** Closing the quotes, an escaped quote, and opening them again. */
  lemma QuoteWord(rest: string)
    ensures Word(['\'', '\\', '\'', '\''] + rest, true) == Before('\'', Word(rest, true))
  {
    var text := ['\'', '\\', '\'', '\''] + rest;
    assert text[1..] == ['\\', '\'', '\''] + rest;
    assert text[1..][2..] == ['\''] + rest;
    assert text[1..][2..][1..] == rest;
    assert Word(text, true) == Word(text[1..], false);
    assert Word(text[1..][2..], false) == Word(rest, true);
  }

  /** Main result: the shell reads a path's text as that path, in one word. */
  lemma PathTextIsOneWord(alphanumeric: char -> bool, path: string)
    requires Alphabet(alphanumeric)
    ensures Word(PathText(alphanumeric, path), false) == Some(path)
  {
    if forall i | 0 <= i < |path| :: Plain(alphanumeric, path[i]) {
      PlainWord(alphanumeric, path);
    } else {
      QuotedWord(path);
      assert ("'" + EscapedQuotes(path) + "'")[1..] == EscapedQuotes(path) + "'";
    }
  }

  lemma {:induction false} EscapedTame(text: string)
    requires Tame(text)
    ensures Tame(EscapedQuotes(text))
  {
    if text != "" {
      assert forall c | c in text[1..] :: c in text;
      EscapedTame(text[1..]);
    }
  }

  // ----- file names -----

  predicate IsSeparator(c: char)
  {
    c == '/' || c == '\\'
  }

  function AfterSeparators(name: string): string
  {
    if name == "" then ""
    else if IsSeparator(name[|name| - 1]) then ""
    else AfterSeparators(name[..|name| - 1]) + [name[|name| - 1]]
  }

  function Printing(text: string): string
  {
    if text == "" then ""
    else (if IsControl(text[0]) then "" else [text[0]]) + Printing(text[1..])
  }

  function TrimDots(text: string): string
  {
    if text != "" && text[0] == '.' then TrimDots(text[1..]) else text
  }

  function TrimStart(text: string): string
  {
    if text != "" && IsSpace(text[0]) then TrimStart(text[1..]) else text
  }

  function TrimEnd(text: string): string
  {
    if text != "" && IsSpace(text[|text| - 1]) then TrimEnd(text[..|text| - 1]) else text
  }

  function Take(text: string, n: nat): string
  {
    if |text| <= n then text else text[..n]
  }

  function SafeName(name: string): string
  {
    var cleaned := TrimEnd(TrimStart(TrimDots(Take(Printing(AfterSeparators(name)), MAX_NAME_CHARS))));
    if cleaned == "" then "attachment.bin" else cleaned
  }

  /** Fit to be the last part of a path, and of a paste. */
  predicate Harmless(name: string)
  {
    forall i | 0 <= i < |name| :: !IsControl(name[i]) && !IsSeparator(name[i])
  }

  predicate NoSeparator(name: string)
  {
    forall i | 0 <= i < |name| :: !IsSeparator(name[i])
  }

  lemma {:induction false} AfterSeparatorsHasNone(name: string)
    ensures NoSeparator(AfterSeparators(name))
  {
    if name != "" {
      AfterSeparatorsHasNone(name[..|name| - 1]);
    }
  }

  lemma {:induction false} PrintingHarmless(text: string)
    requires NoSeparator(text)
    ensures Harmless(Printing(text))
  {
    if text != "" {
      PrintingHarmless(text[1..]);
    }
  }

  lemma {:induction false} TrimsHarmless(text: string)
    requires Harmless(text)
    ensures Harmless(TrimDots(text)) && Harmless(TrimStart(text)) && Harmless(TrimEnd(text))
    ensures |TrimDots(text)| <= |text| && |TrimStart(text)| <= |text| && |TrimEnd(text)| <= |text|
    decreases |text|
  {
    if text != "" {
      TrimsHarmless(text[1..]);
      TrimsHarmless(text[..|text| - 1]);
    }
  }

  lemma SafeNameIsHarmless(name: string)
    ensures SafeName(name) != "" && |SafeName(name)| <= MAX_NAME_CHARS && Harmless(SafeName(name))
  {
    AfterSeparatorsHasNone(name);
    PrintingHarmless(AfterSeparators(name));
    var text := Take(Printing(AfterSeparators(name)), MAX_NAME_CHARS);
    TrimsHarmless(text);
    TrimsHarmless(TrimDots(text));
    TrimsHarmless(TrimStart(TrimDots(text)));
  }

  lemma {:induction false} LastPart(dirs: string, name: string)
    requires NoSeparator(name)
    ensures AfterSeparators(dirs + "/" + name) == name && AfterSeparators(dirs + "\\" + name) == name
    ensures AfterSeparators(name) == name
  {
    if name == "" {
      assert (dirs + "/" + name) == dirs + "/" && (dirs + "\\" + name) == dirs + "\\";
    } else {
      var n := |name| - 1;
      LastPart(dirs, name[..n]);
      ButLast(dirs + "/", name);
      ButLast(dirs + "\\", name);
    }
  }

  lemma {:induction false} PrintingKeeps(text: string)
    requires Harmless(text)
    ensures Printing(text) == text
  {
    if text != "" {
      PrintingKeeps(text[1..]);
    }
  }

  /** Main result: of a name with directories before it only the last part counts, and
      one that is fit, not too long, and neither begins with a dot or a space nor ends
      with a space is kept as it is. */
  lemma FitNamesAreKept(dirs: string, name: string)
    requires Harmless(name) && 0 < |name| <= 180
    requires name[0] != '.' && !IsSpace(name[0]) && !IsSpace(name[|name| - 1])
    ensures SafeName(name) == name && SafeName(dirs + "/" + name) == name && SafeName(dirs + "\\" + name) == name
  {
    LastPart(dirs, name);
    PrintingKeeps(name);
  }

  function Extension(mime: string): string
  {
    if mime == "image/jpeg" then "jpg"
    else if mime == "image/webp" then "webp"
    else if mime == "image/gif" then "gif"
    else if mime == "image/png" then "png"
    else "bin"
  }

  function Digit(n: nat): char
    requires n < 10
  {
    ('0' as int + n) as char
  }

  function FileName(index: nat, a: Attachment): string
    requires index < 10
  {
    if a.filename.Some? then SafeName(a.filename.value)
    else "image-" + [Digit(index)] + "." + Extension(a.mime)
  }

  function PathOf(dir: string, index: nat, a: Attachment): string
    requires index < 10
  {
    dir + "/" + [Digit(index)] + "-" + FileName(index, a)
  }

  lemma FileNameIsHarmless(index: nat, a: Attachment)
    requires index < 10
    ensures FileName(index, a) != "" && Harmless(FileName(index, a))
  {
    if a.filename.Some? {
      SafeNameIsHarmless(a.filename.value);
    }
  }

  /** Files that come without a name. */
  lemma NamelessFiles(data: string, index: nat, mime: string)
    requires index < 10
    ensures FileName(index, Attachment(data, "image/jpeg", None)) == "image-" + [Digit(index)] + ".jpg"
    ensures FileName(index, Attachment(data, "image/webp", None)) == "image-" + [Digit(index)] + ".webp"
    ensures FileName(index, Attachment(data, "image/gif", None)) == "image-" + [Digit(index)] + ".gif"
    ensures FileName(index, Attachment(data, "image/png", None)) == "image-" + [Digit(index)] + ".png"
    ensures mime !in {"image/jpeg", "image/webp", "image/gif", "image/png"} ==>
              FileName(index, Attachment(data, mime, None)) == "image-" + [Digit(index)] + ".bin"
  {
  }

  /** Every file lies directly in the message's own directory, under a name no
      other attachment of the message gets. */
  lemma FilesDoNotCollide(dir: string, i: nat, a: Attachment, j: nat, b: Attachment)
    requires i < 10 && j < 10
    ensures NoSeparator(PathOf(dir, i, a)[|dir| + 1..])
    ensures PathOf(dir, i, a) == PathOf(dir, j, b) ==> i == j
  {
    FileNameIsHarmless(i, a);
    assert PathOf(dir, i, a)[|dir| + 1] == Digit(i) && PathOf(dir, j, b)[|dir| + 1] == Digit(j);
  }

  // ----- the paste -----

  /** What a paste says: the text, then one line for each file. */
  function Lines(alphanumeric: char -> bool, dir: string, m: Message, n: nat): seq<string>
    requires n <= |m.attachments| <= MAX_ATTACHMENTS
  {
    if n == 0 then (if m.text == "" then [] else [Normalized(m.text)])
    else Lines(alphanumeric, dir, m, n - 1) + [PathText(alphanumeric, PathOf(dir, n - 1, m.attachments[n - 1]))]
  }

  function Joined(lines: seq<string>): string
  {
    if lines == [] then ""
    else if |lines| == 1 then lines[0]
    else Joined(lines[..|lines| - 1]) + "\n" + lines[|lines| - 1]
  }

  /** One file's part of the paste. */
  function FilePart(alphanumeric: char -> bool, dir: string, m: Message, k: nat): string
    requires k < |m.attachments| <= MAX_ATTACHMENTS
  {
    (if k == 0 && m.text == "" then "" else "\n") + PathText(alphanumeric, PathOf(dir, k, m.attachments[k]))
  }

  function FileParts(alphanumeric: char -> bool, dir: string, m: Message, n: nat): seq<string>
    requires n <= |m.attachments| <= MAX_ATTACHMENTS
  {
    seq(n, k requires 0 <= k < n => FilePart(alphanumeric, dir, m, k))
  }

  /** Main result: the body of a paste is the normalised text and then, in their order,
      the path of every file on a line of its own; without a text the first path comes
      first. */
  lemma {:induction false} BodyIsTextAndPaths(alphanumeric: char -> bool, dir: string, m: Message, n: nat)
    requires n <= |m.attachments| <= MAX_ATTACHMENTS
    ensures Joined(Lines(alphanumeric, dir, m, n)) == Normalized(m.text) + Concat(FileParts(alphanumeric, dir, m, n))
    ensures Lines(alphanumeric, dir, m, n) == [] <==> m.text == "" && n == 0
  {
    if n == 0 {
      assert Normalized(m.text) + [] == Normalized(m.text);
    } else {
      var lines, parts := Lines(alphanumeric, dir, m, n - 1), FileParts(alphanumeric, dir, m, n - 1);
      var path := PathText(alphanumeric, PathOf(dir, n - 1, m.attachments[n - 1]));
      BodyIsTextAndPaths(alphanumeric, dir, m, n - 1);
      JoinedPush(lines, path);
      NextPart(alphanumeric, dir, m, n - 1);
      Assoc(Normalized(m.text), Concat(parts), FilePart(alphanumeric, dir, m, n - 1));
      PartAdded(lines, path, FilePart(alphanumeric, dir, m, n - 1), Normalized(m.text) + Concat(parts));
    }
  }

  lemma NextPart(alphanumeric: char -> bool, dir: string, m: Message, n: nat)
    requires n < |m.attachments| <= MAX_ATTACHMENTS
    ensures Concat(FileParts(alphanumeric, dir, m, n + 1))
            == Concat(FileParts(alphanumeric, dir, m, n)) + FilePart(alphanumeric, dir, m, n)
  {
    var parts, part := FileParts(alphanumeric, dir, m, n), FilePart(alphanumeric, dir, m, n);
    assert FileParts(alphanumeric, dir, m, n + 1) == parts + [part];
    LastConcat(parts, part);
  }

  lemma LastConcat(parts: seq<string>, part: string)
    ensures Concat(parts + [part]) == Concat(parts) + part
  {
    ConcatAppend(parts, [part]);
    assert Concat([part]) == part + [] == part;
  }

  lemma PartAdded(lines: seq<string>, path: string, part: string, body: string)
    requires Joined(lines) == body && part == (if lines == [] then "" else "\n") + path
    ensures (if lines == [] then path else Joined(lines) + "\n" + path) == body + part
  {
  }

  /** What a terminal application reads: the paste between the first markers,
      and what follows it. */
  function ReadPaste(input: string): Option<(string, string)>
  {
    if |input| < |BEGIN| || input[..|BEGIN|] != BEGIN then None else UpToEnd(input[|BEGIN|..])
  }

  function UpToEnd(input: string): Option<(string, string)>
  {
    if |input| < |END| then None
    else if input[..|END|] == END then Some(("", input[|END|..]))
    else
      var more := UpToEnd(input[1..]);
      if more.None? then None else Some(([input[0]] + more.value.0, more.value.1))
  }

  lemma {:induction false} TameBodyIsRead(body: string, rest: string)
    requires ESC !in body
    ensures UpToEnd(body + END + rest) == Some((body, rest))
  {
    var input := body + END + rest;
    if body == "" {
      assert input[..|END|] == END && input[|END|..] == rest;
    } else {
      assert input[0] == body[0] && input[0] in body && body == [body[0]] + body[1..];
      assert input[..|END|][0] == input[0] != END[0];
      assert input[1..] == body[1..] + END + rest;
      assert forall c | c in body[1..] :: c in body;
      TameBodyIsRead(body[1..], rest);
    }
  }

  /** Whatever is written after it, a tame paste is read back whole. */
  lemma PasteReadsBack(body: string, rest: string)
    requires Tame(body)
    ensures ReadPaste(BEGIN + body + END + rest) == Some((body, rest))
  {
    var input := BEGIN + body + END + rest;
    assert input[..|BEGIN|] == BEGIN;
    assert input[|BEGIN|..] == body + END + rest;
    TameBodyIsRead(body, rest);
  }

  /** All attachments decode, and to no more than the limit. */
  predicate Decodes(decode: string -> Option<nat>, attachments: seq<Attachment>)
  {
    && (forall i | 0 <= i < |attachments| :: decode(attachments[i].data).Some?)
    && Total(decode, attachments) <= MAX_ATTACHMENT_BYTES
  }

  function Total(decode: string -> Option<nat>, attachments: seq<Attachment>): nat
  {
    if attachments == [] then 0
    else
      var last := decode(attachments[|attachments| - 1].data);
      Total(decode, attachments[..|attachments| - 1]) + if last.Some? then last.value else 0
  }

  lemma JoinedPush(lines: seq<string>, line: string)
    ensures Joined(lines + [line]) == if lines == [] then line else Joined(lines) + "\n" + line
  {
    assert (lines + [line])[..|lines|] == lines;
  }

  lemma {:induction false} LinesAreWritten(alphanumeric: char -> bool, dir: string, m: Message, n: nat)
    requires n <= |m.attachments| <= MAX_ATTACHMENTS
    ensures Joined(Lines(alphanumeric, dir, m, n)) == "" <==> Lines(alphanumeric, dir, m, n) == []
  {
    if n > 0 {
      LinesAreWritten(alphanumeric, dir, m, n - 1);
      var path := PathOf(dir, n - 1, m.attachments[n - 1]);
      assert |path| > 0;
      JoinedPush(Lines(alphanumeric, dir, m, n - 1), PathText(alphanumeric, path));
    }
  }

  /** The whole preparation; `decode` gives the size of a base64 text that is
      well formed, and `saved` whether the files could be written. */
  method PrepareComposer(m: Message, alphanumeric: char -> bool, decode: string -> Option<nat>, dir: string, saved: bool)
    returns (r: Result<string, Refusal>)
    ensures r.Ok? <==> Valid(m) && Decodes(decode, m.attachments) && (m.attachments == [] || saved)
    ensures r.Ok? ==> r.value == BEGIN + Joined(Lines(alphanumeric, dir, m, |m.attachments|)) + END
  {
    var refusal := Validate(m);
    if refusal.Some? { return Err(refusal.value); }
    var decoded := DecodeAll(m, decode);
    if decoded.Some? { return Err(decoded.value); }
    var text := ReplaceCr(ReplaceCrLf(m.text));
    TwoPassesNormalize(m.text);
    if m.attachments != [] && !saved { return Err(NotSaved); }
    var i := 0;
    while i < |m.attachments|
      invariant 0 <= i <= |m.attachments|
      invariant text == Joined(Lines(alphanumeric, dir, m, i))
    {
      var path := PathText(alphanumeric, PathOf(dir, i, m.attachments[i]));
      LinesAreWritten(alphanumeric, dir, m, i);
      JoinedPush(Lines(alphanumeric, dir, m, i), path);
      if text != "" { text := text + "\n"; }
      text := text + path;
      i := i + 1;
    }
    return Ok(BEGIN + text + END);
  }

  /** Decodes the attachments, giving up at the first that is broken or too much. */
  method DecodeAll(m: Message, decode: string -> Option<nat>) returns (refusal: Option<Refusal>)
    ensures refusal.None? <==> Decodes(decode, m.attachments)
  {
    var total, i := 0, 0;
    while i < |m.attachments|
      invariant 0 <= i <= |m.attachments|
      invariant forall j | 0 <= j < i :: decode(m.attachments[j].data).Some?
      invariant total == Total(decode, m.attachments[..i]) <= MAX_ATTACHMENT_BYTES
    {
      var size := decode(m.attachments[i].data);
      if size.None? { return Some(InvalidFile); }
      assert m.attachments[..i + 1][..i] == m.attachments[..i];
      total := total + size.value;
      if total > MAX_ATTACHMENT_BYTES {
        TotalGrows(decode, m.attachments, i + 1);
        return Some(FilesTooLarge);
      }
      i := i + 1;
    }
    assert m.attachments[..i] == m.attachments;
    return None;
  }

  lemma {:induction false} TotalGrows(decode: string -> Option<nat>, attachments: seq<Attachment>, n: nat)
    requires n <= |attachments|
    ensures Total(decode, attachments[..n]) <= Total(decode, attachments)
  {
    if n == |attachments| {
      assert attachments[..n] == attachments;
    } else {
      TotalGrows(decode, attachments[..|attachments| - 1], n);
      assert attachments[..|attachments| - 1][..n] == attachments[..n];
    }
  }

  lemma PathTame(alphanumeric: char -> bool, dir: string, index: nat, a: Attachment)
    requires index < 10 && Tame(dir)
    ensures Tame(PathText(alphanumeric, PathOf(dir, index, a)))
  {
    FileNameIsHarmless(index, a);
    var name := FileName(index, a);
    assert Tame(name) by {
      assert forall c | c in name :: !IsControl(c);
    }
    EscapedTame(PathOf(dir, index, a));
  }

  lemma {:induction false} LinesTame(alphanumeric: char -> bool, dir: string, m: Message, n: nat)
    requires n <= |m.attachments| <= MAX_ATTACHMENTS && Tame(dir)
    requires forall i | 0 <= i < |m.text| :: Pasteable(m.text[i])
    ensures Tame(Joined(Lines(alphanumeric, dir, m, n)))
  {
    if n == 0 {
      NormalizedTame(m.text);
    } else {
      LinesTame(alphanumeric, dir, m, n - 1);
      PathTame(alphanumeric, dir, n - 1, m.attachments[n - 1]);
      JoinedPush(Lines(alphanumeric, dir, m, n - 1), PathText(alphanumeric, PathOf(dir, n - 1, m.attachments[n - 1])));
    }
  }

  /** Main result: whatever the message holds and whatever is written next, a
      terminal application reads the prepared paste as exactly the text and one
      line for each file, and the submit key stays outside. */
  lemma PreparedPasteReadsBack(m: Message, alphanumeric: char -> bool, dir: string, rest: string)
    requires Valid(m) && Tame(dir)
    ensures var body := Joined(Lines(alphanumeric, dir, m, |m.attachments|));
      Tame(body) && ReadPaste(BEGIN + body + END + rest) == Some((body, rest))
  {
    LinesTame(alphanumeric, dir, m, |m.attachments|);
    PasteReadsBack(Joined(Lines(alphanumeric, dir, m, |m.attachments|)), rest);
  }
}
