/** Types shared by every module of the model. */
module Basics {
  datatype Option<+T> = None | Some(value: T)

  datatype Result<+T, +E> = Ok(value: T) | Err(error: E)

  type byte = x: int | 0 <= x < 256

  /** The concatenation of a list of chunks. */
  function Concat<T>(chunks: seq<seq<T>>): seq<T>
  {
    if chunks == [] then [] else chunks[0] + Concat(chunks[1..])
  }

  lemma {:induction false} ConcatAppend<T>(left: seq<seq<T>>, right: seq<seq<T>>)
    ensures Concat(left + right) == Concat(left) + Concat(right)
  {
    if left == [] {
      assert left + right == right;
    } else {
      assert (left + right)[1..] == left[1..] + right;
      ConcatAppend(left[1..], right);
    }
  }

  /** Taking the last element off a concatenation. */
  lemma ButLast<T>(a: seq<T>, b: seq<T>)
    requires b != []
    ensures (a + b)[..|a + b| - 1] == a + b[..|b| - 1] && (a + b)[|a + b| - 1] == b[|b| - 1]
  {
  }

  lemma Assoc<T>(a: seq<T>, b: seq<T>, c: seq<T>)
    ensures a + (b + c) == (a + b) + c
  {
  }

  lemma Regroup<T>(a: seq<T>, b: seq<T>, c: seq<T>, d: seq<T>)
    ensures (a + b) + (c + d) == a + ((b + c) + d)
  {
  }

  lemma MoveForward<T>(a: seq<T>, moved: seq<T>, passed: seq<T>, b: seq<T>)
    requires moved == [] || passed == []
    ensures (a + moved) + (passed + b) == a + (passed + (moved + b))
  {
  }

  /** Equal sequences split at the same distance from the end. */
  lemma SplitEqual<T>(a: seq<T>, b: seq<T>, c: seq<T>, d: seq<T>)
    requires a + b == c + d && |b| == |d|
    ensures a == c && b == d
  {
    assert a == (a + b)[..|a|] && c == (c + d)[..|c|];
    assert b == (a + b)[|a|..] && d == (c + d)[|c|..];
  }

  // ----- characters -----

  predicate IsControl(c: char)
  {
    c < 0x20 as char || (0x7f as char <= c <= 0x9f as char)
  }

  /** How many bytes a character takes in UTF-8. */
  function Width(c: char): nat
  {
    if c < 0x80 as char then 1 else if c < 0x800 as char then 2 else if c < 0x10000 as char then 3 else 4
  }

  function WidthOf(text: string): nat
  {
    if text == "" then 0 else WidthOf(text[..|text| - 1]) + Width(text[|text| - 1])
  }

  predicate HexDigit(c: char)
  {
    '0' <= c <= '9' || 'a' <= c <= 'f' || 'A' <= c <= 'F'
  }

  /** The hyphenated form of a UUID. */
  predicate IsHyphenatedUuid(id: string)
  {
    |id| == 36 && forall i | 0 <= i < 36 ::
      if i == 8 || i == 13 || i == 18 || i == 23 then id[i] == '-' else HexDigit(id[i])
  }
}
