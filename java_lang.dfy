/** The small part of the Java runtime the chat server leans on: null references,
    the exceptions its handlers tell apart, `String.split(" ")`, `String.join(" ", ...)`,
    `trim`, `toLowerCase` and commons-lang `StringUtils.isBlank`. */
module JavaLang {

  /** A Java reference that may be null: `None` is `null`. */
  datatype Option<+T> = None | Some(value: T)

  /** The exceptions whose handling the server code distinguishes. */
  datatype Exception =
    | NullPointer
    | IllegalState
    | NoSuchElement
    | JsonSyntax
    | UnsupportedOperation
    | IllegalArgument
    | ArrayIndexOutOfBounds

  /** A Java call either returns a value or throws. */
  datatype Outcome<+T> = Returned(value: T) | Threw(error: Exception)

  /** What a `void` method returns. */
  datatype Unit = Unit

  /** The argument of an `equals(Object o)` call: null, an object of the same class,
      or an object of some other class. */
  datatype Ref<+T> = NullRef | Instance(value: T) | OtherClass

  /** `Objects.equals` on two nullable strings. */
  predicate ObjectsEquals(a: Option<string>, b: Option<string>) {
    match a
    case None => b.None?
    case Some(x) => b.Some? && x == b.value
  }

  lemma ObjectsEqualsIsEquality(a: Option<string>, b: Option<string>)
    ensures ObjectsEquals(a, b) <==> a == b
  {
  }

  /** `Character.isWhitespace`: the space, line and paragraph separators other than
      the non-breaking ones, and the ASCII controls \t \n \u000B \f \r \u001C-\u001F. */
  predicate IsWhitespace(c: char) {
    || c == ' ' || c == '\t' || c == '\n' || c == '\U{000B}' || c == '\U{000C}' || c == '\r'
    || ('\U{001C}' <= c <= '\U{001F}')
    || c == '\U{1680}'
    || ('\U{2000}' <= c <= '\U{2006}')
    || ('\U{2008}' <= c <= '\U{200A}')
    || c == '\U{2028}' || c == '\U{2029}' || c == '\U{205F}' || c == '\U{3000}'
  }

  /** `StringUtils.isBlank` on a non-null string: empty or whitespace only. */
  predicate IsBlank(s: string) {
    forall i :: 0 <= i < |s| ==> IsWhitespace(s[i])
  }

  /** `StringUtils.isBlank` on a nullable string: null counts as blank. */
  predicate IsBlankRef(s: Option<string>) {
    s.None? || IsBlank(s.value)
  }

  /** The pieces of `s` between its spaces, in order, empty ones included:
      one more piece than `s` has spaces. */
  function Pieces(s: string): (r: seq<string>)
    ensures |r| >= 1
  {
    if s == [] then [""]
    else
      var rest := Pieces(s[1..]);
      if s[0] == ' ' then [""] + rest else [[s[0]] + rest[0]] + rest[1..]
  }

  /** The trailing empty strings removed, as `split` does with a zero limit. */
  function DropTrailingEmpty(p: seq<string>): (r: seq<string>)
    ensures r <= p
    ensures |r| > 0 ==> r[|r| - 1] != ""
    ensures forall i :: |r| <= i < |p| ==> p[i] == ""
  {
    if |p| > 0 && p[|p| - 1] == "" then DropTrailingEmpty(p[..|p| - 1]) else p
  }

  /** `s.split(" ")`: a string without a space is returned whole (even the empty
      string); otherwise the pieces between the spaces with the trailing empty ones
      dropped. */
  function Split(s: string): seq<string> {
    if ' ' !in s then [s] else DropTrailingEmpty(Pieces(s))
  }

  /** `String.join(" ", parts)`. */
  function Join(parts: seq<string>): string {
    if |parts| == 0 then ""
    else if |parts| == 1 then parts[0]
    else parts[0] + " " + Join(parts[1..])
  }

  /** Splitting at the spaces and joining with single spaces gives the string back. */
  lemma {:induction false} JoinPieces(s: string)
    ensures Join(Pieces(s)) == s
  {
    if s != [] {
      var rest := Pieces(s[1..]);
      JoinPieces(s[1..]);
      if s[0] == ' ' {
        assert Join([""] + rest) == "" + " " + Join(rest);
      } else if |rest| == 1 {
        assert Pieces(s) == [[s[0]] + rest[0]];
      } else {
        var p := [[s[0]] + rest[0]] + rest[1..];
        assert p[1..] == rest[1..];
        assert Join(rest) == rest[0] + " " + Join(rest[1..]);
      }
    }
  }

  /** No piece contains a space. */
  lemma {:induction false} PiecesHaveNoSpace(s: string)
    ensures forall i :: 0 <= i < |Pieces(s)| ==> ' ' !in Pieces(s)[i]
  {
    if s != [] {
      PiecesHaveNoSpace(s[1..]);
      var rest := Pieces(s[1..]);
      if s[0] != ' ' {
        assert ' ' !in [s[0]] + rest[0];
      }
    }
  }

  /** Pieces of a concatenation around one space are the pieces of both sides. */
  lemma {:induction false} PiecesAroundSpace(a: string, b: string)
    ensures Pieces(a + " " + b) == Pieces(a) + Pieces(b)
  {
    if a == [] {
      assert a + " " + b == [' '] + b;
      assert ([' '] + b)[1..] == b;
    } else {
      assert (a + " " + b)[0] == a[0];
      assert (a + " " + b)[1..] == a[1..] + " " + b;
      PiecesAroundSpace(a[1..], b);
    }
  }

  /** The pieces of a string without a space are the string alone. */
  lemma {:induction false} PiecesOfWord(w: string)
    requires ' ' !in w
    ensures Pieces(w) == [w]
  {
    if w != [] {
      assert ' ' !in w[1..];
      PiecesOfWord(w[1..]);
      assert [w[0]] + w[1..] == w;
    }
  }

  /** Joining words that contain no space and splitting at the spaces gives the
      words back. */
  lemma {:induction false} PiecesOfJoin(parts: seq<string>)
    requires |parts| >= 1
    requires forall i :: 0 <= i < |parts| ==> ' ' !in parts[i]
    ensures Pieces(Join(parts)) == parts
  {
    if |parts| == 1 {
      PiecesOfWord(parts[0]);
    } else {
      PiecesOfJoin(parts[1..]);
      PiecesAroundSpace(parts[0], Join(parts[1..]));
      PiecesOfWord(parts[0]);
    }
  }

  /** Every token of `split` is free of spaces, and unless the string has no space
      at all, `split` is a prefix of the pieces whose dropped tail is all empty. */
  lemma SplitTokens(s: string)
    ensures forall i :: 0 <= i < |Split(s)| ==> ' ' !in Split(s)[i]
    ensures ' ' in s ==> Split(s) <= Pieces(s)
    ensures ' ' in s ==> forall i :: |Split(s)| <= i < |Pieces(s)| ==> Pieces(s)[i] == ""
  {
    PiecesHaveNoSpace(s);
  }

  /** `split` of a string that starts with a word followed by a space: the word,
      then the pieces of the rest with trailing empties dropped. */
  lemma {:induction false} SplitAfterWord(w: string, rest: string)
    requires ' ' !in w
    ensures Split(w + " " + rest) == DropTrailingEmpty([w] + Pieces(rest))
  {
    assert (w + " " + rest)[|w|] == ' ';
    PiecesAroundSpace(w, rest);
    PiecesOfWord(w);
  }

  /** Dropping trailing empties from a list whose last element is not empty
      changes nothing. */
  lemma DropNothing(p: seq<string>)
    requires |p| > 0 && p[|p| - 1] != ""
    ensures DropTrailingEmpty(p) == p
  {
  }

  /** Dropping trailing empties distributes over a prefix whose last element is not
      empty. */
  lemma {:induction false} DropTrailingEmptyAppend(p: seq<string>, q: seq<string>)
    requires |p| > 0 && p[|p| - 1] != ""
    ensures DropTrailingEmpty(p + q) == p + DropTrailingEmpty(q)
    decreases |q|
  {
    if |q| > 0 && q[|q| - 1] == "" {
      assert (p + q)[..|p + q| - 1] == p + q[..|q| - 1];
      DropTrailingEmptyAppend(p, q[..|q| - 1]);
    } else if |q| == 0 {
      assert p + q == p;
    }
  }

  /** Splitting words without spaces joined by single spaces gives the words back,
      unless the last of several words is empty (`split` drops it). */
  lemma {:induction false} SplitOfJoin(parts: seq<string>)
    requires |parts| >= 1
    requires forall i :: 0 <= i < |parts| ==> ' ' !in parts[i]
    requires |parts| == 1 || parts[|parts| - 1] != ""
    ensures Split(Join(parts)) == parts
  {
    if |parts| == 1 {
      assert Join(parts) == parts[0];
    } else {
      assert Join(parts) == parts[0] + " " + Join(parts[1..]);
      assert Join(parts)[|parts[0]|] == ' ';
      PiecesOfJoin(parts);
      DropNothing(parts);
    }
  }

  /** A non-empty string of spaces has one empty piece more than it has spaces. */
  lemma {:induction false} PiecesOfSpaces(s: string)
    requires forall i :: 0 <= i < |s| ==> s[i] == ' '
    ensures |Pieces(s)| == |s| + 1
    ensures forall i :: 0 <= i < |Pieces(s)| ==> Pieces(s)[i] == ""
  {
    if s != [] {
      PiecesOfSpaces(s[1..]);
    }
  }

  /** `split` of a non-empty string of spaces is the empty array. */
  lemma {:induction false} SplitOfSpaces(s: string)
    requires |s| > 0 && forall i :: 0 <= i < |s| ==> s[i] == ' '
    ensures Split(s) == []
  {
    assert s[0] == ' ';
    PiecesOfSpaces(s);
  }

  /** `Character.toLowerCase` on the ASCII capital letters; every other character is
      kept. */
  function ToLowerChar(c: char): char {
    if 'A' <= c <= 'Z' then (c as int - 'A' as int + 'a' as int) as char else c
  }

  /** `String.toLowerCase` over ASCII letters. */
  function ToLowerCase(s: string): (r: string)
    ensures |r| == |s|
    ensures forall i :: 0 <= i < |s| ==> r[i] == ToLowerChar(s[i])
  {
    seq(|s|, i requires 0 <= i < |s| => ToLowerChar(s[i]))
  }

  /** `String.replace(char, char)`. */
  function ReplaceChar(s: string, from: char, to: char): (r: string)
    ensures |r| == |s|
    ensures forall i :: 0 <= i < |s| ==> r[i] == (if s[i] == from then to else s[i])
  {
    seq(|s|, i requires 0 <= i < |s| => if s[i] == from then to else s[i])
  }

  /** `String.trim`: leading and trailing characters up to U+0020 removed. */
  function Trim(s: string): (r: string)
    ensures |r| <= |s|
    decreases |s|
  {
    if |s| > 0 && s[0] <= ' ' then Trim(s[1..])
    else if |s| > 0 && s[|s| - 1] <= ' ' then Trim(s[..|s| - 1])
    else s
  }

  /** A string with no character up to U+0020 at either end is its own trim. */
  lemma TrimmedIsFixed(s: string)
    requires |s| > 0 ==> s[0] > ' ' && s[|s| - 1] > ' '
    ensures Trim(s) == s
  {
  }

  /** `String.contains`. */
  predicate Contains(s: string, part: string) {
    part <= s || (|s| > 0 && Contains(s[1..], part))
  }
}
