/** Go's strings.Trim and strings.TrimSpace, and the length of a string in bytes. */
module Text {

  /** unicode.IsSpace: the spaces of Latin-1, and the others with the White_Space property. */
  predicate IsSpace(c: char) {
    if c <= '\U{FF}' then c == ' ' || '\t' <= c <= '\r' || c == '\U{85}' || c == '\U{A0}'
    else c == '\U{1680}' || '\U{2000}' <= c <= '\U{200A}' || c == '\U{2028}' || c == '\U{2029}'
         || c == '\U{202F}' || c == '\U{205F}' || c == '\U{3000}'
  }

  /** The length of a character in UTF-8 (RFC 3629, section 3). */
  function CharLength(c: char): nat {
    if c <= '\U{7F}' then 1 else if c <= '\U{7FF}' then 2 else if c <= '\U{FFFF}' then 3 else 4
  }

  function ByteLength(s: string): nat {
    if s == "" then 0 else ByteLength(s[..|s| - 1]) + CharLength(s[|s| - 1])
  }

  function TrimLeft(s: string, p: char -> bool): string {
    if s != [] && p(s[0]) then TrimLeft(s[1..], p) else s
  }

  function TrimRight(s: string, p: char -> bool): string {
    if s != [] && p(s[|s| - 1]) then TrimRight(s[..|s| - 1], p) else s
  }

  function Trim(s: string, p: char -> bool): string {
    TrimRight(TrimLeft(s, p), p)
  }

  function TrimSpace(s: string): string {
    Trim(s, IsSpace)
  }

  predicate Blank(s: string) {
    TrimSpace(s) == ""
  }

  ghost predicate All(s: string, p: char -> bool) {
    forall k :: 0 <= k < |s| ==> p(s[k])
  }

  /** Trim drops a prefix and a suffix of the cut set, and what is left neither starts nor ends in it. */
  lemma TrimSplits(s: string, p: char -> bool) returns (front: string, back: string)
    ensures s == front + Trim(s, p) + back && All(front, p) && All(back, p)
    ensures Trim(s, p) != "" ==> !p(Trim(s, p)[0]) && !p(Trim(s, p)[|Trim(s, p)| - 1])
  {
    front := LeftPart(s, p);
    back := RightPart(TrimLeft(s, p), p);
  }

  lemma {:induction false} LeftPart(s: string, p: char -> bool) returns (front: string)
    ensures s == front + TrimLeft(s, p) && All(front, p)
    ensures TrimLeft(s, p) != "" ==> !p(TrimLeft(s, p)[0])
  {
    if s != [] && p(s[0]) {
      var rest := LeftPart(s[1..], p);
      front := [s[0]] + rest;
    } else {
      front := "";
    }
  }

  lemma {:induction false} RightPart(s: string, p: char -> bool) returns (back: string)
    ensures s == TrimRight(s, p) + back && All(back, p)
    ensures TrimRight(s, p) != "" ==> TrimRight(s, p)[0] == s[0] && !p(TrimRight(s, p)[|TrimRight(s, p)| - 1])
  {
    if s != [] && p(s[|s| - 1]) {
      var rest := RightPart(s[..|s| - 1], p);
      back := rest + [s[|s| - 1]];
    } else {
      back := "";
    }
  }

  /** A string is blank exactly when it holds nothing but spaces. */
  lemma BlankIff(s: string)
    ensures Blank(s) <==> All(s, IsSpace)
  {
    var front, back := TrimSplits(s, IsSpace);
    if !Blank(s) {
      assert s[|front|] == TrimSpace(s)[0];
    }
  }

  /** Some of them. */
  lemma SomeSpaces()
    ensures Blank(" \t\n\r") && IsSpace('\U{B}') && IsSpace('\U{C}') && IsSpace('\U{85}') && IsSpace('\U{A0}')
    ensures IsSpace('\U{1680}') && IsSpace('\U{2000}') && IsSpace('\U{200A}') && IsSpace('\U{2028}')
    ensures IsSpace('\U{2029}') && IsSpace('\U{202F}') && IsSpace('\U{205F}') && IsSpace('\U{3000}')
    ensures !IsSpace('\U{0}') && !IsSpace('\U{1C}') && !IsSpace('\U{200B}') && !IsSpace('\U{FEFF}')
  {
    BlankIff(" \t\n\r");
  }

  lemma {:induction false} ByteLengthAppend(s: string, t: string)
    ensures ByteLength(s + t) == ByteLength(s) + ByteLength(t)
  {
    if t == "" {
      assert s + t == s;
    } else {
      assert (s + t)[..|s + t| - 1] == s + t[..|t| - 1];
      ByteLengthAppend(s, t[..|t| - 1]);
    }
  }

  /** A string has at least as many bytes as characters, and as many only in ASCII. */
  lemma {:induction false} BytesAndCharacters(s: string)
    ensures |s| <= ByteLength(s) <= 4 * |s|
    ensures ByteLength(s) == |s| <==> forall k :: 0 <= k < |s| ==> s[k] <= '\U{7F}'
  {
    if s != "" {
      BytesAndCharacters(s[..|s| - 1]);
      assert s == s[..|s| - 1] + [s[|s| - 1]];
    }
  }

  lemma OtherLengths()
    ensures ByteLength("\U{E9}") == 2 && ByteLength("\U{7FF}\U{800}") == 5 && ByteLength("\U{FFFF}\U{10000}") == 7
  {
    ByteLengthAppend("\U{7FF}", "\U{800}");
    ByteLengthAppend("\U{FFFF}", "\U{10000}");
  }
}
