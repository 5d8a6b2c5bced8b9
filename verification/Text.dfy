/** The little of Python's `str` that the services lean on. */
module Text {

  /** `str.isspace` for one character, which is also what `\s` matches in a `str` pattern. */
  predicate IsSpace(c: char) {
    || '\t' <= c <= '\r'
    || '\U{1c}' <= c <= ' '
    || c == '\U{85}' || c == '\U{a0}' || c == '\U{1680}'
    || '\U{2000}' <= c <= '\U{200a}'
    || c == '\U{2028}' || c == '\U{2029}' || c == '\U{202f}' || c == '\U{205f}' || c == '\U{3000}'
  }

  /** Nothing is left of it after stripping. */
  predicate Blank(s: string) {
    forall i :: 0 <= i < |s| ==> IsSpace(s[i])
  }

  function StripLeft(s: string): string {
    if s != "" && IsSpace(s[0]) then StripLeft(s[1..]) else s
  }

  function StripRight(s: string): string {
    if s != "" && IsSpace(s[|s| - 1]) then StripRight(s[..|s| - 1]) else s
  }

  /** Without the white space at both ends. */
  function Strip(s: string): string { StripRight(StripLeft(s)) }

  /** Every stretch of white space replaced by one space. */
  function Collapse(s: string): string {
    if s == "" then ""
    else if !IsSpace(s[0]) then [s[0]] + Collapse(s[1..])
    else if |s| > 1 && IsSpace(s[1]) then Collapse(s[1..])
    else " " + Collapse(s[1..])
  }

  /** The stretches between white space. */
  function Words(s: string): (ws: seq<string>)
    ensures s != "" && !IsSpace(s[0]) ==> ws != []
  {
    if s == "" then []
    else if IsSpace(s[0]) then Words(s[1..])
    else if |s| == 1 || IsSpace(s[1]) then [[s[0]]] + Words(s[1..])
    else [[s[0]] + Words(s[1..])[0]] + Words(s[1..])[1..]
  }

  /** One space between each two. */
  function Joined(ws: seq<string>): string {
    if ws == [] then "" else if |ws| == 1 then ws[0] else ws[0] + " " + Joined(ws[1..])
  }

  /** Which characters these are, by their code points. */
  lemma SpaceIs(c: char)
    ensures IsSpace(c) <==>
            || c as int in {9, 10, 11, 12, 13, 28, 29, 30, 31, 32, 0x85, 0xa0, 0x1680}
            || 0x2000 <= c as int <= 0x200a
            || c as int in {0x2028, 0x2029, 0x202f, 0x205f, 0x3000}
  {}

  /** What stripping takes away is white space, and what is left has none at its ends. */
  lemma {:induction false} StripLeftSplits(s: string) returns (left: string)
    ensures s == left + StripLeft(s) && forall i :: 0 <= i < |left| ==> IsSpace(left[i])
  {
    if s != "" && IsSpace(s[0]) {
      var rest := StripLeftSplits(s[1..]);
      left := [s[0]] + rest;
    } else {
      left := "";
    }
  }

  lemma {:induction false} StripRightSplits(s: string) returns (right: string)
    ensures s == StripRight(s) + right && forall i :: 0 <= i < |right| ==> IsSpace(right[i])
  {
    if s != "" && IsSpace(s[|s| - 1]) {
      var rest := StripRightSplits(s[..|s| - 1]);
      right := rest + [s[|s| - 1]];
    } else {
      right := "";
    }
  }

  lemma StripSplits(s: string) returns (left: string, right: string)
    ensures s == left + Strip(s) + right
    ensures forall i :: 0 <= i < |left| ==> IsSpace(left[i])
    ensures forall i :: 0 <= i < |right| ==> IsSpace(right[i])
    ensures Strip(s) != "" ==> !IsSpace(Strip(s)[0]) && !IsSpace(Strip(s)[|Strip(s)| - 1])
  {
    hide StripLeft, StripRight, IsSpace, Words;
    left := StripLeftSplits(s);
    right := StripRightSplits(StripLeft(s));
    assert s == left + (StripRight(StripLeft(s)) + right);
    assert s == left + Strip(s) + right;
    WordsIgnoreLeft(s);
    WordsIgnoreRight(StripLeft(s));
  }

  // --- stripping and collapsing is splitting and joining ---

  lemma {:induction false} WordsIgnoreLeft(s: string)
    ensures Words(StripLeft(s)) == Words(s)
    ensures StripLeft(s) == "" || !IsSpace(StripLeft(s)[0])
  {
    if s != "" && IsSpace(s[0]) { WordsIgnoreLeft(s[1..]); }
  }

  lemma {:induction false} WordsIgnoreLast(s: string)
    requires s != "" && IsSpace(s[|s| - 1])
    ensures Words(s[..|s| - 1]) == Words(s)
  {
    if |s| > 1 {
      WordsIgnoreLast(s[1..]);
      assert s[1..][..|s| - 2] == s[..|s| - 1][1..];
    }
  }

  lemma {:induction false} WordsIgnoreRight(s: string)
    ensures Words(StripRight(s)) == Words(s)
    ensures StripRight(s) == "" || !IsSpace(StripRight(s)[|StripRight(s)| - 1])
    ensures StripRight(s) <= s
  {
    if s != "" && IsSpace(s[|s| - 1]) {
      WordsIgnoreLast(s);
      WordsIgnoreRight(s[..|s| - 1]);
    }
  }

  lemma {:induction false} SomeWord(s: string)
    requires s != "" && !IsSpace(s[|s| - 1])
    ensures Words(s) != []
  {
    if IsSpace(s[0]) { SomeWord(s[1..]); }
  }

  lemma {:induction false} CollapsedWords(s: string)
    requires s != "" ==> !IsSpace(s[|s| - 1])
    ensures Collapse(s) == (if s != "" && IsSpace(s[0]) then " " else "") + Joined(Words(s))
  {
    if |s| > 1 {
      CollapsedWords(s[1..]);
      SomeWord(s[1..]);
    }
  }

  /** Stripping and collapsing white space is taking the words and putting one space between them. */
  lemma CleaningKeepsTheWords(s: string)
    ensures Collapse(Strip(s)) == Joined(Words(s))
  {
    WordsIgnoreLeft(s);
    WordsIgnoreRight(StripLeft(s));
    CollapsedWords(Strip(s));
  }

  /** A single space here and there, no other white space, and none in front. */
  predicate Tidy(s: string) {
    && (s != "" ==> !IsSpace(s[0]))
    && (forall i :: 0 <= i < |s| && IsSpace(s[i]) ==> s[i] == ' ')
    && (forall i :: 0 <= i < |s| - 1 && IsSpace(s[i]) ==> !IsSpace(s[i + 1]))
  }

  lemma {:induction false} CollapseIsTidy(s: string)
    ensures var r := Collapse(s);
            && (r != "" && IsSpace(r[0]) <==> s != "" && IsSpace(s[0]))
            && (forall i :: 0 <= i < |r| && IsSpace(r[i]) ==> r[i] == ' ')
            && (forall i :: 0 <= i < |r| - 1 && IsSpace(r[i]) ==> !IsSpace(r[i + 1]))
    ensures s != "" ==> Collapse(s) != ""
  {
    if s != "" { CollapseIsTidy(s[1..]); }
  }

  lemma CleaningIsTidy(s: string)
    ensures Tidy(Collapse(Strip(s)))
  {
    WordsIgnoreLeft(s);
    WordsIgnoreRight(StripLeft(s));
    CollapseIsTidy(Strip(s));
  }

  lemma TidyPrefix(s: string, n: nat)
    requires Tidy(s) && n <= |s|
    ensures Tidy(s[..n])
  {}

  lemma {:induction false} SolidIsClean(s: string)
    requires forall i :: 0 <= i < |s| ==> !IsSpace(s[i])
    ensures Collapse(Strip(s)) == s
  {
    if s != "" {
      SolidIsClean(s[1..]);
      assert Strip(s[1..]) == s[1..] && Strip(s) == s;
    }
  }

  // --- case ---

  /** Lower case, ASCII letters only. */
  function LowerChar(c: char): char { if 'A' <= c <= 'Z' then (c as int + 32) as char else c }

  function Lower(s: string): string { seq(|s|, i requires 0 <= i < |s| => LowerChar(s[i])) }

  lemma {:induction false} LowerKeepsStripped(s: string)
    requires Strip(s) == s
    ensures Strip(Lower(s)) == Lower(s)
  {
    WordsIgnoreLeft(s);
    WordsIgnoreRight(StripLeft(s));
    if s != "" {
      assert StripLeft(s) == s by { StrippedIsShorter(s); }
      assert !IsSpace(s[0]) && !IsSpace(s[|s| - 1]);
    }
  }

  lemma {:induction false} StrippedIsShorter(s: string)
    ensures |Strip(s)| <= |StripLeft(s)| <= |s|
    ensures |StripLeft(s)| == |s| ==> StripLeft(s) == s
  {
    if s != "" && IsSpace(s[0]) { StrippedIsShorter(s[1..]); }
    WordsIgnoreRight(StripLeft(s));
  }

  lemma StripTwice(s: string)
    ensures Strip(Strip(s)) == Strip(s)
  {
    WordsIgnoreLeft(s);
    WordsIgnoreRight(StripLeft(s));
  }
}
