/**
 * The JavaScript string operations the transforms are built from:
 * `Array.prototype.join`, `String.prototype.trim`, `.replace(/^,/, "")`,
 * `.substring(0, n)`, the word-initial match `/\b\w/g`, `toUpperCase` on
 * those initials, and the relational operator `<` on strings.
 */
module Text {

  // ---------------------------------------------------------------- join

  /** `parts.join(sep)` (an absent element is passed in as ""). */
  function Join(parts: seq<string>, sep: string): string
  {
    if parts == [] then ""
    else if |parts| == 1 then parts[0]
    else parts[0] + sep + Join(parts[1..], sep)
  }

  /**
   * The ECMAScript definition of `join` is a left-to-right loop
   * `R := R + sep + next`; the recursive `Join` agrees with it.
   */
  lemma {:induction false} JoinAppend(xs: seq<string>, y: string, sep: string)
    requires xs != []
    ensures Join(xs + [y], sep) == Join(xs, sep) + sep + y
  {
    if |xs| == 1 {
      assert xs + [y] == [xs[0], y];
    } else {
      assert (xs + [y])[1..] == xs[1..] + [y];
      JoinAppend(xs[1..], y, sep);
    }
  }

  /** `s.split(c)` for a one-character separator. */
  function Split(s: string, c: char): (r: seq<string>)
    ensures |r| >= 1
  {
    if s == [] then [""]
    else
      var rest := Split(s[1..], c);
      if s[0] == c then [""] + rest else [[s[0]] + rest[0]] + rest[1..]
  }

  lemma {:induction false} SplitWithoutSeparator(x: string, c: char)
    requires c !in x
    ensures Split(x, c) == [x]
  {
    if x != [] {
      assert x[0] in x;
      assert c !in x[1..] by { assert forall k | 0 <= k < |x[1..]| :: x[1..][k] == x[k + 1]; }
      SplitWithoutSeparator(x[1..], c);
      assert x == [x[0]] + x[1..];
    }
  }

  lemma {:induction false} SplitAtSeparator(x: string, c: char, rest: string)
    requires c !in x
    ensures Split(x + [c] + rest, c) == [x] + Split(rest, c)
  {
    if x == [] {
      assert x + [c] + rest == [c] + rest;
    } else {
      assert (x + [c] + rest)[1..] == x[1..] + [c] + rest;
      assert c !in x[1..] by { assert forall k | 0 <= k < |x[1..]| :: x[1..][k] == x[k + 1]; }
      SplitAtSeparator(x[1..], c, rest);
      assert x[0] in x;
      assert (x + [c] + rest)[0] == x[0];
      assert x == [x[0]] + x[1..];
    }
  }

  /**
   * Joining with a one-character separator that occurs in no part is
   * undone by splitting on that character: the parts can be read back.
   */
  lemma {:induction false} SplitJoin(parts: seq<string>, c: char)
    requires parts != []
    requires forall i | 0 <= i < |parts| :: c !in parts[i]
    ensures Split(Join(parts, [c]), c) == parts
  {
    if |parts| == 1 {
      SplitWithoutSeparator(parts[0], c);
    } else {
      SplitJoin(parts[1..], c);
      SplitAtSeparator(parts[0], c, Join(parts[1..], [c]));
      assert parts == [parts[0]] + parts[1..];
    }
  }

  lemma {:induction false} JoinFirst(parts: seq<string>, sep: string)
    requires parts != [] && parts[0] != []
    ensures Join(parts, sep) != [] && Join(parts, sep)[0] == parts[0][0]
  {
  }

  lemma {:induction false} JoinLast(parts: seq<string>, sep: string)
    requires parts != [] && parts[|parts| - 1] != []
    ensures var j := Join(parts, sep); j != [] && j[|j| - 1] == parts[|parts| - 1][|parts[|parts| - 1]| - 1]
  {
    if |parts| > 1 {
      JoinLast(parts[1..], sep);
    }
  }

  // ---------------------------------------------------------------- filter, replace, trim, substring

  /** `lines.filter(l => !!l)`: the empty strings are the falsy ones. */
  function NonEmpty(lines: seq<string>): (r: seq<string>)
    ensures |r| <= |lines|
    ensures forall i | 0 <= i < |r| :: r[i] != ""
  {
    if lines == [] then []
    else if lines[0] == "" then NonEmpty(lines[1..])
    else [lines[0]] + NonEmpty(lines[1..])
  }

  /** The filter keeps exactly the non-empty lines. */
  lemma {:induction false} NonEmptyMembers(lines: seq<string>)
    ensures forall x :: x in NonEmpty(lines) <==> x in lines && x != ""
  {
    if lines != [] {
      NonEmptyMembers(lines[1..]);
      assert lines == [lines[0]] + lines[1..];
    }
  }

  /** Filtering keeps the order of the lines: it distributes over concatenation. */
  lemma {:induction false} NonEmptyConcat(a: seq<string>, b: seq<string>)
    ensures NonEmpty(a + b) == NonEmpty(a) + NonEmpty(b)
  {
    if a != [] {
      assert (a + b)[0] == a[0];
      assert (a + b)[1..] == a[1..] + b;
      NonEmptyConcat(a[1..], b);
    } else {
      assert a + b == b;
    }
  }

  /** Lines that are all non-empty are kept as they are. */
  lemma {:induction false} NonEmptyOfFilledLines(lines: seq<string>)
    requires forall i | 0 <= i < |lines| :: lines[i] != ""
    ensures NonEmpty(lines) == lines
  {
    if lines != [] {
      NonEmptyOfFilledLines(lines[1..]);
    }
  }

  /** `.replace(/^,/gi, "")`: without the `m` flag `^` matches only at 0, so at most one comma goes. */
  function StripLeadingComma(s: string): (r: string)
    ensures |s| > 0 && s[0] == ',' ==> r == s[1..]
    ensures !(|s| > 0 && s[0] == ',') ==> r == s
  {
    if |s| > 0 && s[0] == ',' then s[1..] else s
  }

  /** The WhiteSpace and LineTerminator code points of ECMAScript, which `trim` removes. */
  predicate IsJsWhitespace(c: char) {
    || c == '\t' || c == '\n' || c == '\U{000B}' || c == '\U{000C}' || c == '\r'
    || c == ' ' || c == '\U{00A0}' || c == '\U{1680}' || ('\U{2000}' <= c <= '\U{200A}')
    || c == '\U{2028}' || c == '\U{2029}' || c == '\U{202F}' || c == '\U{205F}'
    || c == '\U{3000}' || c == '\U{FEFF}'
  }

  function TrimStart(s: string): (r: string)
    ensures |r| <= |s| && r == s[|s| - |r|..]
    ensures forall i | 0 <= i < |s| - |r| :: IsJsWhitespace(s[i])
    ensures r == [] || !IsJsWhitespace(r[0])
    decreases |s|
  {
    if |s| > 0 && IsJsWhitespace(s[0]) then TrimStart(s[1..]) else s
  }

  function TrimEnd(s: string): (r: string)
    ensures |r| <= |s| && r == s[..|r|]
    ensures forall i | |r| <= i < |s| :: IsJsWhitespace(s[i])
    ensures r == [] || !IsJsWhitespace(r[|r| - 1])
    decreases |s|
  {
    if |s| > 0 && IsJsWhitespace(s[|s| - 1]) then TrimEnd(s[..|s| - 1]) else s
  }

  /** `s.trim()`. */
  function Trim(s: string): (r: string)
    ensures |r| <= |s|
    ensures r == [] || (!IsJsWhitespace(r[0]) && !IsJsWhitespace(r[|r| - 1]))
  {
    TrimEnd(TrimStart(s))
  }

  /**
   * What `trim` keeps is a contiguous part of the input, starting after the
   * leading whitespace, with only whitespace after it.
   */
  lemma TrimIsInfix(s: string)
    ensures var i := |s| - |TrimStart(s)|;
      && i + |Trim(s)| <= |s|
      && Trim(s) == s[i..i + |Trim(s)|]
      && (forall k | 0 <= k < i :: IsJsWhitespace(s[k]))
      && (forall k | i + |Trim(s)| <= k < |s| :: IsJsWhitespace(s[k]))
  {
    var t := TrimStart(s);
    var i := |s| - |t|;
    var r := TrimEnd(t);
    assert t == s[i..];
    assert r == t[..|r|];
    assert t[..|r|] == s[i..i + |r|];
    forall k | i + |r| <= k < |s|
      ensures IsJsWhitespace(s[k])
    {
      assert s[k] == t[k - i];
    }
  }

  /** `s.substring(0, n)`. */
  function Prefix(s: string, n: nat): (r: string)
    ensures |r| == if |s| < n then |s| else n
    ensures r <= s
  {
    if |s| < n then s else s[..n]
  }

  /**
   * The address formatting shared by the patient and practitioner
   * transforms: the non-empty lines joined by ", ", one leading comma
   * dropped, then trimmed.
   */
  function PrettyLines(lines: seq<string>): string
  {
    Trim(StripLeadingComma(Join(NonEmpty(lines), ", ")))
  }

  lemma {:induction false} NonEmptyOfBlankLines(lines: seq<string>)
    requires forall i | 0 <= i < |lines| :: lines[i] == ""
    ensures NonEmpty(lines) == []
  {
    if lines != [] {
      NonEmptyOfBlankLines(lines[1..]);
    }
  }

  /** Without a line to keep, the address is the empty string. */
  lemma {:induction false} PrettyLinesOfBlankLines(lines: seq<string>)
    requires forall i | 0 <= i < |lines| :: lines[i] == ""
    ensures PrettyLines(lines) == ""
  {
    NonEmptyOfBlankLines(lines);
  }

  /**
   * When the first kept line neither starts with a comma nor with
   * whitespace and the last kept line does not end in whitespace, the
   * replace and the trim change nothing: the address is exactly the kept
   * lines joined by ", ".
   */
  lemma PrettyLinesIsJoin(lines: seq<string>)
    requires var kept := NonEmpty(lines);
      && kept != []
      && kept[0][0] != ',' && !IsJsWhitespace(kept[0][0])
      && !IsJsWhitespace(kept[|kept| - 1][|kept[|kept| - 1]| - 1])
    ensures PrettyLines(lines) == Join(NonEmpty(lines), ", ")
  {
    var kept := NonEmpty(lines);
    var j := Join(kept, ", ");
    JoinFirst(kept, ", ");
    JoinLast(kept, ", ");
    assert StripLeadingComma(j) == j;
    assert TrimStart(j) == j;
    assert TrimEnd(j) == j;
  }

  // ---------------------------------------------------------------- initials

  /** `\w` without the `u` flag. */
  predicate IsWordChar(c: char) {
    'a' <= c <= 'z' || 'A' <= c <= 'Z' || '0' <= c <= '9' || c == '_'
  }

  /**
   * The matches of `/\b\w/g`: the word characters not preceded by a word
   * character; `afterWord` says whether the character before `s` was one.
   */
  function WordStarts(s: string, afterWord: bool): (r: string)
    ensures |r| <= |s|
    ensures forall i | 0 <= i < |r| :: IsWordChar(r[i])
    decreases |s|
  {
    if s == [] then []
    else (if IsWordChar(s[0]) && !afterWord then [s[0]] else []) + WordStarts(s[1..], IsWordChar(s[0]))
  }

  /** Whether the last character read (after `s`, starting in state `afterWord`) was a word character. */
  function AfterWord(s: string, afterWord: bool): bool {
    if s == [] then afterWord else IsWordChar(s[|s| - 1])
  }

  lemma {:induction false} WordStartsConcat(a: string, b: string, afterWord: bool)
    ensures WordStarts(a + b, afterWord) == WordStarts(a, afterWord) + WordStarts(b, AfterWord(a, afterWord))
  {
    if a == [] {
      assert a + b == b;
    } else {
      assert (a + b)[1..] == a[1..] + b;
      WordStartsConcat(a[1..], b, IsWordChar(a[0]));
      assert AfterWord(a[1..], IsWordChar(a[0])) == AfterWord(a, afterWord);
    }
  }

  predicate IsWord(w: string) {
    w != [] && forall i | 0 <= i < |w| :: IsWordChar(w[i])
  }

  lemma {:induction false} WordStartsInsideWord(w: string)
    requires forall i | 0 <= i < |w| :: IsWordChar(w[i])
    ensures WordStarts(w, true) == []
  {
    if w != [] {
      WordStartsInsideWord(w[1..]);
    }
  }

  /** The first character of each part. */
  function FirstChars(parts: seq<string>): (r: string)
    requires forall i | 0 <= i < |parts| :: IsWord(parts[i])
    ensures |r| == |parts|
    ensures forall i | 0 <= i < |parts| :: IsWord(parts[i]) && r[i] == parts[i][0]
  {
    if parts == [] then [] else assert IsWord(parts[0]); [parts[0][0]] + FirstChars(parts[1..])
  }

  lemma {:induction false} WordStartsOfWord(w: string)
    requires IsWord(w)
    ensures WordStarts(w, false) == [w[0]]
    ensures AfterWord(w, false)
  {
    WordStartsInsideWord(w[1..]);
  }

  /** Words joined by single spaces: the word-initial matches are the words' first characters. */
  lemma {:induction false} WordStartsOfWords(parts: seq<string>)
    requires forall i | 0 <= i < |parts| :: IsWord(parts[i])
    ensures WordStarts(Join(parts, " "), false) == FirstChars(parts)
  {
    if parts == [] {
    } else if |parts| == 1 {
      WordStartsOfWord(parts[0]);
    } else {
      var p, rest := parts[0], parts[1..];
      var j := Join(rest, " ");
      var tail := " " + j;
      assert Join(parts, " ") == p + tail;
      WordStartsOfWords(rest);
      WordStartsOfWord(p);
      WordStartsConcat(p, tail, false);
      assert tail[1..] == j;
      assert WordStarts(tail, true) == WordStarts(j, false);
      assert FirstChars(parts) == [p[0]] + FirstChars(rest);
    }
  }

  /** `toUpperCase` on the characters `\w` can match. */
  function UpperAscii(c: char): (r: char)
    ensures IsWordChar(c) ==> IsWordChar(r) && !('a' <= r <= 'z')
  {
    if 'a' <= c <= 'z' then (c as int - 32) as char else c
  }

  /**
   * `((m.shift() || "") + (m.pop() || "")).toUpperCase()` over the matches `m`
   * of `/\b\w/g`: the first and the last initial, one of them when there is
   * only one, "" when there is none.
   */
  function FormatInitials(name: string): (r: string)
    ensures |r| <= 2
    ensures r == "" <==> WordStarts(name, false) == []
    ensures forall i | 0 <= i < |r| :: IsWordChar(r[i])
  {
    var m := WordStarts(name, false);
    if |m| == 0 then ""
    else if |m| == 1 then [UpperAscii(m[0])]
    else [UpperAscii(m[0]), UpperAscii(m[|m| - 1])]
  }

  /**
   * A name made of words separated by single spaces has as initials the
   * upper-cased first letter of its first word and of its last word.
   */
  lemma InitialsOfWords(parts: seq<string>)
    requires parts != []
    requires forall i | 0 <= i < |parts| :: IsWord(parts[i])
    ensures IsWord(parts[0]) && IsWord(parts[|parts| - 1])
    ensures FormatInitials(Join(parts, " ")) ==
      [UpperAscii(parts[0][0])] + (if |parts| > 1 then [UpperAscii(parts[|parts| - 1][0])] else [])
  {
    assert IsWord(parts[0]) && IsWord(parts[|parts| - 1]);
    WordStartsOfWords(parts);
    InitialsOfStarts(Join(parts, " "), FirstChars(parts));
  }

  /**
   * An unfolding step: `FormatInitials` in terms of the word starts it
   * reads, which keeps `InitialsOfWords` from unfolding it among the
   * facts about `Join`.
   */
  lemma InitialsOfStarts(name: string, m: string)
    requires WordStarts(name, false) == m && m != []
    ensures FormatInitials(name) == [UpperAscii(m[0])] + (if |m| > 1 then [UpperAscii(m[|m| - 1])] else [])
  {
  }

  // ---------------------------------------------------------------- comparison

  /** `a < b` on two strings: lexicographic by character. */
  predicate StrLess(a: string, b: string) {
    if b == [] then false
    else if a == [] then true
    else if a[0] != b[0] then a[0] < b[0]
    else StrLess(a[1..], b[1..])
  }

  lemma {:induction false} StrLessIrreflexive(a: string)
    ensures !StrLess(a, a)
  {
    if a != [] {
      StrLessIrreflexive(a[1..]);
    }
  }

  lemma {:induction false} StrLessAsymmetric(a: string, b: string)
    requires StrLess(a, b)
    ensures !StrLess(b, a)
  {
    if a != [] && b != [] && a[0] == b[0] {
      StrLessAsymmetric(a[1..], b[1..]);
    }
  }

  lemma {:induction false} StrLessTransitive(a: string, b: string, c: string)
    requires StrLess(a, b) && StrLess(b, c)
    ensures StrLess(a, c)
  {
    if a != [] && a[0] == b[0] && b[0] == c[0] {
      StrLessTransitive(a[1..], b[1..], c[1..]);
    }
  }

  lemma {:induction false} StrLessTotal(a: string, b: string)
    requires a != b
    ensures StrLess(a, b) || StrLess(b, a)
  {
    if a != [] && b != [] && a[0] == b[0] {
      assert a == [a[0]] + a[1..] && b == [b[0]] + b[1..];
      StrLessTotal(a[1..], b[1..]);
    }
  }
}
