/** String operations of JavaScript that the normalisers use. A `char` stands for one character. */
module Text {
  import opened Lists

  /** What `String.prototype.trim` removes. */
  predicate IsSpace(c: char) {
    || c in " \t\n\r" || c as int in {0x0B, 0x0C, 0xA0, 0x1680, 0x2028, 0x2029, 0x202F, 0x205F, 0x3000, 0xFEFF}
    || 0x2000 <= c as int <= 0x200A
  }

  function TrimStart(s: string): (r: string)
    ensures |r| <= |s| && r == s[|s| - |r|..]
    ensures r != "" ==> !IsSpace(r[0])
  {
    if s != "" && IsSpace(s[0]) then TrimStart(s[1..]) else s
  }

  function TrimEnd(s: string): (r: string)
    ensures |r| <= |s| && r == s[..|r|]
    ensures r != "" ==> !IsSpace(r[|r| - 1])
  {
    if s != "" && IsSpace(s[|s| - 1]) then TrimEnd(s[..|s| - 1]) else s
  }

  function Trim(s: string): (r: string)
    ensures Trimmed(r)
    ensures Trimmed(s) ==> r == s
  {
    TrimEnd(TrimStart(s))
  }

  const TRIMMED: string -> string := (s: string) => Trim(s)

  predicate Trimmed(s: string) {
    s != "" ==> !IsSpace(s[0]) && !IsSpace(s[|s| - 1])
  }

  /** `toLowerCase`, as far as ASCII patterns can tell: besides A to Z, two letters outside ASCII
      have an ASCII letter in their lower case. */
  function LowerChar(c: char): string {
    if 'A' <= c <= 'Z' then [c - 'A' + 'a']
    else if c as int == 0x212A then "k"
    else if c as int == 0x130 then "i\U{0307}"
    else [c]
  }

  function Lower(s: string): string {
    if s == "" then "" else LowerChar(s[0]) + Lower(s[1..])
  }

  /** Characters that lower-casing leaves alone. */
  predicate LowerStable(c: char) {
    !('A' <= c <= 'Z') && c as int != 0x212A && c as int != 0x130
  }

  lemma {:induction false} LowerOfStable(s: string)
    requires forall c :: c in s ==> LowerStable(c)
    ensures Lower(s) == s
  {
    if s != "" {
      LowerOfStable(s[1..]);
      assert s[0] in s && s == [s[0]] + s[1..];
    }
  }

  const IS_NONEMPTY: string -> bool := (s: string) => s != ""

  /** `texts.filter(Boolean)` */
  function NonEmpty(texts: seq<string>): seq<string> {
    Select(texts, IS_NONEMPTY)
  }

  /** `text.split(separator)`: one part more than there are separators. */
  function Split(s: string, separator: char): (parts: seq<string>)
    ensures parts != []
  {
    if s == "" then [""]
    else
      var rest := Split(s[1..], separator);
      if s[0] == separator then [""] + rest else [[s[0]] + rest[0]] + rest[1..]
  }

  lemma {:induction false} SplitPart(part: string, rest: string, separator: char)
    requires separator !in part
    ensures Split(part, separator) == [part]
    ensures Split(part + [separator] + rest, separator) == [part] + Split(rest, separator)
  {
    var whole := part + [separator] + rest;
    if part == "" {
      assert whole[1..] == rest;
    } else {
      SplitPart(part[1..], rest, separator);
      assert whole[1..] == part[1..] + [separator] + rest;
      assert part[0] in part && part == [part[0]] + part[1..];
    }
  }

  /** Splitting undoes joining when no part contains the separator. */
  lemma {:induction false} SplitJoin(parts: seq<string>, separator: char)
    requires parts != [] && forall part :: part in parts ==> separator !in part
    ensures Split(Join(parts, [separator]), separator) == parts
  {
    if |parts| == 1 {
      SplitPart(parts[0], "", separator);
    } else {
      SplitJoin(parts[1..], separator);
      SplitPart(parts[0], Join(parts[1..], [separator]), separator);
    }
  }

  predicate HasPair(s: string, a: char, b: char) {
    exists i :: 0 <= i < |s| - 1 && s[i] == a && s[i + 1] == b
  }

  predicate EndsWith(s: string, suffix: string) {
    |s| >= |suffix| && s[|s| - |suffix|..] == suffix
  }

  /** Each run of characters satisfying `p` becomes one `c`, as `replace(/[...]+/g, c)` does. */
  function CollapseRuns(s: string, p: char -> bool, c: char): string {
    if s == "" then ""
    else if !p(s[0]) then [s[0]] + CollapseRuns(s[1..], p, c)
    else if |s| > 1 && p(s[1]) then CollapseRuns(s[1..], p, c)
    else [c] + CollapseRuns(s[1..], p, c)
  }

  lemma {:induction false} CollapseChars(s: string, p: char -> bool, c: char)
    ensures forall x :: x in CollapseRuns(s, p, c) ==> x == c || (x in s && !p(x))
  {
    if s != "" {
      CollapseChars(s[1..], p, c);
    }
  }

  lemma {:induction false} CollapseFirst(s: string, p: char -> bool, c: char)
    requires s != ""
    ensures CollapseRuns(s, p, c) != "" && CollapseRuns(s, p, c)[0] == if p(s[0]) then c else s[0]
  {
    if p(s[0]) && |s| > 1 && p(s[1]) {
      CollapseFirst(s[1..], p, c);
    }
  }

  lemma NoPairInRest(s: string, a: char, b: char)
    requires s != "" && !HasPair(s, a, b)
    ensures !HasPair(s[1..], a, b)
    ensures |s| > 1 ==> !(s[0] == a && s[1] == b)
  {
    forall i | 0 <= i < |s[1..]| - 1 ensures !(s[1..][i] == a && s[1..][i + 1] == b) {
      assert !(s[i + 1] == a && s[i + 2] == b);
    }
  }

  lemma CollapseFirstChar(s: string, p: char -> bool, c: char)
    requires s != "" && (p(s[0]) ==> s[0] == c) && !(|s| > 1 && p(s[0]) && p(s[1]))
    ensures CollapseRuns(s, p, c) == [s[0]] + CollapseRuns(s[1..], p, c)
  {
  }

  /** Nothing to collapse, nothing changed. */
  lemma {:induction false} CollapseNothing(s: string, p: char -> bool, c: char)
    requires !HasPair(s, c, c) && forall x :: x in s && p(x) ==> x == c
    ensures CollapseRuns(s, p, c) == s
  {
    hide HasPair;
    if s != "" {
      assert s[0] in s && (|s| > 1 ==> s[1] in s) && forall x :: x in s[1..] ==> x in s;
      NoPairInRest(s, c, c);
      CollapseNothing(s[1..], p, c);
      hide CollapseRuns;
      CollapseFirstChar(s, p, c);
      assert s == [s[0]] + s[1..];
    }
  }

  /** Collapsing runs of `d` to one `d` leaves no two `d` together. */
  lemma {:induction false} CollapseOwn(s: string, d: char)
    ensures !HasPair(CollapseRuns(s, x => x == d, d), d, d)
  {
    var p := x => x == d;
    if s != "" {
      CollapseOwn(s[1..], d);
      if |s| > 1 {
        CollapseFirst(s[1..], p, d);
      }
    }
  }

  /** Collapsing other characters to something that is not `d` brings no two `d` together. */
  lemma {:induction false} CollapseOther(s: string, p: char -> bool, c: char, d: char)
    requires !HasPair(s, d, d) && !p(d) && c != d
    ensures !HasPair(CollapseRuns(s, p, c), d, d)
  {
    if s != "" {
      NoPairInRest(s, d, d);
      CollapseOther(s[1..], p, c, d);
      if |s| > 1 {
        CollapseFirst(s[1..], p, c);
        assert !(s[0] == d && s[1] == d);
      }
    }
  }
}
