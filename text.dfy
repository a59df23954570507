/**
 * The string operations the tools rely on: Python's `"\n".join`, the substring test
 * `a in b`, `str.lower()` and `str.replace(" ", "")`. It also gives `str.split("\n")`,
 * which the tools do not call: it is used only to read the joined answers back line by line.
 */
module Text {

  /** `"\n".join(lines)`. */
  function JoinLines(lines: seq<string>): string
    decreases |lines|
  {
    if lines == [] then ""
    else if |lines| == 1 then lines[0]
    else lines[0] + "\n" + JoinLines(lines[1..])
  }

  /** A join starts with its first line. */
  lemma JoinLinesPrefix(lines: seq<string>)
    requires lines != []
    ensures |lines[0]| <= |JoinLines(lines)| && JoinLines(lines)[..|lines[0]|] == lines[0]
  {
    if |lines| > 1 {
      var s := JoinLines(lines);
      assert s == lines[0] + ("\n" + JoinLines(lines[1..]));
    }
  }

  /** `s.split("\n")`, used only to read a joined answer back line by line: always at least
      one (possibly empty) piece. */
  function SplitLines(s: string): (r: seq<string>)
    ensures |r| >= 1
    decreases |s|
  {
    if s == [] then [""]
    else
      var rest := SplitLines(s[1..]);
      if s[0] == '\n' then [""] + rest
      else [[s[0]] + rest[0]] + rest[1..]
  }

  predicate NoNewline(s: string) {
    '\n' !in s
  }

  /** A line without a line break splits into itself. */
  lemma {:induction false} SplitSingle(line: string)
    requires NoNewline(line)
    ensures SplitLines(line) == [line]
    decreases |line|
  {
    if line != [] {
      SplitSingle(line[1..]);
      assert [line[0]] + line[1..] == line;
    }
  }

  /** Splitting `line + "\n" + rest` peels off `line`. */
  lemma {:induction false} SplitCons(line: string, rest: string)
    requires NoNewline(line)
    ensures SplitLines(line + "\n" + rest) == [line] + SplitLines(rest)
    decreases |line|
  {
    var s := line + "\n" + rest;
    if line == [] {
      assert s == "\n" + rest;
      assert s[1..] == rest;
    } else {
      assert s[0] == line[0];
      assert s[1..] == line[1..] + "\n" + rest;
      SplitCons(line[1..], rest);
      assert [line[0]] + line[1..] == line;
    }
  }

  /** Splitting undoes joining, as long as no line holds a line break itself. */
  lemma {:induction false} SplitJoin(lines: seq<string>)
    requires lines != []
    requires forall i :: 0 <= i < |lines| ==> NoNewline(lines[i])
    ensures SplitLines(JoinLines(lines)) == lines
    decreases |lines|
  {
    if |lines| == 1 {
      SplitSingle(lines[0]);
    } else {
      SplitJoin(lines[1..]);
      SplitCons(lines[0], JoinLines(lines[1..]));
      assert [lines[0]] + lines[1..] == lines;
    }
  }

  /** `hay[k..]` begins with `needle`. */
  predicate OccursAt(needle: string, hay: string, k: nat) {
    k + |needle| <= |hay| && hay[k..k + |needle|] == needle
  }

  /** Python's `needle in hay` on strings. */
  predicate IsSubstring(needle: string, hay: string)
    decreases |hay|
  {
    OccursAt(needle, hay, 0) || (hay != [] && IsSubstring(needle, hay[1..]))
  }

  /** The recursive test agrees with "some position of `hay` starts a copy of `needle`". */
  lemma {:induction false} IsSubstringIff(needle: string, hay: string)
    ensures IsSubstring(needle, hay) <==> exists k: nat :: OccursAt(needle, hay, k)
    decreases |hay|
  {
    if hay != [] {
      IsSubstringIff(needle, hay[1..]);
      if IsSubstring(needle, hay[1..]) {
        var k: nat :| OccursAt(needle, hay[1..], k);
        assert hay[k + 1..k + 1 + |needle|] == hay[1..][k..k + |needle|];
        assert OccursAt(needle, hay, k + 1);
      }
      if k: nat :| OccursAt(needle, hay, k) {
        if k > 0 {
          assert hay[1..][k - 1..k - 1 + |needle|] == hay[k..k + |needle|];
          assert OccursAt(needle, hay[1..], k - 1);
        }
      }
    } else {
      if k: nat :| OccursAt(needle, hay, k) {
        assert k == 0;
      }
    }
  }

  /** ASCII case folding of one character. */
  function LowerChar(c: char): char {
    if 'A' <= c <= 'Z' then (c as int + 32) as char else c
  }

  /** `s.lower()`, restricted to ASCII letters. */
  function ToLower(s: string): (r: string)
    ensures |r| == |s|
  {
    seq(|s|, i requires 0 <= i < |s| => LowerChar(s[i]))
  }

  /** `s.replace(" ", "")`. */
  function RemoveSpaces(s: string): (r: string)
    ensures |r| <= |s|
    ensures forall i :: 0 <= i < |r| ==> r[i] != ' '
    decreases |s|
  {
    if s == [] then ""
    else (if s[0] == ' ' then "" else [s[0]]) + RemoveSpaces(s[1..])
  }

  lemma {:induction false} RemoveSpacesAppend(a: string, b: string)
    ensures RemoveSpaces(a + b) == RemoveSpaces(a) + RemoveSpaces(b)
    decreases |a|
  {
    if a == [] {
      assert a + b == b;
    } else {
      assert (a + b)[1..] == a[1..] + b;
      RemoveSpacesAppend(a[1..], b);
    }
  }

  /** A string without spaces is left as it is. */
  lemma {:induction false} RemoveSpacesNone(s: string)
    requires ' ' !in s
    ensures RemoveSpaces(s) == s
    decreases |s|
  {
    if s != [] {
      assert s[0] in s;
      assert forall c :: c in s[1..] ==> c in s;
      RemoveSpacesNone(s[1..]);
      assert [s[0]] + s[1..] == s;
    }
  }

  /** Removing the space between `a` and a space-free word `b`. */
  lemma RemoveSpacesWord(a: string, b: string)
    requires ' ' !in b
    ensures RemoveSpaces(a + " " + b) == RemoveSpaces(a) + b
  {
    var space := " ";
    assert RemoveSpaces(space) == "" by {
      assert space[0] == ' ' && space[1..] == "";
    }
    RemoveSpacesAppend(a, space);
    RemoveSpacesAppend(a + space, b);
    RemoveSpacesNone(b);
  }

  /** A string without upper-case ASCII letters is its own lower-case form. */
  lemma LowerNone(s: string)
    requires forall i :: 0 <= i < |s| ==> !('A' <= s[i] <= 'Z')
    ensures ToLower(s) == s
  {
  }
}
