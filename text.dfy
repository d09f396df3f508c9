/**
  String operations the application takes from JavaScript and Python:
  trimming, ASCII case mapping, substring search, splitting and joining,
  integer rendering and `parseInt`, UTF-8 byte length and `str.replace`.
  Strings are sequences of Unicode scalar values; case mapping and white
  space are the ASCII subsets of the real library functions.
*/
module Text {
  import opened Wrappers

  // ---------------------------------------------------------------------
  // White space and trimming (String.prototype.trim)
  // ---------------------------------------------------------------------

  /** White space as `trim` and `\s` see it, restricted to ASCII: space, TAB, LF, VT, FF, CR. */
  predicate IsSpace(c: char) {
    c == ' ' || c == '\t' || c == '\n' || c == '\r' || c as int == 11 || c as int == 12
  }

  predicate NoSpace(s: string) {
    forall i :: 0 <= i < |s| ==> !IsSpace(s[i])
  }

  predicate AllSpace(s: string) {
    forall i :: 0 <= i < |s| ==> IsSpace(s[i])
  }

  /** Drops the leading white space: the result is the suffix of `s` after a run of white space. */
  function TrimStart(s: string): (r: string)
    ensures |r| <= |s| && r == s[|s| - |r|..]
    ensures AllSpace(s[..|s| - |r|])
    ensures r == [] || !IsSpace(r[0])
    decreases |s|
  {
    if |s| > 0 && IsSpace(s[0]) then
      var r := TrimStart(s[1..]);
      assert s[1..][..|s[1..]| - |r|] == s[1..|s| - |r|];
      r
    else s
  }

  /** Drops the trailing white space: the result is the prefix of `s` before a run of white space. */
  function TrimEnd(s: string): (r: string)
    ensures |r| <= |s| && r == s[..|r|]
    ensures AllSpace(s[|r|..])
    ensures r == [] || !IsSpace(r[|r| - 1])
    decreases |s|
  {
    if |s| > 0 && IsSpace(s[|s| - 1]) then
      var r := TrimEnd(s[..|s| - 1]);
      assert s[..|s| - 1][..|r|] == s[..|r|];
      r
    else s
  }

  function Trim(s: string): string {
    TrimEnd(TrimStart(s))
  }

  /** `s.trim() === ''`: a text is blank exactly when every character is white space. */
  lemma BlankIffAllSpace(s: string)
    ensures Trim(s) == [] <==> AllSpace(s)
  {
    var t := TrimStart(s);
    if Trim(s) == [] {
      // `t` would start with a non-space, and `TrimEnd` leaves nothing of it only if it is all space
      assert AllSpace(t[0..]);
      assert s[..|s|] == s;
    }
  }

  // ---------------------------------------------------------------------
  // ASCII case mapping (toLowerCase / toUpperCase)
  // ---------------------------------------------------------------------

  function LowerChar(c: char): char {
    if 'A' <= c <= 'Z' then (c as int + 32) as char else c
  }

  function UpperChar(c: char): char {
    if 'a' <= c <= 'z' then (c as int - 32) as char else c
  }

  function Lower(s: string): (r: string)
    ensures |r| == |s|
  {
    seq(|s|, i requires 0 <= i < |s| => LowerChar(s[i]))
  }

  function Upper(s: string): (r: string)
    ensures |r| == |s|
  {
    seq(|s|, i requires 0 <= i < |s| => UpperChar(s[i]))
  }

  /** Lowering forgets any earlier case change: matching after `Lower` is case-blind. */
  lemma LowerForgetsCase(s: string)
    ensures Lower(Upper(s)) == Lower(s)
    ensures Lower(Lower(s)) == Lower(s)
  {
    assert forall i :: 0 <= i < |s| ==> LowerChar(UpperChar(s[i])) == LowerChar(s[i]);
  }

  // ---------------------------------------------------------------------
  // Substring search (String.prototype.includes)
  // ---------------------------------------------------------------------

  /** `s.includes(sub)`: `sub` occurs in `s` at some position. */
  predicate Contains(s: string, sub: string)
    decreases |s|
  {
    sub <= s || (|s| > 0 && Contains(s[1..], sub))
  }

  /** An occurrence at position `k` is found by `Contains`. */
  lemma {:induction false} ContainsAt(s: string, sub: string, k: nat)
    requires k + |sub| <= |s| && s[k..k + |sub|] == sub
    ensures Contains(s, sub)
    decreases k
  {
    if k == 0 {
      assert s[..|sub|] == sub;
    } else {
      assert s[1..][k - 1..k - 1 + |sub|] == s[k..k + |sub|];
      ContainsAt(s[1..], sub, k - 1);
    }
  }

  /** A text that contains `sub` still contains it with anything around it. */
  lemma ContainsInContext(a: string, sub: string, b: string)
    ensures Contains(a + sub + b, sub)
  {
    assert (a + sub + b)[|a|..|a| + |sub|] == sub;
    ContainsAt(a + sub + b, sub, |a|);
  }

  // ---------------------------------------------------------------------
  // Joining and splitting on one character (Array.join, String.split)
  // ---------------------------------------------------------------------

  /** `ss.join(sep)`. */
  function Join(ss: seq<string>, sep: string): string
    decreases |ss|
  {
    if |ss| == 0 then ""
    else if |ss| == 1 then ss[0]
    else ss[0] + sep + Join(ss[1..], sep)
  }

  /** `s.split(c)` for a single-character separator: never empty, no piece holds `c`. */
  function Split(s: string, c: char): (r: seq<string>)
    ensures |r| >= 1
    ensures forall i :: 0 <= i < |r| ==> c !in r[i]
    decreases |s|
  {
    if |s| == 0 then [""]
    else
      var rest := Split(s[1..], c);
      if s[0] == c then [""] + rest
      else [[s[0]] + rest[0]] + rest[1..]
  }

  /** Joining the pieces of a split with the separator gives back the text. */
  lemma {:induction false} JoinSplit(s: string, c: char)
    ensures Join(Split(s, c), [c]) == s
    decreases |s|
  {
    if |s| > 0 {
      var rest := Split(s[1..], c);
      JoinSplit(s[1..], c);
      if s[0] == c {
        assert Split(s, c) == [""] + rest;
        assert Join([""] + rest, [c]) == "" + [c] + Join(rest, [c]) by {
          assert ([""] + rest)[1..] == rest;
        }
        assert s == [s[0]] + s[1..];
      } else {
        var pieces := [[s[0]] + rest[0]] + rest[1..];
        assert Split(s, c) == pieces;
        if |rest| == 1 {
          assert Join(pieces, [c]) == [s[0]] + rest[0];
          assert Join(rest, [c]) == rest[0];
        } else {
          assert pieces[1..] == rest[1..];
          assert Join(rest, [c]) == rest[0] + [c] + Join(rest[1..], [c]);
          assert Join(pieces, [c]) == [s[0]] + rest[0] + [c] + Join(rest[1..], [c]);
        }
        assert s == [s[0]] + s[1..];
      }
    }
  }

  /** A piece free of the separator followed by the separator splits off as the first piece. */
  lemma {:induction false} SplitAfterPiece(a: string, c: char, b: string)
    requires c !in a
    ensures Split(a + [c] + b, c) == [a] + Split(b, c)
    decreases |a|
  {
    if |a| == 0 {
      assert a + [c] + b == [c] + b;
      assert ([c] + b)[1..] == b;
    } else {
      var s := a + [c] + b;
      assert s[1..] == a[1..] + [c] + b;
      SplitAfterPiece(a[1..], c, b);
      assert [a[0]] + a[1..] == a;
    }
  }

  /** A text free of the separator splits into itself alone. */
  lemma {:induction false} SplitWhole(a: string, c: char)
    requires c !in a
    ensures Split(a, c) == [a]
    decreases |a|
  {
    if |a| > 0 {
      SplitWhole(a[1..], c);
      assert [a[0]] + a[1..] == a;
    }
  }

  /** Two separator-free pieces joined by the separator split back into the two. */
  lemma SplitPair(a: string, c: char, b: string)
    requires c !in a && c !in b
    ensures Split(a + [c] + b, c) == [a, b]
  {
    SplitAfterPiece(a, c, b);
    SplitWhole(b, c);
  }

  /** Pieces free of the separator, joined with it, split back into the same pieces. */
  lemma {:induction false} SplitJoin(ws: seq<string>, c: char)
    requires |ws| > 0 && forall i :: 0 <= i < |ws| ==> c !in ws[i]
    ensures Split(Join(ws, [c]), c) == ws
    decreases |ws|
  {
    if |ws| == 1 {
      SplitWhole(ws[0], c);
    } else {
      var tail := ws[1..];
      assert forall i :: 0 <= i < |tail| ==> tail[i] == ws[i + 1];
      SplitJoin(tail, c);
      assert Join(ws, [c]) == ws[0] + [c] + Join(tail, [c]);
      SplitAfterPiece(ws[0], c, Join(tail, [c]));
      assert ws == [ws[0]] + tail;
    }
  }

  // ---------------------------------------------------------------------
  // Splitting on runs of white space (s.trim().split(/\s+/))
  // ---------------------------------------------------------------------

  /** The longest prefix of `s` without white space. */
  function Word(s: string): (w: string)
    ensures |w| <= |s| && w == s[..|w|] && NoSpace(w)
    ensures |w| == |s| || IsSpace(s[|w|])
    decreases |s|
  {
    if |s| == 0 || IsSpace(s[0]) then ""
    else
      var w := Word(s[1..]);
      assert [s[0]] + s[1..][..|w|] == s[..|w| + 1];
      [s[0]] + w
  }

  /** The maximal runs of non-white-space characters of `s`, in order. */
  function Tokens(s: string): seq<string>
    decreases |s|
  {
    var t := TrimStart(s);
    if t == [] then []
    else
      var w := Word(t);
      assert |w| > 0;
      [w] + Tokens(t[|w|..])
  }

  /** `s.trim().split(/\s+/)`: a blank input gives one empty token. */
  function WhitespaceSplit(s: string): (r: seq<string>)
    ensures |r| >= 1
  {
    var t := Trim(s);
    if t == [] then [""] else
      assert !IsSpace(t[0]);
      assert Word(t) != [];
      Tokens(t)
  }

  lemma TokensAfterSpace(c: char, s: string)
    requires IsSpace(c)
    ensures Tokens([c] + s) == Tokens(s)
  {
    assert ([c] + s)[1..] == s;
  }

  lemma {:induction false} WordOfJoin(a: string, b: string)
    requires NoSpace(a)
    requires b == [] || IsSpace(b[0])
    ensures Word(a + b) == a
    decreases |a|
  {
    if |a| > 0 {
      assert (a + b)[1..] == a[1..] + b;
      WordOfJoin(a[1..], b);
      assert [a[0]] + a[1..] == a;
    } else {
      assert a + b == b;
    }
  }

  lemma TokensOfWord(w: string)
    requires |w| > 0 && NoSpace(w)
    ensures Tokens(w) == [w]
  {
    assert TrimStart(w) == w;
    WordOfJoin(w, "");
    assert w + "" == w;
    assert w[|w|..] == [];
  }

  lemma TokensOfWordThenSpace(w: string, rest: string)
    requires |w| > 0 && NoSpace(w)
    ensures Tokens(w + " " + rest) == [w] + Tokens(rest)
  {
    var s := w + " " + rest;
    assert TrimStart(s) == s by { assert s[0] == w[0]; }
    assert s == w + (" " + rest);
    WordOfJoin(w, " " + rest);
    assert s[|w|..] == " " + rest;
    TokensAfterSpace(' ', rest);
  }

  /** Re-splitting words joined with single spaces gives the words back. */
  lemma {:induction false} TokensOfJoin(ws: seq<string>)
    requires forall i :: 0 <= i < |ws| ==> |ws[i]| > 0 && NoSpace(ws[i])
    ensures Tokens(Join(ws, " ")) == ws
    decreases |ws|
  {
    if |ws| == 1 {
      TokensOfWord(ws[0]);
    } else if |ws| > 1 {
      var tail := ws[1..];
      var rest := Join(tail, " ");
      assert Join(ws, " ") == ws[0] + " " + rest;
      TokensOfWordThenSpace(ws[0], rest);
      assert forall i :: 0 <= i < |tail| ==> tail[i] == ws[i + 1];
      TokensOfJoin(tail);
      assert Tokens(rest) == tail;
      assert ws == [ws[0]] + tail;
    }
  }

  /** A join starts with the first piece's first character when that piece is not empty. */
  lemma JoinFirst(ws: seq<string>, sep: string)
    requires |ws| > 0 && |ws[0]| > 0
    ensures |Join(ws, sep)| > 0 && Join(ws, sep)[0] == ws[0][0]
  {
    if |ws| > 1 {
      assert Join(ws, sep) == ws[0] + sep + Join(ws[1..], sep);
    }
  }

  /** A join ends with the last piece's last character when that piece is not empty. */
  lemma {:induction false} JoinLast(ws: seq<string>, sep: string)
    requires |ws| > 0 && |ws[|ws| - 1]| > 0
    ensures var j := Join(ws, sep);
      |j| > 0 && j[|j| - 1] == ws[|ws| - 1][|ws[|ws| - 1]| - 1]
    decreases |ws|
  {
    if |ws| > 1 {
      var tail := ws[1..];
      assert tail[|tail| - 1] == ws[|ws| - 1];
      JoinLast(tail, sep);
      assert Join(ws, sep) == ws[0] + sep + Join(tail, sep);
    }
  }

  /** Words joined with single spaces split back, on white space, into the same words. */
  lemma WhitespaceSplitOfJoin(ws: seq<string>)
    requires |ws| > 0 && forall i :: 0 <= i < |ws| ==> |ws[i]| > 0 && NoSpace(ws[i])
    ensures WhitespaceSplit(Join(ws, " ")) == ws
  {
    var j := Join(ws, " ");
    JoinFirst(ws, " ");
    JoinLast(ws, " ");
    var last := ws[|ws| - 1];
    assert !IsSpace(j[0]) by { assert j[0] == ws[0][0]; }
    assert !IsSpace(j[|j| - 1]) by { assert j[|j| - 1] == last[|last| - 1]; }
    assert TrimStart(j) == j;
    assert TrimEnd(j) == j;
    TokensOfJoin(ws);
  }

  // ---------------------------------------------------------------------
  // Integers: rendering and parseInt(s, 10)
  // ---------------------------------------------------------------------

  predicate IsDigit(c: char) {
    '0' <= c <= '9'
  }

  function DigitChar(d: nat): char
    requires d < 10
  {
    ('0' as int + d) as char
  }

  function DigitValue(c: char): nat
    requires IsDigit(c)
  {
    c as int - '0' as int
  }

  /** Decimal rendering of a natural number, without leading zeros. */
  function NatToString(n: nat): (s: string)
    ensures |s| > 0 && forall i :: 0 <= i < |s| ==> IsDigit(s[i])
    decreases n
  {
    if n < 10 then [DigitChar(n)] else NatToString(n / 10) + [DigitChar(n % 10)]
  }

  /** `${i}` for an integer. */
  function IntToString(i: int): string {
    if i < 0 then "-" + NatToString(-i) else NatToString(i)
  }

  /** The value of a string of decimal digits. */
  function DigitsValue(d: string): nat
    requires forall i :: 0 <= i < |d| ==> IsDigit(d[i])
    decreases |d|
  {
    if |d| == 0 then 0 else DigitsValue(d[..|d| - 1]) * 10 + DigitValue(d[|d| - 1])
  }

  /** The longest prefix of decimal digits. */
  function DigitPrefix(s: string): (d: string)
    ensures |d| <= |s| && d == s[..|d|]
    ensures forall i :: 0 <= i < |d| ==> IsDigit(s[i])
    ensures |d| == |s| || !IsDigit(s[|d|])
    decreases |s|
  {
    if |s| == 0 || !IsDigit(s[0]) then ""
    else
      var d := DigitPrefix(s[1..]);
      assert [s[0]] + s[1..][..|d|] == s[..|d| + 1];
      [s[0]] + d
  }

  /**
    `parseInt(s, 10)`: skip leading white space, read an optional sign and
    the longest run of digits; `None` stands for NaN (no digit at all). The
    value is exact: JavaScript's double agrees with it below 2^53 only.
  */
  function ParseInt(s: string): Option<int> {
    var t := TrimStart(s);
    if |t| > 0 && (t[0] == '-' || t[0] == '+') then
      var d := DigitPrefix(t[1..]);
      if d == [] then None
      else
        var v: int := DigitsValue(d);
        Some(if t[0] == '-' then -v else v)
    else
      var d := DigitPrefix(t);
      if d == [] then None else Some(DigitsValue(d))
  }

  lemma {:induction false} DigitsValueOfNat(n: nat)
    ensures DigitsValue(NatToString(n)) == n
    decreases n
  {
    var s := NatToString(n);
    if n >= 10 {
      DigitsValueOfNat(n / 10);
      assert s[..|s| - 1] == NatToString(n / 10);
    }
  }

  lemma DigitPrefixAll(s: string)
    requires forall i :: 0 <= i < |s| ==> IsDigit(s[i])
    ensures DigitPrefix(s) == s
  {
    var d := DigitPrefix(s);
  }

  lemma ParseDigits(s: string)
    requires |s| > 0 && forall i :: 0 <= i < |s| ==> IsDigit(s[i])
    ensures ParseInt(s) == Some(DigitsValue(s))
  {
    assert !IsSpace(s[0]) && s[0] != '-' && s[0] != '+';
    assert TrimStart(s) == s;
    DigitPrefixAll(s);
  }

  lemma ParseNegativeDigits(t: string)
    requires |t| > 1 && t[0] == '-'
    requires forall i :: 1 <= i < |t| ==> IsDigit(t[i])
    ensures ParseInt(t) == Some(-(DigitsValue(t[1..]) as int))
  {
    assert TrimStart(t) == t;
    DigitPrefixAll(t[1..]);
  }

  /** Rendering an integer and parsing it back with parseInt gives the integer. */
  lemma ParseIntOfIntToString(i: int)
    ensures ParseInt(IntToString(i)) == Some(i)
  {
    if i < 0 {
      ParseNegative(-i);
    } else {
      ParseDigits(NatToString(i));
      DigitsValueOfNat(i);
    }
  }

  lemma ParseNegative(n: nat)
    ensures ParseInt("-" + NatToString(n)) == Some(-(n as int))
  {
    var d := NatToString(n);
    var t := "-" + d;
    assert t[1..] == d;
    forall k | 1 <= k < |t| ensures IsDigit(t[k]) {
      assert t[k] == d[k - 1];
    }
    ParseNegativeDigits(t);
    DigitsValueOfNat(n);
  }

  // ---------------------------------------------------------------------
  // UTF-8 length (len(s.encode('utf-8')))
  // ---------------------------------------------------------------------

  function Utf8Width(c: char): nat {
    if c as int < 0x80 then 1
    else if c as int < 0x800 then 2
    else if c as int < 0x10000 then 3
    else 4
  }

  /** The number of bytes of the UTF-8 encoding of `s`. */
  function Utf8Length(s: string): (n: nat)
    ensures |s| <= n <= 4 * |s|
    decreases |s|
  {
    if |s| == 0 then 0 else Utf8Width(s[0]) + Utf8Length(s[1..])
  }

  /** ASCII text has as many UTF-8 bytes as characters. */
  lemma {:induction false} Utf8LengthAscii(s: string)
    requires forall i :: 0 <= i < |s| ==> s[i] as int < 0x80
    ensures Utf8Length(s) == |s|
    decreases |s|
  {
    if |s| > 0 { Utf8LengthAscii(s[1..]); }
  }

  /** JavaScript's `length`: UTF-16 code units, two for a character outside the basic plane. */
  function Utf16Length(s: string): (n: nat)
    ensures |s| <= n <= 2 * |s|
    decreases |s|
  {
    if |s| == 0 then 0 else (if s[0] as int < 0x10000 then 1 else 2) + Utf16Length(s[1..])
  }

  // ---------------------------------------------------------------------
  // Python's str.replace(pat, rep): every non-overlapping occurrence, left to right
  // ---------------------------------------------------------------------

  function ReplaceAll(s: string, pat: string, rep: string): string
    requires |pat| > 0
    decreases |s|
  {
    if |s| == 0 then ""
    else if pat <= s then rep + ReplaceAll(s[|pat|..], pat, rep)
    else [s[0]] + ReplaceAll(s[1..], pat, rep)
  }

  /** A text in which the pattern does not occur is returned unchanged. */
  lemma {:induction false} ReplaceAllAbsent(s: string, pat: string, rep: string)
    requires |pat| > 0 && !Contains(s, pat)
    ensures ReplaceAll(s, pat, rep) == s
    decreases |s|
  {
    if |s| > 0 {
      ReplaceAllAbsent(s[1..], pat, rep);
      assert [s[0]] + s[1..] == s;
    }
  }
}
