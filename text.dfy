/**
 * String helpers shared by the front end (JavaScript semantics) and the
 * back end (Python semantics): whitespace classes, trimming, splitting on a
 * separator and joining back, Python's argument-less `split()`, lower-casing,
 * substring search and decimal rendering of naturals.
 */
module Text {

  type String = seq<char>

  /** Whose notion of "white space" a trim or split uses. */
  datatype Flavor = JavaScript | Python

  /** ECMAScript WhiteSpace and LineTerminator: what `String.prototype.trim` and `\s` remove or match. */
  const JavaScriptSpaces: String :=
    " \t\n\U{000B}\U{000C}\r\U{00A0}\U{1680}"
    + "\U{2000}\U{2001}\U{2002}\U{2003}\U{2004}\U{2005}\U{2006}\U{2007}\U{2008}\U{2009}\U{200A}"
    + "\U{2028}\U{2029}\U{202F}\U{205F}\U{3000}\U{FEFF}"

  /** Python `str.isspace`: the JavaScript set without U+FEFF, plus U+001C..U+001F and U+0085. */
  const PythonSpaces: String :=
    " \t\n\U{000B}\U{000C}\r\U{001C}\U{001D}\U{001E}\U{001F}\U{0085}\U{00A0}\U{1680}"
    + "\U{2000}\U{2001}\U{2002}\U{2003}\U{2004}\U{2005}\U{2006}\U{2007}\U{2008}\U{2009}\U{200A}"
    + "\U{2028}\U{2029}\U{202F}\U{205F}\U{3000}"

  /** Membership by linear search, so that the solver looks into the class only when a proof needs it. */
  predicate Listed(c: char, cs: String)
    decreases |cs|
  {
    |cs| > 0 && (cs[0] == c || Listed(c, cs[1..]))
  }

  lemma {:induction false} ListedIsMember(c: char, cs: String)
    ensures Listed(c, cs) <==> c in cs
    decreases |cs|
  {
    if |cs| > 0 {
      ListedIsMember(c, cs[1..]);
      assert cs == [cs[0]] + cs[1..];
    }
  }

  /** Whether c is white space to `trim`/`strip`/`split()` in the given language. */
  predicate IsSpace(k: Flavor, c: char)
  {
    Listed(c, if k == JavaScript then JavaScriptSpaces else PythonSpaces)
  }

  predicate AllSpace(k: Flavor, s: String)
  {
    forall i :: 0 <= i < |s| ==> IsSpace(k, s[i])
  }

  /** The number of white-space characters s starts with. */
  function LeadingSpaces(k: Flavor, s: String): (n: nat)
    ensures n <= |s|
    decreases |s|
  {
    if |s| > 0 && IsSpace(k, s[0]) then 1 + LeadingSpaces(k, s[1..]) else 0
  }

  /** The leading run is all white space and is maximal. */
  lemma {:induction false} LeadingSpacesRun(k: Flavor, s: String)
    ensures var n := LeadingSpaces(k, s);
      (forall j :: 0 <= j < n ==> IsSpace(k, s[j])) && (n < |s| ==> !IsSpace(k, s[n]))
    decreases |s|
  {
    if |s| > 0 && IsSpace(k, s[0]) {
      LeadingSpacesRun(k, s[1..]);
      assert forall j :: 1 <= j < |s| ==> s[j] == s[1..][j - 1];
    }
  }

  /** The number of white-space characters s ends with. */
  function TrailingSpaces(k: Flavor, s: String): (n: nat)
    ensures n <= |s|
    decreases |s|
  {
    if |s| > 0 && IsSpace(k, s[|s| - 1]) then 1 + TrailingSpaces(k, s[..|s| - 1]) else 0
  }

  /** The trailing run is all white space and is maximal. */
  lemma {:induction false} TrailingSpacesRun(k: Flavor, s: String)
    ensures var n := TrailingSpaces(k, s);
      (forall j :: |s| - n <= j < |s| ==> IsSpace(k, s[j])) && (n < |s| ==> !IsSpace(k, s[|s| - n - 1]))
    decreases |s|
  {
    if |s| > 0 && IsSpace(k, s[|s| - 1]) {
      TrailingSpacesRun(k, s[..|s| - 1]);
      assert forall j :: 0 <= j < |s| - 1 ==> s[j] == s[..|s| - 1][j];
    }
  }

  /** JavaScript `trimStart`, Python `lstrip`. */
  function TrimStart(k: Flavor, s: String): String
  {
    s[LeadingSpaces(k, s)..]
  }

  /** JavaScript `trimEnd`, Python `rstrip`. */
  function TrimEnd(k: Flavor, s: String): String
  {
    s[..|s| - TrailingSpaces(k, s)]
  }

  /** JavaScript `s.trim()` and Python `s.strip()`: both ends. */
  function Trim(k: Flavor, s: String): String
  {
    var i := LeadingSpaces(k, s);
    s[i..|s| - TrailingSpaces(k, s[i..])]
  }

  /** The trailing white space of a suffix of s, located in s. */
  lemma TrailingRunOfSuffix(k: Flavor, s: String, i: nat)
    requires i <= |s|
    ensures var m := TrailingSpaces(k, s[i..]);
      (forall j :: |s| - m <= j < |s| ==> IsSpace(k, s[j])) && (i + m < |s| ==> !IsSpace(k, s[|s| - m - 1]))
  {
    var t := s[i..];
    TrailingSpacesRun(k, t);
    forall j | i <= j < |s| ensures s[j] == t[j - i] {
    }
  }

  /** Trimming both ends is trimming the start, then the end. */
  lemma TrimIsBothEnds(k: Flavor, s: String)
    ensures Trim(k, s) == TrimEnd(k, TrimStart(k, s))
  {
  }

  /**
   * The trimmed string is the middle of s and everything before it and after
   * it is white space.
   */
  lemma TrimIsMiddle(k: Flavor, s: String)
    ensures LeadingSpaces(k, s) + |Trim(k, s)| <= |s|
    ensures Trim(k, s) == s[LeadingSpaces(k, s)..LeadingSpaces(k, s) + |Trim(k, s)|]
    ensures forall j :: 0 <= j < LeadingSpaces(k, s) ==> IsSpace(k, s[j])
    ensures forall j :: LeadingSpaces(k, s) + |Trim(k, s)| <= j < |s| ==> IsSpace(k, s[j])
  {
    LeadingSpacesRun(k, s);
    TrailingRunOfSuffix(k, s, LeadingSpaces(k, s));
  }

  /** The trimmed string neither starts nor ends with white space. */
  lemma TrimEndsAreNotSpace(k: Flavor, s: String)
    ensures var r := Trim(k, s);
      r == [] || (!IsSpace(k, r[0]) && !IsSpace(k, r[|r| - 1]))
  {
    var i := LeadingSpaces(k, s);
    var r := Trim(k, s);
    if r != [] {
      LeadingSpacesRun(k, s);
      TrailingRunOfSuffix(k, s, i);
      assert r[0] == s[i];
      assert r[|r| - 1] == s[i + |r| - 1];
    }
  }

  /** A string that neither starts nor ends with white space is its own trim. */
  lemma TrimUntouched(k: Flavor, s: String)
    requires s == [] || (!IsSpace(k, s[0]) && !IsSpace(k, s[|s| - 1]))
    ensures Trim(k, s) == s
  {
    assert LeadingSpaces(k, s) == 0;
    assert s[0..] == s;
  }

  /** A string is blank (trims to nothing) exactly when every character is white space. */
  lemma BlankIffAllSpace(k: Flavor, s: String)
    ensures Trim(k, s) == [] <==> AllSpace(k, s)
  {
    TrimIsMiddle(k, s);
    TrimEndsAreNotSpace(k, s);
    var r := Trim(k, s);
    if r != [] {
      assert r[0] == s[LeadingSpaces(k, s)];
    }
  }

  // ---------------------------------------------------------------------------
  // Splitting on an explicit separator and joining back
  // ---------------------------------------------------------------------------

  predicate StartsWith(s: String, prefix: String)
  {
    |prefix| <= |s| && s[..|prefix|] == prefix
  }

  /**
   * Python's `s.split(sep)` (and JavaScript's `s.split(sep)`) for a non-empty
   * separator: the leftmost occurrence is cut first, occurrences do not
   * overlap, and empty pieces are kept.
   */
  function SplitOn(s: String, sep: String): (parts: seq<String>)
    requires |sep| > 0
    ensures |parts| >= 1
    decreases |s|
  {
    if |s| < |sep| then [s]
    else if StartsWith(s, sep) then [[]] + SplitOn(s[|sep|..], sep)
    else
      var rest := SplitOn(s[1..], sep);
      [[s[0]] + rest[0]] + rest[1..]
  }

  /** Python's `sep.join(parts)` / JavaScript's `parts.join(sep)`. */
  function Join(parts: seq<String>, sep: String): String
  {
    if |parts| == 0 then []
    else if |parts| == 1 then parts[0]
    else parts[0] + sep + Join(parts[1..], sep)
  }

  /** The step of JoinSplitOn where s starts with the separator. */
  lemma JoinSplitOnSeparator(s: String, sep: String)
    requires |sep| > 0 && |s| >= |sep| && StartsWith(s, sep)
    requires Join(SplitOn(s[|sep|..], sep), sep) == s[|sep|..]
    ensures Join(SplitOn(s, sep), sep) == s
  {
    var rest := SplitOn(s[|sep|..], sep);
    assert SplitOn(s, sep) == [[]] + rest;
    assert ([[]] + rest)[1..] == rest;
    assert s == s[..|sep|] + s[|sep|..];
  }

  /** Gluing a character to the front of the first piece glues it to the front of the join. */
  lemma JoinConsHead(c: char, rest: seq<String>, sep: String)
    requires |rest| >= 1
    ensures Join([[c] + rest[0]] + rest[1..], sep) == [c] + Join(rest, sep)
  {
    var parts := [[c] + rest[0]] + rest[1..];
    if |rest| > 1 {
      assert parts[1..] == rest[1..];
      assert parts[0] + sep + Join(rest[1..], sep) == [c] + (rest[0] + sep + Join(rest[1..], sep));
    }
  }

  /** Joining the pieces of a split with the same separator gives back the input. */
  lemma {:induction false} JoinSplitOn(s: String, sep: String)
    requires |sep| > 0
    ensures Join(SplitOn(s, sep), sep) == s
    decreases |s|
  {
    if |s| < |sep| {
    } else if StartsWith(s, sep) {
      JoinSplitOn(s[|sep|..], sep);
      JoinSplitOnSeparator(s, sep);
    } else {
      JoinSplitOn(s[1..], sep);
      JoinConsHead(s[0], SplitOn(s[1..], sep), sep);
      assert s == [s[0]] + s[1..];
    }
  }

  /** Joining two non-empty lists of pieces is joining their joins. */
  lemma {:induction false} JoinAppend(a: seq<String>, b: seq<String>, sep: String)
    requires |a| > 0 && |b| > 0
    ensures Join(a + b, sep) == Join(a, sep) + sep + Join(b, sep)
    decreases |a|
  {
    if |a| == 1 {
      assert (a + b)[1..] == b;
    } else {
      assert (a + b)[1..] == a[1..] + b;
      JoinAppend(a[1..], b, sep);
    }
  }

  /** How many times a character occurs. */
  function Count(s: String, c: char): nat
  {
    if |s| == 0 then 0 else (if s[0] == c then 1 else 0) + Count(s[1..], c)
  }

  /** Splitting on one character gives one more piece than it has occurrences. */
  lemma {:induction false} SplitOnCharCount(s: String, c: char)
    ensures |SplitOn(s, [c])| == Count(s, c) + 1
    decreases |s|
  {
    if |s| == 0 {
    } else {
      SplitOnCharCount(s[1..], c);
      if s[0] == c {
        assert StartsWith(s, [c]);
      } else {
        assert !StartsWith(s, [c]);
      }
    }
  }

  /** No piece of a split on one character contains that character. */
  lemma {:induction false} SplitOnCharPiecesFree(s: String, c: char)
    ensures forall i :: 0 <= i < |SplitOn(s, [c])| ==> c !in SplitOn(s, [c])[i]
    decreases |s|
  {
    if |s| == 0 {
    } else {
      SplitOnCharPiecesFree(s[1..], c);
      if s[0] == c {
        assert StartsWith(s, [c]);
      } else {
        assert !StartsWith(s, [c]);
      }
    }
  }

  /** A string without the separator character splits into itself alone. */
  lemma {:induction false} SplitOnCharAbsent(s: String, c: char)
    requires c !in s
    ensures SplitOn(s, [c]) == [s]
    decreases |s|
  {
    if |s| > 0 {
      assert s[0] in s;
      assert !StartsWith(s, [c]);
      SplitOnCharAbsent(s[1..], c);
      assert s == [s[0]] + s[1..];
    }
  }

  /** A first piece free of the separator character comes off as the first piece of the split. */
  lemma {:induction false} SplitOnCharFirst(a: String, c: char, rest: String)
    requires c !in a
    ensures SplitOn(a + [c] + rest, [c]) == [a] + SplitOn(rest, [c])
    decreases |a|
  {
    var s := a + [c] + rest;
    if |a| == 0 {
      assert s == [c] + rest;
      assert StartsWith(s, [c]);
      assert s[1..] == rest;
    } else {
      assert a[0] in a;
      assert s[0] == a[0];
      assert !StartsWith(s, [c]);
      assert s[1..] == a[1..] + [c] + rest;
      SplitOnCharFirst(a[1..], c, rest);
      assert a == [a[0]] + a[1..];
    }
  }

  /** Counting in a concatenation adds the counts. */
  lemma {:induction false} CountAppend(a: String, b: String, c: char)
    ensures Count(a + b, c) == Count(a, c) + Count(b, c)
    decreases |a|
  {
    if |a| == 0 {
      assert a + b == b;
    } else {
      assert (a + b)[1..] == a[1..] + b;
      CountAppend(a[1..], b, c);
    }
  }

  /** The occurrences of c in all the pieces together. */
  function CountAll(parts: seq<String>, c: char): nat
    decreases |parts|
  {
    if |parts| == 0 then 0 else Count(parts[0], c) + CountAll(parts[1..], c)
  }

  /** Joining with the character c adds one occurrence of c between each two pieces. */
  lemma {:induction false} JoinCharCount(parts: seq<String>, c: char)
    requires |parts| >= 1
    ensures Count(Join(parts, [c]), c) == |parts| - 1 + CountAll(parts, c)
    decreases |parts|
  {
    if |parts| > 1 {
      JoinCharCount(parts[1..], c);
      CountAppend(parts[0] + [c], Join(parts[1..], [c]), c);
      CountAppend(parts[0], [c], c);
    } else {
      assert CountAll(parts, c) == Count(parts[0], c) + CountAll([], c);
    }
  }

  /** A character absent from the pieces and from the separator is absent from the join. */
  lemma {:induction false} JoinAbsent(parts: seq<String>, sep: String, c: char)
    requires c !in sep && forall i :: 0 <= i < |parts| ==> c !in parts[i]
    ensures c !in Join(parts, sep)
    decreases |parts|
  {
    if |parts| > 1 {
      JoinAbsent(parts[1..], sep, c);
    }
  }

  // ---------------------------------------------------------------------------
  // Python's argument-less `str.split()`: the maximal runs of non-space
  // ---------------------------------------------------------------------------

  /** The longest prefix containing no white space. */
  function TakeWord(s: String): (w: String)
    ensures |w| <= |s| && w == s[..|w|]
    ensures forall i :: 0 <= i < |w| ==> !IsSpace(Python, w[i])
    ensures |w| == |s| || IsSpace(Python, s[|w|])
    ensures |s| > 0 && !IsSpace(Python, s[0]) ==> |w| > 0
    decreases |s|
  {
    if |s| == 0 || IsSpace(Python, s[0]) then [] else [s[0]] + TakeWord(s[1..])
  }

  /** `s.split()`: the maximal runs of non-white-space characters of s, in order. */
  function Words(s: String): seq<String>
    decreases |s|
  {
    var t := TrimStart(Python, s);
    if t == [] then []
    else
      LeadingSpacesRun(Python, s);
      var w := TakeWord(t);
      assert t[0] == s[LeadingSpaces(Python, s)];
      assert |w| > 0;
      [w] + Words(t[|w|..])
  }

  function WordCount(s: String): nat
  {
    |Words(s)|
  }

  // ---------------------------------------------------------------------------
  // Case and search
  // ---------------------------------------------------------------------------

  /** Lower-cases A-Z and the Latin-1 capitals (except the multiplication sign). */
  function LowerChar(c: char): (r: char)
    ensures ('A' <= c <= 'Z') ==> ('a' <= r <= 'z')
    ensures !('A' <= c <= 'Z') && !('\U{00C0}' <= c <= '\U{00DE}') ==> r == c
  {
    if 'A' <= c <= 'Z' || ('\U{00C0}' <= c <= '\U{00DE}' && c != '\U{00D7}') then
      (c as int + 32) as char
    else c
  }

  function Lower(s: String): (r: String)
    ensures |r| == |s|
    ensures forall i :: 0 <= i < |s| ==> r[i] == LowerChar(s[i])
  {
    seq(|s|, i requires 0 <= i < |s| => LowerChar(s[i]))
  }

  /** `sub in s` (Python) / `s.includes(sub)` (JavaScript). */
  predicate Contains(s: String, sub: String)
    decreases |s|
  {
    StartsWith(s, sub) || (|s| > 0 && Contains(s[1..], sub))
  }

  /** sub occurs in s starting at offset i. */
  ghost predicate OccursAt(s: String, sub: String, i: int)
  {
    0 <= i && i + |sub| <= |s| && s[i..i + |sub|] == sub
  }

  /** Contains means: sub occurs at some offset. */
  lemma {:induction false} ContainsIffOccurs(s: String, sub: String)
    ensures Contains(s, sub) <==> exists i :: OccursAt(s, sub, i)
    decreases |s|
  {
    if StartsWith(s, sub) {
      assert OccursAt(s, sub, 0);
    } else if |s| > 0 {
      ContainsIffOccurs(s[1..], sub);
      if exists i :: OccursAt(s, sub, i) {
        var i :| OccursAt(s, sub, i);
        assert i != 0;
        assert OccursAt(s[1..], sub, i - 1);
      }
      if exists i :: OccursAt(s[1..], sub, i) {
        var i :| OccursAt(s[1..], sub, i);
        assert s[1..][i..i + |sub|] == s[i + 1..i + 1 + |sub|];
        assert OccursAt(s, sub, i + 1);
      }
    }
  }

  // ---------------------------------------------------------------------------
  // Decimal digits
  // ---------------------------------------------------------------------------

  function DigitChar(d: nat): char
    requires d < 10
  {
    ('0' as int + d) as char
  }

  /** `n.toString()` / `str(n)` for a natural number. */
  function NatToString(n: nat): (r: String)
    ensures |r| > 0
    ensures forall i :: 0 <= i < |r| ==> '0' <= r[i] <= '9'
    decreases n
  {
    if n < 10 then [DigitChar(n)] else NatToString(n / 10) + [DigitChar(n % 10)]
  }

  /** Reads a string of decimal digits back. */
  function ParseDigits(s: String): nat
    requires forall i :: 0 <= i < |s| ==> '0' <= s[i] <= '9'
    decreases |s|
  {
    if |s| == 0 then 0
    else 10 * ParseDigits(s[..|s| - 1]) + (s[|s| - 1] as int - '0' as int)
  }

  /** Reading the decimal rendering back gives the number. */
  lemma {:induction false} ParseNatToString(n: nat)
    ensures ParseDigits(NatToString(n)) == n
    decreases n
  {
    if n >= 10 {
      ParseNatToString(n / 10);
      var s := NatToString(n);
      assert s[..|s| - 1] == NatToString(n / 10);
    }
  }

  /** Numbers of at least ten have at least two digits, and no rendering starts with a superfluous zero. */
  lemma {:induction false} NatToStringShape(n: nat)
    ensures n < 10 <==> |NatToString(n)| == 1
    ensures n > 0 ==> NatToString(n)[0] != '0'
    decreases n
  {
    if n >= 10 {
      NatToStringShape(n / 10);
    }
  }
}
