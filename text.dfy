/** Python string operations the contract analyser relies on, on ASCII text:
    `upper`/`lower`, `in`, `startswith`, `split`, `join`, `strip`, `split(sep, 1)`,
    `count`, `str(int)` and the `stem`/`suffix` of a path. */
module Text {

  /** `str.isspace()` for ASCII: space, \t \n \v \f \r and the separators 0x1c-0x1f. */
  predicate IsSpace(c: char) {
    c == ' ' || 9 <= c as int <= 13 || 28 <= c as int <= 31
  }

  function UpperChar(c: char): char {
    if 'a' <= c <= 'z' then (c as int - 32) as char else c
  }

  function LowerChar(c: char): char {
    if 'A' <= c <= 'Z' then (c as int + 32) as char else c
  }

  /** `s.upper()` (ASCII letters only). */
  function Upper(s: string): (r: string)
    ensures |r| == |s|
  {
    seq(|s|, i requires 0 <= i < |s| => UpperChar(s[i]))
  }

  /** `s.lower()` (ASCII letters only). */
  function Lower(s: string): (r: string)
    ensures |r| == |s|
  {
    seq(|s|, i requires 0 <= i < |s| => LowerChar(s[i]))
  }

  lemma UpperAppend(a: string, b: string)
    ensures Upper(a + b) == Upper(a) + Upper(b)
  {
    assert forall i | 0 <= i < |a + b| :: Upper(a + b)[i] == (Upper(a) + Upper(b))[i];
  }

  lemma UpperSlice(s: string, i: int, j: int)
    requires 0 <= i <= j <= |s|
    ensures Upper(s[i..j]) == Upper(s)[i..j]
  {
  }

  /** `p` occurs in `s` starting at index `i`. */
  predicate OccursAt(s: string, p: string, i: int) {
    0 <= i && i + |p| <= |s| && s[i..i + |p|] == p
  }

  /** `p in s`. */
  predicate Contains(s: string, p: string) {
    exists i | 0 <= i <= |s| - |p| :: OccursAt(s, p, i)
  }

  /** `s.startswith(p)`. */
  predicate StartsWith(s: string, p: string) {
    |p| <= |s| && s[..|p|] == p
  }

  /** A pattern without `sep` that occurs in `a + [sep] + b` occurs in `a` or in `b`. */
  lemma ContainsAcrossSeparator(a: string, sep: char, b: string, p: string)
    requires sep !in p
    requires Contains(a + [sep] + b, p)
    ensures Contains(a, p) || Contains(b, p)
  {
    var s := a + [sep] + b;
    var i :| 0 <= i <= |s| - |p| && OccursAt(s, p, i);
    if i + |p| <= |a| {
      assert a[i..i + |p|] == s[i..i + |p|];
      assert OccursAt(a, p, i);
    } else if i > |a| {
      assert b[i - |a| - 1..i - |a| - 1 + |p|] == s[i..i + |p|];
      assert OccursAt(b, p, i - |a| - 1);
    } else {
      SeparatorInsideOccurrence(s, p, i, |a|);
      assert false;
    }
  }

  lemma SeparatorInsideOccurrence(s: string, p: string, i: int, at: int)
    requires OccursAt(s, p, i) && i <= at < i + |p|
    ensures s[at] in p
  {
    assert s[i..i + |p|][at - i] == s[at];
  }

  /** An occurrence inside a slice is an occurrence in the whole string. */
  lemma ContainsSlice(s: string, i: int, j: int, p: string)
    requires 0 <= i <= j <= |s|
    requires Contains(s[i..j], p)
    ensures Contains(s, p)
  {
    var k :| 0 <= k <= (j - i) - |p| && OccursAt(s[i..j], p, k);
    forall t | 0 <= t < |p|
      ensures s[i + k..i + k + |p|][t] == p[t]
    {
      assert s[i..j][k..k + |p|][t] == p[t];
    }
    assert s[i + k..i + k + |p|] == p;
    assert OccursAt(s, p, i + k);
  }

  lemma ContainsSliceAt(s: string, i: int, j: int, p: string, k: int)
    requires 0 <= i <= j <= |s|
    requires OccursAt(s[i..j], p, k)
    ensures OccursAt(s, p, i + k)
  {
    forall t | 0 <= t < |p|
      ensures s[i + k..i + k + |p|][t] == p[t]
    {
      assert s[i..j][k..k + |p|][t] == p[t];
    }
  }

  lemma ContainsPrefix(s: string, p: string)
    requires StartsWith(s, p)
    ensures Contains(s, p)
  {
    assert OccursAt(s, p, 0);
  }

  /** Index of the first `c` in `s`. */
  function IndexOf(s: string, c: char): (k: nat)
    requires c in s
    ensures k < |s| && s[k] == c && c !in s[..k]
  {
    if s[0] == c then 0 else 1 + IndexOf(s[1..], c)
  }

  /** `s.rfind(c)`: index of the last `c`, or -1. */
  function LastIndexOf(s: string, c: char): (k: int)
    ensures -1 <= k < |s|
    ensures k == -1 <==> c !in s
    ensures k >= 0 ==> s[k] == c && c !in s[k + 1..]
  {
    if |s| == 0 then -1
    else if s[|s| - 1] == c then |s| - 1
    else
      var k := LastIndexOf(s[..|s| - 1], c);
      assert s[..|s| - 1] + [s[|s| - 1]] == s;
      if k >= 0 then assert s[k + 1..] == s[..|s| - 1][k + 1..] + [s[|s| - 1]]; k else k
  }

  /** `p` is a prefix of `s`, compared character by character. */
  predicate PrefixOf(p: string, s: string) {
    p == [] || (s != [] && p[0] == s[0] && PrefixOf(p[1..], s[1..]))
  }

  lemma {:induction false} PrefixOfStarts(p: string, s: string)
    ensures PrefixOf(p, s) <==> |p| <= |s| && s[..|p|] == p
  {
    if p != [] && s != [] {
      PrefixOfStarts(p[1..], s[1..]);
      if |p| <= |s| {
        assert s[..|p|] == [s[0]] + s[1..][..|p| - 1];
        assert p == [p[0]] + p[1..];
      }
    }
  }

  /** Index of the first occurrence of `p` in `s`, or -1 (`s.find(p)`). That it is the
      first occurrence is the lemma `FindFirst`, called where it is needed. */
  function Find(s: string, p: string): (k: int)
    ensures k == -1 || (0 <= k && k + |p| <= |s|)
    decreases |s|
  {
    if |s| < |p| then -1
    else if PrefixOf(p, s) then 0
    else
      var k := Find(s[1..], p);
      if k < 0 then -1 else k + 1
  }

  /** `Find` gives -1 exactly when `p` does not occur, and otherwise the first index
      where it occurs. */
  lemma {:induction false} FindFirst(s: string, p: string)
    ensures Find(s, p) == -1 <==> !Contains(s, p)
    ensures Find(s, p) >= 0 ==> OccursAt(s, p, Find(s, p)) && forall j :: 0 <= j < Find(s, p) ==> !OccursAt(s, p, j)
    decreases |s|
  {
    PrefixOfStarts(p, s);
    if |s| < |p| {
    } else if PrefixOf(p, s) {
      assert OccursAt(s, p, 0);
    } else {
      FindFirst(s[1..], p);
      FindShift(s, p, Find(s[1..], p));
    }
  }

  /** Where `Find` answers, `p` occurs. */
  lemma FindOccurs(s: string, p: string)
    requires Find(s, p) >= 0
    ensures OccursAt(s, p, Find(s, p))
  {
    FindFirst(s, p);
  }

  lemma FindShift(s: string, p: string, k: int)
    requires |s| >= |p| && s[..|p|] != p
    requires -1 <= k <= |s| - 1
    requires k == -1 <==> !Contains(s[1..], p)
    requires k >= 0 ==> OccursAt(s[1..], p, k) && forall j :: 0 <= j < k ==> !OccursAt(s[1..], p, j)
    ensures k == -1 <==> !Contains(s, p)
    ensures k >= 0 ==> OccursAt(s, p, k + 1) && forall j :: 0 <= j < k + 1 ==> !OccursAt(s, p, j)
  {
    forall j | 1 <= j
      ensures OccursAt(s, p, j) <==> OccursAt(s[1..], p, j - 1)
    {
      if j + |p| <= |s| {
        assert s[1..][j - 1..j - 1 + |p|] == s[j..j + |p|];
      }
    }
    assert !OccursAt(s, p, 0);
    if Contains(s, p) {
      var i :| 0 <= i <= |s| - |p| && OccursAt(s, p, i);
      assert OccursAt(s[1..], p, i - 1);
      assert Contains(s[1..], p);
    }
    if k >= 0 {
      assert OccursAt(s, p, k + 1);
      assert Contains(s, p);
    }
  }

  /** `s.split(p, 1)` when `p` occurs: the text before and after the first `p`. */
  function SplitOnce(s: string, p: string): (r: (string, string))
    requires p != [] && Contains(s, p)
    ensures s == r.0 + p + r.1
    ensures !Contains(r.0, p)
  {
    var k := Find(s, p);
    FindFirst(s, p);
    assert s == s[..k] + p + s[k + |p|..];
    FirstOccurrence(s, p, k);
    (s[..k], s[k + |p|..])
  }

  lemma FirstOccurrence(s: string, p: string, k: int)
    requires p != [] && 0 <= k <= |s|
    requires forall j :: 0 <= j < k ==> !OccursAt(s, p, j)
    ensures !Contains(s[..k], p)
  {
    if Contains(s[..k], p) {
      var j :| 0 <= j <= k - |p| && OccursAt(s[..k], p, j);
      ContainsSliceAt(s, 0, k, p, j);
      assert false;
    }
  }

  /** `s.count(c)` for one character. */
  function Count(s: string, c: char): (n: nat)
    ensures n <= |s|
    ensures n == 0 <==> c !in s
  {
    if |s| == 0 then 0 else (if s[0] == c then 1 else 0) + Count(s[1..], c)
  }

  /** `s.split(sep)` for one character: the pieces between separators. */
  function Split(s: string, sep: char): (r: seq<string>)
    ensures |r| >= 1
    ensures forall k :: 0 <= k < |r| ==> sep !in r[k]
    decreases |s|
  {
    if sep !in s then [s]
    else
      var k := IndexOf(s, sep);
      [s[..k]] + Split(s[k + 1..], sep)
  }

  /** `sep.join(parts)`. */
  function Join(parts: seq<string>, sep: string): string {
    if |parts| == 0 then ""
    else if |parts| == 1 then parts[0]
    else parts[0] + sep + Join(parts[1..], sep)
  }

  /** Joining the pieces of a split gives the original text back. */
  lemma {:induction false} JoinSplit(s: string, sep: char)
    ensures Join(Split(s, sep), [sep]) == s
    decreases |s|
  {
    if sep in s {
      var k := IndexOf(s, sep);
      var rest := Split(s[k + 1..], sep);
      JoinSplit(s[k + 1..], sep);
      var parts := [s[..k]] + rest;
      assert Split(s, sep) == parts;
      assert parts[0] == s[..k] && parts[1..] == rest;
      assert Join(parts, [sep]) == s[..k] + [sep] + Join(rest, [sep]);
      assert s == s[..k] + [sep] + s[k + 1..];
    }
  }

  /** Splitting a joined list of separator-free pieces gives the pieces back. */
  lemma {:induction false} SplitJoin(parts: seq<string>, sep: char)
    requires |parts| >= 1
    requires forall k :: 0 <= k < |parts| ==> sep !in parts[k]
    ensures Split(Join(parts, [sep]), sep) == parts
  {
    if |parts| > 1 {
      SplitJoin(parts[1..], sep);
      var s := Join(parts, [sep]);
      assert s == parts[0] + [sep] + Join(parts[1..], [sep]);
      assert sep in s by { assert s[|parts[0]|] == sep; }
      var k := IndexOf(s, sep);
      assert s[..|parts[0]|] == parts[0];
      assert k == |parts[0]|;
      assert s[k + 1..] == Join(parts[1..], [sep]);
    }
  }

  /** Joining text with a separator and one more piece splits into one more piece. */
  lemma SplitAppendLine(body: string, sep: char, line: string)
    requires sep !in line
    ensures Split(body + [sep] + line, sep) == Split(body, sep) + [line]
  {
    var parts := Split(body, sep);
    JoinSplit(body, sep);
    JoinAppend(parts, sep, line);
    SplitJoin(parts + [line], sep);
  }

  lemma {:induction false} JoinAppend(parts: seq<string>, sep: char, line: string)
    requires |parts| >= 1
    ensures Join(parts + [line], [sep]) == Join(parts, [sep]) + [sep] + line
  {
    if |parts| > 1 {
      JoinAppend(parts[1..], sep, line);
      assert (parts + [line])[1..] == parts[1..] + [line];
    }
  }

  /** A pattern without `sep` that occurs in a joined text occurs in one of the pieces. */
  lemma {:induction false} ContainsJoin(parts: seq<string>, sep: char, p: string)
    requires |parts| >= 1
    requires sep !in p
    requires Contains(Join(parts, [sep]), p)
    ensures exists k :: 0 <= k < |parts| && Contains(parts[k], p)
  {
    if |parts| == 1 {
      assert Contains(parts[0], p);
    } else if |parts| > 1 {
      ContainsAcrossSeparator(parts[0], sep, Join(parts[1..], [sep]), p);
      if Contains(parts[0], p) {
        assert 0 < |parts|;
      } else {
        ContainsJoin(parts[1..], sep, p);
        var k :| 0 <= k < |parts| - 1 && Contains(parts[1..][k], p);
        assert Contains(parts[k + 1], p);
      }
    }
  }

  /** Every piece upper-cased. */
  function UpperAll(parts: seq<string>): (r: seq<string>)
    ensures |r| == |parts| && forall k :: 0 <= k < |parts| ==> r[k] == Upper(parts[k])
  {
    seq(|parts|, k requires 0 <= k < |parts| => Upper(parts[k]))
  }

  /** Upper-casing a joined text upper-cases each piece, when the separator has no case. */
  lemma {:induction false} UpperJoin(parts: seq<string>, sep: char)
    requires UpperChar(sep) == sep
    ensures Upper(Join(parts, [sep])) == Join(UpperAll(parts), [sep])
  {
    if |parts| > 1 {
      UpperJoin(parts[1..], sep);
      UpperAppend(parts[0] + [sep], Join(parts[1..], [sep]));
      UpperAppend(parts[0], [sep]);
      assert Upper([sep]) == [sep];
      assert UpperAll(parts)[1..] == UpperAll(parts[1..]);
    }
  }

  /** A pattern that occurs in one piece occurs in the joined text. */
  lemma {:induction false} ContainsInJoin(parts: seq<string>, sep: string, k: int, p: string)
    requires 0 <= k < |parts|
    requires Contains(parts[k], p)
    ensures Contains(Join(parts, sep), p)
  {
    if |parts| > 1 {
      var s := Join(parts, sep);
      var rest := Join(parts[1..], sep);
      assert s == parts[0] + sep + rest;
      if k == 0 {
        assert s[..|parts[0]|] == parts[0];
        ContainsSlice(s, 0, |parts[0]|, p);
      } else {
        ContainsInJoin(parts[1..], sep, k - 1, p);
        assert s[|parts[0]| + |sep|..|s|] == rest;
        ContainsSlice(s, |parts[0]| + |sep|, |s|, p);
      }
    }
  }

  function StripLeft(s: string): string {
    if |s| > 0 && IsSpace(s[0]) then StripLeft(s[1..]) else s
  }

  function StripRight(s: string): string {
    if |s| > 0 && IsSpace(s[|s| - 1]) then StripRight(s[..|s| - 1]) else s
  }

  /** `s.strip()`. */
  function Strip(s: string): string {
    StripRight(StripLeft(s))
  }

  /** What `strip` leaves is a slice of the input that neither starts nor ends with a space. */
  lemma {:induction false} StripLeftIsSuffix(s: string)
    ensures exists i :: 0 <= i <= |s| && StripLeft(s) == s[i..]
    ensures StripLeft(s) == [] || !IsSpace(StripLeft(s)[0])
  {
    if |s| > 0 && IsSpace(s[0]) {
      StripLeftIsSuffix(s[1..]);
      var i :| 0 <= i <= |s[1..]| && StripLeft(s[1..]) == s[1..][i..];
      assert s[1..][i..] == s[i + 1..];
    } else {
      assert StripLeft(s) == s[0..];
    }
  }

  lemma {:induction false} StripRightIsPrefix(s: string)
    ensures exists j :: 0 <= j <= |s| && StripRight(s) == s[..j]
    ensures StripRight(s) == [] || !IsSpace(StripRight(s)[|StripRight(s)| - 1])
    ensures StripRight(s) == [] || (|s| > 0 && StripRight(s)[0] == s[0])
  {
    if |s| > 0 && IsSpace(s[|s| - 1]) {
      StripRightIsPrefix(s[..|s| - 1]);
      var j :| 0 <= j <= |s| - 1 && StripRight(s[..|s| - 1]) == s[..|s| - 1][..j];
      assert s[..|s| - 1][..j] == s[..j];
    } else {
      assert StripRight(s) == s[..|s|];
    }
  }

  lemma StripIsSlice(s: string)
    ensures exists i, j :: 0 <= i <= j <= |s| && Strip(s) == s[i..j]
  {
    StripLeftIsSuffix(s);
    var i :| 0 <= i <= |s| && StripLeft(s) == s[i..];
    StripRightIsPrefix(s[i..]);
    var j :| 0 <= j <= |s[i..]| && StripRight(s[i..]) == s[i..][..j];
    assert s[i..][..j] == s[i..i + j];
  }

  /** Stripping twice is stripping once. */
  lemma StripIdempotent(s: string)
    ensures Strip(Strip(s)) == Strip(s)
  {
    var t := Strip(s);
    StripLeftIsSuffix(s);
    StripRightIsPrefix(StripLeft(s));
    assert StripLeft(t) == t;
    assert StripRight(t) == t;
  }

  /** A text stripped of its surrounding spaces contains only what the input contained. */
  lemma StripContains(s: string, p: string)
    requires Contains(Strip(s), p)
    ensures Contains(s, p)
  {
    StripIsSlice(s);
    var i, j :| 0 <= i <= j <= |s| && Strip(s) == s[i..j];
    ContainsSlice(s, i, j, p);
  }

  /** A character that is not a space survives `lstrip`. */
  lemma {:induction false} StripLeftKeeps(s: string, i: int)
    requires 0 <= i < |s| && !IsSpace(s[i])
    ensures |StripLeft(s)| >= |s| - i
    ensures StripLeft(s)[i - (|s| - |StripLeft(s)|)] == s[i]
  {
    if IsSpace(s[0]) {
      StripLeftKeeps(s[1..], i - 1);
    }
  }

  /** A character that is not a space survives `rstrip`. */
  lemma {:induction false} StripRightKeeps(s: string, i: int)
    requires 0 <= i < |s| && !IsSpace(s[i])
    ensures |StripRight(s)| >= i + 1
  {
    if IsSpace(s[|s| - 1]) {
      StripRightKeeps(s[..|s| - 1], i);
    }
  }

  /** `strip` yields the empty text only when every character is a space. */
  lemma StripNonEmpty(s: string, i: int)
    requires 0 <= i < |s| && !IsSpace(s[i])
    ensures Strip(s) != []
  {
    var t := StripLeft(s);
    StripLeftKeeps(s, i);
    StripRightKeeps(t, i - (|s| - |t|));
  }

  function DigitChar(d: int): char
    requires 0 <= d < 10
  {
    ('0' as int + d) as char
  }

  /** `str(n)` for a natural number. */
  function NatToString(n: nat): (r: string)
    ensures |r| >= 1
    ensures forall k :: 0 <= k < |r| ==> '0' <= r[k] <= '9'
  {
    if n < 10 then [DigitChar(n)] else NatToString(n / 10) + [DigitChar(n % 10)]
  }

  /** `str(n)` for an integer. */
  function IntToString(n: int): string {
    if n < 0 then "-" + NatToString(-n) else NatToString(n)
  }

  /** `s[:n]`: the first `n` characters, or all of `s` when it is shorter. */
  function Head(s: string, n: nat): (r: string)
    ensures |r| == (if |s| < n then |s| else n)
    ensures r == s[..|r|]
  {
    if |s| <= n then s else s[..n]
  }

  /** The last component of a '/'-separated path: `PurePath(s).name` for a file name
      that does not end with '/' and is not "." or "..". */
  function BaseName(s: string): string
    decreases |s|
  {
    if '/' in s then BaseName(s[IndexOf(s, '/') + 1..]) else s
  }

  /** `PurePath(s).suffix` for such a file name: from the last dot of the name, unless
      the dot leads or ends it. */
  function Suffix(s: string): (r: string)
    ensures r == [] || r[0] == '.'
  {
    var name := BaseName(s);
    var i := LastIndexOf(name, '.');
    if 0 < i < |name| - 1 then name[i..] else ""
  }

  /** `PurePath(s).stem` for such a file name: the name without its suffix. */
  function Stem(s: string): (r: string)
    ensures r + Suffix(s) == BaseName(s)
  {
    var name := BaseName(s);
    var i := LastIndexOf(name, '.');
    if 0 < i < |name| - 1 then name[..i] else name
  }
}
