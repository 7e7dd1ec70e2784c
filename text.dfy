/**
 * The JavaScript string operations the services rely on: `trim`, `split`,
 * `join`, `includes`, `startsWith`, `endsWith`, `toLowerCase`, `toUpperCase`,
 * and the `\s` class of regular expressions.
 */
module Text {

  /** JavaScript white space and line terminators: what `trim` removes and `\s` matches. */
  predicate IsSpace(c: char) {
    c == ' ' || c == '\t' || c == '\n' || c == '\r'
    || c as int == 0x0B || c as int == 0x0C || c as int == 0xA0 || c as int == 0x1680
    || (0x2000 <= c as int <= 0x200A)
    || c as int == 0x2028 || c as int == 0x2029 || c as int == 0x202F
    || c as int == 0x205F || c as int == 0x3000 || c as int == 0xFEFF
  }

  /** The characters that `.` in a regular expression does not match. */
  predicate IsLineTerminator(c: char) {
    c == '\n' || c == '\r' || c as int == 0x2028 || c as int == 0x2029
  }

  predicate AllSpace(s: string) {
    forall i :: 0 <= i < |s| ==> IsSpace(s[i])
  }

  predicate NoLineTerminator(s: string) {
    forall i :: 0 <= i < |s| ==> !IsLineTerminator(s[i])
  }

  // The scanning functions below promise only their bounds and what they stop at;
  // what they skip is stated by the lemmas after them.

  /** The position of the first non-white-space character of `s` at or after `k`, or `|s|`. */
  function SpacesFrom(s: string, k: nat): (n: nat)
    requires k <= |s|
    ensures k <= n <= |s|
    ensures n < |s| ==> !IsSpace(s[n])
    decreases |s| - k
  {
    if k == |s| || !IsSpace(s[k]) then k else SpacesFrom(s, k + 1)
  }

  lemma {:induction false} SpacesFromSkips(s: string, k: nat)
    requires k <= |s|
    ensures forall j :: k <= j < SpacesFrom(s, k) ==> IsSpace(s[j])
    decreases |s| - k
  {
    if k < |s| && IsSpace(s[k]) {
      SpacesFromSkips(s, k + 1);
    }
  }

  /** A run of white space from `a` that stops at `k` ends the skip at `k`. */
  lemma {:induction false} SpacesFromAt(s: string, a: nat, k: nat)
    requires a <= k <= |s|
    requires forall j :: a <= j < k ==> IsSpace(s[j])
    requires k == |s| || !IsSpace(s[k])
    ensures SpacesFrom(s, a) == k
    decreases k - a
  {
    if a < k {
      SpacesFromAt(s, a + 1, k);
    }
  }

  /** The length of `s[..k]` once its trailing white space is removed. */
  function NonSpaceEnd(s: string, k: nat): (n: nat)
    requires k <= |s|
    ensures n <= k
    ensures n > 0 ==> !IsSpace(s[n - 1])
  {
    if k == 0 || !IsSpace(s[k - 1]) then k else NonSpaceEnd(s, k - 1)
  }

  lemma {:induction false} NonSpaceEndSkips(s: string, k: nat)
    requires k <= |s|
    ensures forall j :: NonSpaceEnd(s, k) <= j < k ==> IsSpace(s[j])
  {
    if k > 0 && IsSpace(s[k - 1]) {
      NonSpaceEndSkips(s, k - 1);
    }
  }

  /** The first position of `c` in `s` at or after `k`, or `|s|`. */
  function FindFrom(s: string, c: char, k: nat): (i: nat)
    requires k <= |s|
    ensures k <= i <= |s|
    ensures i < |s| ==> s[i] == c
    decreases |s| - k
  {
    if k == |s| || s[k] == c then k else FindFrom(s, c, k + 1)
  }

  lemma {:induction false} FindFromSkips(s: string, c: char, k: nat)
    requires k <= |s|
    ensures forall j :: k <= j < FindFrom(s, c, k) ==> s[j] != c
    decreases |s| - k
  {
    if k < |s| && s[k] != c {
      FindFromSkips(s, c, k + 1);
    }
  }

  /** A position holding `c` with no `c` between `k` and it is what `FindFrom` returns. */
  lemma {:induction false} FindFromIs(s: string, c: char, k: nat, i: nat)
    requires k <= i <= |s|
    requires i < |s| ==> s[i] == c
    requires forall j :: k <= j < i ==> s[j] != c
    ensures FindFrom(s, c, k) == i
    decreases i - k
  {
    if k < i {
      FindFromIs(s, c, k + 1, i);
    }
  }

  /** `s.indexOf(c)`, with `|s|` standing for -1. */
  function IndexOf(s: string, c: char): (i: nat)
    ensures i <= |s|
    ensures i < |s| ==> s[i] == c
  {
    FindFrom(s, c, 0)
  }

  /** No character before `IndexOf(s, c)` is `c`; it is `|s|` exactly when `c` does not occur. */
  lemma IndexOfFirst(s: string, c: char)
    ensures forall j :: 0 <= j < IndexOf(s, c) ==> s[j] != c
    ensures IndexOf(s, c) == |s| <==> c !in s
  {
    FindFromSkips(s, c, 0);
  }

  /** The first position of a line terminator in `s` at or after `k`, or `|s|`. */
  function LineTerminatorFrom(s: string, k: nat): (i: nat)
    requires k <= |s|
    ensures k <= i <= |s|
    ensures i < |s| ==> IsLineTerminator(s[i])
    decreases |s| - k
  {
    if k == |s| || IsLineTerminator(s[k]) then k else LineTerminatorFrom(s, k + 1)
  }

  lemma {:induction false} LineTerminatorFromSkips(s: string, k: nat)
    requires k <= |s|
    ensures forall j :: k <= j < LineTerminatorFrom(s, k) ==> !IsLineTerminator(s[j])
    decreases |s| - k
  {
    if k < |s| && !IsLineTerminator(s[k]) {
      LineTerminatorFromSkips(s, k + 1);
    }
  }

  /** The first position of a white-space character in `s` at or after `k`, or `|s|`. */
  function SpaceFrom(s: string, k: nat): (i: nat)
    requires k <= |s|
    ensures k <= i <= |s|
    ensures i < |s| ==> IsSpace(s[i])
    decreases |s| - k
  {
    if k == |s| || IsSpace(s[k]) then k else SpaceFrom(s, k + 1)
  }

  lemma {:induction false} SpaceFromSkips(s: string, k: nat)
    requires k <= |s|
    ensures forall j :: k <= j < SpaceFrom(s, k) ==> !IsSpace(s[j])
    decreases |s| - k
  {
    if k < |s| && !IsSpace(s[k]) {
      SpaceFromSkips(s, k + 1);
    }
  }

  /** `s.trimStart()`: the suffix of `s` left after its leading white space. */
  function TrimStart(s: string): (r: string)
    ensures |r| <= |s| && r == s[|s| - |r|..]
    ensures r != [] ==> !IsSpace(r[0])
  {
    s[SpacesFrom(s, 0)..]
  }

  /** What `trimStart` removes is white space. */
  lemma TrimStartRemovesSpace(s: string)
    ensures AllSpace(s[..|s| - |TrimStart(s)|])
  {
    SpacesFromSkips(s, 0);
    AllSpaceSlice(s, 0, SpacesFrom(s, 0));
    assert s[..SpacesFrom(s, 0)] == s[0..SpacesFrom(s, 0)];
  }

  /** `s.trimEnd()`: the prefix of `s` left after its trailing white space. */
  function TrimEnd(s: string): (r: string)
    ensures |r| <= |s| && r == s[..|r|]
    ensures r != [] ==> !IsSpace(r[|r| - 1])
  {
    s[..NonSpaceEnd(s, |s|)]
  }

  /** What `trimEnd` removes is white space. */
  lemma TrimEndRemovesSpace(s: string)
    ensures AllSpace(s[|TrimEnd(s)|..])
  {
    NonSpaceEndSkips(s, |s|);
    AllSpaceSlice(s, NonSpaceEnd(s, |s|), |s|);
    assert s[NonSpaceEnd(s, |s|)..] == s[NonSpaceEnd(s, |s|)..|s|];
  }

  /** `s.trim()`: `s` without leading and trailing white space. */
  function Trim(s: string): (r: string)
    ensures |r| <= |s|
    ensures r != [] ==> !IsSpace(r[0]) && !IsSpace(r[|r| - 1])
  {
    var t := TrimStart(s);
    var r := TrimEnd(t);
    assert r != [] ==> r[0] == t[0];
    r
  }

  /** `s.trim()` is empty exactly when `s` is all white space. */
  lemma TrimEmpty(s: string)
    ensures Trim(s) == [] <==> AllSpace(s)
  {
    var t := TrimStart(s);
    TrimStartRemovesSpace(s);
    if Trim(s) == [] {
      TrimEndRemovesSpace(t);
      assert s[..|s| - |t|] == s;
    }
  }

  /** A string that neither starts nor ends with white space is its own `trim`. */
  lemma TrimUnchanged(s: string)
    requires s != [] ==> !IsSpace(s[0]) && !IsSpace(s[|s| - 1])
    ensures Trim(s) == s
  {
    assert TrimStart(s) == s;
  }

  /** The first position of a white-space character in `s`, or `|s|`. */
  function IndexOfSpace(s: string): (i: nat)
    ensures i <= |s|
    ensures i < |s| ==> IsSpace(s[i])
  {
    SpaceFrom(s, 0)
  }

  function LowerChar(c: char): char {
    if 'A' <= c <= 'Z' then (c as int + 32) as char else c
  }

  function UpperChar(c: char): char {
    if 'a' <= c <= 'z' then (c as int - 32) as char else c
  }

  /** `s.toLowerCase()`, for the ASCII letters. */
  function ToLower(s: string): (r: string)
    ensures |r| == |s|
    ensures forall i :: 0 <= i < |s| ==> r[i] == LowerChar(s[i])
  {
    seq(|s|, i requires 0 <= i < |s| => LowerChar(s[i]))
  }

  /** `s.toUpperCase()`, for the ASCII letters. */
  function ToUpper(s: string): (r: string)
    ensures |r| == |s|
    ensures forall i :: 0 <= i < |s| ==> r[i] == UpperChar(s[i])
  {
    seq(|s|, i requires 0 <= i < |s| => UpperChar(s[i]))
  }

  lemma AbsentFromSlice(s: string, c: char, a: nat, b: nat)
    requires a <= b <= |s|
    requires forall j :: a <= j < b ==> s[j] != c
    ensures c !in s[a..b]
  {
    forall j | 0 <= j < b - a ensures s[a..b][j] != c {
      assert s[a..b][j] == s[a + j];
    }
  }

  lemma AllSpaceSlice(s: string, a: nat, b: nat)
    requires a <= b <= |s|
    requires forall j :: a <= j < b ==> IsSpace(s[j])
    ensures AllSpace(s[a..b])
  {
    forall j | 0 <= j < b - a ensures IsSpace(s[a..b][j]) {
      assert s[a..b][j] == s[a + j];
    }
  }

  lemma NoLineTerminatorSlice(s: string, a: nat, b: nat)
    requires a <= b <= |s|
    requires forall j :: a <= j < b ==> !IsLineTerminator(s[j])
    ensures NoLineTerminator(s[a..b])
  {
    forall j | 0 <= j < b - a ensures !IsLineTerminator(s[a..b][j]) {
      assert s[a..b][j] == s[a + j];
    }
  }

  lemma DropTake(s: string, a: nat, b: nat)
    requires a + b <= |s|
    ensures s[a..][..b] == s[a..a + b]
  {
  }

  lemma DropDrop(s: string, a: nat, b: nat)
    requires a + b <= |s|
    ensures s[a..][b..] == s[a + b..]
  {
  }

  /** `s.startsWith(p)`. */
  predicate StartsWith(s: string, p: string) {
    |p| <= |s| && s[..|p|] == p
  }

  /** `s.endsWith(p)`. */
  predicate EndsWith(s: string, p: string) {
    |p| <= |s| && s[|s| - |p|..] == p
  }

  /** `s.includes(t)`: `t` occurs in `s` as a contiguous substring. */
  predicate Contains(s: string, t: string)
    decreases |s|
  {
    StartsWith(s, t) || (s != [] && Contains(s[1..], t))
  }

  /** `s.replace(/_/g, ' ')`. */
  function UnderscoresToSpaces(s: string): (r: string)
    ensures |r| == |s|
    ensures forall i :: 0 <= i < |s| ==> r[i] == if s[i] == '_' then ' ' else s[i]
  {
    seq(|s|, i requires 0 <= i < |s| => if s[i] == '_' then ' ' else s[i])
  }

  /** `s.replace(/<p>$/, '')`: removes `p` once, and only at the very end. */
  function DropSuffix(s: string, p: string): (r: string)
    ensures EndsWith(s, p) ==> s == r + p
    ensures !EndsWith(s, p) ==> r == s
  {
    if EndsWith(s, p) then s[..|s| - |p|] else s
  }

  /** `parts.join(sep)`. */
  function Join(parts: seq<string>, sep: string): string {
    if |parts| == 0 then ""
    else if |parts| == 1 then parts[0]
    else parts[0] + sep + Join(parts[1..], sep)
  }

  /**
   * `s.split(sep)` for a one-character separator: the pieces between the
   * occurrences of `sep`, in order, including empty ones; always at least one.
   */
  function Split(s: string, sep: char): (parts: seq<string>)
    ensures |parts| >= 1
    decreases |s|
  {
    if s == [] then [[]]
    else
      var rest := Split(s[1..], sep);
      if s[0] == sep then [[]] + rest else [[s[0]] + rest[0]] + rest[1..]
  }

  /** Joining the pieces with the separator gives back the string. */
  lemma {:induction false} JoinSplit(s: string, sep: char)
    ensures Join(Split(s, sep), [sep]) == s
    decreases |s|
  {
    if s != [] {
      JoinSplit(s[1..], sep);
      var rest := Split(s[1..], sep);
      if s[0] != sep && |rest| > 1 {
        assert Join(rest, [sep]) == rest[0] + [sep] + Join(rest[1..], [sep]);
      }
    }
  }

  /** `s.split(/\s+/)`: the pieces between maximal runs of white space, including an empty
      first (last) piece when `s` starts (ends) with white space. */
  function SplitOnSpaces(s: string): (words: seq<string>)
    ensures |words| >= 1
    decreases |s|
  {
    var i := IndexOfSpace(s);
    if i == |s| then [s]
    else
      var rest := TrimStart(s[i..]);
      assert |rest| < |s[i..]|;
      [s[..i]] + SplitOnSpaces(rest)
  }

  /** The white-space runs `split(/\s+/)` cuts at, maximal and in order. */
  function SpaceRuns(s: string): seq<string>
    decreases |s|
  {
    var i := IndexOfSpace(s);
    if i == |s| then []
    else
      var rest := TrimStart(s[i..]);
      assert |rest| < |s[i..]|;
      [s[i..|s| - |rest|]] + SpaceRuns(rest)
  }

  /** One cut of `split(/\s+/)`: the first word, the white-space run after it, and the rest. */
  lemma SpaceCut(s: string, i: nat, rest: string)
    requires i == IndexOfSpace(s) < |s| && rest == TrimStart(s[i..])
    ensures |rest| < |s| - i
    ensures s[i..|s| - |rest|] != [] && AllSpace(s[i..|s| - |rest|])
    ensures s == s[..i] + s[i..|s| - |rest|] + rest
    ensures SplitOnSpaces(s) == [s[..i]] + SplitOnSpaces(rest)
    ensures SpaceRuns(s) == [s[i..|s| - |rest|]] + SpaceRuns(rest)
  {
    var b := |s| - |rest|;
    assert |rest| < |s| - i && i < b <= |s|;
    assert AllSpace(s[i..b]) by {
      TrimStartRemovesSpace(s[i..]);
      assert s[i..][..b - i] == s[i..b];
    }
    assert s == s[..i] + s[i..b] + rest by {
      SlicesJoin(s, i, b, rest);
    }
  }

  /** Cutting `s` at `i` and `b` and joining the three pieces gives back `s`. */
  lemma SlicesJoin(s: string, i: nat, b: nat, rest: string)
    requires i <= b <= |s| && rest == s[i..][b - i..]
    ensures s == s[..i] + s[i..b] + rest
  {
    assert rest == s[b..];
    assert s[..b] == s[..i] + s[i..b];
    assert s == s[..b] + s[b..];
  }

  /** `words[0] + gaps[0] + words[1] + … + words[n]`. */
  function Interleave(words: seq<string>, gaps: seq<string>): string
    requires |words| == |gaps| + 1
    decreases |gaps|
  {
    if gaps == [] then words[0] else words[0] + gaps[0] + Interleave(words[1..], gaps[1..])
  }

  /** Every white-space run is non-empty and holds only white space. */
  lemma {:induction false} SpaceRunsAre(s: string, k: nat)
    requires k < |SpaceRuns(s)|
    ensures SpaceRuns(s)[k] != [] && AllSpace(SpaceRuns(s)[k])
    decreases |s|
  {
    var i := IndexOfSpace(s);
    var rest := TrimStart(s[i..]);
    var runs, later := SpaceRuns(s), SpaceRuns(rest);
    assert runs[0] != [] && AllSpace(runs[0]) && runs[1..] == later by {
      SpaceCut(s, i, rest);
    }
    if k > 0 {
      SpaceRunsAre(rest, k - 1);
      assert runs[k] == later[k - 1];
    }
  }

  /** The words, with the white-space runs between them, give back the string. */
  lemma {:induction false} SplitOnSpacesJoin(s: string)
    ensures |SpaceRuns(s)| == |SplitOnSpaces(s)| - 1
    ensures Interleave(SplitOnSpaces(s), SpaceRuns(s)) == s
    decreases |s|
  {
    var i := IndexOfSpace(s);
    if i < |s| {
      var rest := TrimStart(s[i..]);
      var gap := s[i..|s| - |rest|];
      SpaceCut(s, i, rest);
      var words, gaps := SplitOnSpaces(rest), SpaceRuns(rest);
      SplitOnSpacesJoin(rest);
      assert ([s[..i]] + words)[1..] == words && ([gap] + gaps)[1..] == gaps;
      assert Interleave(SplitOnSpaces(s), SpaceRuns(s)) == s[..i] + gap + Interleave(words, gaps);
    }
  }

  /** No word holds white space. */
  lemma {:induction false} SplitOnSpacesNoSpace(s: string)
    ensures forall k, j :: 0 <= k < |SplitOnSpaces(s)| && 0 <= j < |SplitOnSpaces(s)[k]| ==> !IsSpace(SplitOnSpaces(s)[k][j])
    decreases |s|
  {
    var i := IndexOfSpace(s);
    SpaceFromSkips(s, 0);
    if i < |s| {
      var rest := TrimStart(s[i..]);
      SplitOnSpacesNoSpace(rest);
      assert SplitOnSpaces(s) == [s[..i]] + SplitOnSpaces(rest);
    }
  }

  /** Only the first and the last word can be empty: those stand for white space at either end. */
  lemma {:induction false} SplitOnSpacesInnerWords(s: string)
    ensures forall k :: 0 < k < |SplitOnSpaces(s)| - 1 ==> SplitOnSpaces(s)[k] != []
    decreases |s|
  {
    var i := IndexOfSpace(s);
    if i < |s| {
      var rest := TrimStart(s[i..]);
      var words := SplitOnSpaces(rest);
      SplitOnSpacesInnerWords(rest);
      assert SplitOnSpaces(s) == [s[..i]] + words;
      if |words| > 1 {
        var i' := IndexOfSpace(rest);
        assert words == [rest[..i']] + SplitOnSpaces(TrimStart(rest[i'..]));
        assert i' > 0;
      }
    }
  }

  lemma {:induction false} ContainsAt(s: string, t: string, i: nat)
    requires i + |t| <= |s| && s[i..i + |t|] == t
    ensures Contains(s, t)
    decreases i
  {
    if i == 0 {
      assert s[..|t|] == t;
    } else {
      assert s[1..][i - 1..i - 1 + |t|] == t;
      ContainsAt(s[1..], t, i - 1);
    }
  }

  lemma {:induction false} FindFromShift(s: string, c: char, k: nat)
    requires k < |s|
    ensures FindFrom(s, c, k + 1) == 1 + FindFrom(s[1..], c, k)
    decreases |s| - k
  {
    if k + 1 < |s| && s[k + 1] != c {
      FindFromShift(s, c, k + 1);
    }
  }

  /** Past a first character other than `c`, `indexOf` counts one more. */
  lemma IndexOfTail(s: string, c: char)
    requires s != [] && s[0] != c
    ensures IndexOf(s, c) == 1 + IndexOf(s[1..], c)
  {
    FindFromShift(s, c, 0);
  }

  /** The first piece of `split` is the text before the first separator. */
  lemma {:induction false} SplitFirst(s: string, sep: char)
    ensures Split(s, sep)[0] == s[..IndexOf(s, sep)]
    decreases |s|
  {
    if s != [] && s[0] != sep {
      SplitFirst(s[1..], sep);
      IndexOfTail(s, sep);
    }
  }

  /** Without a separator, `split` yields the whole string as its only piece. */
  lemma {:induction false} SplitWithoutSeparator(s: string, sep: char)
    requires sep !in s
    ensures Split(s, sep) == [s]
    decreases |s|
  {
    if s != [] {
      assert sep !in s[1..];
      SplitWithoutSeparator(s[1..], sep);
      assert [s[0]] + s[1..] == s;
    }
  }

  /** A string with one separator splits into the text before and after it. */
  lemma SplitTwoPieces(a: string, sep: char, b: string)
    requires sep !in a && sep !in b
    ensures Split(a + [sep] + b, sep) == [a, b]
  {
    SplitAfter(a, sep, b);
    SplitWithoutSeparator(b, sep);
  }

  /** With a separator, `split` yields at least two pieces, the second being the text
      between the first separator and the next one (or the end). */
  lemma {:induction false} SplitSecond(s: string, sep: char)
    requires IndexOf(s, sep) < |s|
    ensures |Split(s, sep)| >= 2
    ensures var i := IndexOf(s, sep);
            Split(s, sep)[1] == s[i + 1..][..IndexOf(s[i + 1..], sep)]
    decreases |s|
  {
    var rest := Split(s[1..], sep);
    if s[0] == sep {
      SplitFirst(s[1..], sep);
      assert Split(s, sep) == [[]] + rest;
    } else {
      IndexOfTail(s, sep);
      SplitSecond(s[1..], sep);
      var j := IndexOf(s[1..], sep);
      assert s[1..][j + 1..] == s[j + 2..];
      assert Split(s, sep) == [[s[0]] + rest[0]] + rest[1..];
    }
  }

  /** Text without the separator, then the separator: that text is the first piece. */
  lemma {:induction false} SplitAfter(a: string, sep: char, b: string)
    requires sep !in a
    ensures Split(a + [sep] + b, sep) == [a] + Split(b, sep)
    decreases |a|
  {
    var s := a + [sep] + b;
    if a == [] {
      assert s == [sep] + b && s[1..] == b;
    } else {
      assert s[1..] == a[1..] + [sep] + b;
      SplitAfter(a[1..], sep, b);
      assert [a[0]] + a[1..] == a;
    }
  }

  /** No piece of `split` contains the separator. */
  lemma {:induction false} SplitPiecesExclude(s: string, sep: char)
    ensures forall i :: 0 <= i < |Split(s, sep)| ==> sep !in Split(s, sep)[i]
    decreases |s|
  {
    if s != [] {
      SplitPiecesExclude(s[1..], sep);
    }
  }
}
