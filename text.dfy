/** The string operations the screens apply to typed input and backend text, as JavaScript
    evaluates them: `trim`, the two digit-filtering regular expressions, `split` with a
    non-empty separator (and the `[0]` / `pop()` taken from it), and `toUpperCase`. */
module Text {

  import opened Wrappers

  // ---------------------------------------------------------------------------
  // trim
  // ---------------------------------------------------------------------------

  /** The characters `String.prototype.trim` removes: ECMAScript WhiteSpace and LineTerminator. */
  predicate IsSpace(c: char) {
    || c == '\t' || c == '\n' || c == '\U{000B}' || c == '\U{000C}' || c == '\r' || c == ' '
    || c == '\U{00A0}' || c == '\U{1680}' || ('\U{2000}' <= c <= '\U{200A}')
    || c == '\U{2028}' || c == '\U{2029}' || c == '\U{202F}' || c == '\U{205F}'
    || c == '\U{3000}' || c == '\U{FEFF}'
  }

  /** `s` with its leading white space removed. */
  function TrimStart(s: string): string {
    if s != [] && IsSpace(s[0]) then TrimStart(s[1..]) else s
  }

  /** `s` with its trailing white space removed. */
  function TrimEnd(s: string): string {
    if s != [] && IsSpace(s[|s| - 1]) then TrimEnd(s[..|s| - 1]) else s
  }

  /** What `TrimStart` removes is a run of white space at the front, and what remains is the
      rest of `s`, starting with a character that is not white space. */
  lemma {:induction false} TrimStartSpec(s: string)
    ensures var r := TrimStart(s);
      && |r| <= |s| && r == s[|s| - |r|..]
      && (r == [] || !IsSpace(r[0]))
      && (forall i :: 0 <= i < |s| - |r| ==> IsSpace(s[i]))
  {
    if s != [] && IsSpace(s[0]) {
      TrimStartSpec(s[1..]);
      var r := TrimStart(s[1..]);
      assert s[1..][|s| - 1 - |r|..] == s[|s| - |r|..];
      assert forall i :: 1 <= i < |s| - |r| ==> s[i] == s[1..][i - 1];
    }
  }

  /** What `TrimEnd` removes is a run of white space at the back, and what remains is the
      front of `s`, ending with a character that is not white space. */
  lemma {:induction false} TrimEndSpec(s: string)
    ensures var r := TrimEnd(s);
      && |r| <= |s| && r == s[..|r|]
      && (r == [] || !IsSpace(r[|r| - 1]))
      && (forall i :: |r| <= i < |s| ==> IsSpace(s[i]))
  {
    if s != [] && IsSpace(s[|s| - 1]) {
      TrimEndSpec(s[..|s| - 1]);
      var r := TrimEnd(s[..|s| - 1]);
      assert s[..|s| - 1][..|r|] == s[..|r|];
      assert forall i :: |r| <= i < |s| - 1 ==> s[i] == s[..|s| - 1][i];
    }
  }

  /** `s.trim()`. */
  function Trim(s: string): string {
    TrimEnd(TrimStart(s))
  }

  /** `!s.trim()`: the string is empty once trimmed. */
  predicate IsBlank(s: string) {
    Trim(s) == ""
  }

  /** A string is blank exactly when every one of its characters is white space. */
  lemma BlankIffAllSpace(s: string)
    ensures IsBlank(s) <==> forall i :: 0 <= i < |s| ==> IsSpace(s[i])
  {
    var t := TrimStart(s);
    TrimStartSpec(s);
    TrimEndSpec(t);
    if !IsBlank(s) {
      var r := TrimEnd(t);
      assert r != [] && !IsSpace(r[|r| - 1]);
      assert r[|r| - 1] == s[|s| - |t| + |r| - 1];
    }
  }

  lemma TrimStartOfUnspaced(s: string)
    requires s != [] && !IsSpace(s[0])
    ensures TrimStart(s) == s
  {
  }

  lemma TrimEndOfUnspaced(s: string)
    requires s != [] && !IsSpace(s[|s| - 1])
    ensures TrimEnd(s) == s
  {
  }

  /** White space in front of a text that starts with another character is trimmed away. */
  lemma {:induction false} TrimStartOfSpaces(pad: string, s: string)
    requires forall i :: 0 <= i < |pad| ==> IsSpace(pad[i])
    requires s != [] && !IsSpace(s[0])
    ensures TrimStart(pad + s) == s
  {
    if pad == [] {
      assert pad + s == s;
      TrimStartOfUnspaced(s);
    } else {
      assert (pad + s)[1..] == pad[1..] + s;
      TrimStartOfSpaces(pad[1..], s);
    }
  }

  /** White space behind a text that ends with another character is trimmed away. */
  lemma {:induction false} TrimEndOfSpaces(s: string, pad: string)
    requires forall i :: 0 <= i < |pad| ==> IsSpace(pad[i])
    requires s != [] && !IsSpace(s[|s| - 1])
    ensures TrimEnd(s + pad) == s
  {
    if pad == [] {
      assert s + pad == s;
      TrimEndOfUnspaced(s);
    } else {
      assert (s + pad)[..|s + pad| - 1] == s + pad[..|pad| - 1];
      TrimEndOfSpaces(s, pad[..|pad| - 1]);
    }
  }

  /** Trimming a text that starts and ends with other characters, padded with white space on
      both sides, gives back the text. */
  lemma TrimOfPadded(pad: string, t: string)
    requires forall i :: 0 <= i < |pad| ==> IsSpace(pad[i])
    requires t != [] && !IsSpace(t[0]) && !IsSpace(t[|t| - 1])
    ensures Trim(pad + t + pad) == t
  {
    TrimStartOfSpaces(pad, t + pad);
    assert pad + t + pad == pad + (t + pad);
    TrimEndOfSpaces(t, pad);
  }

  // ---------------------------------------------------------------------------
  // The digit filters `replace(/[0-9]/g, '')` and `replace(/[^0-9]/g, '')`
  // ---------------------------------------------------------------------------

  /** The class `[0-9]` of a JavaScript regular expression without the `u` flag. */
  predicate IsDigit(c: char) {
    '0' <= c <= '9'
  }

  predicate HasNoDigits(s: string) {
    forall i :: 0 <= i < |s| ==> !IsDigit(s[i])
  }

  predicate AllDigits(s: string) {
    forall i :: 0 <= i < |s| ==> IsDigit(s[i])
  }

  /** `s.replace(/[0-9]/g, '')`. */
  function StripDigits(s: string): (r: string)
    ensures HasNoDigits(r)
    ensures |r| <= |s|
  {
    if s == [] then []
    else (if IsDigit(s[0]) then [] else [s[0]]) + StripDigits(s[1..])
  }

  /** `s.replace(/[^0-9]/g, '')`. */
  function KeepDigits(s: string): (r: string)
    ensures AllDigits(r)
    ensures |r| <= |s|
  {
    if s == [] then []
    else (if IsDigit(s[0]) then [s[0]] else []) + KeepDigits(s[1..])
  }

  /** `a` can be obtained from `b` by deleting elements, keeping the order of the rest. */
  predicate IsSubsequence<T(==)>(a: seq<T>, b: seq<T>)
    decreases |b|
  {
    if a == [] then true
    else if b == [] then false
    else if a[0] == b[0] then IsSubsequence(a[1..], b[1..])
    else IsSubsequence(a, b[1..])
  }

  lemma {:induction false} SubsequenceOfTail<T>(a: seq<T>, b: seq<T>)
    requires b != [] && IsSubsequence(a, b[1..])
    ensures IsSubsequence(a, b)
    decreases |b|, 0
  {
    if a != [] && a[0] == b[0] {
      SubsequenceDropHead(a, b[1..]);
    }
  }

  lemma {:induction false} SubsequenceDropHead<T>(a: seq<T>, b: seq<T>)
    requires a != [] && IsSubsequence(a, b)
    ensures IsSubsequence(a[1..], b)
    decreases |b|, 1
  {
    if b == [] {
    } else if a[0] == b[0] {
      if a[1..] != [] {
        SubsequenceOfTail(a[1..], b);
      }
    } else {
      SubsequenceDropHead(a, b[1..]);
      if a[1..] != [] {
        SubsequenceOfTail(a[1..], b);
      }
    }
  }

  /** A string with no digits is left as it is by the digit stripper. */
  lemma {:induction false} StripDigitsKeepsDigitFree(s: string)
    requires HasNoDigits(s)
    ensures StripDigits(s) == s
  {
    if s != [] {
      assert HasNoDigits(s[1..]) by {
        forall i | 0 <= i < |s| - 1 ensures !IsDigit(s[1..][i]) { assert s[1..][i] == s[i + 1]; }
      }
      StripDigitsKeepsDigitFree(s[1..]);
    }
  }

  /** A string of digits is left as it is by the digit keeper. */
  lemma {:induction false} KeepDigitsKeepsAllDigits(s: string)
    requires AllDigits(s)
    ensures KeepDigits(s) == s
  {
    if s != [] {
      assert AllDigits(s[1..]) by {
        forall i | 0 <= i < |s| - 1 ensures IsDigit(s[1..][i]) { assert s[1..][i] == s[i + 1]; }
      }
      KeepDigitsKeepsAllDigits(s[1..]);
    }
  }

  /** Stripping digits twice is stripping them once. */
  lemma StripDigitsIdempotent(s: string)
    ensures StripDigits(StripDigits(s)) == StripDigits(s)
  {
    StripDigitsKeepsDigitFree(StripDigits(s));
  }

  /** Keeping digits twice is keeping them once. */
  lemma KeepDigitsIdempotent(s: string)
    ensures KeepDigits(KeepDigits(s)) == KeepDigits(s)
  {
    KeepDigitsKeepsAllDigits(KeepDigits(s));
  }

  /** The stripper only deletes characters: its output is a subsequence of its input. */
  lemma {:induction false} StripDigitsIsSubsequence(s: string)
    ensures IsSubsequence(StripDigits(s), s)
  {
    if s != [] {
      StripDigitsIsSubsequence(s[1..]);
      var r := StripDigits(s[1..]);
      if IsDigit(s[0]) {
        assert StripDigits(s) == r;
        SubsequenceOfTail(r, s);
      } else {
        assert StripDigits(s) == [s[0]] + r;
        assert (([s[0]] + r)[1..]) == r;
      }
    }
  }

  /** The keeper only deletes characters: its output is a subsequence of its input. */
  lemma {:induction false} KeepDigitsIsSubsequence(s: string)
    ensures IsSubsequence(KeepDigits(s), s)
  {
    if s != [] {
      KeepDigitsIsSubsequence(s[1..]);
      var r := KeepDigits(s[1..]);
      if !IsDigit(s[0]) {
        assert KeepDigits(s) == r;
        SubsequenceOfTail(r, s);
      } else {
        assert KeepDigits(s) == [s[0]] + r;
        assert (([s[0]] + r)[1..]) == r;
      }
    }
  }

  /** The two filters split a string: what one deletes is exactly what the other keeps,
      so the stripper deletes the digits and nothing else. */
  lemma {:induction false} FiltersPartition(s: string)
    ensures multiset(StripDigits(s)) + multiset(KeepDigits(s)) == multiset(s)
  {
    if s != [] {
      FiltersPartition(s[1..]);
      var head := [s[0]];
      assert s == head + s[1..];
      assert StripDigits(s) == (if IsDigit(s[0]) then [] else head) + StripDigits(s[1..]);
      assert KeepDigits(s) == (if IsDigit(s[0]) then head else []) + KeepDigits(s[1..]);
    }
  }

  // ---------------------------------------------------------------------------
  // split, with a non-empty separator
  // ---------------------------------------------------------------------------

  /** `sep` occurs in `s` starting at index `i`. */
  predicate OccursAt(s: string, sep: string, i: int) {
    0 <= i && i + |sep| <= |s| && s[i..i + |sep|] == sep
  }

  /** Where `sep` occurs, `s` spells each of its characters. */
  lemma OccursAtSpells(s: string, sep: string, i: int, k: int)
    ensures OccursAt(s, sep, i) && 0 <= k < |sep| ==> s[i + k] == sep[k]
  {
    if OccursAt(s, sep, i) && 0 <= k < |sep| {
      assert s[i + k] == s[i..i + |sep|][k];
    }
  }

  /** `s.includes(t)`. */
  predicate Contains(s: string, t: string) {
    exists i | 0 <= i <= |s| :: OccursAt(s, t, i)
  }

  /** A piece written between two others is contained in the result. */
  lemma ContainsMiddle(a: string, t: string, b: string)
    ensures Contains(a + t + b, t)
  {
    assert (a + t + b)[|a|..|a| + |t|] == t;
    assert OccursAt(a + t + b, t, |a|);
  }

  /** The pieces of a template string written one after the other. */
  function Concat(pieces: seq<string>): string {
    if pieces == [] then "" else pieces[0] + Concat(pieces[1..])
  }

  lemma {:induction false} ConcatAppend(ps: seq<string>, qs: seq<string>)
    ensures Concat(ps + qs) == Concat(ps) + Concat(qs)
  {
    if ps != [] {
      assert (ps + qs)[0] == ps[0];
      assert (ps + qs)[1..] == ps[1..] + qs;
      ConcatAppend(ps[1..], qs);
      calc {
        Concat(ps + qs);
        ps[0] + Concat(ps[1..] + qs);
        ps[0] + (Concat(ps[1..]) + Concat(qs));
        (ps[0] + Concat(ps[1..])) + Concat(qs);
      }
    } else {
      assert ps + qs == qs;
    }
  }

  /** Each piece of a template string occurs in it, right after the pieces before it. */
  lemma {:induction false} ConcatContainsPiece(ps: seq<string>, k: nat)
    requires k < |ps|
    ensures OccursAt(Concat(ps), ps[k], |Concat(ps[..k])|)
    ensures Contains(Concat(ps), ps[k])
  {
    assert ps == ps[..k] + [ps[k]] + ps[k + 1..];
    ConcatAppend(ps[..k] + [ps[k]], ps[k + 1..]);
    ConcatAppend(ps[..k], [ps[k]]);
    assert Concat([ps[k]]) == ps[k] + Concat([]);
    ContainsMiddle(Concat(ps[..k]), ps[k], Concat(ps[k + 1..]));
    assert Concat(ps)[|Concat(ps[..k])|..|Concat(ps[..k])| + |ps[k]|] == ps[k];
  }

  /** The first index at or after `k` where `sep` occurs in `s` (`indexOf(sep, k)`). */
  function IndexFrom(s: string, sep: string, k: nat): (r: Option<nat>)
    requires k <= |s|
    decreases |s| - k
    ensures r.Some? ==> k <= r.value && OccursAt(s, sep, r.value)
    ensures r.Some? ==> forall j :: k <= j < r.value ==> !OccursAt(s, sep, j)
    ensures r.None? ==> forall j :: k <= j ==> !OccursAt(s, sep, j)
  {
    if OccursAt(s, sep, k) then Some(k)
    else if k == |s| then None
    else IndexFrom(s, sep, k + 1)
  }

  /** The pieces joined back with `sep` between each two (`pieces.join(sep)`). */
  function Join(pieces: seq<string>, sep: string): string
    requires |pieces| >= 1
  {
    if |pieces| == 1 then pieces[0] else pieces[0] + sep + Join(pieces[1..], sep)
  }

  /** `s.split(sep)`: the pieces of `s` between the occurrences of `sep`, found left to right.
      Joining them back gives `s`, and no piece contains `sep`; `s` stays whole exactly when
      `sep` does not occur, and otherwise the first piece ends at the leftmost occurrence. */
  function Split(s: string, sep: string): (r: seq<string>)
    requires |sep| > 0
    decreases |s|
    ensures |r| >= 1
    ensures Join(r, sep) == s
    ensures forall k, j :: 0 <= k < |r| ==> !OccursAt(r[k], sep, j)
    ensures |r| == 1 <==> IndexFrom(s, sep, 0).None?
    ensures |r| > 1 ==> IndexFrom(s, sep, 0) == Some(|r[0]|)
  {
    match IndexFrom(s, sep, 0)
    case None => [s]
    case Some(i) =>
      var head, rest := s[..i], Split(s[i + |sep|..], sep);
      assert forall j :: !OccursAt(head, sep, j) by {
        forall j | OccursAt(head, sep, j) ensures false {
          assert |head| == i;
          assert head[j..j + |sep|] == s[j..j + |sep|];
          assert OccursAt(s, sep, j) && j < i;
        }
      }
      assert ([head] + rest)[1..] == rest;
      assert s == head + s[i..i + |sep|] + s[i + |sep|..];
      [head] + rest
  }

  /** Every cut is leftmost: each piece but the last ends where `sep` first occurs in the rest of
      the input, which is that piece and the ones after it joined back. */
  lemma {:induction false} SplitCutsLeftmost(s: string, sep: string)
    requires |sep| > 0
    decreases |s|
    ensures var r := Split(s, sep);
      forall k :: 0 <= k < |r| - 1 ==> IndexFrom(Join(r[k..], sep), sep, 0) == Some(|r[k]|)
  {
    var r := Split(s, sep);
    if |r| > 1 {
      var i := |r[0]|;
      var rest := s[i + |sep|..];
      assert r == [r[0]] + Split(rest, sep);
      SplitCutsLeftmost(rest, sep);
      forall k | 0 <= k < |r| - 1 ensures IndexFrom(Join(r[k..], sep), sep, 0) == Some(|r[k]|) {
        if k > 0 {
          assert r[k..] == Split(rest, sep)[k - 1..];
        } else {
          assert r[0..] == r;
        }
      }
    }
  }

  /** The split is taken at the leftmost occurrence: "x - - y" splits on " - " into "x" and
      "- y", not into "x -" and "y". */
  lemma SplitLeftmostExample()
    ensures Split("x - - y", " - ") == ["x", "- y"]
  {
    var s, sep := "x - - y", " - ";
    assert !OccursAt(s, sep, 0) by { assert s[0] != sep[0]; }
    assert OccursAt(s, sep, 1) by { assert s[1..4] == sep; }
    assert IndexFrom(s, sep, 0) == Some(1);
    assert s[..1] == "x" && s[4..] == "- y";
    SplitUnspaced();
  }

  lemma SplitUnspaced()
    ensures Split("- y", " - ") == ["- y"]
  {
    var rest, sep := "- y", " - ";
    assert !OccursAt(rest, sep, 0) by { assert rest[0] != sep[0]; }
    assert IndexFrom(rest, sep, 0) == None;
  }

  /** A one-character separator occurs exactly where that character stands. */
  lemma OccursAtChar(s: string, c: char, j: int)
    ensures OccursAt(s, [c], j) <==> 0 <= j < |s| && s[j] == c
  {
    if 0 <= j < |s| {
      assert s[j..j + 1] == [s[j]];
    }
  }

  /** `s.split(c)[0]` is the longest prefix of `s` without `c`: all of `s` when `c` does not occur,
      and otherwise the part before the first `c`. */
  lemma SplitCharFirst(s: string, c: char)
    ensures var r := Split(s, [c])[0];
      && r <= s
      && c !in r
      && (c !in s ==> r == s)
      && (c in s ==> |r| < |s| && s[|r|] == c)
  {
    var r := Split(s, [c])[0];
    forall j | 0 <= j < |r| ensures r[j] != c { OccursAtChar(r, c, j); }
    match IndexFrom(s, [c], 0)
    case None =>
      forall j | 0 <= j < |s| ensures s[j] != c { OccursAtChar(s, c, j); }
    case Some(i) =>
      OccursAtChar(s, c, i);
  }

  /** `fecha.split('T')[0]`: the calendar day of an ISO date-time. */
  function DatePart(fecha: string): string {
    Split(fecha, "T")[0]
  }

  /** Appending `c` and anything after a prefix free of `c` is undone by taking `split(c)[0]`. */
  lemma SplitCharFirstOfConcat(a: string, c: char, b: string)
    requires c !in a
    ensures Split(a + [c] + b, [c])[0] == a
  {
    var s := a + [c] + b;
    SplitCharFirst(s, c);
    var r := Split(s, [c])[0];
    assert s[|a|] == c;
    assert |r| == |a|;
    assert r == s[..|r|];
    assert a == s[..|a|];
  }

  /** Joining splits off the last piece: what comes before it is the join of the others,
      followed by one separator. */
  lemma {:induction false} JoinSnoc(pieces: seq<string>, sep: string)
    requires |pieces| >= 2
    ensures Join(pieces, sep) == Join(pieces[..|pieces| - 1], sep) + sep + pieces[|pieces| - 1]
  {
    var n := |pieces|;
    var init := pieces[..n - 1];
    if n == 2 {
      assert init == [pieces[0]];
      assert Join(pieces[1..], sep) == pieces[1];
    } else {
      JoinSnoc(pieces[1..], sep);
      assert pieces[1..][..n - 2] == init[1..];
      assert pieces[1..][n - 2] == pieces[n - 1];
      calc {
        Join(pieces, sep);
        pieces[0] + sep + Join(pieces[1..], sep);
        pieces[0] + sep + (Join(init[1..], sep) + sep + pieces[n - 1]);
        (pieces[0] + sep + Join(init[1..], sep)) + sep + pieces[n - 1];
        { assert init[0] == pieces[0]; }
        Join(init, sep) + sep + pieces[n - 1];
      }
    }
  }

  /** `s.split(c).pop()`: the part of `s` after its last `c`, or all of `s` when there is none. */
  function LastSegment(s: string, c: char): string {
    var pieces := Split(s, [c]);
    pieces[|pieces| - 1]
  }

  /** The last segment is a suffix of `s` without `c`, preceded in `s` by `c` whenever `c` occurs. */
  lemma LastSegmentIsTail(s: string, c: char)
    ensures var r := LastSegment(s, c);
      && |r| <= |s|
      && r == s[|s| - |r|..]
      && c !in r
      && (c !in s ==> r == s)
      && (c in s ==> |r| < |s| && s[|s| - |r| - 1] == c)
  {
    var pieces := Split(s, [c]);
    var r := pieces[|pieces| - 1];
    assert LastSegment(s, c) == r;
    assert c !in r by {
      assert forall j :: !OccursAt(r, [c], j);
      forall j | 0 <= j < |r| ensures r[j] != c { OccursAtChar(r, c, j); }
    }
    if |pieces| == 1 {
      assert r == s;
    } else {
      JoinSnoc(pieces, [c]);
      var init := Join(pieces[..|pieces| - 1], [c]);
      assert s == init + [c] + r;
      assert s[|s| - |r|..] == r;
      assert s[|s| - |r| - 1] == c;
    }
  }

  // ---------------------------------------------------------------------------
  // toUpperCase
  // ---------------------------------------------------------------------------

  function UpperChar(c: char): char {
    if 'a' <= c <= 'z' then (c as int - 'a' as int + 'A' as int) as char else c
  }

  /** `s.toUpperCase()` on the ASCII letters; other characters are left unmapped. */
  function ToUpper(s: string): (r: string)
    ensures |r| == |s|
    ensures forall i :: 0 <= i < |s| ==> r[i] == UpperChar(s[i])
  {
    if s == [] then [] else [UpperChar(s[0])] + ToUpper(s[1..])
  }

  /** The one-letter test on an upper-cased string admits exactly the letter in either case. */
  lemma UpperEqualsLetter(s: string)
    ensures ToUpper(s) == "D" <==> s == "D" || s == "d"
  {
    if ToUpper(s) == "D" {
      assert |s| == 1 && UpperChar(s[0]) == 'D';
    }
  }
}
