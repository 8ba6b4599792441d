/**
 The string operations the repository takes from Rust's standard library
 (find, replace, split, join, trim, lines, decimal printing), each with the
 laws that the round trips of the other modules rest on.
 */
module Text {
  import opened Basics

  // --- searching ---

  predicate OccursAt(s: string, pat: string, i: int) {
    0 <= i <= |s| - |pat| && s[i..i + |pat|] == pat
  }

  predicate Contains(s: string, pat: string) {
    exists i | 0 <= i <= |s| :: OccursAt(s, pat, i)
  }

  function FindFrom(s: string, pat: string, from: nat): (r: Option<nat>)
    requires from <= |s|
    ensures r.Some? ==> from <= r.value && OccursAt(s, pat, r.value)
    ensures forall j :: from <= j < (if r.Some? then r.value else |s| + 1) ==> !OccursAt(s, pat, j)
    decreases |s| - from
  {
    if OccursAt(s, pat, from) then Some(from)
    else if from == |s| then None
    else FindFrom(s, pat, from + 1)
  }

  /** `str::find`: the leftmost occurrence. */
  function Find(s: string, pat: string): (r: Option<nat>)
    ensures r.Some? <==> Contains(s, pat)
    ensures r.Some? ==> OccursAt(s, pat, r.value)
    ensures forall j :: 0 <= j < (if r.Some? then r.value else |s| + 1) ==> !OccursAt(s, pat, j)
  {
    FindFrom(s, pat, 0)
  }

  function IndexOf(s: string, c: char): (r: Option<nat>)
    ensures r.Some? ==> r.value < |s| && s[r.value] == c && c !in s[..r.value]
    ensures r.None? <==> c !in s
  {
    if s == "" then None
    else if s[0] == c then Some(0)
    else
      match IndexOf(s[1..], c)
      case None => None
      case Some(i) => assert s[..i + 1] == [s[0]] + s[1..][..i]; Some(i + 1)
  }

  lemma IndexOfSplit(a: string, c: char, b: string)
    requires c !in a
    ensures IndexOf(a + [c] + b, c) == Some(|a|)
  {
    if a == "" {
      assert (a + [c] + b)[0] == c;
    } else {
      assert a[0] in a && (a + [c] + b)[1..] == a[1..] + [c] + b;
      IndexOfSplit(a[1..], c, b);
    }
  }

  /** Without a separator inside the pattern, an occurrence lies on one side of the separator. */
  lemma OccursBesideSeparator(a: string, c: char, b: string, pat: string, k: int)
    requires c !in pat && pat != "" && OccursAt(a + [c] + b, pat, k)
    ensures OccursAt(a, pat, k) || (k > |a| && OccursAt(b, pat, k - |a| - 1))
  {
    var s := a + [c] + b;
    assert forall x | k <= x < k + |pat| :: s[x] == pat[x - k];
    assert s[|a|] == c && forall i | 0 <= i < |pat| :: pat[i] != c;
    if k + |pat| <= |a| {
      assert s[k..k + |pat|] == a[k..k + |pat|];
    } else if k > |a| {
      assert s[k..k + |pat|] == b[k - |a| - 1..k - |a| - 1 + |pat|];
    }
  }

  lemma NotContainedBesideSeparator(a: string, c: char, b: string, pat: string)
    requires c !in pat && pat != "" && !Contains(a, pat) && !Contains(b, pat)
    ensures !Contains(a + [c] + b, pat)
  {
    if k :| 0 <= k <= |a + [c] + b| && OccursAt(a + [c] + b, pat, k) {
      OccursBesideSeparator(a, c, b, pat, k);
    }
  }

  lemma OccursInSlice(s: string, lo: nat, hi: nat, pat: string, k: int)
    requires lo <= hi <= |s| && OccursAt(s[lo..hi], pat, k)
    ensures OccursAt(s, pat, lo + k)
  {
    var t := s[lo..hi];
    forall x | 0 <= x < |pat| ensures s[lo + k + x] == pat[x] {
      assert t[k + x] == t[k..k + |pat|][x];
    }
  }

  lemma OccursInFront(front: string, rest: string, pat: string, k: int)
    requires OccursAt(front + rest, pat, k) && k + |pat| <= |front|
    ensures OccursAt(front, pat, k)
  {
    assert (front + rest)[k..k + |pat|] == front[k..k + |pat|];
  }

  lemma NotContainedInSlice(s: string, lo: nat, hi: nat, pat: string)
    requires lo <= hi <= |s| && !Contains(s, pat)
    ensures !Contains(s[lo..hi], pat)
  {
    if k :| 0 <= k <= hi - lo && OccursAt(s[lo..hi], pat, k) {
      OccursInSlice(s, lo, hi, pat, k);
    }
  }

  lemma NotContainedWithoutFirst(s: string, pat: string)
    requires pat != "" && pat[0] !in s
    ensures !Contains(s, pat)
  {
    assert forall k | 0 <= k < |s| :: s[k] != pat[0];
    forall k: nat | k + |pat| <= |s| ensures !OccursAt(s, pat, k) {
      var piece := s[k..k + |pat|];
      assert piece[0] == s[k];
    }
  }

  // --- replacing ---

  /** `str::replace` for a non-empty pattern: leftmost, non-overlapping. */
  function ReplaceAll(s: string, pat: string, rep: string): string
    requires pat != ""
    decreases |s|
  {
    match Find(s, pat)
    case None => s
    case Some(i) => s[..i] + rep + ReplaceAll(s[i + |pat|..], pat, rep)
  }

  lemma ReplaceInFree(s: string, pat: string, rep: string)
    requires pat != "" && !Contains(s, pat)
    ensures ReplaceAll(s, pat, rep) == s
  {
  }

  lemma ReplaceAtFirst(a: string, pat: string, rest: string, rep: string)
    requires pat != ""
    requires forall j :: 0 <= j < |a| ==> !OccursAt(a + pat, pat, j)
    ensures ReplaceAll(a + pat + rest, pat, rep) == a + rep + ReplaceAll(rest, pat, rep)
  {
    var s := a + pat + rest;
    forall j | 0 <= j < |a| ensures !OccursAt(s, pat, j) {
      if OccursAt(s, pat, j) {
        OccursInFront(a + pat, rest, pat, j);
      }
    }
    assert s[|a|..|a| + |pat|] == pat;
    assert OccursAt(s, pat, |a|);
    assert Find(s, pat) == Some(|a|);
    assert s[..|a|] == a && s[|a| + |pat|..] == rest;
  }

  /** Replacing `pat` by `rep` in `t` and back gives `t`. */
  predicate Undone(t: string, pat: string, rep: string)
    requires pat != "" && rep != ""
  {
    ReplaceAll(ReplaceAll(t, pat, rep), rep, pat) == t
  }

  /** An undone tail makes the whole undone when `rep` is found again exactly where it was put. */
  lemma UndoneFirst(head: string, tail: string, pat: string, rep: string)
    requires pat != "" && rep != "" && Find(head + pat + tail, pat) == Some(|head|)
    requires Undone(tail, pat, rep)
    requires forall j :: 0 <= j < |head| ==> !OccursAt(head + rep, rep, j)
    ensures Undone(head + pat + tail, pat, rep)
  {
    ReplaceFound(head, pat, tail, rep);
    ReplaceAtFirst(head, rep, ReplaceAll(tail, pat, rep), pat);
  }

  lemma ReplaceFound(head: string, pat: string, tail: string, rep: string)
    requires pat != "" && Find(head + pat + tail, pat) == Some(|head|)
    ensures ReplaceAll(head + pat + tail, pat, rep) == head + rep + ReplaceAll(tail, pat, rep)
  {
    var s := head + pat + tail;
    assert s[..|head|] == head && s[|head| + |pat|..] == tail;
  }

  // --- splitting and joining ---

  /** `str::split(c)`: never empty, `""` gives `[""]`. */
  function Split(s: string, c: char): (r: seq<string>)
    ensures |r| >= 1
    decreases |s|
  {
    match IndexOf(s, c)
    case None => [s]
    case Some(i) => [s[..i]] + Split(s[i + 1..], c)
  }

  lemma {:induction false} SplitPieces(s: string, c: char)
    ensures forall p | p in Split(s, c) :: c !in p
    decreases |s|
  {
    match IndexOf(s, c)
    case None =>
    case Some(i) => SplitPieces(s[i + 1..], c);
  }

  function Join(parts: seq<string>, sep: string): string {
    if parts == [] then ""
    else if |parts| == 1 then parts[0]
    else parts[0] + sep + Join(parts[1..], sep)
  }

  lemma {:induction false} JoinSplit(s: string, c: char)
    ensures Join(Split(s, c), [c]) == s
    decreases |s|
  {
    match IndexOf(s, c)
    case None =>
    case Some(i) =>
      JoinSplit(s[i + 1..], c);
      assert Split(s, c)[1..] == Split(s[i + 1..], c);
      assert s == s[..i] + [c] + s[i + 1..];
  }

  lemma SplitFirst(a: string, c: char, b: string)
    requires c !in a
    ensures Split(a + [c] + b, c) == [a] + Split(b, c)
  {
    IndexOfSplit(a, c, b);
    assert (a + [c] + b)[..|a|] == a && (a + [c] + b)[|a| + 1..] == b;
  }

  lemma {:induction false} SplitAppend(a: string, c: char, b: string)
    ensures Split(a + [c] + b, c) == Split(a, c) + Split(b, c)
    decreases |a|
  {
    match IndexOf(a, c)
    case None =>
      SplitFirst(a, c, b);
    case Some(i) =>
      var head, tail := a[..i], a[i + 1..];
      var joined := tail + [c] + b;
      assert a + [c] + b == head + [c] + joined by {
        assert a == head + [c] + tail;
      }
      SplitFirst(head, c, joined);
      SplitAppend(tail, c, b);
      assert [head] + (Split(tail, c) + Split(b, c)) == ([head] + Split(tail, c)) + Split(b, c);
  }

  lemma {:induction false} SplitJoin(parts: seq<string>, c: char)
    requires parts != [] && forall p | p in parts :: c !in p
    ensures Split(Join(parts, [c]), c) == parts
  {
    if |parts| <= 1 {
    } else {
      SplitAppend(parts[0], c, Join(parts[1..], [c]));
      SplitJoin(parts[1..], c);
    }
  }

  /** `s.splitn(3, c)`: the third piece keeps any further separators. */
  function SplitN3(s: string, c: char): (r: seq<string>)
    ensures 1 <= |r| <= 3
    ensures |r| == 1 ==> s == r[0]
    ensures |r| == 2 ==> s == r[0] + [c] + r[1]
    ensures |r| == 3 ==> s == r[0] + [c] + (r[1] + [c] + r[2])
    ensures forall i | 0 <= i < |r| && i < 2 :: c !in r[i]
  {
    match SplitOnce(s, c)
    case None => [s]
    case Some((first, rest)) =>
      match SplitOnce(rest, c)
      case None => [first, rest]
      case Some((second, third)) => [first, second, third]
  }

  lemma SplitN3Of(a: string, c: char, b: string)
    requires c !in a && c !in b
    ensures SplitN3(a + [c] + b, c) == [a, b]
    ensures forall rest :: SplitN3(a + [c] + (b + [c] + rest), c) == [a, b, rest]
  {
    SplitOnceAt(a, c, b);
    forall rest ensures SplitN3(a + [c] + (b + [c] + rest), c) == [a, b, rest] {
      SplitOnceAt(a, c, b + [c] + rest);
      SplitOnceAt(b, c, rest);
    }
  }

  function SplitOnce(s: string, c: char): (r: Option<(string, string)>)
    ensures r.None? <==> c !in s
    ensures r.Some? ==> c !in r.value.0 && s == r.value.0 + [c] + r.value.1
  {
    match IndexOf(s, c)
    case None => None
    case Some(i) => Some((s[..i], s[i + 1..]))
  }

  lemma SplitOnceAt(a: string, c: char, b: string)
    requires c !in a
    ensures SplitOnce(a + [c] + b, c) == Some((a, b))
  {
    IndexOfSplit(a, c, b);
    assert (a + [c] + b)[..|a|] == a && (a + [c] + b)[|a| + 1..] == b;
  }

  /** No separator at an end, nor two in a row. */
  predicate WellSeparated(s: string, c: char) {
    && s != "" && s[0] != c && s[|s| - 1] != c
    && forall i | 0 < i < |s| :: !(s[i - 1] == c && s[i] == c)
  }

  lemma WellSeparatedTail(head: string, c: char, tail: string)
    requires c !in head
    ensures WellSeparated(head + [c] + tail, c) <==> head != "" && WellSeparated(tail, c)
  {
    var s, n := head + [c] + tail, |head|;
    assert s[n] == c && (forall i | 0 <= i < n :: s[i] == head[i]);
    assert forall i | 0 <= i < |tail| :: s[n + 1 + i] == tail[i];
    if WellSeparated(s, c) {
      assert tail != "" ==> tail[0] != c by {
        assert tail != "" ==> s[n + 1] == tail[0] && !(s[n] == c && s[n + 1] == c);
      }
      forall i | 0 < i < |tail| ensures !(tail[i - 1] == c && tail[i] == c) {
        assert !(s[n + 1 + i - 1] == c && s[n + 1 + i] == c);
      }
    }
  }

  predicate AllNonEmpty(parts: seq<string>) {
    forall p | p in parts :: p != ""
  }

  lemma AllNonEmptyCons(first: string, rest: seq<string>)
    ensures AllNonEmpty([first] + rest) <==> first != "" && AllNonEmpty(rest)
  {
    assert first in [first] + rest;
    assert forall p | p in rest :: p in [first] + rest;
  }

  /** All pieces are non-empty exactly in well separated texts. */
  lemma {:induction false} PiecesAreNonEmpty(s: string, c: char)
    ensures AllNonEmpty(Split(s, c)) <==> WellSeparated(s, c)
    decreases |s|
  {
    hide WellSeparated, AllNonEmpty;
    match IndexOf(s, c)
    case None =>
      assert Split(s, c) == [s] + [];
      AllNonEmptyCons(s, []);
      NothingIsEmpty();
      FreeIsWellSeparated(s, c);
    case Some(i) =>
      var head, tail := s[..i], s[i + 1..];
      assert s == head + [c] + tail;
      WellSeparatedTail(head, c, tail);
      PiecesAreNonEmpty(tail, c);
      assert Split(s, c) == [head] + Split(tail, c);
      AllNonEmptyCons(head, Split(tail, c));
  }

  lemma NothingIsEmpty()
    ensures AllNonEmpty([])
  {
  }

  lemma FreeIsWellSeparated(s: string, c: char)
    requires c !in s
    ensures WellSeparated(s, c) <==> s != ""
  {
  }

  function NonEmpty(parts: seq<string>): seq<string> {
    if parts == [] then []
    else if parts[0] == "" then NonEmpty(parts[1..])
    else [parts[0]] + NonEmpty(parts[1..])
  }

  lemma {:induction false} NonEmptyPieces(parts: seq<string>)
    ensures forall p | p in NonEmpty(parts) :: p in parts && p != ""
  {
    if parts == [] {
    } else {
      NonEmptyPieces(parts[1..]);
    }
  }

  lemma {:induction false} NonEmptyAppend(a: seq<string>, b: seq<string>)
    ensures NonEmpty(a + b) == NonEmpty(a) + NonEmpty(b)
  {
    if a == [] {
      assert a + b == b;
    } else {
      assert (a + b)[1..] == a[1..] + b;
      NonEmptyAppend(a[1..], b);
    }
  }

  lemma {:induction false} NonEmptyKeeps(parts: seq<string>)
    requires forall p | p in parts :: p != ""
    ensures NonEmpty(parts) == parts
  {
    if parts == [] {
    } else {
      assert parts[0] in parts;
      forall p | p in parts[1..] ensures p in parts {
      }
      NonEmptyKeeps(parts[1..]);
    }
  }

  /** `rsplit(c).next()`. */
  function LastPiece(s: string, c: char): string
  {
    var parts := Split(s, c);
    parts[|parts| - 1]
  }

  lemma LastPieceAfter(a: string, c: char, b: string)
    ensures LastPiece(a + [c] + b, c) == LastPiece(b, c)
  {
    SplitAppend(a, c, b);
  }

  /** What follows the last separator, seen from the end of the text. */
  lemma {:induction false} LastPieceIsSuffix(s: string, c: char)
    ensures c in s ==> StripSuffix(s, [c] + LastPiece(s, c)).Some?
    ensures c !in s ==> LastPiece(s, c) == s
    ensures c !in LastPiece(s, c)
    decreases |s|
  {
    match SplitOnce(s, c)
    case None =>
    case Some((a, b)) =>
      LastPieceAfter(a, c, b);
      LastPieceIsSuffix(b, c);
      var tail := [c] + LastPiece(s, c);
      if c in b {
        var front := StripSuffix(b, tail).value;
        assert s == a + [c] + front + tail;
      } else {
        assert s == a + tail;
      }
  }

  // --- affixes ---

  function StripPrefix(s: string, prefix: string): (r: Option<string>)
    ensures r.Some? ==> s == prefix + r.value
  {
    if |prefix| <= |s| && s[..|prefix|] == prefix then Some(s[|prefix|..]) else None
  }

  function StripSuffix(s: string, suffix: string): (r: Option<string>)
    ensures r.Some? ==> s == r.value + suffix
  {
    if |suffix| <= |s| && s[|s| - |suffix|..] == suffix then Some(s[..|s| - |suffix|]) else None
  }

  lemma PrefixCancels(prefix: string, a: string, b: string)
    requires prefix + a == prefix + b
    ensures a == b
  {
    assert (prefix + a)[|prefix|..] == a && (prefix + b)[|prefix|..] == b;
  }

  lemma StripPrefixOf(prefix: string, rest: string)
    ensures StripPrefix(prefix + rest, prefix) == Some(rest)
  {
    assert (prefix + rest)[..|prefix|] == prefix && (prefix + rest)[|prefix|..] == rest;
  }

  /** `trim_end_matches(c)`. */
  function TrimEndMatches(s: string, c: char): (r: string)
    ensures r == [] || r[|r| - 1] != c
    ensures r <= s && forall k | |r| <= k < |s| :: s[k] == c
  {
    if s != "" && s[|s| - 1] == c then TrimEndMatches(s[..|s| - 1], c) else s
  }

  /** The Unicode White_Space property, as `char::is_whitespace` tests it. */
  predicate IsWhitespace(c: char) {
    var n := c as int;
    || 0x09 <= n <= 0x0D || n == 0x20 || n == 0x85 || n == 0xA0 || n == 0x1680
    || 0x2000 <= n <= 0x200A || n == 0x2028 || n == 0x2029 || n == 0x202F
    || n == 0x205F || n == 0x3000
  }

  function TrimStart(s: string): string {
    if s != "" && IsWhitespace(s[0]) then TrimStart(s[1..]) else s
  }

  function TrimEnd(s: string): string {
    if s != "" && IsWhitespace(s[|s| - 1]) then TrimEnd(s[..|s| - 1]) else s
  }

  function Trim(s: string): string {
    TrimEnd(TrimStart(s))
  }

  lemma TrimKeeps(s: string)
    requires s != "" && !IsWhitespace(s[0]) && !IsWhitespace(s[|s| - 1])
    ensures Trim(s) == s
  {
  }

  lemma {:induction false} TrimIgnoresTrailing(s: string, c: char)
    requires IsWhitespace(c)
    ensures Trim(s + [c]) == Trim(s)
    decreases |s|
  {
    if s == "" {
      assert ([] + [c])[1..] == [];
      assert TrimStart(s + [c]) == TrimStart([c][1..]);
    } else if IsWhitespace(s[0]) {
      assert (s + [c])[1..] == s[1..] + [c];
      TrimIgnoresTrailing(s[1..], c);
    } else {
      assert TrimStart(s + [c]) == s + [c];
      assert (s + [c])[..|s|] == s;
    }
  }

  // --- lines ---

  function StripCr(line: string): string {
    if line != "" && line[|line| - 1] == '\r' then line[..|line| - 1] else line
  }

  /** `str::lines`: a line ends at `\n` or `\r\n`; a bare final `\r` belongs to its line. */
  function Lines(text: string): seq<string>
    decreases |text|
  {
    if text == "" then []
    else
      match IndexOf(text, '\n')
      case None => [text]
      case Some(i) => [StripCr(text[..i])] + Lines(text[i + 1..])
  }

  lemma LinesOfFirst(line: string, rest: string)
    requires '\n' !in line
    ensures Lines(line + "\n" + rest) == [StripCr(line)] + Lines(rest)
  {
    IndexOfSplit(line, '\n', rest);
    var text := line + "\n" + rest;
    assert text == line + ['\n'] + rest;
    assert text[..|line|] == line && text[|line| + 1..] == rest;
  }

  /** One carriage return before the newline belongs to the line break, every other character to the line. */
  lemma LineBreaks(line: string, rest: string)
    requires '\n' !in line
    ensures Lines(line + "\r\n" + rest) == [line] + Lines(rest)
    ensures line == "" || line[|line| - 1] != '\r' ==> Lines(line + "\n" + rest) == [line] + Lines(rest)
    ensures line != "" ==> Lines(line) == [line]
  {
    LinesOfFirst(line, rest);
    LinesOfFirst(line + ['\r'], rest);
    assert line + "\r\n" + rest == line + ['\r'] + "\n" + rest;
    assert (line + ['\r'])[..|line|] == line;
  }

  lemma TrimIgnoresCr(line: string)
    ensures Trim(StripCr(line)) == Trim(line)
  {
    if line != "" && line[|line| - 1] == '\r' {
      TrimIgnoresTrailing(line[..|line| - 1], '\r');
      assert line[..|line| - 1] + ['\r'] == line;
    }
  }

  // --- decimal numbers ---

  predicate IsDigit(c: char) {
    '0' <= c <= '9'
  }

  predicate AllDigits(s: string) {
    forall c | c in s :: IsDigit(c)
  }

  function Digit(n: nat): (c: char)
    requires n < 10
    ensures IsDigit(c) && c as int - '0' as int == n
  {
    ('0' as int + n) as char
  }

  function Decimal(n: nat): (s: string)
    ensures s != "" && AllDigits(s)
  {
    if n < 10 then [Digit(n)] else Decimal(n / 10) + [Digit(n % 10)]
  }

  function ParseDecimal(s: string): nat
    requires AllDigits(s)
  {
    if s == "" then 0
    else
      assert s[|s| - 1] in s;
      ParseDecimal(s[..|s| - 1]) * 10 + (s[|s| - 1] as int - '0' as int)
  }

  lemma {:induction false} ParsePrinted(n: nat)
    ensures ParseDecimal(Decimal(n)) == n
  {
    if n >= 10 {
      ParsePrinted(n / 10);
      var s := Decimal(n);
      assert s[..|s| - 1] == Decimal(n / 10);
    } else {
      var s := Decimal(n);
      assert s[..0] == "";
      assert ParseDecimal(s) == ParseDecimal(s[..0]) * 10 + n;
    }
  }

  lemma DecimalInjective(a: nat, b: nat)
    requires Decimal(a) == Decimal(b)
    ensures a == b
  {
    ParsePrinted(a);
    ParsePrinted(b);
  }
}
