/** The declaration scanner of `src/shader.rs`: the regular expressions
      attribute\s+[^ ]+\s+(?P<attr>[^;]+)
      uniform\s+[^ ]+\s+(?P<uni>[^;]+)
    run with `captures_iter`, i.e. with leftmost-first (backtracking-priority)
    semantics, greedy repetition and non-overlapping successive matches.
    Both patterns are `Keyword \s+ [^ ]+ \s+ ([^;]+)`, so one scanner
    parameterised by the keyword serves both. */
module Scanner {
  import opened Prelude

  /** The three character classes the patterns use. */
  datatype CharClass = Whitespace | NotSpace | NotSemicolon

  /** The Unicode White_Space property, which is what `\s` matches in the
      Rust regex crate. */
  predicate IsWhitespace(c: char) {
    var n := c as int;
    (0x09 <= n <= 0x0D) || n == 0x20 || n == 0x85 || n == 0xA0 || n == 0x1680
    || (0x2000 <= n <= 0x200A) || n == 0x2028 || n == 0x2029 || n == 0x202F
    || n == 0x205F || n == 0x3000
  }

  predicate InClass(c: char, cls: CharClass) {
    match cls
    case Whitespace => IsWhitespace(c)
    case NotSpace => c != ' '         // `[^ ]` excludes the space character only
    case NotSemicolon => c != ';'
  }

  /** Every character of s[i..j] is in the class. */
  ghost predicate AllIn(s: string, i: nat, j: nat, cls: CharClass)
    requires i <= j <= |s|
  {
    forall k :: i <= k < j ==> InClass(s[k], cls)
  }

  /** Length of the longest run of class characters starting at i: what a
      greedy `cls+` first tries. */
  function Run(s: string, i: nat, cls: CharClass): (n: nat)
    requires i <= |s|
    ensures i + n <= |s| && AllIn(s, i, i + n, cls)
    ensures i + n == |s| || !InClass(s[i + n], cls)
    decreases |s| - i
  {
    if i < |s| && InClass(s[i], cls) then 1 + Run(s, i + 1, cls) else 0
  }

  /** Where the greedy run of class characters from i ends. */
  function RunEnd(s: string, i: nat, cls: CharClass): (e: nat)
    requires i <= |s|
    ensures i <= e <= |s| && e == i + Run(s, i, cls)
  {
    i + Run(s, i, cls)
  }

  /** A greedy run is maximal: every stretch of class characters from i
      ends within it. */
  lemma {:induction false} RunMaximal(s: string, i: nat, j: nat, cls: CharClass)
    requires i <= j <= |s| && AllIn(s, i, j, cls)
    ensures j <= i + Run(s, i, cls)
    decreases j - i
  {
    if i < j {
      assert InClass(s[i], cls);
      RunMaximal(s, i + 1, j, cls);
    }
  }

  /** A half-open range of positions of the scanned text. */
  datatype Span = Span(lo: nat, hi: nat)

  /** `\s+(?P<name>[^;]+)` tried at position t. The greedy `\s+` first takes
      its whole run; the name then needs one non-`;` character after it, and
      when the run ends at a `;` or at the end of the text the backtracker
      gives one whitespace character back, which then becomes the name. */
  function NameAfter(s: string, t: nat): (r: Option<Span>)
    requires t <= |s|
    ensures r.Some? ==>
      && t < r.value.lo < r.value.hi <= |s|
      && AllIn(s, t, r.value.lo, Whitespace)
      && AllIn(s, r.value.lo, r.value.hi, NotSemicolon)
      && (r.value.hi == |s| || s[r.value.hi] == ';')
  {
    var c := Run(s, t, Whitespace);
    if c == 0 then None
    else if t + c < |s| && s[t + c] != ';' then
      Some(Span(t + c, t + c + Run(s, t + c, NotSemicolon)))
    else if c >= 2 then
      Some(Span(t + c - 1, t + c - 1 + Run(s, t + c - 1, NotSemicolon)))
    else None
  }

  /** A greedy repetition under backtracking: the repetition's end positions
      hi, hi-1, ..., lo+1 are tried in that order and the first one at which
      the rest of the pattern matches (`rest` gives Some) is taken. */
  function Backtrack<T>(lo: nat, hi: nat, rest: nat -> Option<T>): (r: Option<(nat, T)>)
    ensures r.Some? ==> lo < r.value.0 <= hi && rest(r.value.0) == Some(r.value.1)
    decreases hi
  {
    if hi <= lo then None
    else
      match rest(hi)
      case Some(x) => Some((hi, x))
      case None => Backtrack(lo, hi - 1, rest)
  }

  /** Backtracking priority: whenever the rest of the pattern can follow a
      repetition ending at e, the search succeeds, and the repetition it
      settles on is at least that long. */
  lemma {:induction false} BacktrackLongest<T>(lo: nat, hi: nat, rest: nat -> Option<T>, e: nat)
    requires lo < e <= hi && rest(e).Some?
    ensures Backtrack(lo, hi, rest).Some? && e <= Backtrack(lo, hi, rest).value.0
    decreases hi
  {
    if e < hi && rest(hi).None? {
      BacktrackLongest(lo, hi - 1, rest, e);
    }
  }

  /** `\s+(?P<name>[^;]+)` at each position of s. */
  function NameAfterAt(s: string): nat -> Option<Span> {
    (t: nat) => if t <= |s| then NameAfter(s, t) else None
  }

  /** `[^ ]+\s+(?P<name>[^;]+)` at q: the greedy type token starts from its
      whole run of non-space characters. Gives (end of the type token, name). */
  function TypeAndName(s: string, q: nat): (r: Option<(nat, Span)>)
    requires q <= |s|
    ensures r.Some? ==> q < r.value.0 <= |s| && AllIn(s, q, r.value.0, NotSpace)
    ensures r.Some? ==> NameAfter(s, r.value.0) == Some(r.value.1)
  {
    Backtrack(q, RunEnd(s, q, NotSpace), NameAfterAt(s))
  }

  /** `[^ ]+\s+(?P<name>[^;]+)` at each position of s. */
  function TypeAndNameAt(s: string): nat -> Option<(nat, Span)> {
    (q: nat) => if q <= |s| then TypeAndName(s, q) else None
  }

  /** The part of the pattern after a keyword ending at p: the leading `\s+`
      is greedy. Gives (type start, (type end, name)). */
  function AfterKeyword(s: string, p: nat): (r: Option<(nat, (nat, Span))>)
    requires p <= |s|
    ensures r.Some? ==> p < r.value.0 <= |s| && AllIn(s, p, r.value.0, Whitespace)
    ensures r.Some? ==> TypeAndName(s, r.value.0) == Some(r.value.1)
  {
    Backtrack(p, RunEnd(s, p, Whitespace), TypeAndNameAt(s))
  }

  /** Priority inside `\s+(?P<name>[^;]+)`: of all ways to match at t,
      `NameAfter` takes the one with the longest whitespace, then the
      longest name. */
  lemma NameAfterPriority(s: string, t: nat, lo: nat, hi: nat)
    requires t < lo < hi <= |s|
    requires AllIn(s, t, lo, Whitespace) && AllIn(s, lo, hi, NotSemicolon)
    ensures NameAfter(s, t).Some?
    ensures var r := NameAfter(s, t).value;
      lo < r.lo || (lo == r.lo && hi <= r.hi)
  {
    RunMaximal(s, t, lo, Whitespace);
    var r := NameAfter(s, t).value;
    if lo == r.lo {
      RunMaximal(s, lo, hi, NotSemicolon);
    }
  }

  /** Priority inside `[^ ]+\s+(?P<name>[^;]+)`: the longest type token that
      lets the rest match, then the priority of the name part. */
  lemma TypeAndNamePriority(s: string, q: nat, t: nat, lo: nat, hi: nat)
    requires q < t < lo < hi <= |s|
    requires AllIn(s, q, t, NotSpace) && AllIn(s, t, lo, Whitespace) && AllIn(s, lo, hi, NotSemicolon)
    ensures TypeAndName(s, q).Some?
    ensures var r := TypeAndName(s, q).value;
      t < r.0 || (t == r.0 && (lo < r.1.lo || (lo == r.1.lo && hi <= r.1.hi)))
  {
    RunMaximal(s, q, t, NotSpace);
    NameAfterComplete(s, t, lo, hi);
    BacktrackLongest(q, RunEnd(s, q, NotSpace), NameAfterAt(s), t);
    if TypeAndName(s, q).value.0 == t {
      NameAfterPriority(s, t, lo, hi);
    }
  }

  /** The positions (q, t, lo, hi) come no later, in leftmost-first
      priority, than those `AfterKeyword` found. */
  ghost predicate NoLaterThanFound(q: nat, t: nat, lo: nat, hi: nat, found: (nat, (nat, Span))) {
    || q < found.0
    || (q == found.0
        && (|| t < found.1.0
            || (t == found.1.0 && (lo < found.1.1.lo || (lo == found.1.1.lo && hi <= found.1.1.hi)))))
  }

  /** Priority after the keyword: the longest leading whitespace that lets
      the rest match, then the priority of the type and name. */
  lemma AfterKeywordPriority(s: string, p: nat, q: nat, t: nat, lo: nat, hi: nat)
    requires p < q < t < lo < hi <= |s|
    requires AllIn(s, p, q, Whitespace) && AllIn(s, q, t, NotSpace)
    requires AllIn(s, t, lo, Whitespace) && AllIn(s, lo, hi, NotSemicolon)
    ensures AfterKeyword(s, p).Some? && NoLaterThanFound(q, t, lo, hi, AfterKeyword(s, p).value)
  {
    TypeAndNameComplete(s, q, t, lo, hi);
    AfterKeywordComplete(s, p, q);
    if AfterKeyword(s, p).value.0 == q {
      TypeAndNamePriority(s, q, t, lo, hi);
    }
  }

  /** The keyword occurs at position i (there is no word boundary in the
      patterns, so any occurrence counts). */
  predicate KeywordAt(s: string, kw: string, i: nat) {
    i + |kw| <= |s| && s[i..i + |kw|] == kw
  }

  /** One match of the pattern: the keyword at `start`, the type token at
      [typeStart, typeEnd), the captured name at [nameStart, nameEnd). The
      whole match is [start, nameEnd). */
  datatype Match = Match(start: nat, typeStart: nat, typeEnd: nat, nameStart: nat, nameEnd: nat)

  /** m is a way for `kw \s+ [^ ]+ \s+ ([^;]+)` to match s, whatever the
      repetition counts. */
  ghost predicate IsMatch(s: string, kw: string, m: Match) {
    && m.start + |kw| < m.typeStart < m.typeEnd < m.nameStart < m.nameEnd <= |s|
    && KeywordAt(s, kw, m.start)
    && AllIn(s, m.start + |kw|, m.typeStart, Whitespace)
    && AllIn(s, m.typeStart, m.typeEnd, NotSpace)
    && AllIn(s, m.typeEnd, m.nameStart, Whitespace)
    && AllIn(s, m.nameStart, m.nameEnd, NotSemicolon)
  }

  /** Leftmost-first priority among the matches at one position: each
      greedy repetition is tried longest first, left to right, so of two
      matches the regex prefers the one whose first differing repetition
      ends later. `NoLaterThan(m, m')`: m' is preferred to m, or is m. */
  ghost predicate NoLaterThan(m: Match, m': Match) {
    || m.typeStart < m'.typeStart
    || (m.typeStart == m'.typeStart
        && (|| m.typeEnd < m'.typeEnd
            || (m.typeEnd == m'.typeEnd
                && (m.nameStart < m'.nameStart || (m.nameStart == m'.nameStart && m.nameEnd <= m'.nameEnd)))))
  }

  /** The captured name runs up to the next `;` or to the end of the text. */
  ghost predicate NameRunsToSemicolon(s: string, m: Match)
    requires m.nameEnd <= |s|
  {
    m.nameEnd == |s| || s[m.nameEnd] == ';'
  }

  /** The match the regex reports when it is tried at position i, if any. */
  function MatchAt(s: string, kw: string, i: nat): (r: Option<Match>)
    ensures r.Some? ==> r.value.start == i < r.value.nameStart < r.value.nameEnd <= |s|
  {
    if KeywordAt(s, kw, i) then
      var p := i + |kw|;
      match AfterKeyword(s, p)
      case Some((q, (t, name))) => Some(Match(i, q, t, name.lo, name.hi))
      case None => None
    else None
  }

  /** Every reported match is an instance of the pattern, and its name is
      the whole run of non-`;` characters. */
  lemma MatchAtSound(s: string, kw: string, i: nat)
    requires MatchAt(s, kw, i).Some?
    ensures IsMatch(s, kw, MatchAt(s, kw, i).value)
    ensures NameRunsToSemicolon(s, MatchAt(s, kw, i).value)
  {
  }

  /** Of all the ways the pattern matches at a position, the regex reports
      the one leftmost-first priority prefers. With `MatchAtSound` this pins
      the reported match down: it is the greatest match at its position. */
  lemma MatchAtPriority(s: string, kw: string, m: Match)
    requires IsMatch(s, kw, m)
    ensures MatchAt(s, kw, m.start).Some? && NoLaterThan(m, MatchAt(s, kw, m.start).value)
  {
    MatchAtPriorityAt(s, kw, m.start, m.start + |kw|, m.typeStart, m.typeEnd, m.nameStart, m.nameEnd);
    assert m == Match(m.start, m.typeStart, m.typeEnd, m.nameStart, m.nameEnd);
  }

  /** `MatchAtPriority` with the match spelled out as its positions; p is
      where the keyword ends. */
  lemma MatchAtPriorityAt(s: string, kw: string, i: nat, p: nat, q: nat, t: nat, lo: nat, hi: nat)
    requires KeywordAt(s, kw, i) && p == i + |kw| < q < t < lo < hi <= |s|
    requires AllIn(s, p, q, Whitespace) && AllIn(s, q, t, NotSpace)
    requires AllIn(s, t, lo, Whitespace) && AllIn(s, lo, hi, NotSemicolon)
    ensures MatchAt(s, kw, i).Some? && NoLaterThan(Match(i, q, t, lo, hi), MatchAt(s, kw, i).value)
  {
    AfterKeywordPriority(s, p, q, t, lo, hi);
    MatchAtFromAfterKeyword(s, kw, i, q, t, lo, hi);
  }

  /** The reported match at i is the keyword followed by what `AfterKeyword`
      found after it, so it inherits that priority. */
  lemma MatchAtFromAfterKeyword(s: string, kw: string, i: nat, q: nat, t: nat, lo: nat, hi: nat)
    requires KeywordAt(s, kw, i) && AfterKeyword(s, i + |kw|).Some?
    requires NoLaterThanFound(q, t, lo, hi, AfterKeyword(s, i + |kw|).value)
    ensures MatchAt(s, kw, i).Some? && NoLaterThan(Match(i, q, t, lo, hi), MatchAt(s, kw, i).value)
  {
    var found := AfterKeyword(s, i + |kw|).value;
    assert MatchAt(s, kw, i) == Some(Match(i, found.0, found.1.0, found.1.1.lo, found.1.1.hi));
  }

  lemma NameAfterComplete(s: string, t: nat, lo: nat, hi: nat)
    requires t < lo < hi <= |s|
    requires AllIn(s, t, lo, Whitespace) && AllIn(s, lo, hi, NotSemicolon)
    ensures NameAfter(s, t).Some?
  {
  }

  lemma TypeAndNameComplete(s: string, q: nat, t: nat, lo: nat, hi: nat)
    requires q < t < lo < hi <= |s|
    requires AllIn(s, q, t, NotSpace) && AllIn(s, t, lo, Whitespace) && AllIn(s, lo, hi, NotSemicolon)
    ensures TypeAndName(s, q).Some?
  {
    NameAfterComplete(s, t, lo, hi);
    BacktrackLongest(q, RunEnd(s, q, NotSpace), NameAfterAt(s), t);
  }

  /** When the rest of the pattern can follow a whitespace run ending at q,
      the leading `\s+` matches and settles on at least q. */
  lemma AfterKeywordComplete(s: string, p: nat, q: nat)
    requires p < q <= |s| && AllIn(s, p, q, Whitespace) && TypeAndName(s, q).Some?
    ensures AfterKeyword(s, p).Some? && q <= AfterKeyword(s, p).value.0
  {
    RunMaximal(s, p, q, Whitespace);
    AfterKeywordLongest(s, p, q);
  }

  /** The backtracking step of `AfterKeywordComplete`, once q is known to lie
      within the greedy whitespace run. */
  lemma AfterKeywordLongest(s: string, p: nat, q: nat)
    requires p <= |s| && p < q <= RunEnd(s, p, Whitespace) && TypeAndName(s, q).Some?
    ensures AfterKeyword(s, p).Some? && q <= AfterKeyword(s, p).value.0
  {
    BacktrackLongest(p, RunEnd(s, p, Whitespace), TypeAndNameAt(s), q);
  }

  lemma RestComplete(s: string, p: nat, q: nat, t: nat, lo: nat, hi: nat)
    requires p < q < t < lo < hi <= |s|
    requires AllIn(s, p, q, Whitespace) && AllIn(s, q, t, NotSpace)
    requires AllIn(s, t, lo, Whitespace) && AllIn(s, lo, hi, NotSemicolon)
    ensures AfterKeyword(s, p).Some?
  {
    TypeAndNameComplete(s, q, t, lo, hi);
    AfterKeywordComplete(s, p, q);
  }

  lemma MatchAtCompleteAt(s: string, kw: string, i: nat, p: nat, q: nat, t: nat, lo: nat, hi: nat)
    requires p == i + |kw|
    requires KeywordAt(s, kw, i) && p < q < t < lo < hi <= |s|
    requires AllIn(s, p, q, Whitespace) && AllIn(s, q, t, NotSpace)
    requires AllIn(s, t, lo, Whitespace) && AllIn(s, lo, hi, NotSemicolon)
    ensures MatchAt(s, kw, i).Some?
  {
    RestComplete(s, p, q, t, lo, hi);
    MatchAtWhenKeywordAndRest(s, kw, i);
  }

  /** Whenever the pattern can match at a position, the regex reports a match
      there: backtracking never misses a match. */
  lemma MatchAtComplete(s: string, kw: string, m: Match)
    requires IsMatch(s, kw, m)
    ensures MatchAt(s, kw, m.start).Some?
  {
    MatchAtCompleteAt(s, kw, m.start, m.start + |kw|, m.typeStart, m.typeEnd, m.nameStart, m.nameEnd);
  }

  lemma MatchAtWhenKeywordAndRest(s: string, kw: string, i: nat)
    requires KeywordAt(s, kw, i) && AfterKeyword(s, i + |kw|).Some?
    ensures MatchAt(s, kw, i).Some?
  {
  }

  /** What `captures_iter` relies on in a single-position matcher over a text
      of length n: a match tried at i starts at i, is not empty, and ends
      within the text. */
  ghost predicate Anchored(n: nat, matcher: nat -> Option<Match>) {
    forall i: nat :: matcher(i).Some? ==>
      matcher(i).value.start == i < matcher(i).value.nameStart < matcher(i).value.nameEnd <= n
  }

  /** All matches `captures_iter` reports when the search starts at pos: the
      leftmost match at or after pos, then the search resumes where that match
      ended. It is stated for any anchored matcher, so that it does not depend
      on how the pattern is matched at one position. */
  function MatchesFrom(n: nat, matcher: nat -> Option<Match>, pos: nat): (ms: seq<Match>)
    requires pos <= n && Anchored(n, matcher)
    ensures forall k :: 0 <= k < |ms| ==> pos <= ms[k].start && matcher(ms[k].start) == Some(ms[k])
    ensures forall k, l :: 0 <= k < l < |ms| ==> ms[k].nameEnd <= ms[l].start
    decreases n - pos
  {
    if pos == n then []
    else
      match matcher(pos)
      case Some(m) => [m] + MatchesFrom(n, matcher, m.nameEnd)
      case None => MatchesFrom(n, matcher, pos + 1)
  }

  /** Leftmost and non-overlapping: every position at or after pos where the
      matcher succeeds is the start of a reported match or lies inside one. */
  lemma {:induction false} MatchesFromCover(n: nat, matcher: nat -> Option<Match>, pos: nat, j: nat)
    requires pos <= j && pos <= n && Anchored(n, matcher) && matcher(j).Some?
    ensures exists k :: (0 <= k < |MatchesFrom(n, matcher, pos)|
      && MatchesFrom(n, matcher, pos)[k].start <= j < MatchesFrom(n, matcher, pos)[k].nameEnd)
    decreases n - pos
  {
    var ms := MatchesFrom(n, matcher, pos);
    assert pos < n;
    match matcher(pos)
    case Some(m) =>
      var rest := MatchesFrom(n, matcher, m.nameEnd);
      assert ms == [m] + rest;
      if j < m.nameEnd {
        assert ms[0].start <= j < ms[0].nameEnd;
      } else {
        MatchesFromCover(n, matcher, m.nameEnd, j);
        var k :| 0 <= k < |rest| && rest[k].start <= j < rest[k].nameEnd;
        assert ms[k + 1] == rest[k];
        assert 0 <= k + 1 < |ms| && ms[k + 1].start <= j < ms[k + 1].nameEnd;
      }
    case None =>
      assert j != pos;
      assert ms == MatchesFrom(n, matcher, pos + 1);
      MatchesFromCover(n, matcher, pos + 1, j);
  }

  /** The pattern with keyword kw, tried at each position of s. */
  function Matcher(s: string, kw: string): nat -> Option<Match> {
    (i: nat) => MatchAt(s, kw, i)
  }

  lemma MatcherAnchored(s: string, kw: string)
    ensures Anchored(|s|, Matcher(s, kw))
  {
  }

  /** The matches `captures_iter` reports over the whole of s. */
  function Matches(s: string, kw: string): (ms: seq<Match>)
    ensures forall k :: 0 <= k < |ms| ==> ms[k].start < ms[k].nameStart < ms[k].nameEnd <= |s|
  {
    MatcherAnchored(s, kw);
    MatchesFrom(|s|, Matcher(s, kw), 0)
  }

  /** The names captured by `captures_iter` over the whole text, in order. */
  function Captures(s: string, kw: string): (names: seq<string>)
    ensures |names| == |Matches(s, kw)|
  {
    var ms := Matches(s, kw);
    seq(|ms|, k requires 0 <= k < |ms| => s[ms[k].nameStart..ms[k].nameEnd])
  }

  /** Each captured name is the text after a keyword, whitespace, a type
      token and whitespace, and it runs up to the next `;` (or the end). Of
      the ways the pattern matches at that keyword, it is the one
      leftmost-first priority prefers, so surplus whitespace before the name
      is never part of it. */
  lemma CaptureIsDeclaredName(s: string, kw: string, k: nat)
    requires k < |Captures(s, kw)|
    ensures var m := Matches(s, kw)[k];
      && IsMatch(s, kw, m) && NameRunsToSemicolon(s, m)
      && Captures(s, kw)[k] == s[m.nameStart..m.nameEnd]
      && forall m' :: IsMatch(s, kw, m') && m'.start == m.start ==> NoLaterThan(m', m)
  {
    var m := Matches(s, kw)[k];
    MatcherAnchored(s, kw);
    assert MatchAt(s, kw, m.start) == Some(m);
    MatchAtSound(s, kw, m.start);
    forall m' | IsMatch(s, kw, m') && m'.start == m.start
      ensures NoLaterThan(m', m)
    {
      MatchAtPriority(s, kw, m');
    }
  }

  /** The scanner reports no capture exactly when the pattern matches nowhere
      in the text. */
  lemma NoCapturesIffNoMatch(s: string, kw: string)
    ensures |Captures(s, kw)| == 0 <==> forall m :: !IsMatch(s, kw, m)
  {
    var ms := Matches(s, kw);
    MatcherAnchored(s, kw);
    if |ms| > 0 {
      CaptureIsDeclaredName(s, kw, 0);
    } else {
      forall m | IsMatch(s, kw, m) ensures false {
        MatchAtComplete(s, kw, m);
        MatchesFromCover(|s|, Matcher(s, kw), 0, m.start);
      }
    }
  }

  /** The greedy run from i ends exactly where the class stops. */
  lemma RunExact(s: string, i: nat, j: nat, cls: CharClass)
    requires i <= j <= |s| && AllIn(s, i, j, cls) && (j == |s| || !InClass(s[j], cls))
    ensures Run(s, i, cls) == j - i
  {
    RunMaximal(s, i, j, cls);
  }

  /** Once no keyword fits in what is left of the text, the search finds
      nothing more. */
  lemma {:induction false} NoMatchesLeft(s: string, kw: string, j: nat)
    requires j <= |s| < j + |kw| && Anchored(|s|, Matcher(s, kw))
    ensures MatchesFrom(|s|, Matcher(s, kw), j) == []
    decreases |s| - j
  {
    if j < |s| {
      assert Matcher(s, kw)(j) == None;
      NoMatchesLeft(s, kw, j + 1);
    }
  }

  /** A match at the start of the text that leaves no room for another
      keyword is the only match reported. */
  lemma OnlyMatchAtStart(s: string, kw: string, m: Match)
    requires MatchAt(s, kw, 0) == Some(m) && |s| < m.nameEnd + |kw|
    ensures Matches(s, kw) == [m]
  {
    MatcherAnchored(s, kw);
    NoMatchesLeft(s, kw, m.nameEnd);
    assert Matcher(s, kw)(0) == Some(m);
  }

  /** A declaration with surplus whitespace before its name. */
  const PaddedDeclaration := "attribute vec3  position;"

  /** The greedy runs the pattern takes before the type token ends. */
  lemma PaddedDeclarationTypeRuns()
    ensures Run(PaddedDeclaration, 9, Whitespace) == 1
    ensures Run(PaddedDeclaration, 10, NotSpace) == 4
  {
    RunExact(PaddedDeclaration, 9, 10, Whitespace);
    RunExact(PaddedDeclaration, 10, 14, NotSpace);
  }

  /** The greedy runs the pattern takes for the name part. */
  lemma PaddedDeclarationNameRuns()
    ensures Run(PaddedDeclaration, 14, Whitespace) == 2
    ensures Run(PaddedDeclaration, 16, NotSemicolon) == 8
  {
    RunExact(PaddedDeclaration, 14, 16, Whitespace);
    RunExact(PaddedDeclaration, 16, 24, NotSemicolon);
  }

  /** At the keyword the pattern settles on the whole of both spaces before
      the name, so the name starts at `p`. */
  lemma PaddedDeclarationMatch()
    ensures MatchAt(PaddedDeclaration, "attribute", 0) == Some(Match(0, 10, 14, 16, 24))
  {
    var s := PaddedDeclaration;
    PaddedDeclarationTypeRuns();
    PaddedDeclarationNameRuns();
    assert NameAfter(s, 14) == Some(Span(16, 24));
    assert TypeAndName(s, 10) == Some((14, Span(16, 24)));
    assert AfterKeyword(s, 9) == Some((10, (14, Span(16, 24))));
    assert KeywordAt(s, "attribute", 0);
  }

  lemma PaddedDeclarationName()
    ensures PaddedDeclaration[16..24] == "position"
  {
    var name := PaddedDeclaration[16..24];
    forall k | 0 <= k < 8
      ensures name[k] == "position"[k]
    {
    }
  }


  /** The scanner captures `position`, not ` position`, from a declaration
      with two spaces before the name; nothing follows the match. */
  lemma PaddedDeclarationCaptured()
    ensures Captures(PaddedDeclaration, "attribute") == ["position"]
  {
    PaddedDeclarationMatch();
    OnlyMatchAtStart(PaddedDeclaration, "attribute", Match(0, 10, 14, 16, 24));
    PaddedDeclarationName();
  }

  /** A declaration as shader sources write it. */
  const Declaration := "attribute vec3 position;"

  lemma DeclarationTypeRuns()
    ensures Run(Declaration, 9, Whitespace) == 1
    ensures Run(Declaration, 10, NotSpace) == 4
  {
    RunExact(Declaration, 9, 10, Whitespace);
    RunExact(Declaration, 10, 14, NotSpace);
  }

  lemma DeclarationNameRuns()
    ensures Run(Declaration, 14, Whitespace) == 1
    ensures Run(Declaration, 15, NotSemicolon) == 8
  {
    RunExact(Declaration, 14, 15, Whitespace);
    RunExact(Declaration, 15, 23, NotSemicolon);
  }

  lemma DeclarationMatch()
    ensures MatchAt(Declaration, "attribute", 0) == Some(Match(0, 10, 14, 15, 23))
  {
    var s := Declaration;
    DeclarationTypeRuns();
    DeclarationNameRuns();
    assert NameAfter(s, 14) == Some(Span(15, 23));
    assert TypeAndName(s, 10) == Some((14, Span(15, 23)));
    assert AfterKeyword(s, 9) == Some((10, (14, Span(15, 23))));
    assert KeywordAt(s, "attribute", 0);
  }

  lemma DeclarationName()
    ensures Declaration[15..23] == "position"
  {
    var name := Declaration[15..23];
    forall k | 0 <= k < 8
      ensures name[k] == "position"[k]
    {
    }
  }


  /** The scanner captures the attribute name `position` from
      `attribute vec3 position;`, and nothing else. */
  lemma DeclarationCaptured()
    ensures Captures(Declaration, "attribute") == ["position"]
  {
    DeclarationMatch();
    OnlyMatchAtStart(Declaration, "attribute", Match(0, 10, 14, 15, 23));
    DeclarationName();
  }
}
