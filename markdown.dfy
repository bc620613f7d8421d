/**
 * The answer clean-up of server/agent.js: the deterministic replace passes at the
 * end of `removeMarkdown`, the passes `formatResponse` runs after it, and the
 * formatting facts it records. The emphasis, header, code, link, image,
 * strikethrough, rule and blockquote passes before them are a parameter `markup`.
 */
module Markdown {
  import opened Wrappers
  import opened Strings

  predicate NoChar(s: string, c: char) {
    forall k :: 0 <= k < |s| ==> s[k] != c
  }

  /** Every whitespace character is a plain space; in particular there is no line break. */
  predicate SpacesOnly(s: string) {
    forall k :: 0 <= k < |s| && IsSpace(s[k]) ==> s[k] == ' '
  }

  /** No two whitespace characters stand next to each other. */
  predicate SingleSpaced(s: string) {
    forall k :: 0 <= k && k + 1 < |s| ==> !(IsSpace(s[k]) && IsSpace(s[k + 1]))
  }

  /** No backtick, and whitespace only as single plain spaces. */
  predicate Collapsed(s: string) {
    NoChar(s, '`') && SpacesOnly(s) && SingleSpaced(s)
  }

  /** What `removeMarkdown` guarantees of its result. */
  predicate Clean(s: string) {
    IsTrimmed(s) && Collapsed(s)
  }

  predicate IsStop(c: char) {
    c == '.' || c == '!' || c == '?'
  }

  predicate IsUpper(c: char) {
    'A' <= c <= 'Z'
  }

  /** No `.`, `!` or `?` is directly followed by a capital A-Z. */
  predicate SpacedStops(s: string) {
    forall k :: 0 <= k && k + 1 < |s| ==> !(IsStop(s[k]) && IsUpper(s[k + 1]))
  }

  /** `replace(/`/g, '')`. */
  function DropBackticks(s: string): (r: string)
    ensures NoChar(r, '`') && |r| <= |s|
    ensures forall k :: 0 <= k < |r| ==> r[k] in s
  {
    if s == [] then []
    else (if s[0] == '`' then [] else [s[0]]) + DropBackticks(s[1..])
  }

  /** `replace(/\s+/g, ' ')`: every maximal whitespace run becomes one space. */
  function CollapseSpace(s: string): (r: string)
    ensures SpacesOnly(r) && SingleSpaced(r)
    ensures forall k :: 0 <= k < |r| && !IsSpace(r[k]) ==> r[k] in s
    ensures (r != [] && IsSpace(r[0])) <==> (s != [] && IsSpace(s[0]))
    decreases |s|
  {
    if s == [] then []
    else if IsSpace(s[0]) then
      var rest := TrimStart(s[1..]);
      TrimStartShape(s[1..]);
      assert forall k :: 0 <= k < |rest| ==> rest[k] == s[1..][|s[1..]| - |rest| + k];
      " " + CollapseSpace(rest)
    else [s[0]] + CollapseSpace(s[1..])
  }

  /** The length of the whitespace run `s` starts with. */
  function WhiteRun(s: string): (n: nat)
    ensures n <= |s| && forall k :: 0 <= k < n ==> IsSpace(s[k])
    ensures n < |s| ==> !IsSpace(s[n])
  {
    if s != [] && IsSpace(s[0]) then 1 + WhiteRun(s[1..]) else 0
  }

  /** The last position of a line feed in `s`, if any. */
  function LastNewline(s: string): (r: Option<nat>)
    ensures r.Some? ==> r.value < |s| && s[r.value] == '\n' && forall k :: r.value < k < |s| ==> s[k] != '\n'
    ensures r.None? ==> NoChar(s, '\n')
  {
    if s == [] then None
    else if s[|s| - 1] == '\n' then Some(|s| - 1)
    else LastNewline(s[..|s| - 1])
  }

  /**
   * `replace(/\n\s*\n/g, '\n\n')`: at a line feed the greedy `\s*` backs off to the
   * last line feed of the whitespace run that follows; the whole stretch becomes two
   * line feeds and the scan resumes after it. A line feed with no other one in its run
   * is kept.
   */
  function ParagraphBreaks(s: string): (r: string)
    decreases |s|
  {
    if s == [] then []
    else if s[0] == '\n' then
      var t := s[1..];
      var last := LastNewline(t[..WhiteRun(t)]);
      if last.Some? then "\n\n" + ParagraphBreaks(t[last.value + 1..])
      else "\n" + ParagraphBreaks(t)
    else [s[0]] + ParagraphBreaks(s[1..])
  }

  /** The number of line feeds `s` starts with. */
  function NewlineRun(s: string): (n: nat)
    ensures n <= |s|
  {
    if s != [] && s[0] == '\n' then 1 + NewlineRun(s[1..]) else 0
  }

  /** `replace(/\n{3,}/g, '\n\n')`. */
  function CollapseNewlines(s: string): (r: string)
    decreases |s|
  {
    if s == [] then []
    else if NewlineRun(s) >= 3 then "\n\n" + CollapseNewlines(s[NewlineRun(s)..])
    else [s[0]] + CollapseNewlines(s[1..])
  }

  /** `replace(/([.!?])([A-Z])/g, '$1 $2')`. */
  function SpaceAfterStops(s: string): (r: string)
    ensures SpacedStops(r)
    ensures s == [] <==> r == []
    ensures s != [] ==> r[0] == s[0] && r[|r| - 1] == s[|s| - 1]
    decreases |s|
  {
    if s == [] then []
    else if |s| >= 2 && IsStop(s[0]) && IsUpper(s[1]) then [s[0], ' ', s[1]] + SpaceAfterStops(s[2..])
    else [s[0]] + SpaceAfterStops(s[1..])
  }

  /** The passes of `removeMarkdown` from the backtick removal on. */
  function CleanText(s: string): string {
    Trim(ParagraphBreaks(CollapseSpace(DropBackticks(s))))
  }

  /** What `formatResponse` makes of an answer, given the markup passes. */
  function Formatted(answer: string, markup: string -> string): string {
    SpaceAfterStops(CollapseNewlines(CleanText(markup(Trim(answer)))))
  }

  /** `removeMarkdown(text)`, one reassignment of `cleaned` per pass. */
  method RemoveMarkdown(text: string, markup: string -> string) returns (cleaned: string)
    ensures cleaned == CleanText(markup(text))
    ensures Clean(cleaned)
  {
    cleaned := text;
    cleaned := markup(cleaned);
    cleaned := DropBackticks(cleaned);
    cleaned := CollapseSpace(cleaned);
    CollapsedHasNoNewline(cleaned);
    ParagraphBreaksWithoutNewline(cleaned);
    cleaned := ParagraphBreaks(cleaned);
    ghost var collapsed := cleaned;
    cleaned := Trim(cleaned);
    TrimKeepsClean(collapsed);
  }

  /** The string passes of `formatResponse`: trim, `removeMarkdown`, newline runs, space after stops. */
  method FormatAnswer(answer: string, markup: string -> string) returns (formatted: string)
    ensures formatted == Formatted(answer, markup)
    ensures Clean(formatted) && SpacedStops(formatted) && NoChar(formatted, '\n')
  {
    formatted := Trim(answer);
    formatted := RemoveMarkdown(formatted, markup);
    CleanHasNoNewline(formatted);
    CollapseNewlinesWithoutNewline(formatted);
    formatted := CollapseNewlines(formatted);
    SpaceAfterStopsKeepsClean(formatted);
    formatted := SpaceAfterStops(formatted);
    CleanHasNoNewline(formatted);
  }

  /** What `formatResponse` hands on is clean, has its stops spaced and has no line feed, for any markup passes. */
  lemma FormattedIsClean(answer: string, markup: string -> string)
    ensures var f := Formatted(answer, markup);
      Clean(f) && SpacedStops(f) && NoChar(f, '\n')
  {
    var cleaned := CleanText(markup(Trim(answer)));
    CleanTextIsClean(markup(Trim(answer)));
    CleanHasNoNewline(cleaned);
    CollapseNewlinesWithoutNewline(cleaned);
    SpaceAfterStopsKeepsClean(cleaned);
    CleanHasNoNewline(SpaceAfterStops(cleaned));
  }

  // ---- properties ----

  lemma CleanHasNoNewline(s: string)
    requires SpacesOnly(s)
    ensures NoChar(s, '\n')
  {
    forall k | 0 <= k < |s| ensures s[k] != '\n' {
      if s[k] == '\n' {
        assert IsSpace(s[k]);
      }
    }
  }

  lemma CollapsedHasNoNewline(s: string)
    ensures NoChar(CollapseSpace(s), '\n')
  {
    CleanHasNoNewline(CollapseSpace(s));
  }

  /** Text without line feeds passes `\n\s*\n` unchanged: the pass at agent.js:490 does nothing. */
  lemma {:induction false} ParagraphBreaksWithoutNewline(s: string)
    requires NoChar(s, '\n')
    ensures ParagraphBreaks(s) == s
    decreases |s|
  {
    if s != [] {
      ParagraphBreaksWithoutNewline(s[1..]);
    }
  }

  /** Text without line feeds passes `\n{3,}` unchanged: the pass at agent.js:418 does nothing. */
  lemma {:induction false} CollapseNewlinesWithoutNewline(s: string)
    requires NoChar(s, '\n')
    ensures CollapseNewlines(s) == s
    decreases |s|
  {
    if s != [] {
      assert NewlineRun(s) == 0;
      CollapseNewlinesWithoutNewline(s[1..]);
    }
  }

  /** Trimming a collapsed string keeps it collapsed and makes it clean. */
  lemma TrimKeepsClean(s: string)
    requires NoChar(s, '`') && SpacesOnly(s) && SingleSpaced(s)
    ensures Clean(Trim(s))
  {
    var i := TrimShape(s);
    var r := Trim(s);
    assert forall k :: 0 <= k < |r| ==> r[k] == s[i + k];
  }

  /** The result of the `removeMarkdown` tail is clean whatever the markup passes left. */
  lemma CleanTextIsClean(s: string)
    ensures Clean(CleanText(s))
  {
    var d := DropBackticks(s);
    var c := CollapseSpace(d);
    forall k | 0 <= k < |c| ensures c[k] != '`' {
      if !IsSpace(c[k]) {
        assert c[k] in d;
      }
    }
    CollapsedHasNoNewline(d);
    ParagraphBreaksWithoutNewline(c);
    TrimKeepsClean(c);
  }

  /** Two collapsed strings joined without whitespace on both sides of the seam stay collapsed. */
  lemma JoinCollapsed(a: string, b: string)
    requires Collapsed(a) && Collapsed(b)
    requires a == [] || b == [] || !(IsSpace(a[|a| - 1]) && IsSpace(b[0]))
    ensures Collapsed(a + b)
  {
    var ab := a + b;
    forall k | 0 <= k && k + 1 < |ab| ensures !(IsSpace(ab[k]) && IsSpace(ab[k + 1])) {
      if k + 1 < |a| {
        assert ab[k] == a[k] && ab[k + 1] == a[k + 1];
      } else if k >= |a| {
        assert ab[k] == b[k - |a|] && ab[k + 1] == b[k + 1 - |a|];
      } else {
        assert ab[k] == a[|a| - 1] && ab[k + 1] == b[0];
      }
    }
  }

  /** Inserting a space between a stop and a capital keeps a collapsed string collapsed. */
  lemma {:induction false} SpaceAfterStopsKeepsCollapsed(s: string)
    requires Collapsed(s)
    ensures Collapsed(SpaceAfterStops(s))
    decreases |s|
  {
    if |s| >= 2 && IsStop(s[0]) && IsUpper(s[1]) {
      var rest := s[2..];
      SpaceAfterStopsKeepsCollapsed(rest);
      JoinCollapsed([s[0], ' ', s[1]], SpaceAfterStops(rest));
    } else if s != [] {
      var rest := s[1..];
      SpaceAfterStopsKeepsCollapsed(rest);
      if rest != [] {
        assert rest[0] == s[1];
      }
      JoinCollapsed([s[0]], SpaceAfterStops(rest));
    }
  }

  /** Inserting a space between a stop and a capital keeps a clean string clean. */
  lemma SpaceAfterStopsKeepsClean(s: string)
    requires Clean(s)
    ensures Clean(SpaceAfterStops(s))
  {
    SpaceAfterStopsKeepsCollapsed(s);
  }

  /** A string whose stops are already spaced passes unchanged. */
  lemma {:induction false} SpaceAfterStopsIdentity(s: string)
    requires SpacedStops(s)
    ensures SpaceAfterStops(s) == s
    decreases |s|
  {
    if s != [] {
      SpaceAfterStopsIdentity(s[1..]);
    }
  }

  /** Spacing the stops twice is spacing them once. */
  lemma SpaceAfterStopsIdempotent(s: string)
    ensures SpaceAfterStops(SpaceAfterStops(s)) == SpaceAfterStops(s)
  {
    SpaceAfterStopsIdentity(SpaceAfterStops(s));
  }

  /** `removeMarkdown` does nothing more to a string that is already clean and has no markup. */
  lemma CleanTextOfClean(s: string)
    requires Clean(s)
    ensures CleanText(s) == s
  {
    DropBackticksIdentity(s);
    CollapseSpaceIdentity(s);
    CleanHasNoNewline(s);
    ParagraphBreaksWithoutNewline(s);
    TrimOfTrimmed(s);
  }

  lemma {:induction false} DropBackticksIdentity(s: string)
    requires NoChar(s, '`')
    ensures DropBackticks(s) == s
    decreases |s|
  {
    if s != [] {
      DropBackticksIdentity(s[1..]);
    }
  }

  lemma {:induction false} CollapseSpaceIdentity(s: string)
    requires SpacesOnly(s) && SingleSpaced(s)
    ensures CollapseSpace(s) == s
    decreases |s|
  {
    if s != [] {
      if IsSpace(s[0]) {
        var t := s[1..];
        if t != [] {
          assert !IsSpace(t[0]);
        }
        assert TrimStart(t) == t;
        CollapseSpaceIdentity(t);
      } else {
        CollapseSpaceIdentity(s[1..]);
      }
    }
  }

  // ---- split and the whitespace collapse ----

  /** Gluing a character to the first piece glues it to the front of the joined text. */
  lemma JoinConsFirst(c: char, words: seq<string>, sep: string)
    requires |words| >= 1
    ensures Join([[c] + words[0]] + words[1..], sep) == [c] + Join(words, sep)
  {
    var glued := [[c] + words[0]] + words[1..];
    assert glued[1..] == words[1..];
  }

  /**
   * `split(/\s+/)` and `replace(/\s+/g, ' ')` cut the text at the same runs: the pieces,
   * joined by single spaces, are the collapsed text.
   */
  lemma {:induction false} SplitJoin(s: string)
    ensures Join(Split(s), " ") == CollapseSpace(s)
    decreases |s|
  {
    if s == [] {
    } else if IsSpace(s[0]) {
      var rest := TrimStart(s[1..]);
      SplitJoin(rest);
      var words := [""] + Split(rest);
      assert words[1..] == Split(rest);
    } else {
      SplitJoin(s[1..]);
      JoinConsFirst(s[0], Split(s[1..]), " ");
    }
  }

  /** The length of the whitespace-free run `s` starts with. */
  function WordRun(s: string): (n: nat)
    ensures n <= |s|
  {
    if s == [] || IsSpace(s[0]) then 0 else 1 + WordRun(s[1..])
  }

  lemma {:induction false} WordRunIs(s: string, n: nat)
    requires n <= |s| && NoSpace(s[..n]) && (n == |s| || IsSpace(s[n]))
    ensures WordRun(s) == n
    decreases n
  {
    if n > 0 {
      assert s[0] == s[..n][0];
      assert s[1..][..n - 1] == s[1..n];
      WordRunIs(s[1..], n - 1);
    }
  }

  /** The first piece opens the joined text and ends at its first whitespace. */
  lemma JoinHead(xs: seq<string>)
    requires |xs| >= 1 && forall k :: 0 <= k < |xs| ==> NoSpace(xs[k])
    ensures var t := Join(xs, " ");
      && |xs[0]| <= |t| && t[..|xs[0]|] == xs[0] && WordRun(t) == |xs[0]|
      && (|xs| == 1 ==> t == xs[0])
      && (|xs| > 1 ==> |xs[0]| < |t| && t[|xs[0]| + 1..] == Join(xs[1..], " "))
  {
    var t := Join(xs, " ");
    if |xs| > 1 {
      assert t == xs[0] + " " + Join(xs[1..], " ");
      assert t[|xs[0]|] == ' ';
    }
    assert t[..|xs[0]|] == xs[0];
    WordRunIs(t, |xs[0]|);
  }

  /** Whitespace-free pieces are recovered from their space-joined text. */
  lemma {:induction false} JoinInjective(xs: seq<string>, ys: seq<string>)
    requires |xs| >= 1 && |ys| >= 1
    requires forall k :: 0 <= k < |xs| ==> NoSpace(xs[k])
    requires forall k :: 0 <= k < |ys| ==> NoSpace(ys[k])
    requires Join(xs, " ") == Join(ys, " ")
    ensures xs == ys
    decreases |xs|
  {
    var t := Join(xs, " ");
    JoinHead(xs);
    JoinHead(ys);
    assert xs[0] == ys[0];
    if |xs| > 1 {
      JoinInjective(xs[1..], ys[1..]);
      assert xs == [xs[0]] + xs[1..] && ys == [ys[0]] + ys[1..];
    }
  }

  /**
   * The pieces of `split(/\s+/)` are the only whitespace-free list whose space-joined
   * text is the collapsed text.
   */
  lemma SplitUnique(s: string, words: seq<string>)
    requires |words| >= 1 && forall k :: 0 <= k < |words| ==> NoSpace(words[k])
    requires Join(words, " ") == CollapseSpace(s)
    ensures words == Split(s)
  {
    SplitJoin(s);
    JoinInjective(words, Split(s));
  }

  // ---- formatting facts ----

  /** The characters JavaScript's multiline `^` and `$` treat as line ends. */
  predicate IsLineEnd(c: char) {
    c == '\n' || c == '\r' || c == '\U{2028}' || c == '\U{2029}'
  }

  predicate LineStart(s: string, i: nat) {
    i <= |s| && (i == 0 || IsLineEnd(s[i - 1]))
  }

  /** `/^[\s]*[M]\s/m`, for the marker characters `markers`, matches at line start `i`, marker at `j`. */
  predicate MarkerItemAt(s: string, markers: string, i: nat, j: nat) {
    LineStart(s, i) && i <= j && j + 1 < |s| && (forall k :: i <= k < j ==> IsSpace(s[k]))
    && s[j] in markers && IsSpace(s[j + 1])
  }

  /** `/^\s*\d+\.\s/m` matches at line start `i`, with the digits from `j` to `d`. */
  predicate NumberedItemAt(s: string, i: nat, j: nat, d: nat) {
    LineStart(s, i) && i <= j < d && d + 1 < |s| && (forall k :: i <= k < j ==> IsSpace(s[k]))
    && (forall k :: j <= k < d ==> IsDigit(s[k])) && s[d] == '.' && IsSpace(s[d + 1])
  }

  /**
   * The list-marker class as the source file spells it: the bytes of a bullet decoded
   * one by one, so the class holds `-`, `â`, `€`, `¢` and `*`, and no bullet.
   */
  const ListMarkersAsWritten := "-\U{00E2}\U{20AC}\U{00A2}*"
  /** The class as intended: `-`, the bullet `•` and `*`. */
  const ListMarkers := "-\U{2022}*"

  predicate HasListsWith(s: string, markers: string) {
    (exists i: nat, j: nat :: i <= j < |s| && MarkerItemAt(s, markers, i, j))
    || (exists i: nat, j: nat, d: nat :: i <= j < d < |s| && NumberedItemAt(s, i, j, d))
  }

  /** `hasLists` as written. */
  predicate HasListsAsWritten(s: string) {
    HasListsWith(s, ListMarkersAsWritten)
  }

  /** `hasLists` with the bullet the class was meant to hold. */
  predicate HasLists(s: string) {
    HasListsWith(s, ListMarkers)
  }

  /** `/^#{1,6}\s/m` matches at line start `i` with `n` hashes. */
  predicate HeaderAt(s: string, i: nat, n: nat) {
    LineStart(s, i) && 1 <= n <= 6 && i + n < |s|
    && (forall k :: i <= k < i + n ==> s[k] == '#') && IsSpace(s[i + n])
  }

  /** `/^[A-Z][^.!?]*:$/m` matches the line from `i` to the colon at `e`. */
  predicate LabelAt(s: string, i: nat, e: nat) {
    LineStart(s, i) && i < e < |s| && IsUpper(s[i]) && s[e] == ':'
    && (e + 1 == |s| || IsLineEnd(s[e + 1])) && (forall k :: i < k < e ==> !IsStop(s[k]))
  }

  /** `/^#{1,6}\s/m.test(s) || /^[A-Z][^.!?]*:$/m.test(s)`. */
  predicate HasSections(s: string) {
    (exists i: nat, n: nat :: i < |s| && n <= 6 && HeaderAt(s, i, n))
    || (exists i: nat, e: nat :: i < e < |s| && LabelAt(s, i, e))
  }

  /** `s.split(/\s+/).length`. */
  function WordCount(s: string): (n: nat)
    ensures n >= 1
  {
    |Split(s)|
  }

  /** A bullet item is not seen as a list by the class as written. */
  lemma BulletMissedAsWritten()
    ensures !HasListsAsWritten("\U{2022} item")
  {
    var s := "\U{2022} item";
    forall i: nat, j: nat | i <= j < |s| ensures !MarkerItemAt(s, ListMarkersAsWritten, i, j) {
      if i > 0 {
        assert !IsLineEnd(s[i - 1]);
      } else if j > 0 {
        assert !IsSpace(s[0]);
      } else {
        assert s[0] !in ListMarkersAsWritten;
      }
    }
    forall i: nat, j: nat, d: nat | i <= j < d < |s| ensures !NumberedItemAt(s, i, j, d) {
      if i > 0 {
        assert !IsLineEnd(s[i - 1]);
      } else if j > 0 {
        assert !IsSpace(s[0]);
      } else {
        assert !IsDigit(s[0]);
      }
    }
  }

  /** With the intended class the bullet item is a list. */
  lemma BulletDetected()
    ensures HasLists("\U{2022} item")
  {
    assert MarkerItemAt("\U{2022} item", ListMarkers, 0, 0);
  }
}
