/**
 * The two name normalisations of the mod generator:
 * `sanitizeModName` (the folder and Lua file slug) and
 * `modNameToClass` (the Lua class / table symbol).
 *
 * Strings are sequences of Unicode scalar values.  Every character the
 * regular expressions of the source treat specially (`\s`, `[a-z_]`,
 * `[a-zA-Z]`) lies in the Basic Multilingual Plane, so this agrees with
 * the UTF-16 code units JavaScript works on.
 */
module Names {

  // ---------------------------------------------------------------------
  // Character classes
  // ---------------------------------------------------------------------

  /** JavaScript's `\s`: the WhiteSpace and LineTerminator characters of ECMAScript. */
  predicate IsSpace(c: char) {
    || c == '\t' || c == '\n' || c == '\U{000B}' || c == '\U{000C}' || c == '\r' || c == ' '
    || c == '\U{00A0}' || c == '\U{1680}' || ('\U{2000}' <= c <= '\U{200A}')
    || c == '\U{2028}' || c == '\U{2029}' || c == '\U{202F}' || c == '\U{205F}'
    || c == '\U{3000}' || c == '\U{FEFF}'
  }

  predicate IsAsciiUpper(c: char) { 'A' <= c <= 'Z' }

  predicate IsAsciiLower(c: char) { 'a' <= c <= 'z' }

  predicate IsAsciiLetter(c: char) { IsAsciiUpper(c) || IsAsciiLower(c) }

  /** The character class `[a-z_]` of a slug. */
  predicate IsSlugChar(c: char) { IsAsciiLower(c) || c == '_' }

  predicate IsSlug(s: string) { forall i :: 0 <= i < |s| ==> IsSlugChar(s[i]) }

  predicate IsLetters(s: string) { forall i :: 0 <= i < |s| ==> IsAsciiLetter(s[i]) }

  predicate NoSpace(s: string) { forall i :: 0 <= i < |s| ==> !IsSpace(s[i]) }

  function AsciiLower(c: char): (r: char)
    ensures IsAsciiUpper(c) ==> IsAsciiLower(r) && r as int == c as int + 32
    ensures !IsAsciiUpper(c) ==> r == c
  {
    if IsAsciiUpper(c) then (c as int + 32) as char else c
  }

  function AsciiUpper(c: char): (r: char)
    ensures IsAsciiLower(c) ==> IsAsciiUpper(r) && r as int == c as int - 32
    ensures !IsAsciiLower(c) ==> r == c
  {
    if IsAsciiLower(c) then (c as int - 32) as char else c
  }

  // ---------------------------------------------------------------------
  // String.prototype.toLowerCase
  // ---------------------------------------------------------------------

  const KelvinSign: char := '\U{212A}'
  const CapitalIWithDotAbove: char := '\U{0130}'
  const CombiningDotAbove: char := '\U{0307}'

  /**
   * The lower case of one character.  Exact for ASCII and for the only two
   * characters outside ASCII whose lower case holds an ASCII letter (the
   * Kelvin sign, and capital I with dot above, which lowers to two
   * characters); every other character is kept, which differs from
   * JavaScript only in characters outside `[a-z_]` and outside `\s`.
   */
  function LowerChar(c: char): (r: string)
    ensures IsSlugChar(c) ==> r == [c]
    ensures IsAsciiLetter(c) ==> r == [AsciiLower(c)]
  {
    if c == KelvinSign then "k"
    else if c == CapitalIWithDotAbove then ['i', CombiningDotAbove]
    else [AsciiLower(c)]
  }

  function LowerCase(s: string): string {
    if s == [] then [] else LowerChar(s[0]) + LowerCase(s[1..])
  }

  lemma {:induction false} LowerCaseAppend(a: string, b: string)
    ensures LowerCase(a + b) == LowerCase(a) + LowerCase(b)
  {
    if a == [] {
      assert a + b == b;
    } else {
      calc {
        LowerCase(a + b);
        { assert (a + b)[0] == a[0] && (a + b)[1..] == a[1..] + b; }
        LowerChar(a[0]) + LowerCase(a[1..] + b);
        { LowerCaseAppend(a[1..], b); }
        LowerChar(a[0]) + (LowerCase(a[1..]) + LowerCase(b));
      }
    }
  }

  lemma {:induction false} LowerCaseOfSlug(s: string)
    requires IsSlug(s)
    ensures LowerCase(s) == s
  {
    if s != [] {
      LowerCaseOfSlug(s[1..]);
    }
  }

  /** On ASCII letters toLowerCase maps character by character. */
  lemma {:induction false} LowerCaseOfLetters(s: string)
    requires IsLetters(s)
    ensures |LowerCase(s)| == |s|
    ensures forall i :: 0 <= i < |s| ==> LowerCase(s)[i] == AsciiLower(s[i])
  {
    if s != [] {
      LowerCaseOfLetters(s[1..]);
    }
  }

  // ---------------------------------------------------------------------
  // sanitizeModName
  // ---------------------------------------------------------------------

  /** `s` without its leading whitespace. */
  function DropSpaces(s: string): (r: string)
    ensures |r| <= |s|
  {
    if s != [] && IsSpace(s[0]) then DropSpaces(s[1..]) else s
  }

  /** `s.replace(/\s+/g, '_')`: each maximal run of whitespace becomes one underscore. */
  function CollapseWhitespace(s: string): string
    decreases |s|
  {
    if s == [] then []
    else if IsSpace(s[0]) then "_" + CollapseWhitespace(DropSpaces(s[1..]))
    else [s[0]] + CollapseWhitespace(s[1..])
  }

  /** No whitespace survives the collapse. */
  lemma {:induction false} CollapseLeavesNoSpace(s: string)
    ensures NoSpace(CollapseWhitespace(s))
    decreases |s|
  {
    if s != [] {
      if IsSpace(s[0]) {
        CollapseLeavesNoSpace(DropSpaces(s[1..]));
      } else {
        CollapseLeavesNoSpace(s[1..]);
      }
    }
  }

  /** `s.replace(/[^a-z_]/g, '')`: the characters of `s` in `[a-z_]`, in order. */
  function KeepSlugChars(s: string): (r: string)
    ensures IsSlug(r)
  {
    if s == [] then []
    else if IsSlugChar(s[0]) then [s[0]] + KeepSlugChars(s[1..])
    else KeepSlugChars(s[1..])
  }

  lemma {:induction false} KeepSlugCharsAppend(a: string, b: string)
    ensures KeepSlugChars(a + b) == KeepSlugChars(a) + KeepSlugChars(b)
  {
    if a == [] {
      assert a + b == b;
    } else {
      assert (a + b)[0] == a[0] && (a + b)[1..] == a[1..] + b;
      KeepSlugCharsAppend(a[1..], b);
      if IsSlugChar(a[0]) {
        assert KeepSlugChars(a + b) == [a[0]] + (KeepSlugChars(a[1..]) + KeepSlugChars(b));
      }
    }
  }

  /** sanitizeModName: the folder and Lua file name derived from what the user typed. */
  function Slug(name: string): (r: string)
    ensures IsSlug(r)
  {
    KeepSlugChars(LowerCase(CollapseWhitespace(name)))
  }

  lemma {:induction false} CollapseWithoutSpace(s: string)
    requires NoSpace(s)
    ensures CollapseWhitespace(s) == s
  {
    if s != [] {
      CollapseWithoutSpace(s[1..]);
    }
  }

  lemma {:induction false} KeepSlugCharsOfSlug(s: string)
    requires IsSlug(s)
    ensures KeepSlugChars(s) == s
  {
    if s != [] {
      KeepSlugCharsOfSlug(s[1..]);
    }
  }

  /** The slugs are exactly the names that sanitizeModName leaves unchanged. */
  lemma SlugFixpoints(s: string)
    ensures Slug(s) == s <==> IsSlug(s)
  {
    if IsSlug(s) {
      CollapseWithoutSpace(s);
      LowerCaseOfSlug(s);
      KeepSlugCharsOfSlug(s);
    }
  }

  /** Sanitizing a second time changes nothing. */
  lemma SlugIdempotent(name: string)
    ensures Slug(Slug(name)) == Slug(name)
  {
    SlugFixpoints(Slug(name));
  }

  lemma {:induction false} DropSpacesAppend(a: string, b: string)
    requires a != [] && !IsSpace(a[|a| - 1])
    ensures DropSpaces(a + b) == DropSpaces(a) + b
    ensures DropSpaces(a) != [] && !IsSpace(DropSpaces(a)[|DropSpaces(a)| - 1])
  {
    if IsSpace(a[0]) {
      assert |a| > 1;
      assert (a + b)[1..] == a[1..] + b;
      DropSpacesAppend(a[1..], b);
    }
  }

  /**
   * A boundary after a non-whitespace character splits no run, so the
   * collapse of a concatenation is the concatenation of the collapses.
   */
  lemma {:induction false} CollapseAppend(a: string, b: string)
    requires a == [] || !IsSpace(a[|a| - 1])
    ensures CollapseWhitespace(a + b) == CollapseWhitespace(a) + CollapseWhitespace(b)
    decreases |a|
  {
    if a == [] {
      assert a + b == b;
    } else {
      var c, rest := a[0], a[1..];
      assert (a + b)[0] == c;
      assert (a + b)[1..] == rest + b;
      if IsSpace(c) {
        DropSpacesAppend(rest, b);
        var d := DropSpaces(rest);
        CollapseAppend(d, b);
        assert CollapseWhitespace(a + b) == "_" + CollapseWhitespace(d + b);
      } else {
        CollapseAppend(rest, b);
        assert CollapseWhitespace(a + b) == [c] + CollapseWhitespace(rest + b);
      }
    }
  }

  /** One maximal run of whitespace collapses to exactly one underscore. */
  lemma CollapseRun(w: string, b: string)
    requires w != [] && forall i :: 0 <= i < |w| ==> IsSpace(w[i])
    requires b == [] || !IsSpace(b[0])
    ensures CollapseWhitespace(w + b) == "_" + CollapseWhitespace(b)
  {
    assert (w + b)[1..] == w[1..] + b;
    DropSpacesOfRun(w[1..], b);
  }

  lemma {:induction false} DropSpacesOfRun(w: string, b: string)
    requires forall i :: 0 <= i < |w| ==> IsSpace(w[i])
    requires b == [] || !IsSpace(b[0])
    ensures DropSpaces(w + b) == b
  {
    if w != [] {
      assert (w + b)[1..] == w[1..] + b;
      DropSpacesOfRun(w[1..], b);
    }
  }

  /**
   * sanitizeModName turns a maximal run of whitespace between `a` and `b`
   * into exactly one underscore and treats both sides independently,
   * whatever is later filtered out around it.
   */
  lemma SlugOfRun(a: string, w: string, b: string)
    requires a == [] || !IsSpace(a[|a| - 1])
    requires w != [] && forall i :: 0 <= i < |w| ==> IsSpace(w[i])
    requires b == [] || !IsSpace(b[0])
    ensures Slug(a + w + b) == Slug(a) + "_" + Slug(b)
  {
    var ca, cb := CollapseWhitespace(a), CollapseWhitespace(b);
    assert CollapseWhitespace(a + w + b) == ca + "_" + cb by {
      assert a + w + b == a + (w + b);
      CollapseAppend(a, w + b);
      CollapseRun(w, b);
    }
    assert LowerCase(ca + "_" + cb) == LowerCase(ca) + "_" + LowerCase(cb) by {
      LowerCaseAppend(ca + "_", cb);
      LowerCaseAppend(ca, "_");
      assert LowerCase("_") == "_";
    }
    var la, lb := LowerCase(ca), LowerCase(cb);
    assert KeepSlugChars(la + "_" + lb) == KeepSlugChars(la) + "_" + KeepSlugChars(lb) by {
      KeepSlugCharsAppend(la + "_", lb);
      KeepSlugCharsAppend(la, "_");
      assert KeepSlugChars("_") == "_";
    }
  }

  /** On a word without whitespace, sanitizeModName only lowercases and filters. */
  lemma SlugOfWord(s: string)
    requires NoSpace(s)
    ensures Slug(s) == KeepSlugChars(LowerCase(s))
  {
    CollapseWithoutSpace(s);
  }

  // ---------------------------------------------------------------------
  // modNameToClass
  // ---------------------------------------------------------------------

  /** `[\s_]`: the characters the word split breaks at. */
  predicate IsWordSeparator(c: char) { IsSpace(c) || c == '_' }

  /** Only ASCII letters and whitespace: what line 49 of the source leaves. */
  predicate IsCleaned(s: string) {
    forall i :: 0 <= i < |s| ==> IsAsciiLetter(s[i]) || IsSpace(s[i])
  }

  /** `s.replace(/[^a-zA-Z\s]/g, '')`: ASCII letters and whitespace survive, in order. */
  function StripNonLetters(s: string): (r: string)
    ensures IsCleaned(r)
  {
    if s == [] then []
    else if IsAsciiLetter(s[0]) || IsSpace(s[0]) then [s[0]] + StripNonLetters(s[1..])
    else StripNonLetters(s[1..])
  }

  /** The longest prefix of `s` holding no separator. */
  function TakeWord(s: string): (w: string)
    ensures |w| <= |s| && w == s[..|w|]
    ensures |w| == |s| || IsWordSeparator(s[|w|])
  {
    if s == [] || IsWordSeparator(s[0]) then [] else [s[0]] + TakeWord(s[1..])
  }

  /** `s` without its leading separators. */
  function DropSeparators(s: string): (r: string)
    ensures |r| <= |s| && r == s[|s| - |r|..]
    ensures r == [] || !IsWordSeparator(r[0])
  {
    if s != [] && IsWordSeparator(s[0]) then DropSeparators(s[1..]) else s
  }

  /**
   * `s.split(/[\s_]+/)`: the pieces between maximal runs of separators.
   * A leading or trailing run gives an empty first or last piece, and
   * the empty string gives one empty piece, as in JavaScript.
   */
  function SplitWords(s: string): seq<string>
    decreases |s|
  {
    var w := TakeWord(s);
    var rest := s[|w|..];
    if rest == [] then [w] else [w] + SplitWords(DropSeparators(rest[1..]))
  }

  /** `word.charAt(0).toUpperCase() + word.slice(1).toLowerCase()`. */
  function Capitalize(w: string): string {
    if w == [] then [] else [AsciiUpper(w[0])] + LowerCase(w[1..])
  }

  /** `.map(Capitalize)` */
  function CapitalizeEach(ws: seq<string>): (r: seq<string>)
    ensures |r| == |ws|
  {
    if ws == [] then [] else [Capitalize(ws[0])] + CapitalizeEach(ws[1..])
  }

  /** `.join('')` */
  function Concat(ws: seq<string>): string {
    if ws == [] then [] else ws[0] + Concat(ws[1..])
  }

  /** modNameToClass: the Lua class / table name derived from what the user typed. */
  function ClassName(name: string): string {
    Concat(CapitalizeEach(SplitWords(StripNonLetters(name))))
  }

  /**
   * An independent, one-pass statement of what modNameToClass computes:
   * scanning the raw name, a letter is upper-cased when it starts a word
   * and lower-cased otherwise; whitespace ends a word; every other
   * character, the underscore included, is skipped without ending one.
   */
  function ClassScan(s: string, atWordStart: bool): string {
    if s == [] then []
    else if IsSpace(s[0]) then ClassScan(s[1..], true)
    else if IsAsciiLetter(s[0]) then
      [if atWordStart then AsciiUpper(s[0]) else AsciiLower(s[0])] + ClassScan(s[1..], false)
    else ClassScan(s[1..], atWordStart)
  }

  /** Deleting the characters line 49 deletes does not change the scan. */
  lemma {:induction false} ScanOfStripped(s: string, b: bool)
    ensures ClassScan(StripNonLetters(s), b) == ClassScan(s, b)
  {
    if s != [] {
      ScanOfStripped(s[1..], b);
      ScanOfStripped(s[1..], false);
      ScanOfStripped(s[1..], true);
    }
  }

  /** Scanning a word that does not start one lower-cases it. */
  lemma {:induction false} ScanInsideWord(w: string, r: string)
    requires IsLetters(w)
    ensures ClassScan(w + r, false) == LowerCase(w) + ClassScan(r, false)
  {
    if w == [] {
      assert w + r == r;
    } else {
      assert (w + r)[0] == w[0] && (w + r)[1..] == w[1..] + r;
      ScanInsideWord(w[1..], r);
      assert LowerCase(w) == [AsciiLower(w[0])] + LowerCase(w[1..]);
    }
  }

  lemma LetterIsNoSeparator(c: char)
    requires IsAsciiLetter(c)
    ensures !IsSpace(c) && !IsWordSeparator(c)
  {
  }

  lemma LettersSuffix(w: string)
    requires w != [] && IsLetters(w)
    ensures IsLetters(w[1..])
  {
    assert forall i :: 0 <= i < |w| - 1 ==> w[1..][i] == w[i + 1];
  }

  /** Scanning a word at a word start capitalises it. */
  lemma ScanWord(w: string, r: string)
    requires w != [] && IsLetters(w)
    ensures ClassScan(w + r, true) == Capitalize(w) + ClassScan(r, false)
  {
    var c, v := w[0], w[1..];
    assert (w + r)[0] == c;
    assert (w + r)[1..] == v + r;
    LetterIsNoSeparator(c);
    LettersSuffix(w);
    ScanInsideWord(v, r);
    assert ClassScan(w + r, true) == [AsciiUpper(c)] + ClassScan(v + r, false);
  }

  /** A run of whitespace (all the separators left after line 49) only starts a new word. */
  lemma {:induction false} ScanSeparators(s: string, b: bool)
    requires IsCleaned(s)
    requires s != [] && IsWordSeparator(s[0])
    ensures ClassScan(s, b) == ClassScan(DropSeparators(s), true)
    decreases |s|
  {
    if |s| > 1 && IsWordSeparator(s[1]) {
      ScanSeparators(s[1..], true);
    }
  }

  lemma CleanedSuffix(t: string, k: nat)
    requires IsCleaned(t) && k <= |t|
    ensures IsCleaned(t[k..])
  {
    forall i | 0 <= i < |t| - k ensures IsAsciiLetter(t[k..][i]) || IsSpace(t[k..][i]) {
      assert t[k..][i] == t[k + i];
    }
  }

  /** In cleaned text the first word is made of letters only. */
  lemma {:induction false} FirstWordLetters(t: string)
    requires IsCleaned(t)
    ensures IsLetters(TakeWord(t))
  {
    if t != [] && !IsWordSeparator(t[0]) {
      CleanedSuffix(t, 1);
      FirstWordLetters(t[1..]);
      var w := TakeWord(t[1..]);
      assert TakeWord(t) == [t[0]] + w;
      assert forall i :: 0 < i <= |w| ==> ([t[0]] + w)[i] == w[i - 1];
    }
  }

  lemma ConcatCons(x: string, xs: seq<string>)
    ensures Concat([x] + xs) == x + Concat(xs)
  {
    assert ([x] + xs)[0] == x && ([x] + xs)[1..] == xs;
  }

  /** Cleaned text stays cleaned once leading separators are dropped. */
  lemma {:induction false} CleanedDrop(s: string)
    requires IsCleaned(s)
    ensures IsCleaned(DropSeparators(s))
  {
    if s != [] && IsWordSeparator(s[0]) {
      CleanedSuffix(s, 1);
      CleanedDrop(s[1..]);
    }
  }

  /** At a word start the scan capitalises the first word of cleaned text. */
  lemma ScanFirstWord(t: string)
    requires IsCleaned(t)
    ensures ClassScan(t, true) == Capitalize(TakeWord(t)) + ClassScan(t[|TakeWord(t)|..], false)
  {
    var w := TakeWord(t);
    var rest := t[|w|..];
    if w == [] {
      assert rest == t;
      if t != [] {
        assert IsSpace(t[0]);
      }
    } else {
      assert t == w + rest;
      FirstWordLetters(t);
      ScanWord(w, rest);
    }
  }

  /** After the first word, the separators of cleaned text only start the next word. */
  lemma ScanAfterWord(t: string)
    requires IsCleaned(t)
    requires |TakeWord(t)| < |t|
    ensures ClassScan(t[|TakeWord(t)|..], false) == ClassScan(DropSeparators(t[|TakeWord(t)|..][1..]), true)
  {
    var w := TakeWord(t);
    var rest := t[|w|..];
    CleanedSuffix(t, |w|);
    ScanSeparators(rest, false);
    assert DropSeparators(rest) == DropSeparators(rest[1..]);
  }

  /** The split / map / join pipeline agrees with the scan on cleaned text. */
  lemma {:induction false} PipelineIsScan(t: string)
    requires IsCleaned(t)
    ensures Concat(CapitalizeEach(SplitWords(t))) == ClassScan(t, true)
    decreases |t|
  {
    var w := TakeWord(t);
    var rest := t[|w|..];
    ScanFirstWord(t);
    if rest == [] {
      assert SplitWords(t) == [w];
      assert CapitalizeEach([w]) == [Capitalize(w)];
      ConcatCons(Capitalize(w), []);
    } else {
      var d := DropSeparators(rest[1..]);
      ScanAfterWord(t);
      assert IsCleaned(d) by {
        CleanedSuffix(t, |w| + 1);
        assert rest[1..] == t[|w| + 1..];
        CleanedDrop(rest[1..]);
      }
      PipelineIsScan(d);
      var ws := SplitWords(d);
      assert SplitWords(t) == [w] + ws;
      assert CapitalizeEach([w] + ws) == [Capitalize(w)] + CapitalizeEach(ws) by {
        assert ([w] + ws)[0] == w && ([w] + ws)[1..] == ws;
      }
      ConcatCons(Capitalize(w), CapitalizeEach(ws));
    }
  }

  /** modNameToClass is the one-pass scan of the raw name. */
  lemma ClassNameIsScan(name: string)
    ensures ClassName(name) == ClassScan(name, true)
  {
    PipelineIsScan(StripNonLetters(name));
    ScanOfStripped(name, true);
  }

  /** The ASCII letters of `s`, in order. */
  function Letters(s: string): (r: string)
    ensures IsLetters(r)
  {
    if s == [] then []
    else if IsAsciiLetter(s[0]) then [s[0]] + Letters(s[1..])
    else Letters(s[1..])
  }

  lemma {:induction false} ScanKeepsLetters(s: string, b: bool)
    ensures IsLetters(ClassScan(s, b))
    ensures LowerCase(ClassScan(s, b)) == LowerCase(Letters(s))
  {
    if s != [] {
      ScanKeepsLetters(s[1..], b);
      ScanKeepsLetters(s[1..], true);
      ScanKeepsLetters(s[1..], false);
      if !IsSpace(s[0]) && IsAsciiLetter(s[0]) {
        var c := if b then AsciiUpper(s[0]) else AsciiLower(s[0]);
        LowerCaseAppend([c], ClassScan(s[1..], false));
        LowerCaseAppend([s[0]], Letters(s[1..]));
        assert LowerChar(c) == LowerChar(s[0]);
      }
    }
  }

  /**
   * modNameToClass returns only ASCII letters, and lower-casing it gives
   * the input's ASCII letters lower-cased, in their original order; so it
   * has exactly as many characters as the input has ASCII letters.
   */
  lemma ClassNameLetters(name: string)
    ensures IsLetters(ClassName(name))
    ensures LowerCase(ClassName(name)) == LowerCase(Letters(name))
    ensures |ClassName(name)| == |Letters(name)|
  {
    ClassNameIsScan(name);
    ScanKeepsLetters(name, true);
    LowerCaseOfLetters(ClassName(name));
    LowerCaseOfLetters(Letters(name));
  }

  /** Whether the scan is at a word start after reading `s`. */
  function StartAfter(s: string, b: bool): bool {
    if s == [] then b
    else if IsSpace(s[0]) then StartAfter(s[1..], true)
    else if IsAsciiLetter(s[0]) then StartAfter(s[1..], false)
    else StartAfter(s[1..], b)
  }

  lemma {:induction false} ScanAppend(x: string, y: string, b: bool)
    ensures ClassScan(x + y, b) == ClassScan(x, b) + ClassScan(y, StartAfter(x, b))
  {
    if x == [] {
      assert x + y == y;
    } else {
      assert (x + y)[0] == x[0] && (x + y)[1..] == x[1..] + y;
      ScanAppend(x[1..], y, b);
      ScanAppend(x[1..], y, true);
      ScanAppend(x[1..], y, false);
    }
  }

  lemma {:induction false} StartAfterAppend(x: string, y: string, b: bool)
    ensures StartAfter(x + y, b) == StartAfter(y, StartAfter(x, b))
  {
    if x == [] {
      assert x + y == y;
    } else {
      assert (x + y)[0] == x[0] && (x + y)[1..] == x[1..] + y;
      StartAfterAppend(x[1..], y, b);
      StartAfterAppend(x[1..], y, true);
      StartAfterAppend(x[1..], y, false);
    }
  }

  lemma {:induction false} ScanOfRun(w: string, b: bool)
    requires w != [] && forall i :: 0 <= i < |w| ==> IsSpace(w[i])
    ensures ClassScan(w, b) == [] && StartAfter(w, b)
  {
    if |w| > 1 {
      ScanOfRun(w[1..], true);
    }
  }

  /** Leading whitespace adds nothing to the class name. */
  lemma ClassNameLeadingSpace(w: string, s: string)
    requires w != [] && forall i :: 0 <= i < |w| ==> IsSpace(w[i])
    ensures ClassName(w + s) == ClassName(s)
  {
    ClassNameIsScan(w + s);
    ClassNameIsScan(s);
    ScanAppend(w, s, true);
    ScanOfRun(w, true);
  }

  /** A run of whitespace between `a` and `b` only puts `b` at a word start. */
  lemma ScanAcrossRun(a: string, w: string, b: string)
    requires w != [] && forall i :: 0 <= i < |w| ==> IsSpace(w[i])
    ensures ClassScan(a + w + b, true) == ClassScan(a, true) + ClassScan(b, true)
  {
    var f := StartAfter(a, true);
    assert ClassScan(w + b, f) == ClassScan(b, true) by {
      ScanOfRun(w, f);
      ScanAppend(w, b, f);
    }
    assert ClassScan(a + (w + b), true) == ClassScan(a, true) + ClassScan(w + b, f) by {
      ScanAppend(a, w + b, true);
    }
    assert a + w + b == a + (w + b);
  }

  /** Any run of whitespace between words acts as a single space. */
  lemma ClassNameSpaceRun(a: string, w: string, b: string)
    requires w != [] && forall i :: 0 <= i < |w| ==> IsSpace(w[i])
    ensures ClassName(a + w + b) == ClassName(a + " " + b)
  {
    ClassNameIsScan(a + w + b);
    ClassNameIsScan(a + " " + b);
    ScanAcrossRun(a, w, b);
    ScanAcrossRun(a, " ", b);
  }
}
