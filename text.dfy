/**
 * String operations the UI code takes from JavaScript (`toLowerCase`, `trim`,
 * `includes`, `startsWith`, `endsWith`, `split`, `join`), stated over ASCII:
 * the whitespace class is the six ASCII characters matched by `\s`, and
 * case mapping touches only `A`-`Z` and `a`-`z`.
 */
module Text {

  /** The ASCII characters of the regular-expression class `\s`, which `trim()` also strips. */
  predicate IsSpace(c: char) {
    c == ' ' || c == '\t' || c == '\n' || c == '\r' || c as int == 0x0B || c as int == 0x0C
  }

  predicate IsUpper(c: char) { 'A' <= c <= 'Z' }

  predicate IsLowerLetter(c: char) { 'a' <= c <= 'z' }

  predicate IsDigit(c: char) { '0' <= c <= '9' }

  predicate IsHexDigit(c: char) { IsDigit(c) || 'a' <= c <= 'f' || 'A' <= c <= 'F' }

  /** The ASCII characters of the regular-expression class `\w`. */
  predicate IsWordChar(c: char) { IsUpper(c) || IsLowerLetter(c) || IsDigit(c) || c == '_' }

  /** `toLowerCase` on one character. */
  function LowerChar(c: char): char {
    if IsUpper(c) then (c as int + 32) as char else c
  }

  /** `toUpperCase` on one character. */
  function UpperChar(c: char): char {
    if IsLowerLetter(c) then (c as int - 32) as char else c
  }

  /** `s.toLowerCase()`. */
  function Lower(s: string): (r: string)
    ensures |r| == |s|
    ensures forall i :: 0 <= i < |s| ==> r[i] == LowerChar(s[i])
  {
    if s == [] then [] else [LowerChar(s[0])] + Lower(s[1..])
  }

  /** Lower-casing works character by character, so it distributes over concatenation. */
  lemma LowerAppend(a: string, b: string)
    ensures Lower(a + b) == Lower(a) + Lower(b)
  {
  }

  /** Lower-casing leaves a string without capitals unchanged. */
  lemma LowerNoUpper(s: string)
    requires forall i :: 0 <= i < |s| ==> !IsUpper(s[i])
    ensures Lower(s) == s
  {
  }

  /** Lower-casing twice is lower-casing once. */
  lemma LowerIdempotent(s: string)
    ensures Lower(Lower(s)) == Lower(s)
  {
    var l := Lower(s);
    assert forall i :: 0 <= i < |l| ==> !IsUpper(l[i]);
    LowerNoUpper(l);
  }

  /** Leading whitespace removed. */
  function TrimStart(s: string): (r: string)
    ensures |r| <= |s|
  {
    if s != [] && IsSpace(s[0]) then TrimStart(s[1..]) else s
  }

  /** `TrimStart` keeps a suffix, drops only whitespace, and leaves no leading whitespace. */
  lemma {:induction false} TrimStartSpec(s: string)
    ensures TrimStart(s) == s[|s| - |TrimStart(s)|..]
    ensures TrimStart(s) == [] || !IsSpace(TrimStart(s)[0])
    ensures forall i :: 0 <= i < |s| - |TrimStart(s)| ==> IsSpace(s[i])
  {
    if s != [] && IsSpace(s[0]) {
      TrimStartSpec(s[1..]);
    }
  }

  /** Trailing whitespace removed. */
  function TrimEnd(s: string): (r: string)
    ensures |r| <= |s|
  {
    if s != [] && IsSpace(s[|s| - 1]) then TrimEnd(s[..|s| - 1]) else s
  }

  /** `TrimEnd` keeps a prefix, drops only whitespace, and leaves no trailing whitespace. */
  lemma {:induction false} TrimEndSpec(s: string)
    ensures TrimEnd(s) == s[..|TrimEnd(s)|]
    ensures TrimEnd(s) == [] || !IsSpace(TrimEnd(s)[|TrimEnd(s)| - 1])
    ensures forall i :: |TrimEnd(s)| <= i < |s| ==> IsSpace(s[i])
  {
    if s != [] && IsSpace(s[|s| - 1]) {
      TrimEndSpec(s[..|s| - 1]);
    }
  }

  /** `s.trim()`: a slice `s[i..j]` left after removing a blank prefix and a
      blank suffix, that neither starts nor ends with whitespace. The two
      together determine the result. */
  function Trim(s: string): (r: string)
    ensures |r| <= |s|
    ensures r == [] || (!IsSpace(r[0]) && !IsSpace(r[|r| - 1]))
    ensures exists i, j ::
      (0 <= i <= j <= |s| && r == s[i..j]
       && (forall k :: 0 <= k < i ==> IsSpace(s[k]))
       && (forall k :: j <= k < |s| ==> IsSpace(s[k])))
  {
    TrimStartSpec(s);
    var t := TrimStart(s);
    TrimEndSpec(t);
    var i := |s| - |t|;
    var j := i + |TrimEnd(t)|;
    assert TrimEnd(t) == s[i..j];
    assert forall k :: j <= k < |s| ==> s[k] == t[k - i];
    TrimEnd(t)
  }

  /** A string without whitespace is trimmed to itself. */
  lemma TrimNoSpace(s: string)
    requires forall i :: 0 <= i < |s| ==> !IsSpace(s[i])
    ensures Trim(s) == s
  {
    TrimStartSpec(s);
    TrimEndSpec(s);
  }

  /** A string that neither starts nor ends with whitespace is trimmed to itself. */
  lemma TrimNoOuterSpace(s: string)
    requires s == [] || (!IsSpace(s[0]) && !IsSpace(s[|s| - 1]))
    ensures Trim(s) == s
  {
  }

  /** A blank string is trimmed to the empty string. */
  lemma TrimBlank(s: string)
    requires forall i :: 0 <= i < |s| ==> IsSpace(s[i])
    ensures Trim(s) == []
  {
    TrimStartSpec(s);
  }

  /** Trimming drops whitespace only: every non-whitespace character of `s`
      survives, in place, and so does everything between the first and the
      last of them. */
  lemma TrimDropsOnlySpace(s: string, k: int)
    requires 0 <= k < |s| && !IsSpace(s[k])
    ensures exists i :: 0 <= i <= k && i + |Trim(s)| > k && OccursAt(s, Trim(s), i) && Trim(s)[k - i] == s[k]
  {
    var i, j :| 0 <= i <= j <= |s| && Trim(s) == s[i..j]
      && (forall m :: 0 <= m < i ==> IsSpace(s[m]))
      && (forall m :: j <= m < |s| ==> IsSpace(s[m]));
    assert i <= k < j;
    assert OccursAt(s, Trim(s), i);
  }

  /** Trimming keeps only characters of the original. */
  lemma TrimChars(s: string)
    ensures forall c :: c in Trim(s) ==> c in s
  {
    var i, j :| 0 <= i <= j <= |s| && Trim(s) == s[i..j];
    assert forall m :: 0 <= m < j - i ==> Trim(s)[m] == s[i + m];
  }

  predicate StartsWith(s: string, prefix: string) {
    |prefix| <= |s| && s[..|prefix|] == prefix
  }

  predicate EndsWith(s: string, suffix: string) {
    |suffix| <= |s| && s[|s| - |suffix|..] == suffix
  }

  /** `s.includes(sub)`. */
  predicate Contains(s: string, sub: string)
    decreases |s|
  {
    StartsWith(s, sub) || (s != [] && Contains(s[1..], sub))
  }

  /** `sub` occurs in `s` starting at offset `i`. */
  predicate OccursAt(s: string, sub: string, i: int) {
    0 <= i <= |s| - |sub| && s[i..i + |sub|] == sub
  }

  /** `includes` agrees with the textbook definition: `sub` occurs at some offset of `s`. */
  lemma {:induction false} ContainsAtOffset(s: string, sub: string)
    ensures Contains(s, sub) <==> exists i :: OccursAt(s, sub, i)
    decreases |s|
  {
    if StartsWith(s, sub) {
      assert OccursAt(s, sub, 0);
    }
    if s != [] {
      ContainsAtOffset(s[1..], sub);
      if Contains(s[1..], sub) {
        var i :| OccursAt(s[1..], sub, i);
        assert s[i + 1..i + 1 + |sub|] == s[1..][i..i + |sub|];
        assert OccursAt(s, sub, i + 1);
      }
      if i :| OccursAt(s, sub, i) {
        if i > 0 {
          assert s[1..][i - 1..i - 1 + |sub|] == s[i..i + |sub|];
          assert OccursAt(s[1..], sub, i - 1);
        } else {
          assert StartsWith(s, sub);
        }
      }
    } else {
      if i :| OccursAt(s, sub, i) {
        assert StartsWith(s, sub);
      }
    }
  }

  /** Every string includes the empty string. */
  lemma ContainsEmpty(s: string)
    ensures Contains(s, "")
  {
  }

  /** `s.split(sep)` for a one-character separator: always at least one piece,
      and no piece contains the separator. */
  function Split(s: string, sep: char): (parts: seq<string>)
    ensures |parts| >= 1
    ensures forall k :: 0 <= k < |parts| ==> sep !in parts[k]
  {
    if s == [] then [[]]
    else
      var rest := Split(s[1..], sep);
      if s[0] == sep then [[]] + rest else [[s[0]] + rest[0]] + rest[1..]
  }

  /** `parts.join(sep)`. */
  function Join(parts: seq<string>, sep: string): string
  {
    if parts == [] then []
    else if |parts| == 1 then parts[0]
    else parts[0] + sep + Join(parts[1..], sep)
  }

  /** Splitting on a separator and joining on it again gives back the string. */
  lemma {:induction false} JoinSplit(s: string, sep: char)
    ensures Join(Split(s, sep), [sep]) == s
  {
    if s != [] {
      var rest := Split(s[1..], sep);
      JoinSplit(s[1..], sep);
      if s[0] == sep {
        assert Split(s, sep) == [[]] + rest;
        assert ([[]] + rest)[1..] == rest;
      } else if |rest| == 1 {
        assert Split(s, sep) == [[s[0]] + rest[0]];
      } else {
        var parts := [[s[0]] + rest[0]] + rest[1..];
        assert parts[1..] == rest[1..];
        assert Join(rest, [sep]) == rest[0] + [sep] + Join(rest[1..], [sep]);
      }
    }
  }

  /** A piece without the separator splits into itself. */
  lemma {:induction false} SplitNoSep(w: string, sep: char)
    requires sep !in w
    ensures Split(w, sep) == [w]
  {
    if w != [] {
      SplitNoSep(w[1..], sep);
      assert w == [w[0]] + w[1..];
    }
  }

  /** A piece followed by the separator splits off as the first piece. */
  lemma {:induction false} SplitCons(w: string, rest: string, sep: char)
    requires sep !in w
    ensures Split(w + [sep] + rest, sep) == [w] + Split(rest, sep)
  {
    if w == [] {
      assert ([sep] + rest)[1..] == rest;
    } else {
      SplitCons(w[1..], rest, sep);
      var s := w + [sep] + rest;
      assert s[0] == w[0] && s[1..] == w[1..] + [sep] + rest;
      assert w == [w[0]] + w[1..];
      var r := Split(s[1..], sep);
      assert Split(s, sep) == [[s[0]] + r[0]] + r[1..];
    }
  }

  /** Joining pieces that do not contain the separator and splitting again
      gives back the pieces. */
  lemma {:induction false} SplitJoin(parts: seq<string>, sep: char)
    requires |parts| >= 1
    requires forall k :: 0 <= k < |parts| ==> sep !in parts[k]
    ensures Split(Join(parts, [sep]), sep) == parts
    decreases |parts|
  {
    if |parts| == 1 {
      SplitNoSep(parts[0], sep);
    } else {
      SplitJoin(parts[1..], sep);
      SplitCons(parts[0], Join(parts[1..], [sep]), sep);
      assert parts == [parts[0]] + parts[1..];
    }
  }

  /** Appending one piece extends the joined string by the separator and that piece. */
  lemma {:induction false} JoinSnoc(parts: seq<string>, x: string, sep: string)
    requires |parts| >= 1
    ensures Join(parts + [x], sep) == Join(parts, sep) + sep + x
    decreases |parts|
  {
    if |parts| == 1 {
      assert (parts + [x])[1..] == [x];
    } else {
      JoinSnoc(parts[1..], x, sep);
      assert (parts + [x])[1..] == parts[1..] + [x];
    }
  }

  /** `word.charAt(0).toUpperCase() + word.slice(1)`. */
  function CapitalizeFirst(word: string): string {
    if word == [] then [] else [UpperChar(word[0])] + word[1..]
  }

  function MapCapitalize(words: seq<string>): (r: seq<string>)
    ensures |r| == |words|
  {
    if words == [] then [] else [CapitalizeFirst(words[0])] + MapCapitalize(words[1..])
  }

  /** `s.split('-').map(CapitalizeFirst).join(sep)`, the conversion behind both
      the breadcrumb titles and the icon component names. */
  function CapitalizeWords(s: string, sep: string): string {
    Join(MapCapitalize(Split(s, '-')), sep)
  }

  /** The same conversion stated one character at a time: each `-` becomes `sep`,
      and a character right after the start or after a `-` is upper-cased. */
  function CapitalizeWordsRef(s: string, sep: string, atWordStart: bool): string {
    if s == [] then []
    else if s[0] == '-' then sep + CapitalizeWordsRef(s[1..], sep, true)
    else [if atWordStart then UpperChar(s[0]) else s[0]] + CapitalizeWordsRef(s[1..], sep, false)
  }

  lemma JoinConsHead(c: string, x: string, rest: seq<string>, sep: string)
    ensures Join([c + x] + rest, sep) == c + Join([x] + rest, sep)
  {
    if rest != [] {
      assert ([c + x] + rest)[1..] == rest;
      assert ([x] + rest)[1..] == rest;
    }
  }

  /** Split-capitalize-join equals the one-character-at-a-time reference. */
  lemma {:induction false} CapitalizeWordsMatchesRef(s: string, sep: string)
    ensures CapitalizeWords(s, sep) == CapitalizeWordsRef(s, sep, true)
    ensures var parts := Split(s, '-');
      Join([parts[0]] + MapCapitalize(parts[1..]), sep) == CapitalizeWordsRef(s, sep, false)
    decreases |s|
  {
    if s != [] {
      var rest := Split(s[1..], '-');
      CapitalizeWordsMatchesRef(s[1..], sep);
      if s[0] == '-' {
        assert Split(s, '-') == [[]] + rest;
        assert ([[]] + rest)[1..] == rest;
        assert MapCapitalize([[]] + rest) == [[]] + MapCapitalize(rest);
      } else {
        var parts := Split(s, '-');
        assert parts == [[s[0]] + rest[0]] + rest[1..];
        assert parts[1..] == rest[1..];
        assert MapCapitalize(parts) == [[UpperChar(s[0])] + rest[0]] + MapCapitalize(rest[1..]);
        JoinConsHead([UpperChar(s[0])], rest[0], MapCapitalize(rest[1..]), sep);
        JoinConsHead([s[0]], rest[0], MapCapitalize(rest[1..]), sep);
        assert MapCapitalize(rest) == [CapitalizeFirst(rest[0])] + MapCapitalize(rest[1..]);
      }
    }
  }

  /** The reference conversion never produces a `-` when the separator has none. */
  lemma {:induction false} CapitalizeWordsRefNoDash(s: string, sep: string, atWordStart: bool)
    requires '-' !in sep
    ensures '-' !in CapitalizeWordsRef(s, sep, atWordStart)
    decreases |s|
  {
    if s != [] {
      CapitalizeWordsRefNoDash(s[1..], sep, true);
      CapitalizeWordsRefNoDash(s[1..], sep, false);
    }
  }

  /** The number of occurrences of `c` in `s`. */
  function Occurrences(s: string, c: char): nat {
    if s == [] then 0 else (if s[0] == c then 1 else 0) + Occurrences(s[1..], c)
  }

  /** Each `-` contributes `|sep|` characters and every other character one. */
  lemma {:induction false} CapitalizeWordsRefLength(s: string, sep: string, atWordStart: bool)
    ensures |CapitalizeWordsRef(s, sep, atWordStart)| == |s| - Occurrences(s, '-') + |sep| * Occurrences(s, '-')
    decreases |s|
  {
    if s != [] {
      CapitalizeWordsRefLength(s[1..], sep, true);
      CapitalizeWordsRefLength(s[1..], sep, false);
    }
  }
}
