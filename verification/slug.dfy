/** slugify (internal/api/resource_handlers.go): the one-pass loop against the
    specification "lower-case, cut into words of letters and digits, join with single
    dashes". A character is one rune of the name. */
module Slug {

  const DASH := '-'

  predicate IsWordChar(c: char) { 'a' <= c <= 'z' || '0' <= c <= '9' }

  /** unicode.ToLower as far as it can reach a to z: the capitals, the dotted capital I
      and the Kelvin sign. Every other rune stays outside a to z and 0 to 9. */
  function Lower(c: char): (l: char)
    ensures IsWordChar(c) || c == DASH ==> l == c
    ensures l == DASH ==> c == DASH
  {
    if 'A' <= c <= 'Z' then ((c as int) + 32) as char
    else if c == '\U{0130}' then 'i'
    else if c == '\U{212A}' then 'k'
    else c
  }

  function ToLower(s: string): (l: string)
    ensures |l| == |s| && forall i :: 0 <= i < |s| ==> l[i] == Lower(s[i])
  {
    seq(|s|, i requires 0 <= i < |s| => Lower(s[i]))
  }

  /** unicode.IsSpace. */
  predicate IsSpace(c: char) {
    || '\t' <= c <= '\r' || c == ' ' || c == '\U{0085}' || c == '\U{00A0}' || c == '\U{1680}'
    || '\U{2000}' <= c <= '\U{200A}' || c == '\U{2028}' || c == '\U{2029}' || c == '\U{202F}'
    || c == '\U{205F}' || c == '\U{3000}'
  }

  function TrimLeft(s: string, cut: char -> bool): string {
    if s != "" && cut(s[0]) then TrimLeft(s[1..], cut) else s
  }

  function TrimRight(s: string, cut: char -> bool): string {
    if s != "" && cut(s[|s| - 1]) then TrimRight(s[..|s| - 1], cut) else s
  }

  function Trim(s: string, cut: char -> bool): string { TrimRight(TrimLeft(s, cut), cut) }

  /** A trim takes off all it should at both ends and nothing else. */
  lemma {:induction false} TrimmedEnds(s: string, cut: char -> bool) returns (i: nat, j: nat)
    ensures i <= j <= |s| && Trim(s, cut) == s[i..j]
    ensures forall k :: 0 <= k < i || j <= k < |s| ==> cut(s[k])
    ensures i < j ==> !cut(s[i]) && !cut(s[j - 1])
  {
    i := LeftEnd(s, cut);
    j := RightEnd(TrimLeft(s, cut), cut);
    assert TrimLeft(s, cut) == s[i..];
    assert forall k :: 0 <= k < |s| - i ==> s[i..][k] == s[i + k];
    assert forall k :: i <= k < |s| ==> s[k] == s[i..][k - i];
    j := i + j;
  }

  lemma {:induction false} LeftEnd(s: string, cut: char -> bool) returns (i: nat)
    ensures i <= |s| && TrimLeft(s, cut) == s[i..] && (i < |s| ==> !cut(s[i]))
    ensures forall k :: 0 <= k < i ==> cut(s[k])
  {
    i := 0;
    if s != "" && cut(s[0]) {
      i := LeftEnd(s[1..], cut);
      assert s[1..][i..] == s[i + 1..];
      assert forall k :: 0 < k < i + 1 ==> s[k] == s[1..][k - 1];
      i := i + 1;
    }
  }

  lemma {:induction false} RightEnd(s: string, cut: char -> bool) returns (j: nat)
    ensures j <= |s| && TrimRight(s, cut) == s[..j] && (j > 0 ==> !cut(s[j - 1]))
    ensures forall k :: j <= k < |s| ==> cut(s[k])
  {
    j := |s|;
    if s != "" && cut(s[|s| - 1]) {
      j := RightEnd(s[..|s| - 1], cut);
      assert s[..|s| - 1][..j] == s[..j];
    }
  }

  // ---------------------------------------------------------- specification

  /** The length of the longest run of word characters at the head. */
  function RunLength(s: string): (n: nat)
    ensures n <= |s| && (forall i :: 0 <= i < n ==> IsWordChar(s[i])) && (n < |s| ==> !IsWordChar(s[n]))
  {
    if s == "" || !IsWordChar(s[0]) then 0 else 1 + RunLength(s[1..])
  }

  /** The maximal runs of word characters. */
  function Words(s: string): (words: seq<string>)
    ensures forall i :: 0 <= i < |words| ==> IsWord(words[i])
    decreases |s|
  {
    var n := RunLength(s);
    if s == "" then [] else if n == 0 then Words(s[1..]) else [s[..n]] + Words(s[n..])
  }

  predicate IsWord(w: string) {
    w != "" && forall i :: 0 <= i < |w| ==> IsWordChar(w[i])
  }

  function JoinDashes(words: seq<string>): string {
    if words == [] then "" else if |words| == 1 then words[0] else words[0] + [DASH] + JoinDashes(words[1..])
  }

  function SlugOf(name: string): string { JoinDashes(Words(ToLower(name))) }

  /** Letters, digits and dashes, with no dash at either end and no two in a row. */
  predicate IsSlug(s: string) {
    && (forall i :: 0 <= i < |s| ==> IsWordChar(s[i]) || s[i] == DASH)
    && (s != "" ==> s[0] != DASH && s[|s| - 1] != DASH)
    && (forall i :: 0 < i < |s| ==> s[i - 1] != DASH || s[i] != DASH)
  }

  // ------------------------------------------- what the specification gives

  lemma {:induction false} JoinIsSlug(words: seq<string>)
    requires forall i :: 0 <= i < |words| ==> IsWord(words[i])
    ensures IsSlug(JoinDashes(words))
    ensures words != [] ==> JoinDashes(words) != ""
  {
    if |words| > 1 {
      JoinIsSlug(words[1..]);
      var tail := JoinDashes(words[1..]);
      assert words[1..][0] == words[1];
      hide JoinDashes;
      WordThenSlug(words[0], tail);
    }
  }

  lemma WordThenSlug(word: string, tail: string)
    requires IsWord(word) && IsSlug(tail) && tail != ""
    ensures IsSlug(word + [DASH] + tail)
  {
    var s := word + [DASH] + tail;
    assert s[|word|] == DASH && forall i :: 0 <= i < |tail| ==> s[|word| + 1 + i] == tail[i];
    assert forall i :: 0 <= i < |word| ==> s[i] == word[i];
    hide IsWordChar;
  }

  lemma SlugTail(s: string, n: nat)
    requires IsSlug(s) && n < |s| && s[n] == DASH
    ensures s[n + 1..] != "" && IsSlug(s[n + 1..])
  {
    var rest := s[n + 1..];
    assert rest != "" && rest[0] == s[n + 1] && rest[|rest| - 1] == s[|s| - 1];
    assert forall i :: 0 <= i < |rest| ==> rest[i] == s[n + 1 + i];
    forall i | 0 < i < |rest| ensures rest[i - 1] != DASH || rest[i] != DASH {
      assert rest[i - 1] == s[n + i] && rest[i] == s[n + i + 1];
    }
  }

  lemma {:induction false} WordsOfSlug(s: string)
    requires IsSlug(s)
    ensures JoinDashes(Words(s)) == s
    ensures s != "" ==> Words(s) != []
    decreases |s|
  {
    if s == "" {
      NoWords();
    } else {
      var n := RunLength(s);
      var word := s[..n];
      assert n > 0 by { assert IsWordChar(s[0]); }
      assert IsWord(word);
      if n == |s| {
        assert word == s;
        WordsEnd(s);
      } else {
        SlugTail(s, n);
        var rest := s[n + 1..];
        hide Words, IsSlug, IsWordChar;
        WordsOfSlug(rest);
        assert s == word + [DASH] + rest;
        WordsTake(word, DASH, rest);
      }
    }
  }

  /** The slugs are exactly the names slugify leaves alone, every result is one of them,
      and so a second pass changes nothing. */
  lemma FixedPointsAreSlugs(name: string)
    ensures SlugOf(name) == name <==> IsSlug(name)
    ensures IsSlug(SlugOf(name))
    ensures SlugOf(SlugOf(name)) == SlugOf(name)
  {
    JoinIsSlug(Words(ToLower(name)));
    var slug := SlugOf(name);
    assert ToLower(slug) == slug by { WordCharsStay(slug); }
    WordsOfSlug(slug);
    if IsSlug(name) {
      WordCharsStay(name);
      WordsOfSlug(name);
    }
  }

  // --------------------------------------------------- what a slug keeps

  /** The letters a to z of a name, whatever their case, and its digits, in lower case; the
      dotted capital I and the Kelvin sign have an i and a k as their lower case. */
  function LettersAndDigits(s: string): string {
    if s == "" then "" else LetterOrDigit(s[0]) + LettersAndDigits(s[1..])
  }

  function LetterOrDigit(c: char): string {
    if 'a' <= c <= 'z' || '0' <= c <= '9' then [c]
    else if 'A' <= c <= 'Z' then [((c as int) + 32) as char]
    else if c == '\U{0130}' then "i"
    else if c == '\U{212A}' then "k"
    else ""
  }

  lemma {:induction false} KeptOfConcat(a: string, b: string)
    ensures LettersAndDigits(a + b) == LettersAndDigits(a) + LettersAndDigits(b)
  {
    hide LetterOrDigit;
    if a == "" {
      assert a + b == b;
    } else {
      KeptOfConcat(a[1..], b);
      assert (a + b)[1..] == a[1..] + b && (a + b)[0] == a[0];
      MoveOver(LetterOrDigit(a[0]), LettersAndDigits(a[1..]), LettersAndDigits(b));
    }
  }

  lemma {:induction false} KeptOfWord(word: string)
    requires word == "" || IsWord(word)
    ensures LettersAndDigits(word) == word
  {
    if word != "" {
      KeptOfWord(word[1..]);
      assert [word[0]] + word[1..] == word;
    }
  }

  lemma {:induction false} KeptOfLower(s: string)
    ensures LettersAndDigits(ToLower(s)) == LettersAndDigits(s)
  {
    if s != "" {
      KeptOfLower(s[1..]);
      assert ToLower(s)[1..] == ToLower(s[1..]);
    }
  }

  lemma {:induction false} KeptOfJoin(words: seq<string>)
    ensures LettersAndDigits(JoinDashes(words)) == LettersAndDigits(Flat(words))
  {
    if |words| == 1 {
      assert Flat(words) == words[0] + Flat(words[1..]) && Flat(words[1..]) == "";
      assert words[0] + "" == words[0];
    } else if |words| > 1 {
      KeptOfJoin(words[1..]);
      KeptOfConcat(words[0] + [DASH], JoinDashes(words[1..]));
      KeptOfConcat(words[0], [DASH]);
      assert LettersAndDigits([DASH]) == "";
      assert LettersAndDigits(words[0]) + "" == LettersAndDigits(words[0]);
      KeptOfConcat(words[0], Flat(words[1..]));
    }
  }

  function Flat(words: seq<string>): string { if words == [] then "" else words[0] + Flat(words[1..]) }

  lemma {:induction false} KeptOfWords(s: string)
    ensures LettersAndDigits(Flat(Words(ToLower(s)))) == LettersAndDigits(ToLower(s))
  {
    forall c: char ensures Lower(Lower(c)) == Lower(c) {}
    KeptOfRuns(ToLower(s));
  }

  lemma {:induction false} KeptOfRuns(s: string)
    requires forall i :: 0 <= i < |s| ==> Lower(s[i]) == s[i]
    ensures LettersAndDigits(Flat(Words(s))) == LettersAndDigits(s)
    decreases |s|
  {
    var n := RunLength(s);
    hide LetterOrDigit, Lower, IsWordChar, RunLength;
    if s == "" {
    } else if n == 0 {
      NotKept(s[0]);
      KeptOfRuns(s[1..]);
      assert "" + LettersAndDigits(s[1..]) == LettersAndDigits(s[1..]);
    } else {
      var run, rest := s[..n], Words(s[n..]);
      KeptOfRuns(s[n..]);
      assert Words(s) == [run] + rest && ([run] + rest)[1..] == rest;
      hide Words, LettersAndDigits;
      KeptOfConcat(run, Flat(rest));
      KeptOfConcat(run, s[n..]);
      assert run + s[n..] == s;
    }
  }

  lemma NotKept(c: char)
    requires Lower(c) == c && !IsWordChar(c)
    ensures LetterOrDigit(c) == ""
  {
  }

  /** A slug is the name's letters, in lower case, and digits, all of them and in order, with
      dashes between; names that differ only in case have the same letters. */
  lemma SlugKeepsLettersAndDigits(name: string)
    ensures LettersAndDigits(SlugOf(name)) == LettersAndDigits(name)
  {
    hide LettersAndDigits, Words, JoinDashes, Flat;
    KeptOfJoin(Words(ToLower(name)));
    KeptOfWords(name);
    KeptOfLower(name);
  }

  /** The two characters are equal or a capital letter and its small letter. */
  predicate SameButForCase(a: char, b: char) {
    || a == b
    || ('A' <= a <= 'Z' && b as int == a as int + 32)
    || ('A' <= b <= 'Z' && a as int == b as int + 32)
  }

  /** Case does not matter. */
  lemma CaseDoesNotMatter(a: string, b: string)
    requires |a| == |b| && forall i :: 0 <= i < |a| ==> SameButForCase(a[i], b[i])
    ensures SlugOf(a) == SlugOf(b)
  {
    forall i | 0 <= i < |a| ensures Lower(a[i]) == Lower(b[i]) { assert SameButForCase(a[i], b[i]); }
    assert ToLower(a) == ToLower(b);
  }

  lemma WordCharsStay(s: string)
    requires IsSlug(s)
    ensures ToLower(s) == s
  {
    assert forall i :: 0 <= i < |s| ==> Lower(s[i]) == s[i];
  }

  // -------------------------------------------------------------- the loop

  lemma WordsSkip(c: char, s: string)
    requires !IsWordChar(c)
    ensures Words([c] + s) == Words(s)
  {
    assert ([c] + s)[1..] == s;
  }

  lemma WordsTake(word: string, c: char, s: string)
    requires IsWord(word) && !IsWordChar(c)
    ensures Words(word + [c] + s) == [word] + Words(s)
  {
    var t := word + [c] + s;
    assert t[|word|] == c && forall i :: 0 <= i < |word| ==> t[i] == word[i];
    assert RunLength(t) == |word|;
    assert t[..|word|] == word && t[|word|..] == [c] + s;
    WordsSkip(c, s);
  }

  lemma WordsEnd(word: string)
    requires IsWord(word)
    ensures Words(word) == [word]
  {
    assert RunLength(word) == |word|;
    assert word[..|word|] == word && Words(word[|word|..]) == [];
  }

  lemma {:induction false} JoinSnoc(words: seq<string>, word: string)
    ensures JoinDashes(words + [word]) == (if words == [] then "" else JoinDashes(words) + [DASH]) + word
  {
    if |words| == 1 {
      assert (words + [word])[1..] == [word];
    } else if |words| > 1 {
      JoinSnoc(words[1..], word);
      assert (words + [word])[1..] == words[1..] + [word];
    } else {
      assert words + [word] == [word];
    }
  }

  /** The finished words and the unfinished last one. */
  function With(done: seq<string>, word: string): seq<string> {
    if word == "" then done else done + [word]
  }

  lemma GrowWord(done: seq<string>, word: string, c: char)
    ensures JoinDashes(With(done, word + [c]))
      == JoinDashes(With(done, word)) + (if word == "" && done != [] then [DASH] else "") + [c]
  {
    JoinSnoc(done, word + [c]);
    if word != "" {
      JoinSnoc(done, word);
      var head := if done == [] then "" else JoinDashes(done) + [DASH];
      assert head + (word + [c]) == (head + word) + [c];
    } else {
      assert word + [c] == [c];
    }
  }

  lemma WordGrows(word: string, c: char)
    requires (word == "" || IsWord(word)) && ('a' <= c <= 'z' || '0' <= c <= '9')
    ensures IsWord(word + [c])
  {}

  lemma NotWordChar(c: char)
    requires !('a' <= c <= 'z' || '0' <= c <= '9')
    ensures !IsWordChar(c)
  {}

  lemma NoWords()
    ensures Words("") == [] && JoinDashes([]) == ""
  {}

  /** The loop's state before it reads the rest of s: words were finished, word is the
      one being read, b is what was written. */
  ghost predicate Written(s: string, rest: string, done: seq<string>, word: string, b: string, prevDash: bool) {
    && (word == "" || IsWord(word))
    && (forall k :: 0 <= k < |done| ==> IsWord(done[k]))
    && Words(s) == done + Words(word + rest)
    && b == JoinDashes(With(done, word)) + (if prevDash then [DASH] else "")
    && (prevDash <==> word == "" && done != [])
  }

  lemma ReadWordChar(s: string, c: char, rest: string, done: seq<string>, word: string, b: string, prevDash: bool)
    requires Written(s, [c] + rest, done, word, b, prevDash) && ('a' <= c <= 'z' || '0' <= c <= '9')
    ensures Written(s, rest, done, word + [c], b + [c], false)
  {
    hide Words, JoinDashes;
    GrowWord(done, word, c);
    WordGrows(word, c);
    hide With, IsWord;
    assert word + ([c] + rest) == (word + [c]) + rest;
    if prevDash { assert b + [c] == JoinDashes(With(done, word)) + [DASH] + [c]; }
    assert b + [c] + "" == b + [c];
  }

  lemma ReadBetweenWords(s: string, c: char, rest: string, done: seq<string>, b: string, prevDash: bool)
    requires Written(s, [c] + rest, done, "", b, prevDash) && !IsWordChar(c)
    ensures Written(s, rest, done, "", b, prevDash)
    ensures !prevDash ==> b == ""
  {
    NoWords();
    WordsSkip(c, rest);
    hide Words, JoinDashes, IsWord;
    assert "" + rest == rest && "" + ([c] + rest) == [c] + rest;
  }

  lemma MoveOver<T>(a: seq<T>, b: seq<T>, c: seq<T>)
    ensures a + (b + c) == (a + b) + c
  {}

  lemma ReadAfterWord(s: string, c: char, rest: string, done: seq<string>, word: string, b: string, prevDash: bool)
    requires Written(s, [c] + rest, done, word, b, prevDash) && !IsWordChar(c) && word != ""
    ensures Written(s, rest, done + [word], "", b + [DASH], true)
    ensures b != "" && !prevDash
  {
    hide Words, JoinDashes, IsSlug, IsWord, IsWordChar;
    JoinIsSlug(done + [word]);
    WordsTake(word, c, rest);
    MoveOver(word, [c], rest);
    MoveOver(done, [word], Words(rest));
    assert b == JoinDashes(done + [word]) + "";
    assert "" + rest == rest;
  }

  lemma ReadOther(s: string, c: char, rest: string, done: seq<string>, word: string, b: string, prevDash: bool)
    requires Written(s, [c] + rest, done, word, b, prevDash) && !('a' <= c <= 'z' || '0' <= c <= '9')
    ensures var dash := !prevDash && |b| > 0;
      Written(s, rest, With(done, word), "", if dash then b + [DASH] else b, prevDash || dash)
  {
    hide Written;
    NotWordChar(c);
    if word == "" {
      ReadBetweenWords(s, c, rest, done, b, prevDash);
    } else {
      ReadAfterWord(s, c, rest, done, word, b, prevDash);
    }
  }

  lemma WrittenAtStart(s: string)
    ensures Written(s, s, [], "", "", false)
  {
    NoWords();
    hide Words, JoinDashes;
    assert "" + s == s && [] + Words(s) == Words(s);
  }

  lemma WrittenAtEnd(s: string, done: seq<string>, word: string, b: string, prevDash: bool)
    requires Written(s, "", done, word, b, prevDash)
    ensures b == JoinDashes(Words(s)) + if prevDash then [DASH] else ""
  {
    if word != "" { WordsEnd(word); } else { NoWords(); }
    hide Words, JoinDashes, IsWord;
    assert word + "" == word && done + [] == done;
  }

  /** The loop of slugify over the lowered name, before the final trim. */
  method BuildSlug(s: string) returns (b: string, prevDash: bool)
    ensures b == JoinDashes(Words(s)) + if prevDash then [DASH] else ""
  {
    hide *;
    b, prevDash := "", false;
    ghost var done: seq<string>, word := [], "";
    var i := 0;
    WrittenAtStart(s);
    assert s[0..] == s;
    while i < |s|
      invariant i <= |s| && Written(s, s[i..], done, word, b, prevDash)
    {
      assert s[i..] == [s[i]] + s[i + 1..];
      if 'a' <= s[i] <= 'z' || '0' <= s[i] <= '9' {
        ReadWordChar(s, s[i], s[i + 1..], done, word, b, prevDash);
        b := b + [s[i]];
        prevDash := false;
        word := word + [s[i]];
      } else {
        ReadOther(s, s[i], s[i + 1..], done, word, b, prevDash);
        if !prevDash && |b| > 0 {
          b := b + [DASH];
          prevDash := true;
        }
        done, word := With(done, word), "";
      }
      i := i + 1;
    }
    assert s[|s|..] == "";
    WrittenAtEnd(s, done, word, b, prevDash);
  }

  // ------------------------------------------------------------- the trims

  lemma RunIs(s: string, n: nat)
    requires n <= |s| && (forall i :: 0 <= i < n ==> IsWordChar(s[i])) && (n < |s| ==> !IsWordChar(s[n]))
    ensures RunLength(s) == n
  {}

  lemma {:induction false} WordsSkipEnd(s: string, c: char)
    requires !IsWordChar(c)
    ensures Words(s + [c]) == Words(s)
    decreases |s|
  {
    var n := RunLength(s);
    if s == "" {
      WordsSkip(c, "");
      assert "" + [c] == [c] + "";
    } else if n == 0 {
      WordsSkipEnd(s[1..], c);
      assert (s + [c])[1..] == s[1..] + [c];
    } else if n == |s| {
      WordsTake(s, c, "");
      WordsEnd(s);
      assert s + [c] + "" == s + [c];
    } else {
      WordsSkipEnd(s[n..], c);
      RunIs(s + [c], n);
      assert (s + [c])[n..] == s[n..] + [c] && (s + [c])[..n] == s[..n];
    }
  }

  lemma SpaceIsNoWordChar(c: char)
    requires IsSpace(c)
    ensures !IsWordChar(Lower(c))
  {}

  lemma LowerOfConcat(a: string, b: string)
    ensures ToLower(a + b) == ToLower(a) + ToLower(b)
  {}

  lemma {:induction false} SpacesLeftDoNotMatter(s: string)
    ensures Words(ToLower(TrimLeft(s, IsSpace))) == Words(ToLower(s))
  {
    hide Words, ToLower, Lower;
    if s != "" && IsSpace(s[0]) {
      SpacesLeftDoNotMatter(s[1..]);
      SpaceIsNoWordChar(s[0]);
      WordsSkip(Lower(s[0]), ToLower(s[1..]));
      LowerOfConcat([s[0]], s[1..]);
      assert [s[0]] + s[1..] == s && ToLower([s[0]]) == [Lower(s[0])];
    }
  }

  lemma {:induction false} SpacesRightDoNotMatter(s: string)
    ensures Words(ToLower(TrimRight(s, IsSpace))) == Words(ToLower(s))
  {
    hide Words, ToLower, Lower;
    if s != "" && IsSpace(s[|s| - 1]) {
      var c, front := s[|s| - 1], s[..|s| - 1];
      SpacesRightDoNotMatter(front);
      SpaceIsNoWordChar(c);
      WordsSkipEnd(ToLower(front), Lower(c));
      LowerOfConcat(front, [c]);
      assert front + [c] == s && ToLower([c]) == [Lower(c)];
    }
  }

  predicate IsDash(c: char) { c == DASH }

  lemma TrimOneDash(slug: string)
    requires IsSlug(slug)
    ensures Trim(slug, IsDash) == slug && (slug != "" ==> Trim(slug + [DASH], IsDash) == slug)
  {
    if slug != "" {
      assert (slug + [DASH])[0] == slug[0];
      assert TrimLeft(slug + [DASH], IsDash) == slug + [DASH];
      assert (slug + [DASH])[..|slug|] == slug;
    }
  }

  /** slugify. */
  method Slugify(name: string) returns (slug: string)
    ensures slug == SlugOf(name)
  {
    var s := ToLower(Trim(name, IsSpace));
    SpacesLeftDoNotMatter(name);
    SpacesRightDoNotMatter(TrimLeft(name, IsSpace));
    var b, prevDash := BuildSlug(s);
    JoinIsSlug(Words(s));
    TrimOneDash(JoinDashes(Words(s)));
    hide Trim, Words, IsSlug;
    assert b + "" == b;
    slug := Trim(b, IsDash);
  }
}
