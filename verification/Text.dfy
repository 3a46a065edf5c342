/**
 The string operations the source borrows from JavaScript: trim, toLowerCase, split, join
 and decimal printing and reading of numbers.
 */
module Text {

  /** White space and line terminators as String.prototype.trim and /\s/ see them. */
  predicate IsSpace(c: char) {
    || c in {'\t', '\n', '\r', ' ', '\U{B}', '\U{C}', '\U{A0}', '\U{1680}', '\U{FEFF}'}
    || c in {'\U{2028}', '\U{2029}', '\U{202F}', '\U{205F}', '\U{3000}'}
    || '\U{2000}' <= c <= '\U{200A}'
  }

  function TrimStart(s: string): string {
    if s != [] && IsSpace(s[0]) then TrimStart(s[1..]) else s
  }

  function TrimEnd(s: string): string {
    if s != [] && IsSpace(s[|s| - 1]) then TrimEnd(s[..|s| - 1]) else s
  }

  function Trim(s: string): string {
    TrimEnd(TrimStart(s))
  }

  /** Trimming cuts exactly the white space at both ends. */
  lemma TrimMeaning(s: string) returns (i: nat, j: nat)
    ensures i <= j <= |s| && Trim(s) == s[i..j]
    ensures forall n :: 0 <= n < i || j <= n < |s| ==> IsSpace(s[n])
    ensures i < j ==> !IsSpace(s[i]) && !IsSpace(s[j - 1])
  {
    i := TrimStartMeaning(s);
    var k := TrimEndMeaning(s[i..]);
    j := i + k;
    assert s[i..][..k] == s[i..j];
    forall n | 0 <= n < i || j <= n < |s| ensures IsSpace(s[n]) {
      if n >= j {
        assert s[i..][n - i] == s[n];
      }
    }
  }

  lemma {:induction false} TrimStartMeaning(s: string) returns (i: nat)
    ensures i <= |s| && TrimStart(s) == s[i..]
    ensures forall n :: 0 <= n < i ==> IsSpace(s[n])
    ensures i < |s| ==> !IsSpace(s[i])
  {
    if s != [] && IsSpace(s[0]) {
      var n := TrimStartMeaning(s[1..]);
      i := n + 1;
      assert s[1..][n..] == s[i..];
      assert forall m :: 0 < m < i ==> s[m] == s[1..][m - 1];
    } else {
      i := 0;
    }
  }

  lemma {:induction false} TrimEndMeaning(s: string) returns (j: nat)
    ensures j <= |s| && TrimEnd(s) == s[..j]
    ensures forall n :: j <= n < |s| ==> IsSpace(s[n])
    ensures j > 0 ==> !IsSpace(s[j - 1])
  {
    if s != [] && IsSpace(s[|s| - 1]) {
      j := TrimEndMeaning(s[..|s| - 1]);
      assert s[..|s| - 1][..j] == s[..j];
    } else {
      j := |s|;
    }
  }

  /** The same letter, in whatever case. */
  predicate SameLetter(c: char, lower: char) {
    c == lower || ('A' <= c <= 'Z' && lower as int == c as int + 32)
  }

  predicate Spells(s: string, word: string) {
    |s| == |word| && forall n :: 0 <= n < |s| ==> SameLetter(s[n], word[n])
  }

  lemma LowerSpells(s: string, word: string)
    requires forall n :: 0 <= n < |word| ==> !('A' <= word[n] <= 'Z')
    ensures Lower(s) == word <==> Spells(s, word)
  {
    if Lower(s) == word {
      forall n | 0 <= n < |s| ensures SameLetter(s[n], word[n]) {
        assert Lower(s)[n] == LowerChar(s[n]);
      }
    }
    if Spells(s, word) {
      forall n | 0 <= n < |s| ensures Lower(s)[n] == word[n] {
        assert SameLetter(s[n], word[n]);
      }
    }
  }

  function LowerChar(c: char): char {
    if 'A' <= c <= 'Z' then c + ('a' - 'A') else c
  }

  function Lower(s: string): string {
    seq(|s|, i requires 0 <= i < |s| => LowerChar(s[i]))
  }

  /** The pieces of s between occurrences of c: split(c). */
  function Split(s: string, c: char): (pieces: seq<string>)
    ensures |pieces| >= 1
  {
    if s == [] then [[]]
    else
      var rest := Split(s[1..], c);
      if s[0] == c then [[]] + rest else [[s[0]] + rest[0]] + rest[1..]
  }

  function Join(pieces: seq<string>, glue: string): string {
    if pieces == [] then []
    else if |pieces| == 1 then pieces[0]
    else pieces[0] + glue + Join(pieces[1..], glue)
  }

  lemma {:induction false} SplitHead(piece: string, rest: string, c: char)
    requires c !in piece
    ensures Split(piece + [c] + rest, c) == [piece] + Split(rest, c)
  {
    if piece == [] {
      assert piece + [c] + rest == [c] + rest;
      assert ([c] + rest)[1..] == rest;
    } else {
      SplitHead(piece[1..], rest, c);
      assert (piece + [c] + rest)[1..] == piece[1..] + [c] + rest;
      assert [piece[0]] + piece[1..] == piece;
    }
  }

  lemma {:induction false} SplitWhole(piece: string, c: char)
    requires c !in piece
    ensures Split(piece, c) == [piece]
  {
    if piece != [] {
      SplitWhole(piece[1..], c);
      assert [piece[0]] + piece[1..] == piece;
    }
  }

  /** Splitting what was joined by a character none of the pieces contains gives the pieces back. */
  lemma {:induction false} SplitJoin(pieces: seq<string>, c: char)
    requires pieces != []
    requires forall i :: 0 <= i < |pieces| ==> c !in pieces[i]
    ensures Split(Join(pieces, [c]), c) == pieces
  {
    if |pieces| == 1 {
      SplitWhole(pieces[0], c);
    } else {
      var rest := pieces[1..];
      SplitJoin(rest, c);
      SplitHead(pieces[0], Join(rest, [c]), c);
      assert Join(pieces, [c]) == pieces[0] + [c] + Join(rest, [c]);
      assert pieces == [pieces[0]] + rest;
    }
  }

  /** Drops the white space at the front of s, then splits on runs of white space. */
  function Words(s: string): seq<string>
    decreases |s|
  {
    if s == [] then []
    else if IsSpace(s[0]) then Words(s[1..])
    else var n := WordLength(s); [s[..n]] + Words(s[n..])
  }

  /** Length of the run of non-space characters at the front of s. */
  function WordLength(s: string): (n: nat)
    ensures n <= |s|
    ensures s != [] && !IsSpace(s[0]) ==> n > 0
    ensures forall i :: 0 <= i < n ==> !IsSpace(s[i])
    ensures n < |s| ==> IsSpace(s[n])
  {
    if s == [] || IsSpace(s[0]) then 0 else 1 + WordLength(s[1..])
  }

  predicate IsWord(s: string) {
    s != [] && forall i :: 0 <= i < |s| ==> !IsSpace(s[i])
  }

  lemma WordsCons(word: string, rest: string)
    requires IsWord(word)
    ensures Words(word + " " + rest) == [word] + Words(rest)
    ensures Words(word) == [word]
  {
    var s := word + " " + rest;
    var n := WordLength(s);
    assert s[|word|] == ' ';
    assert forall i :: 0 <= i < |word| ==> s[i] == word[i];
    assert n == |word|;
    assert s[..n] == word;
    assert s[n..] == " " + rest;
    assert (" " + rest)[1..] == rest;
    var m := WordLength(word);
    assert m == |word|;
    assert word[..m] == word && word[m..] == [];
  }

  predicate IsDigit(c: char) {
    '0' <= c <= '9'
  }

  function DigitChar(d: nat): (c: char)
    requires d < 10
    ensures IsDigit(c)
  {
    '0' + d as char
  }

  /** Decimal numeral of n, as a template string prints it. */
  function Digits(n: nat): (s: string)
    ensures s != []
    ensures forall i :: 0 <= i < |s| ==> IsDigit(s[i])
  {
    if n < 10 then [DigitChar(n)] else Digits(n / 10) + [DigitChar(n % 10)]
  }

  /** The value of a string of decimal digits. */
  function DigitsValue(s: string): nat
    requires forall i :: 0 <= i < |s| ==> IsDigit(s[i])
  {
    if s == [] then 0
    else
      assert IsDigit(s[|s| - 1]);
      10 * DigitsValue(s[..|s| - 1]) + (s[|s| - 1] as int - '0' as int)
  }

  lemma {:induction false} ReadDigits(n: nat)
    ensures DigitsValue(Digits(n)) == n
  {
    if n < 10 {
      assert Digits(n)[..0] == [];
    } else {
      ReadDigits(n / 10);
      var s := Digits(n);
      assert s[..|s| - 1] == Digits(n / 10);
    }
  }
}
