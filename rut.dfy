/** Chilean RUT handling: normalisation to `BODY-D`, display formatting with
    thousands dots, and the modulo-11 check digit. Strings are sequences of
    UTF-16 code units in the source; here they are `seq<char>`, sequences
    of code points, so a character outside the Basic Multilingual Plane is
    one element where the source sees a surrogate pair. */
module Rut {
  import opened Wrappers
  import opened Seqs

  // ---------------------------------------------------------------------
  // String primitives used by the RUT functions
  // ---------------------------------------------------------------------

  /** The characters `String.prototype.trim` strips: the ECMAScript
      WhiteSpace and LineTerminator code points. */
  predicate IsWhitespace(c: char)
  {
    || c == '\t' || c == '\n' || c == '\U{B}' || c == '\U{C}' || c == '\r'
    || c == ' ' || c == '\U{A0}' || c == '\U{1680}'
    || ('\U{2000}' <= c <= '\U{200A}')
    || c == '\U{2028}' || c == '\U{2029}' || c == '\U{202F}' || c == '\U{205F}'
    || c == '\U{3000}' || c == '\U{FEFF}'
  }

  predicate IsTrimmed(s: string)
  {
    s == [] || (!IsWhitespace(s[0]) && !IsWhitespace(s[|s| - 1]))
  }

  function TrimStart(s: string): (r: string)
    ensures |r| <= |s| && r == s[|s| - |r|..]
    ensures r == [] || !IsWhitespace(r[0])
    ensures forall i :: 0 <= i < |s| - |r| ==> IsWhitespace(s[i])
  {
    if s != [] && IsWhitespace(s[0]) then TrimStart(s[1..]) else s
  }

  function TrimEnd(s: string): (r: string)
    ensures |r| <= |s| && r == s[..|r|]
    ensures r == [] || !IsWhitespace(r[|r| - 1])
    ensures forall i :: |r| <= i < |s| ==> IsWhitespace(s[i])
  {
    if s != [] && IsWhitespace(s[|s| - 1]) then TrimEnd(s[..|s| - 1]) else s
  }

  /** `s.trim()`: the longest slice of `s` that neither starts nor ends with
      whitespace, with only whitespace cut on either side. */
  function Trim(s: string): (r: string)
    ensures IsTrimmed(r)
  {
    TrimEnd(TrimStart(s))
  }

  /** `trim` cuts only whitespace, and only from the two ends: the result is
      the slice `s[i..j]` with nothing but whitespace outside it. */
  lemma TrimIsSlice(s: string) returns (i: nat, j: nat)
    ensures i <= j <= |s| && Trim(s) == s[i..j]
    ensures forall k :: 0 <= k < i ==> IsWhitespace(s[k])
    ensures forall k :: j <= k < |s| ==> IsWhitespace(s[k])
  {
    var t := TrimStart(s);
    var r := TrimEnd(t);
    i, j := |s| - |t|, |s| - |t| + |r|;
    assert r == s[i..j];
    forall k | j <= k < |s|
      ensures IsWhitespace(s[k])
    {
      assert s[k] == t[k - i];
    }
  }

  lemma TrimKeepsAbsent(s: string, c: char)
    requires c !in s
    ensures c !in Trim(s)
  {
    var t := TrimStart(s);
    assert forall x :: x in t ==> x in s;
  }

  lemma TrimOfTrimmed(s: string)
    requires IsTrimmed(s)
    ensures Trim(s) == s
  {
  }

  /** `toUpperCase` on one character; only ASCII letters are mapped. */
  function UpperChar(c: char): char
  {
    if 'a' <= c <= 'z' then (c as int - 32) as char else c
  }

  function Upper(s: string): string
  {
    seq(|s|, i requires 0 <= i < |s| => UpperChar(s[i]))
  }

  lemma UpperIdempotent(s: string)
    ensures Upper(Upper(s)) == Upper(s)
  {
  }

  lemma UpperKeepsAbsent(s: string, c: char)
    requires c !in s
    requires !('a' <= c <= 'z') && !('A' <= c <= 'Z')
    ensures c !in Upper(s)
  {
  }

  lemma {:induction false} UpperWithout(s: string, c: char)
    requires !('a' <= c <= 'z') && !('A' <= c <= 'Z')
    ensures Upper(Without(s, c)) == Without(Upper(s), c)
  {
    if s != [] {
      UpperWithout(s[1..], c);
      assert Upper(s)[1..] == Upper(s[1..]);
      if s[0] != c {
        assert Upper([s[0]] + Without(s[1..], c)) == [UpperChar(s[0])] + Upper(Without(s[1..], c));
      }
    }
  }

  lemma {:induction false} TrimStartUpper(s: string)
    ensures TrimStart(Upper(s)) == Upper(TrimStart(s))
  {
    if s != [] {
      UpperKeepsWhitespace(s[0]);
      assert Upper(s)[0] == UpperChar(s[0]);
      if IsWhitespace(s[0]) {
        assert Upper(s)[1..] == Upper(s[1..]);
        TrimStartUpper(s[1..]);
      }
    }
  }

  lemma {:induction false} TrimEndUpper(s: string)
    ensures TrimEnd(Upper(s)) == Upper(TrimEnd(s))
  {
    if s != [] {
      UpperKeepsWhitespace(s[|s| - 1]);
      assert Upper(s)[|s| - 1] == UpperChar(s[|s| - 1]);
      if IsWhitespace(s[|s| - 1]) {
        assert Upper(s)[..|s| - 1] == Upper(s[..|s| - 1]);
        TrimEndUpper(s[..|s| - 1]);
      }
    }
  }

  /** `s.split(sep)`: the pieces between separators; never empty. */
  function Split(s: string, sep: char): (r: seq<string>)
    ensures |r| >= 1
  {
    if s == [] then [[]]
    else
      var rest := Split(s[1..], sep);
      if s[0] == sep then [[]] + rest else [[s[0]] + rest[0]] + rest[1..]
  }

  lemma {:induction false} SplitNoSeparator(s: string, sep: char)
    requires sep !in s
    ensures Split(s, sep) == [s]
  {
    if s != [] {
      SplitNoSeparator(s[1..], sep);
      assert [s[0]] + s[1..] == s;
    }
  }

  lemma {:induction false} SplitFirst(a: string, b: string, sep: char)
    requires sep !in a
    ensures Split(a + [sep] + b, sep) == [a] + Split(b, sep)
  {
    if a != [] {
      assert (a + [sep] + b)[1..] == a[1..] + [sep] + b;
      SplitFirst(a[1..], b, sep);
      assert [a[0]] + a[1..] == a;
    } else {
      assert (a + [sep] + b)[1..] == b;
    }
  }

  /** `const [body, dv] = s.split('-')`: the first piece, and the second
      piece when there is one (`undefined` otherwise). */
  function Parts(s: string): (string, Option<string>)
  {
    var pieces := Split(s, '-');
    (pieces[0], if |pieces| > 1 then Some(pieces[1]) else None)
  }

  /** JavaScript falsiness of an optional string: `undefined` or `''`. */
  predicate Missing(s: Option<string>)
  {
    s.None? || s.value == []
  }

  // ---------------------------------------------------------------------
  // normalizeRut
  // ---------------------------------------------------------------------

  /** The cleaned string of `normalizeRut`: every '.' and '-' removed, then
      trimmed, then upper-cased. */
  function Clean(rut: string): (c: string)
    ensures '.' !in c && '-' !in c
    ensures IsTrimmed(c)
    ensures Upper(c) == c
  {
    var noDots := Without(Without(rut, '.'), '-');
    WithoutKeepsAbsent(Without(rut, '.'), '-', '.');
    var t := Trim(noDots);
    TrimKeepsAbsent(noDots, '.');
    TrimKeepsAbsent(noDots, '-');
    UpperOfClean(t);
    Upper(t)
  }

  /** Upper-casing keeps a trimmed dot- and hyphen-free string so, and is
      then a fixed point. */
  lemma UpperOfClean(t: string)
    requires '.' !in t && '-' !in t && IsTrimmed(t)
    ensures '.' !in Upper(t) && '-' !in Upper(t)
    ensures IsTrimmed(Upper(t))
    ensures Upper(Upper(t)) == Upper(t)
  {
    UpperKeepsAbsent(t, '.');
    UpperKeepsAbsent(t, '-');
    UpperIdempotent(t);
    if t != [] {
      UpperKeepsWhitespace(t[0]);
      UpperKeepsWhitespace(t[|t| - 1]);
    }
  }

  lemma UpperKeepsWhitespace(c: char)
    ensures IsWhitespace(UpperChar(c)) == IsWhitespace(c)
  {
  }

  /** A string whose dot- and hyphen-free form is already trimmed cleans to
      that form upper-cased. */
  lemma CleanIs(s: string, c: string)
    requires Without(Without(s, '.'), '-') == c
    requires IsTrimmed(c)
    ensures Clean(s) == Upper(c)
  {
    TrimOfTrimmed(c);
  }

  /** Cleaning is a projection: an already clean string is left alone. */
  lemma CleanOfClean(s: string)
    requires '.' !in s && '-' !in s && IsTrimmed(s) && Upper(s) == s
    ensures Clean(s) == s
  {
    WithoutAbsent(s, '.');
    WithoutAbsent(s, '-');
    CleanIs(s, s);
    assert Upper(s) == s;
  }

  /** Upper-casing the input first makes no difference to the cleaned string. */
  lemma CleanOfUpper(s: string)
    ensures Clean(Upper(s)) == Clean(s)
  {
    UpperWithout(s, '.');
    UpperWithout(Without(s, '.'), '-');
    var w := Without(Without(s, '.'), '-');
    TrimStartUpper(w);
    TrimEndUpper(TrimStart(w));
    UpperIdempotent(Trim(w));
  }

  /** `normalizeRut`: the cleaned string, with a '-' in front of its last
      character when it has at least two. */
  function NormalizeRut(rut: string): string
  {
    var clean := Clean(rut);
    if |clean| < 2 then clean else clean[..|clean| - 1] + "-" + [clean[|clean| - 1]]
  }

  /** A normalised RUT has no dots; taking out its hyphen gives the cleaned
      string; a cleaned string of two or more characters gets exactly one
      hyphen, right before its last character. */
  lemma NormalizeRutShape(rut: string)
    ensures var r, clean := NormalizeRut(rut), Clean(rut);
      && '.' !in r
      && Without(r, '-') == clean
      && (|clean| < 2 ==> r == clean)
      && (|clean| >= 2 ==>
            && |r| == |clean| + 1
            && r[|r| - 2] == '-'
            && '-' !in r[..|r| - 2] && r[|r| - 1] != '-')
  {
    var clean := Clean(rut);
    if |clean| < 2 {
      WithoutAbsent(clean, '-');
    } else {
      HyphenBeforeLast(clean);
    }
  }

  lemma HyphenBeforeLast(c: string)
    requires |c| >= 2 && '-' !in c && '.' !in c
    ensures var r := c[..|c| - 1] + "-" + [c[|c| - 1]];
      && '.' !in r
      && Without(r, '-') == c
      && |r| == |c| + 1
      && r[|r| - 2] == '-'
      && '-' !in r[..|r| - 2] && r[|r| - 1] != '-'
  {
    var body, d := c[..|c| - 1], c[|c| - 1];
    assert body + [d] == c;
    assert '-' !in body && '.' !in body by {
      assert forall x :: x in body ==> x in c;
    }
    HyphenOfJoined(body, d);
    var r := body + "-" + [d];
    assert r[..|r| - 2] == body;
  }

  lemma NormalizeRutIdempotent(rut: string)
    ensures NormalizeRut(NormalizeRut(rut)) == NormalizeRut(rut)
  {
    var n := NormalizeRut(rut);
    var c := Clean(rut);
    NormalizeRutShape(rut);
    assert Clean(n) == c by {
      WithoutAbsent(n, '.');
      CleanIs(n, c);
    }
  }

  /** A lower-case check digit 'k' (or any lower-case input) is read as upper case. */
  lemma NormalizeRutIgnoresCase(rut: string)
    ensures NormalizeRut(Upper(rut)) == NormalizeRut(rut)
  {
    CleanOfUpper(rut);
  }

  // ---------------------------------------------------------------------
  // formatRut
  // ---------------------------------------------------------------------

  /** A '.' after every character that has a positive multiple of three
      characters to its right. */
  function Dotted(s: string): string
  {
    if s == [] then []
    else [s[0]] + (if |s| > 1 && (|s| - 1) % 3 == 0 then "." else "") + Dotted(s[1..])
  }

  /** Up to three characters get no dot. */
  lemma {:induction false} DottedShort(s: string)
    requires |s| <= 3
    ensures Dotted(s) == s
  {
    if s != [] {
      DottedShort(s[1..]);
      assert Dotted(s) == [s[0]] + Dotted(s[1..]);
      assert [s[0]] + s[1..] == s;
    }
  }

  /** Grouping from the right: the last three characters form a group, and
      the characters before them are dotted the same way. */
  lemma {:induction false} DottedGroups(s: string)
    requires |s| > 3
    ensures Dotted(s) == Dotted(s[..|s| - 3]) + "." + s[|s| - 3..]
  {
    if |s| == 4 {
      DottedShort(s[1..]);
      assert s[..1] == [s[0]];
    } else {
      DottedGroups(s[1..]);
      var t := s[..|s| - 3];
      assert t[1..] == s[1..][..|s[1..]| - 3];
      assert s[1..][|s[1..]| - 3..] == s[|s| - 3..];
    }
  }

  /** Taking the dots out again gives back the dot-free characters of the body. */
  lemma {:induction false} DottedUndotted(s: string)
    ensures Without(Dotted(s), '.') == Without(s, '.')
  {
    if s != [] {
      DottedUndotted(s[1..]);
      var mark := if |s| > 1 && (|s| - 1) % 3 == 0 then "." else "";
      WithoutAppend([s[0]] + mark, Dotted(s[1..]), '.');
      WithoutAppend([s[0]], mark, '.');
    }
  }

  /** One dot per full group of three after the leading group, none in front. */
  lemma {:induction false} DottedLength(s: string)
    requires s != []
    ensures |Dotted(s)| == |s| + (|s| - 1) / 3
    ensures Dotted(s)[0] == s[0]
  {
    if |s| > 1 {
      DottedLength(s[1..]);
    }
  }

  /** `formatRut`: the input unchanged when it has no body or no check digit
      before/after its first '-', else the dotted body, '-', and the piece
      after the first '-' (anything after a second '-' is dropped). */
  function Formatted(rut: string): string
  {
    var (body, dv) := Parts(rut);
    if body == [] || Missing(dv) then rut else Dotted(body) + "-" + dv.value
  }

  /** The '.' owed in front of the dotted last `k` characters of an
      `n`-character body once more characters follow. */
  function Pending(n: nat, k: nat): string
  {
    if 0 < k < n && k % 3 == 0 then "." else ""
  }

  /** The dotted last `k + 1` characters: the new character, the '.' owed
      by the last `k`, and their dotted form. */
  lemma DottedSuffixStep(body: string, k: nat, x: char, done: string, mark: string)
    requires k < |body| && x == body[|body| - (k + 1)]
    requires done == Pending(|body|, k) + Dotted(body[|body| - k..])
    requires mark == if (k + 1) % 3 == 0 && k != |body| - 1 then "." else ""
    ensures mark + ([x] + done) == Pending(|body|, k + 1) + Dotted(body[|body| - (k + 1)..])
  {
    var s := body[|body| - (k + 1)..];
    assert s[1..] == body[|body| - k..];
  }

  /** One step of the walk: pushing `x` and then `mark` onto `acc` puts
      them in front of what `acc` reads as backwards. */
  lemma ReverseStep(acc: seq<char>, x: char, mark: string, done: string)
    requires |mark| <= 1
    requires Reverse(acc) == done
    ensures Reverse(acc + [x] + mark) == mark + ([x] + done)
  {
    ReverseAppend(acc + [x], mark);
    ReverseAppend(acc, [x]);
    assert Reverse(mark) == mark;
    assert Reverse([x]) == [x];
  }

  /** The `reduce` of `formatRut`: walk the reversed body, push each
      character and a '.' after every third one unless it is the last, then
      reverse back. `done` is the accumulator read backwards. */
  method DotBody(body: string) returns (withDots: string)
    ensures withDots == Dotted(body)
  {
    var reversed := Reverse(body);
    var n := |reversed|;
    var acc: seq<char> := [];
    ghost var done: string := [];
    var idx := 0;
    while idx < n
      invariant 0 <= idx <= n == |body|
      invariant Reverse(acc) == done
      invariant done == Pending(n, idx) + Dotted(body[n - idx..])
    {
      var mark := if (idx + 1) % 3 == 0 && idx != n - 1 then "." else "";
      ReverseAt(body, idx);
      ReverseStep(acc, reversed[idx], mark, done);
      DottedSuffixStep(body, idx, reversed[idx], done, mark);
      acc := acc + [reversed[idx]] + mark;
      done := mark + ([reversed[idx]] + done);
      idx := idx + 1;
    }
    assert body[n - n..] == body;
    withDots := Reverse(acc);
  }

  /** `formatRut`. */
  method FormatRut(rut: string) returns (r: string)
    ensures r == Formatted(rut)
  {
    var pieces := Split(rut, '-');
    var body := pieces[0];
    var dv := if |pieces| > 1 then Some(pieces[1]) else None;
    if body == [] || Missing(dv) {
      return rut;
    }
    var withDots := DotBody(body);
    r := withDots + "-" + dv.value;
  }

  /** What `split('-')` finds in a normalised RUT: the body and the one
      check character, or the short cleaned string and no check digit. */
  lemma NormalizedParts(rut: string)
    ensures var c := Clean(rut);
      Parts(NormalizeRut(rut)) == if |c| < 2 then (c, None) else (c[..|c| - 1], Some([c[|c| - 1]]))
  {
    var c := Clean(rut);
    var n := NormalizeRut(rut);
    if |c| < 2 {
      SplitNoSeparator(n, '-');
    } else {
      var body, d := c[..|c| - 1], c[|c| - 1];
      assert n == body + "-" + [d];
      assert '-' !in body by {
        assert forall x :: x in body ==> x in c;
      }
      SplitFirst(body, [d], '-');
      SplitNoSeparator([d], '-');
    }
  }

  /** Cleaning a dotted body with its check character gives back the body
      and the character. */
  lemma CleanDotted(body: string, d: char)
    requires '.' !in body && '-' !in body && d != '.' && d != '-'
    requires IsTrimmed(body + [d])
    ensures Clean(Dotted(body) + "-" + [d]) == Upper(body + [d])
  {
    UndotDotted(body, d);
    CleanIs(Dotted(body) + "-" + [d], body + [d]);
  }

  lemma UndotDotted(body: string, d: char)
    requires '.' !in body && '-' !in body && d != '.' && d != '-'
    ensures Without(Without(Dotted(body) + "-" + [d], '.'), '-') == body + [d]
  {
    DotsOfDotted(body, d);
    HyphenOfJoined(body, d);
  }

  lemma DotsOfDotted(body: string, d: char)
    requires '.' !in body && d != '.'
    ensures Without(Dotted(body) + "-" + [d], '.') == body + "-" + [d]
  {
    var x := Dotted(body);
    assert Without([d], '.') == [d] by {
      WithoutAbsent([d], '.');
    }
    assert Without(x + "-", '.') == body + "-" by {
      WithoutAppend(x, "-", '.');
      WithoutAbsent("-", '.');
      DottedUndotted(body);
      WithoutAbsent(body, '.');
    }
    WithoutAppend(x + "-", [d], '.');
  }

  lemma HyphenOfJoined(body: string, d: char)
    requires '-' !in body && d != '-'
    ensures Without(body + "-" + [d], '-') == body + [d]
  {
    assert Without([d], '-') == [d] by {
      WithoutAbsent([d], '-');
    }
    assert Without(body + "-", '-') == body by {
      WithoutAppend(body, "-", '-');
      WithoutAbsent(body, '-');
    }
    WithoutAppend(body + "-", [d], '-');
  }

  /** What `formatRut` makes of a normalised RUT. */
  lemma FormattedNormalized(rut: string)
    ensures var c := Clean(rut);
      Formatted(NormalizeRut(rut))
        == if |c| < 2 then NormalizeRut(rut) else Dotted(c[..|c| - 1]) + "-" + [c[|c| - 1]]
  {
    NormalizedParts(rut);
  }

  /** Formatting a normalised RUT and normalising again gives the normalised
      RUT back: the stored profile is shown formatted and read back on submit. */
  lemma FormatRoundTrip(rut: string)
    ensures NormalizeRut(Formatted(NormalizeRut(rut))) == NormalizeRut(rut)
  {
    var c := Clean(rut);
    FormattedNormalized(rut);
    if |c| < 2 {
      NormalizeRutIdempotent(rut);
    } else {
      CleanReformatted(c);
      SameClean(Dotted(c[..|c| - 1]) + "-" + [c[|c| - 1]], rut);
    }
  }

  /** A cleaned string of two or more characters, formatted, cleans back
      to itself. */
  lemma CleanReformatted(c: string)
    requires |c| >= 2 && '.' !in c && '-' !in c && IsTrimmed(c) && Upper(c) == c
    ensures Clean(Dotted(c[..|c| - 1]) + "-" + [c[|c| - 1]]) == c
  {
    var body, d := c[..|c| - 1], c[|c| - 1];
    assert body + [d] == c;
    assert '-' !in body && '.' !in body by {
      assert forall x :: x in body ==> x in c;
    }
    CleanDotted(body, d);
  }

  /** `normalizeRut` looks only at the cleaned string. */
  lemma SameClean(x: string, y: string)
    requires Clean(x) == Clean(y)
    ensures NormalizeRut(x) == NormalizeRut(y)
  {
  }

  // ---------------------------------------------------------------------
  // computeDV
  // ---------------------------------------------------------------------

  predicate IsDigit(c: char)
  {
    '0' <= c <= '9'
  }

  predicate AllDigits(s: string)
  {
    forall i :: 0 <= i < |s| ==> IsDigit(s[i])
  }

  /** `/^\d+$/.test(s)`: one or more ASCII digits and nothing else. */
  predicate IsDigitString(s: string)
  {
    |s| >= 1 && AllDigits(s)
  }

  /** `parseInt(c, 10)` on a digit character. */
  function DigitValue(c: char): nat
    requires IsDigit(c)
  {
    c as int - '0' as int
  }

  /** The multiplier of the k-th digit counted from the right (k = 0 is the
      last digit): 2, 3, 4, 5, 6, 7, 2, 3, ... */
  function Weight(k: nat): int
  {
    2 + k % 6
  }

  /** The multiplier update `multiplier === 7 ? 2 : multiplier + 1` walks
      through the weights. */
  lemma WeightStep(k: nat)
    ensures 2 <= Weight(k) <= 7
    ensures Weight(k + 1) == if Weight(k) == 7 then 2 else Weight(k) + 1
  {
  }

  /** Sum of the `k` rightmost digits, each times its weight. */
  function WeightedSum(body: string, k: nat): nat
    requires k <= |body| && AllDigits(body)
  {
    if k == 0 then 0
    else WeightedSum(body, k - 1) + DigitValue(body[|body| - k]) * Weight(k - 1)
  }

  /** What the check character stands for: 0..9, or 10 for 'K'. */
  function CheckValue(c: char): int
  {
    if c == 'K' then 10 else c as int - '0' as int
  }

  predicate IsCheckChar(c: char)
  {
    c == 'K' || IsDigit(c)
  }

  /** `11 - sum % 11`, with 11 written '0' and 10 written 'K'. */
  function CheckChar(sum: nat): char
  {
    var remainder := 11 - sum % 11;
    if remainder == 11 then '0'
    else if remainder == 10 then 'K'
    else ('0' as int + remainder) as char
  }

  /** The check character is the one value that brings the weighted sum to a
      multiple of 11. */
  lemma CheckCharIsModulo11(sum: nat, c: char)
    requires IsCheckChar(c)
    ensures IsCheckChar(CheckChar(sum))
    ensures (sum + CheckValue(CheckChar(sum))) % 11 == 0
    ensures (sum + CheckValue(c)) % 11 == 0 <==> c == CheckChar(sum)
  {
  }

  /** The check digit of an all-digit body. */
  function CheckDigitOf(body: string): char
    requires AllDigits(body)
  {
    CheckChar(WeightedSum(body, |body|))
  }

  /** `computeDV`: walks the body from the right, accumulating digit times
      multiplier. */
  method ComputeDV(body: string) returns (dv: string)
    requires AllDigits(body)
    ensures dv == [CheckDigitOf(body)]
  {
    var sum := 0;
    var multiplier := 2;
    var i := |body| - 1;
    while i >= 0
      invariant -1 <= i < |body|
      invariant sum == WeightedSum(body, |body| - 1 - i)
      invariant multiplier == Weight(|body| - 1 - i)
    {
      WeightStep(|body| - 1 - i);
      sum := sum + DigitValue(body[i]) * multiplier;
      multiplier := if multiplier == 7 then 2 else multiplier + 1;
      i := i - 1;
    }
    var remainder := 11 - sum % 11;
    if remainder == 11 {
      return "0";
    }
    if remainder == 10 {
      return "K";
    }
    dv := [('0' as int + remainder) as char];
  }

  // ---------------------------------------------------------------------
  // validateRut
  // ---------------------------------------------------------------------

  /** `validateRut`: normalise, split at '-', reject a missing body or check
      digit or a body with a non-digit, else compare with the computed digit. */
  function ValidateRut(rut: string): bool
  {
    var (body, dv) := Parts(NormalizeRut(rut));
    if body == [] || Missing(dv) then false
    else if !IsDigitString(body) then false
    else dv.value == [CheckDigitOf(body)]
  }

  /** A RUT is valid exactly when its cleaned form has a non-empty all-digit
      body followed by the right check character. */
  lemma ValidateRutMeans(rut: string)
    ensures ValidateRut(rut) <==>
      var c := Clean(rut);
      && |c| >= 2
      && IsDigitString(c[..|c| - 1])
      && c[|c| - 1] == CheckDigitOf(c[..|c| - 1])
  {
    NormalizedParts(rut);
  }

  /** Validating the normalised form gives the same answer, so the form's
      normalise-then-validate order is sound. */
  lemma ValidateNormalized(rut: string)
    ensures ValidateRut(NormalizeRut(rut)) == ValidateRut(rut)
  {
    NormalizeRutIdempotent(rut);
  }

  /** Case does not matter: '12.345.678-k' and '12.345.678-K' are the same RUT. */
  lemma ValidateIgnoresCase(rut: string)
    ensures ValidateRut(Upper(rut)) == ValidateRut(rut)
  {
    NormalizeRutIgnoresCase(rut);
  }

  lemma UpperOfDigits(s: string)
    requires AllDigits(s)
    ensures Upper(s) == s
  {
  }

  /** A formatted RUT with an all-digit body is valid exactly when its check
      character, upper-cased, is the computed one. */
  lemma ValidateFormatted(body: string, d: char)
    requires IsDigitString(body) && d != '.' && d != '-' && !IsWhitespace(d)
    ensures ValidateRut(Dotted(body) + "-" + [d]) <==> UpperChar(d) == CheckDigitOf(body)
  {
    var c := body + [d];
    assert '.' !in body && '-' !in body by {
      assert forall i :: 0 <= i < |body| ==> IsDigit(body[i]);
    }
    CleanDotted(body, d);
    UpperOfDigits(body);
    assert Upper(c) == body + [UpperChar(d)];
    assert Upper(c)[..|c| - 1] == body;
    ValidateRutMeans(Dotted(body) + "-" + [d]);
  }

  /** The weighted sum behind the login form's sample: 8*2 + 7*3 + 6*4 +
      5*5 + 4*6 + 3*7 + 2*2 + 1*3 = 138, and 11 - 138 % 11 = 5. */
  lemma CheckDigitSample(body: string)
    requires body == "12345678"
    ensures CheckDigitOf(body) == '5'
  {
    assert WeightedSum(body, 1) == 16;
    assert WeightedSum(body, 2) == 37;
    assert WeightedSum(body, 3) == 61;
    assert WeightedSum(body, 4) == 86;
    assert WeightedSum(body, 5) == 110;
    assert WeightedSum(body, 6) == 131;
    assert WeightedSum(body, 7) == 135;
    assert WeightedSum(body, 8) == 138;
  }

  /** A body whose check digit is 'K': 6*2 = 12, and 11 - 12 % 11 = 10. */
  lemma CheckDigitK(body: string)
    requires body == "6"
    ensures CheckDigitOf(body) == 'K'
  {
    assert WeightedSum(body, 1) == 12;
  }

  lemma DottedSample(body: string)
    requires body == "12345678"
    ensures Dotted(body) == "12.345.678"
  {
    var head, middle := body[..5], body[..2];
    DottedGroups(body);
    DottedGroups(head);
    assert head[..2] == middle;
    DottedShort(middle);
    assert Dotted(head) == "12.345";
  }

  /** The sample shown by the login form, 12.345.678-5, validates, and with
      any other check digit it does not. */
  lemma ValidateRutSample(body: string, d: char)
    requires body == "12345678" && d != '.' && d != '-' && !IsWhitespace(d)
    ensures Dotted(body) == "12.345.678"
    ensures ValidateRut(Dotted(body) + "-" + [d]) <==> d == '5'
  {
    CheckDigitSample(body);
    DottedSample(body);
    ValidateFormatted(body, d);
  }

  /** A check digit 'K' may be typed in lower case: 6-k validates. */
  lemma ValidateRutLowerK(body: string, d: char)
    requires body == "6" && d == 'k'
    ensures Dotted(body) == "6"
    ensures ValidateRut(Dotted(body) + "-" + [d])
  {
    CheckDigitK(body);
    DottedShort(body);
    ValidateFormatted(body, d);
  }
}
