/** The text handling both upload parsers apply to one row of a PDF table:
    joining the cells, Python's `str.strip`, the number tokens of
    `re.findall(r'(\d+[\.,]?\d*)', ...)`, `float` of a decimal text, and the
    leftmost `dd.mm.yy` date of `re.search`.  Digits are ASCII here:
    Python's `\d` and `str.isdigit` also accept other Unicode digits,
    which this model does not. */
module RowText {
  import opened Common
  import opened Calendar
  import opened Frames

  predicate IsDigit(c: char) { '0' <= c <= '9' }

  predicate IsSeparator(c: char) { c == '.' || c == ',' }

  /** `str.isspace` on one character: the ASCII controls 09-0D and 1C-1F,
      the space, and the Unicode spaces and line separators Python counts
      as whitespace. */
  predicate IsSpace(c: char)
  {
    || '\U{09}' <= c <= '\U{0D}'
    || '\U{1C}' <= c <= '\U{20}'
    || c == '\U{85}' || c == '\U{A0}' || c == '\U{1680}'
    || '\U{2000}' <= c <= '\U{200A}'
    || c == '\U{2028}' || c == '\U{2029}' || c == '\U{202F}' || c == '\U{205F}' || c == '\U{3000}'
  }

  predicate AllDigits(t: string)
  {
    forall k :: 0 <= k < |t| ==> IsDigit(t[k])
  }

  // ---------------------------------------------------------------------------
  // Joining and stripping

  /** The cells whose text is not `'nan'`, in order. */
  function PresentCells(cells: seq<string>): (r: seq<string>)
    ensures forall c :: c in r <==> c in cells && c != "nan"
  {
    if cells == [] then []
    else
      var rest := PresentCells(cells[..|cells| - 1]);
      assert cells == cells[..|cells| - 1] + [cells[|cells| - 1]];
      if cells[|cells| - 1] != "nan" then rest + [cells[|cells| - 1]] else rest
  }

  /** `' '.join(parts)`. */
  function Join(parts: seq<string>): (r: string)
    ensures parts == [] ==> r == ""
  {
    if parts == [] then ""
    else if |parts| == 1 then parts[0]
    else Join(parts[..|parts| - 1]) + " " + parts[|parts| - 1]
  }

  /** `' '.join([str(cell) for cell in row if str(cell) != 'nan'])`. */
  function JoinCells(cells: seq<string>): string
  {
    Join(PresentCells(cells))
  }

  /** A row whose every cell is missing joins to the empty text, so rows that
      `dropna(how='all')` removes would be skipped by the row loop anyway. */
  lemma {:induction false} AllMissingRowJoinsEmpty(cells: seq<string>)
    requires forall k :: 0 <= k < |cells| ==> cells[k] == "nan"
    ensures PresentCells(cells) == [] && JoinCells(cells) == ""
  {
    if cells != [] {
      AllMissingRowJoinsEmpty(cells[..|cells| - 1]);
    }
  }

  function TrimLeft(s: string): (r: string)
    ensures |r| <= |s| && r == s[|s| - |r|..]
    ensures r == [] || !IsSpace(r[0])
    ensures forall k :: 0 <= k < |s| - |r| ==> IsSpace(s[k])
  {
    if s != [] && IsSpace(s[0]) then TrimLeft(s[1..]) else s
  }

  function TrimRight(s: string): (r: string)
    ensures |r| <= |s| && r == s[..|r|]
    ensures r == [] || !IsSpace(r[|r| - 1])
    ensures forall k :: |r| <= k < |s| ==> IsSpace(s[k])
  {
    if s != [] && IsSpace(s[|s| - 1]) then TrimRight(s[..|s| - 1]) else s
  }

  /** `str.strip()`: the text without its leading and trailing spaces. */
  function Strip(s: string): (r: string)
    ensures |r| <= |s|
    ensures r == [] || (!IsSpace(r[0]) && !IsSpace(r[|r| - 1]))
    ensures r == [] <==> forall k :: 0 <= k < |s| ==> IsSpace(s[k])
  {
    var l := TrimLeft(s);
    var r := TrimRight(l);
    TrimBoth(s, l, r);
    r
  }

  lemma {:induction false} TrimBoth(s: string, l: string, r: string)
    requires l == TrimLeft(s) && r == TrimRight(l)
    ensures r != [] ==> !IsSpace(r[0])
    ensures r == [] <==> forall k :: 0 <= k < |s| ==> IsSpace(s[k])
  {
    if r == [] {
      assert l == [];
    } else {
      assert r[0] == l[0];
      assert s[|s| - |l|] == l[0];
    }
  }

  /** A text of no characters but spaces, as `not text.strip()` tests. */
  predicate IsBlank(s: string)
  {
    Strip(s) == []
  }

  // ---------------------------------------------------------------------------
  // Replacing characters

  /** `text.replace(from, to)` for one-character texts. */
  function ReplaceChar(s: string, from: char, to: char): (r: string)
    ensures |r| == |s|
    ensures forall k :: 0 <= k < |s| ==> r[k] == (if s[k] == from then to else s[k])
  {
    seq(|s|, (k: int) requires 0 <= k < |s| => if s[k] == from then to else s[k])
  }

  /** `text.replace(c, '')`. */
  function RemoveChar(s: string, c: char): (r: string)
    ensures forall x :: x in r <==> x in s && x != c
    ensures |r| <= |s|
  {
    if s == [] then []
    else
      var rest := RemoveChar(s[..|s| - 1], c);
      assert s == s[..|s| - 1] + [s[|s| - 1]];
      if s[|s| - 1] == c then rest else rest + [s[|s| - 1]]
  }

  /** `str.isdigit()`: at least one character, all of them digits. */
  predicate IsDigitText(t: string)
  {
    |t| > 0 && AllDigits(t)
  }

  // ---------------------------------------------------------------------------
  // Decimal numbers

  function Pow10(n: nat): (p: nat)
    ensures p >= 1
  {
    if n == 0 then 1 else 10 * Pow10(n - 1)
  }

  function DigitValue(c: char): (v: nat)
    requires IsDigit(c)
    ensures v <= 9
  {
    (c as int) - ('0' as int)
  }

  /** The integer a run of digits denotes. */
  function DigitsValue(d: string): (v: nat)
    requires AllDigits(d)
    ensures v < Pow10(|d|)
  {
    if d == [] then 0 else DigitsValue(d[..|d| - 1]) * 10 + DigitValue(d[|d| - 1])
  }

  /** The value of the digits after a decimal point. */
  function Fraction(d: string): (x: real)
    requires AllDigits(d)
    ensures 0.0 <= x < 1.0
  {
    var v, p := DigitsValue(d) as real, Pow10(|d|) as real;
    ProperFraction(v, p);
    v / p
  }

  lemma {:induction false} ProperFraction(v: real, p: real)
    requires 0.0 <= v < p
    ensures 0.0 <= v / p < 1.0
  {
    assert v == (v / p) * p;
  }

  /** The first non-digit position at or after `i`. */
  function DigitRun(s: string, i: nat): (j: nat)
    requires i <= |s|
    ensures i <= j <= |s|
    ensures forall k :: i <= k < j ==> IsDigit(s[k])
    ensures j == |s| || !IsDigit(s[j])
    decreases |s| - i
  {
    if i < |s| && IsDigit(s[i]) then DigitRun(s, i + 1) else i
  }

  /** An unsigned decimal text: digits, optionally a point and more digits,
      at least one digit in all. */
  function ParseUnsigned(t: string): (r: Option<real>)
    ensures r.Some? ==> r.value >= 0.0
    ensures AllDigits(t) && |t| > 0 ==> r == Some(DigitsValue(t) as real)
  {
    var m := DigitRun(t, 0);
    if m == |t| then
      assert t[..m] == t;
      if m > 0 then Some(DigitsValue(t) as real) else None
    else if t[m] == '.' && AllDigits(t[m + 1..]) && (m > 0 || m + 1 < |t|) then
      assert AllDigits(t[..m]);
      Some(DigitsValue(t[..m]) as real + Fraction(t[m + 1..]))
    else None
  }

  /** `float(text)` for plain decimal texts: surrounding spaces, a sign, digits
      and at most one point.  Exponents, `inf`, `nan` and underscores, which
      Python also reads, are read as errors here. */
  function ParseDecimal(s: string): (r: Option<real>)
    ensures (forall k :: 0 <= k < |s| ==> IsSpace(s[k])) ==> r.None?
  {
    var t := Strip(s);
    if |t| > 0 && (t[0] == '-' || t[0] == '+') then
      match ParseUnsigned(t[1..])
      case None => None
      case Some(x) => Some(if t[0] == '-' then -x else x)
    else if t == [] then None
    else ParseUnsigned(t)
  }

  // ---------------------------------------------------------------------------
  // Number tokens: re.findall(r'(\d+[\.,]?\d*)', text)

  /** The shape `\d+[\.,]?\d*` of one whole text. */
  predicate IsNumberToken(t: string)
  {
    var m := DigitRun(t, 0);
    m > 0 && (m == |t| || (IsSeparator(t[m]) && AllDigits(t[m + 1..])))
  }

  /** Where the greedy match starting at digit `i` ends: the digits, then one
      separator if there is one, then the digits after it. */
  function TokenEnd(s: string, i: nat): (j: nat)
    requires i < |s| && IsDigit(s[i])
    ensures i < j <= |s|
  {
    var a := DigitRun(s, i);
    if a < |s| && IsSeparator(s[a]) then DigitRun(s, a + 1) else a
  }

  /** `s[a..b]` is a match the regex engine, trying at `a`, returns: it has
      the token shape and cannot be extended. */
  predicate IsMatch(s: string, a: nat, b: nat)
    requires a < b <= |s|
  {
    && IsNumberToken(s[a..b])
    && (b == |s| || !IsDigit(s[b]))
    && (DigitRun(s, a) == b ==> b == |s| || !IsSeparator(s[b]))
  }

  predicate Gap(s: string, a: nat, b: nat)
    requires a <= b <= |s|
  {
    forall p :: a <= p < b ==> !IsDigit(s[p])
  }

  /** The reference meaning of findall from position `i`: `spans` are the
      successive leftmost, greedy, non-overlapping matches, and no digit
      lies outside them. */
  ghost predicate FindAll(s: string, i: nat, spans: seq<(nat, nat)>)
    requires i <= |s|
    decreases |spans|
  {
    if spans == [] then Gap(s, i, |s|)
    else
      && i <= spans[0].0 < spans[0].1 <= |s|
      && Gap(s, i, spans[0].0)
      && IsMatch(s, spans[0].0, spans[0].1)
      && FindAll(s, spans[0].1, spans[1..])
  }

  /** The matches, scanning from position `i`. */
  function Spans(s: string, i: nat): (r: seq<(nat, nat)>)
    requires i <= |s|
    ensures forall k :: 0 <= k < |r| ==> i <= r[k].0 < r[k].1 <= |s|
    decreases |s| - i
  {
    if i == |s| then []
    else if IsDigit(s[i]) then [(i, TokenEnd(s, i))] + Spans(s, TokenEnd(s, i))
    else Spans(s, i + 1)
  }

  /** The greedy match at a digit is a match. */
  lemma {:induction false} TokenEndIsMatch(s: string, i: nat)
    requires i < |s| && IsDigit(s[i])
    ensures IsMatch(s, i, TokenEnd(s, i))
  {
    var a := DigitRun(s, i);
    var j := TokenEnd(s, i);
    var t := s[i..j];
    assert forall k :: 0 <= k < a - i ==> t[k] == s[i + k];
    if a < j {
      assert t[a - i] == s[a];
    }
    DigitRunFrom(t, 0, a - i);
    if a < j {
      assert !IsDigit(t[a - i]);
      assert t[a - i + 1..] == s[a + 1..j];
    }
  }

  /** Any match at a digit ends where the greedy one does. */
  lemma {:induction false} MatchEndsAtTokenEnd(s: string, a: nat, b: nat)
    requires a < b <= |s| && IsMatch(s, a, b)
    ensures IsDigit(s[a]) && b == TokenEnd(s, a)
  {
    var t := s[a..b];
    var m := DigitRun(t, 0);
    assert t[0] == s[a];
    forall k | a <= k < a + m ensures IsDigit(s[k]) {
      assert t[k - a] == s[k];
    }
    if m == |t| {
      assert DigitRun(s, a) == b by { DigitRunFrom(s, a, b); }
    } else {
      assert s[a + m] == t[m];
      assert DigitRun(s, a) == a + m by { DigitRunFrom(s, a, a + m); }
      forall k | a + m + 1 <= k < b ensures IsDigit(s[k]) {
        assert s[k] == t[m + 1..][k - (a + m + 1)];
      }
      DigitRunFrom(s, a + m + 1, b);
    }
  }

  /** Digits from `i` to `j` and a non-digit at `j` fix the run. */
  lemma {:induction false} DigitRunFrom(s: string, i: nat, j: nat)
    requires i <= j <= |s|
    requires forall k :: i <= k < j ==> IsDigit(s[k])
    requires j == |s| || !IsDigit(s[j])
    ensures DigitRun(s, i) == j
    decreases j - i
  {
    if i < j {
      DigitRunFrom(s, i + 1, j);
    }
  }

  /** The scan meets the reference meaning of findall. */
  lemma {:induction false} SpansFindAll(s: string, i: nat)
    requires i <= |s|
    ensures FindAll(s, i, Spans(s, i))
    decreases |s| - i
  {
    if i < |s| {
      if IsDigit(s[i]) {
        var j := TokenEnd(s, i);
        TokenEndIsMatch(s, i);
        SpansFindAll(s, j);
        assert ([(i, j)] + Spans(s, j))[1..] == Spans(s, j);
      } else {
        SpansFindAll(s, i + 1);
        GapExtends(s, i, Spans(s, i + 1));
      }
    }
  }

  /** A non-digit in front of the scanned text joins the first gap. */
  lemma {:induction false} GapExtends(s: string, i: nat, spans: seq<(nat, nat)>)
    requires i < |s| && !IsDigit(s[i])
    requires FindAll(s, i + 1, spans)
    ensures FindAll(s, i, spans)
  {
  }

  /** The reference meaning has one solution only: the scan. */
  lemma {:induction false} FindAllUnique(s: string, i: nat, spans: seq<(nat, nat)>)
    requires i <= |s| && FindAll(s, i, spans)
    ensures spans == Spans(s, i)
    decreases |s| - i
  {
    if i < |s| {
      if spans == [] {
        assert !IsDigit(s[i]);
        assert FindAll(s, i + 1, spans);
        FindAllUnique(s, i + 1, spans);
      } else if spans[0].0 == i {
        MatchEndsAtTokenEnd(s, i, spans[0].1);
        FindAllUnique(s, spans[0].1, spans[1..]);
        assert spans == [spans[0]] + spans[1..];
      } else {
        assert !IsDigit(s[i]);
        assert FindAll(s, i + 1, spans);
        FindAllUnique(s, i + 1, spans);
      }
    }
  }

  /** The texts `re.findall` returns. */
  function Tokens(s: string): (r: seq<string>)
  {
    var sp := Spans(s, 0);
    seq(|sp|, (k: int) requires 0 <= k < |sp| => s[sp[k].0..sp[k].1])
  }

  /** `[float(n.replace(',', '.')) for n in numbers if n.replace(',', '').replace('.', '').isdigit()]`:
      None where a float conversion would raise. */
  function TokenNumbers(tokens: seq<string>): (r: Option<seq<real>>)
    ensures r.Some? ==> |r.value| <= |tokens|
  {
    if tokens == [] then Some([])
    else
      var t := tokens[|tokens| - 1];
      match TokenNumbers(tokens[..|tokens| - 1])
      case None => None
      case Some(ns) =>
        if PassesFilter(t) then
          match FloatOf(t)
          case None => None
          case Some(x) => Some(ns + [x])
        else Some(ns)
  }

  /** `n.replace(',', '').replace('.', '').isdigit()`. */
  predicate PassesFilter(t: string)
  {
    IsDigitText(RemoveChar(RemoveChar(t, ','), '.'))
  }

  /** `float(n.replace(',', '.'))`, None where it raises. */
  function FloatOf(t: string): Option<real>
  {
    ParseDecimal(ReplaceChar(t, ',', '.'))
  }

  /** The numbers of a row text. */
  function Numbers(s: string): Option<seq<real>>
  {
    TokenNumbers(Tokens(s))
  }

  /** A token's separator read as a decimal point. */
  function TokenValue(t: string): (x: real)
    requires IsNumberToken(t)
    ensures x >= 0.0
  {
    var m := DigitRun(t, 0);
    assert AllDigits(t[..m]);
    if m == |t| then DigitsValue(t) as real
    else DigitsValue(t[..m]) as real + Fraction(t[m + 1..])
  }

  /** The isdigit filter keeps every token: without its separator it is a
      non-empty run of digits. */
  lemma {:induction false} TokenPassesFilter(t: string)
    requires IsNumberToken(t)
    ensures PassesFilter(t)
  {
    var m := DigitRun(t, 0);
    var u := RemoveChar(RemoveChar(t, ','), '.');
    assert t[0] in RemoveChar(t, ',');
    assert t[0] in u;
    forall k | 0 <= k < |u| ensures IsDigit(u[k]) {
      assert u[k] in t;
      var p :| 0 <= p < |t| && t[p] == u[k];
      if p > m {
        assert t[p] == t[m + 1..][p - m - 1];
      }
    }
  }

  /** float reads a token, with ',' as '.', as the token's value. */
  lemma {:induction false} TokenFloat(t: string)
    requires IsNumberToken(t)
    ensures FloatOf(t) == Some(TokenValue(t))
  {
    var r := ReplaceChar(t, ',', '.');
    PointedToken(t, r);
    StripKeeps(r);
    assert ParseDecimal(r) == ParseUnsigned(r);
  }

  /** A token with its separator turned into a point: the same digits, a
      point where the separator was, no space at either end. */
  lemma {:induction false} PointedToken(t: string, r: string)
    requires IsNumberToken(t) && r == ReplaceChar(t, ',', '.')
    ensures r != [] && IsDigit(r[0]) && !IsSpace(r[|r| - 1])
    ensures ParseUnsigned(r) == Some(TokenValue(t))
  {
    var m := DigitRun(t, 0);
    assert forall k :: 0 <= k < m ==> r[k] == t[k];
    if m < |t| {
      assert r[m] == '.';
    }
    DigitRunFrom(r, 0, m);
    assert r[..m] == t[..m];
    if m < |t| {
      assert r[m + 1..] == t[m + 1..];
      LastNotSpace(r, m);
    } else {
      assert r == t;
    }
  }

  lemma {:induction false} LastNotSpace(r: string, m: nat)
    requires m < |r| && r[m] == '.' && AllDigits(r[m + 1..])
    ensures !IsSpace(r[|r| - 1])
  {
    if |r| - 1 > m {
      assert r[|r| - 1] == r[m + 1..][|r| - 1 - (m + 1)];
    }
  }

  /** A text with no space at either end strips to itself. */
  lemma {:induction false} StripKeeps(s: string)
    requires s != [] && !IsSpace(s[0]) && !IsSpace(s[|s| - 1])
    ensures Strip(s) == s
  {
    assert TrimLeft(s) == s;
  }

  /** Every text findall returns has the token shape. */
  lemma {:induction false} TokensAreMatches(s: string)
    ensures forall k :: 0 <= k < |Tokens(s)| ==> IsNumberToken(Tokens(s)[k])
  {
    SpansFindAll(s, 0);
    var sp := Spans(s, 0);
    forall k | 0 <= k < |sp| ensures IsNumberToken(Tokens(s)[k]) {
      SpanIsMatch(s, 0, sp, k);
    }
  }

  lemma {:induction false} SpanIsMatch(s: string, i: nat, spans: seq<(nat, nat)>, k: nat)
    requires i <= |s| && FindAll(s, i, spans) && k < |spans|
    ensures spans[k].0 < spans[k].1 <= |s| && IsMatch(s, spans[k].0, spans[k].1)
    decreases k
  {
    if k > 0 {
      SpanIsMatch(s, spans[0].1, spans[1..], k - 1);
    }
  }

  /** The values of number tokens, one for one. */
  function TokenValues(tokens: seq<string>): (xs: seq<real>)
    requires forall k :: 0 <= k < |tokens| ==> IsNumberToken(tokens[k])
    ensures |xs| == |tokens| && forall k :: 0 <= k < |tokens| ==> xs[k] == TokenValue(tokens[k])
  {
    seq(|tokens|, (k: int) requires 0 <= k < |tokens| => TokenValue(tokens[k]))
  }

  lemma {:induction false} TokenValuesSnoc(tokens: seq<string>)
    requires tokens != [] && forall k :: 0 <= k < |tokens| ==> IsNumberToken(tokens[k])
    ensures TokenValues(tokens) == TokenValues(tokens[..|tokens| - 1]) + [TokenValue(tokens[|tokens| - 1])]
  {
    var init := tokens[..|tokens| - 1];
    forall k | 0 <= k < |init| ensures IsNumberToken(init[k]) {
      assert init[k] == tokens[k];
    }
    var a, b := TokenValues(tokens), TokenValues(init) + [TokenValue(tokens[|tokens| - 1])];
    forall k | 0 <= k < |tokens| ensures a[k] == b[k] {
      if k < |init| { assert init[k] == tokens[k]; }
    }
  }

  /** One number per token, each token's value: the filter and the float
      conversion keep every match. */
  lemma {:induction false} TokenNumbersAll(tokens: seq<string>)
    requires forall k :: 0 <= k < |tokens| ==> IsNumberToken(tokens[k])
    ensures TokenNumbers(tokens) == Some(TokenValues(tokens))
  {
    if tokens != [] {
      var init := tokens[..|tokens| - 1];
      var last := tokens[|tokens| - 1];
      forall k | 0 <= k < |init| ensures IsNumberToken(init[k]) {
        assert init[k] == tokens[k];
      }
      TokenNumbersAll(init);
      TokenPassesFilter(last);
      TokenFloat(last);
      TokenValuesSnoc(tokens);
    }
  }

  /** The numbers of a row are the values of its tokens, one for one. */
  lemma {:induction false} NumbersAreTokenValues(s: string)
    ensures Numbers(s).Some? && |Numbers(s).value| == |Tokens(s)|
    ensures forall k :: 0 <= k < |Tokens(s)| ==>
      IsNumberToken(Tokens(s)[k]) && Numbers(s).value[k] == TokenValue(Tokens(s)[k])
  {
    TokensAreMatches(s);
    TokenNumbersAll(Tokens(s));
  }

  // ---------------------------------------------------------------------------
  // Dates: re.search(r'(\d{2}\.\d{2}\.\d{2...})', text)

  /** `\d{2}\.\d{2}\.\d{2}` matches at position `a`. */
  predicate DateAt(s: string, a: nat)
  {
    && a + 8 <= |s|
    && IsDigit(s[a]) && IsDigit(s[a + 1]) && s[a + 2] == '.'
    && IsDigit(s[a + 3]) && IsDigit(s[a + 4]) && s[a + 5] == '.'
    && IsDigit(s[a + 6]) && IsDigit(s[a + 7])
  }

  /** The leftmost position at or after `i` where a date starts. */
  function FindDate(s: string, i: nat): (r: Option<nat>)
    requires i <= |s|
    ensures r.Some? ==> i <= r.value && DateAt(s, r.value)
    ensures r.Some? ==> forall a :: i <= a < r.value ==> !DateAt(s, a)
    ensures r.None? ==> forall a :: i <= a ==> !DateAt(s, a)
    decreases |s| - i
  {
    if i + 8 > |s| then None
    else if DateAt(s, i) then Some(i)
    else FindDate(s, i + 1)
  }

  /** The end of the match of `\d{2}\.\d{2}\.\d{2,4}` at a date position:
      the greedy year takes up to two more digits. */
  function LongDateEnd(s: string, a: nat): (e: nat)
    requires DateAt(s, a)
    ensures a + 8 <= e <= a + 10 && e <= |s|
    ensures forall k :: a + 8 <= k < e ==> IsDigit(s[k])
    ensures e == a + 10 || e == |s| || !IsDigit(s[e])
  {
    if a + 8 < |s| && IsDigit(s[a + 8]) then
      if a + 9 < |s| && IsDigit(s[a + 9]) then a + 10 else a + 9
    else a + 8
  }

  function TwoDigits(c: char, d: char): (v: int)
    requires IsDigit(c) && IsDigit(d)
    ensures 0 <= v <= 99
  {
    10 * DigitValue(c) + DigitValue(d)
  }

  /** `datetime.strptime(text, '%d.%m.%y')` of the `dd.mm.yy` at a date position. */
  function ShortDate(s: string, a: nat): (r: Option<Date>)
    requires DateAt(s, a)
    ensures r == StrptimeDayMonthShortYear(
      TwoDigits(s[a], s[a + 1]), TwoDigits(s[a + 3], s[a + 4]), TwoDigits(s[a + 6], s[a + 7]))
  {
    StrptimeDayMonthShortYear(
      TwoDigits(s[a], s[a + 1]), TwoDigits(s[a + 3], s[a + 4]), TwoDigits(s[a + 6], s[a + 7]))
  }

  // ---------------------------------------------------------------------------
  // File names and tables

  /** `name.endswith(suffix)`. */
  predicate EndsWith(name: string, suffix: string)
  {
    |suffix| <= |name| && name[|name| - |suffix|..] == suffix
  }

  /** `pd.concat(dfs, ignore_index=True)`: the rows of every table, in order. */
  function Concat(tables: seq<seq<seq<string>>>): (rows: seq<seq<string>>)
    ensures tables == [] ==> rows == []
  {
    if tables == [] then [] else Concat(tables[..|tables| - 1]) + tables[|tables| - 1]
  }

  // ---------------------------------------------------------------------------
  // Records of a table

  /** The records a row reader yields for the rows, in row order. */
  function RecordsOf(rows: seq<seq<string>>, read: seq<string> -> Option<HotelRecord>): (recs: seq<HotelRecord>)
    ensures |recs| <= |rows|
  {
    if rows == [] then []
    else
      var rest := RecordsOf(rows[..|rows| - 1], read);
      match read(rows[|rows| - 1])
      case None => rest
      case Some(rec) => rest + [rec]
  }

  /** One more row: its record, if it yields one, comes after the records of
      the rows before it. */
  lemma {:induction false} RecordsOfStep(rows: seq<seq<string>>, k: nat, read: seq<string> -> Option<HotelRecord>)
    requires k < |rows|
    ensures RecordsOf(rows[..k + 1], read) ==
      RecordsOf(rows[..k], read) + (if read(rows[k]).Some? then [read(rows[k]).value] else [])
  {
    assert rows[..k + 1][..k] == rows[..k];
  }

  /** Each record comes from a row that yields it, and no row that yields a
      record is lost. */
  lemma {:induction false} RecordsFromRows(rows: seq<seq<string>>, read: seq<string> -> Option<HotelRecord>)
    ensures forall rec :: rec in RecordsOf(rows, read) ==>
      exists k :: 0 <= k < |rows| && read(rows[k]) == Some(rec)
    ensures forall k :: 0 <= k < |rows| && read(rows[k]).Some? ==>
      read(rows[k]).value in RecordsOf(rows, read)
  {
    if rows != [] {
      var init := rows[..|rows| - 1];
      RecordsFromRows(init, read);
      forall rec | rec in RecordsOf(rows, read)
        ensures exists k :: 0 <= k < |rows| && read(rows[k]) == Some(rec)
      {
        if rec in RecordsOf(init, read) {
          var k :| 0 <= k < |init| && read(init[k]) == Some(rec);
          assert rows[k] == init[k];
        } else {
          assert read(rows[|rows| - 1]) == Some(rec);
        }
      }
      forall k | 0 <= k < |rows| && read(rows[k]).Some?
        ensures read(rows[k]).value in RecordsOf(rows, read)
      {
        if k < |init| {
          assert rows[k] == init[k];
        }
      }
    }
  }

  /** A table with no readable row has no records. */
  lemma {:induction false} NoReadableRowNoRecords(rows: seq<seq<string>>, read: seq<string> -> Option<HotelRecord>)
    requires forall k :: 0 <= k < |rows| ==> read(rows[k]).None?
    ensures RecordsOf(rows, read) == []
  {
    if rows != [] {
      NoReadableRowNoRecords(rows[..|rows| - 1], read);
    }
  }

  // ---------------------------------------------------------------------------
  // Record layout

  /** The fixed positions of the report's row: the 7th, 8th, 9th, 11th and
      12th numbers are rooms occupied, rooms in total, occupancy in percent,
      average price and revenue. */
  function RecordOf(date: Date, n: seq<real>): (r: HotelRecord)
    requires |n| >= 12
    ensures r.date == date && r.roomsOccupied == n[6] && r.roomsTotal == n[7]
    ensures r.occupancyRate == n[8] / 100.0 && r.price == n[10] && r.revenue == n[11]
  {
    HotelRecord(date, n[10], n[8] / 100.0, n[6], n[7], n[11])
  }
}
