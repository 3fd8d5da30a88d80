/** Printing whole numbers with thousands separators (log/format.go). */
module Format {

  // ----- numerals

  function DigitChar(d: nat): char
    requires d < 10
  {
    '0' + d as char
  }

  /** The decimal numeral of a number, without leading zeros. */
  function Decimal(n: nat): (s: string)
    ensures s != [] && forall i | 0 <= i < |s| :: '0' <= s[i] <= '9'
  {
    if n < 10 then [DigitChar(n)] else Decimal(n / 10) + [DigitChar(n % 10)]
  }

  function Numeral(n: int): string {
    if n < 0 then "-" + Decimal(-n) else Decimal(n)
  }

  /** What is left when the commas are taken out. */
  function WithoutCommas(s: string): string {
    if s == [] then [] else (if s[0] == ',' then [] else [s[0]]) + WithoutCommas(s[1..])
  }

  /** A comma stands at position i exactly when a group of three digits follows it. */
  ghost predicate CommaAt(s: string, i: int)
    requires 0 <= i < |s|
  {
    s[i] == ',' <==> (|s| - i) % 4 == 0
  }

  /** Commas stand exactly before each group of three from the right, though one may still
      stand in front. */
  ghost predicate GroupedPart(s: string) {
    forall i {:trigger CommaAt(s, i)} | 0 <= i < |s| :: CommaAt(s, i)
  }

  ghost predicate Grouped(s: string) {
    GroupedPart(s) && (s != [] ==> s[0] != ',')
  }

  /** Digits only, once the commas are out. */
  ghost predicate Separated(s: string, n: nat) {
    Grouped(s) && WithoutCommas(s) == Decimal(n)
  }

  lemma Prepend(c: char, s: string)
    ensures WithoutCommas([c] + s) == (if c == ',' then [] else [c]) + WithoutCommas(s)
  {
    assert ([c] + s)[1..] == s;
  }

  lemma GroupedMore(c: char, s: string)
    requires GroupedPart(s) && (c == ',' <==> (|s| + 1) % 4 == 0)
    ensures GroupedPart([c] + s)
  {
    var r := [c] + s;
    forall i | 0 <= i < |r|
      ensures CommaAt(r, i)
    {
      if i > 0 {
        assert r[i] == s[i - 1] && CommaAt(s, i - 1);
      }
    }
  }

  // ----- the buffer

  const MAX_LENGTH := 26
  const MAX_UINT64: nat := 0xFFFF_FFFF_FFFF_FFFF
  const MAX_INT64: nat := 0x7FFF_FFFF_FFFF_FFFF

  /** n followed by k zeros. */
  function Scale(n: nat, k: nat): nat {
    if k == 0 then n else 10 * Scale(n, k - 1)
  }

  lemma {:induction false} ScaleGrows(n: nat, m: nat, k: nat)
    requires n <= m
    ensures Scale(n, k) <= Scale(m, k)
  {
    if k > 0 {
      ScaleGrows(n, m, k - 1);
    }
  }

  lemma {:induction false} ScaleTen(q: nat, k: nat)
    ensures Scale(q, k + 1) == Scale(10 * q, k)
  {
    if k > 0 {
      ScaleTen(q, k - 1);
    }
  }

  lemma {:induction false} ScaleMore(n: nat, j: nat, k: nat)
    requires n > 0 && j <= k
    ensures 0 < Scale(n, j) <= Scale(n, k)
  {
    if k > j {
      ScaleMore(n, j, k - 1);
    } else if k > 0 {
      ScaleMore(n, j - 1, k - 1);
    }
  }

  lemma {:induction false} ScaleTwice(n: nat, j: nat, k: nat)
    ensures Scale(n, j + k) == Scale(Scale(n, j), k)
  {
    if k > 0 {
      ScaleTwice(n, j, k - 1);
    }
  }

  lemma Billions()
    ensures Scale(1, 19) == 10_000_000_000_000_000_000
    ensures Scale(1, 20) == 100_000_000_000_000_000_000
  {
    assert Scale(1, 3) == 1000 && Scale(1, 4) == 10_000;
    ScaleTwice(1, 4, 4);
    assert Scale(10_000, 4) == 100_000_000;
    ScaleTwice(1, 8, 4);
    assert Scale(100_000_000, 4) == 1_000_000_000_000;
    ScaleTwice(1, 12, 4);
    assert Scale(1_000_000_000_000, 4) == 10_000_000_000_000_000;
    ScaleTwice(1, 16, 3);
    assert Scale(10_000_000_000_000_000, 3) == 10_000_000_000_000_000_000;
  }

  /** What the loop has written: the last digits of the number, `g` groups with their commas
      and `comma` more digits. */
  ghost predicate Written(n0: nat, n: nat, w: string, g: nat, comma: nat) {
    && GroupedPart(w) && comma <= 3 && |w| == 4 * g + comma
    && Scale(n, 3 * g + comma) <= n0
    && (n > 0 ==> Decimal(n0) == Decimal(n) + WithoutCommas(w))
    && (n == 0 ==> Decimal(n0) == WithoutCommas(w) && w != [] && w[0] != ',')
  }

  lemma WriteComma(n0: nat, n: nat, w: string, g: nat, comma: nat)
    requires Written(n0, n, w, g, comma) && n > 0 && comma == 3
    ensures Written(n0, n, [','] + w, g + 1, 0)
  {
    Prepend(',', w);
    GroupedMore(',', w);
  }

  lemma DigitBound(n0: nat, n: nat, k: nat)
    requires Scale(n, k) <= n0
    ensures Scale(n / 10, k + 1) <= n0
  {
    ScaleTen(n / 10, k);
    ScaleGrows(10 * (n / 10), n, k);
  }

  lemma LastDigit(n: nat, q: nat, c: char)
    requires q == n / 10 && c == DigitChar(n % 10)
    ensures Decimal(n) == (if q > 0 then Decimal(q) else []) + [c]
    ensures c != ','
  {
    if q == 0 {
      assert [] + [c] == [c];
    }
  }

  lemma DigitText(text: string, front: string, c: char, w: string)
    requires text == front + [c] + WithoutCommas(w) && c != ','
    ensures text == front + WithoutCommas([c] + w)
  {
    Prepend(c, w);
    assert front + [c] + WithoutCommas(w) == front + ([c] + WithoutCommas(w));
  }

  lemma DigitGroups(c: char, w: string, g: nat, comma: nat)
    requires GroupedPart(w) && |w| == 4 * g + comma && comma < 3 && c != ','
    ensures GroupedPart([c] + w)
  {
    GroupedMore(c, w);
  }

  lemma WriteDigit(n0: nat, n: nat, q: nat, c: char, w: string, g: nat, comma: nat)
    requires q == n / 10 && c == DigitChar(n % 10)
    requires Written(n0, n, w, g, comma) && n > 0 && comma != 3
    ensures Written(n0, q, [c] + w, g, comma + 1)
  {
    LastDigit(n, q, c);
    DigitBound(n0, n, 3 * g + comma);
    DigitText(Decimal(n0), if q > 0 then Decimal(q) else [], c, w);
    DigitGroups(c, w, g, comma);
    assert [] + WithoutCommas([c] + w) == WithoutCommas([c] + w);
  }

  /** While digits remain there is room for them, and for a sign. */
  lemma RoomLeft(n0: nat, n: nat, w: string, g: nat, comma: nat, neg: bool)
    requires Written(n0, n, w, g, comma) && n > 0
    requires n0 <= if neg then MAX_INT64 + 1 else MAX_UINT64
    ensures |w| < if neg then MAX_LENGTH - 1 else MAX_LENGTH
  {
    var k, limit := 3 * g + comma, if neg then 19 else 20;
    ScaleGrows(1, n, k);
    Billions();
    if k >= limit {
      ScaleMore(1, limit, k);
      assert false;
    }
  }

  /** The text of a number: up to five digits as they are, then in groups, after the sign. */
  ghost predicate IsText(n: int, s: string) {
    var m: nat := if n < 0 then -n else n;
    if m < 100000 then s == Numeral(n)
    else (n < 0 ==> s != [] && s[0] == '-') && Separated(if n < 0 && s != [] then s[1..] else s, m)
  }

  /** What the text gives back: sign and numeral, once the commas are out. */
  lemma TextGivesNumeral(n: int, s: string)
    requires IsText(n, s)
    ensures WithoutCommas(s) == Numeral(n)
  {
    if -100000 < n < 100000 {
      NoCommas(s);
    } else if n < 0 {
      assert s == [s[0]] + s[1..];
      Prepend('-', s[1..]);
    }
  }

  // ----- what a text denotes

  /** The number that a string of digits stands for. */
  ghost function Value(s: string): int {
    if s == [] then 0 else 10 * Value(s[..|s| - 1]) + (s[|s| - 1] as int - '0' as int)
  }

  ghost predicate IsNumeral(s: string) {
    && s != [] && (forall i | 0 <= i < |s| :: '0' <= s[i] <= '9')
    && (s[0] == '0' ==> |s| == 1)
  }

  lemma {:induction false} DecimalDenotes(n: nat)
    ensures IsNumeral(Decimal(n)) && Value(Decimal(n)) == n
    ensures n > 0 ==> Decimal(n)[0] != '0'
  {
    var last := [DigitChar(n % 10)];
    assert last[..0] == [];
    if n >= 10 {
      DecimalDenotes(n / 10);
      assert (Decimal(n / 10) + last)[..|Decimal(n / 10)|] == Decimal(n / 10);
    }
  }

  /** A number has one numeral. */
  lemma {:induction false} OneNumeral(s: string, n: nat)
    requires IsNumeral(s) && Value(s) == n
    ensures s == Decimal(n)
  {
    var k := |s| - 1;
    var d := s[k] as int - '0' as int;
    assert s == s[..k] + [s[k]];
    if k == 0 {
      assert s[..0] == [];
    } else {
      ValuePositive(s[..k]);
      OneNumeral(s[..k], n / 10);
    }
  }

  lemma {:induction false} ValuePositive(s: string)
    requires s != [] && (forall i | 0 <= i < |s| :: '0' <= s[i] <= '9') && s[0] != '0'
    ensures Value(s) > 0
  {
    if |s| > 1 {
      ValuePositive(s[..|s| - 1]);
    } else {
      assert s[..0] == [];
    }
  }

  /** The digits and commas of a text, after the sign. */
  function Unsigned(n: int, s: string): string {
    if n < 0 && s != [] then s[1..] else s
  }

  /** Digits that denote m without leading zeros; below 100000 no comma, from there on one
      before every group of three digits from the right. */
  ghost predicate Body(body: string, m: int) {
    && IsNumeral(WithoutCommas(body)) && Value(WithoutCommas(body)) == m
    && body != [] && body[0] != ','
    && forall i {:trigger body[i]} | 0 <= i < |body| :: body[i] == ',' <==> m >= 100000 && (|body| - i) % 4 == 0
  }

  /** What the text of a number must look like: a minus in front exactly of negative numbers,
      and after it the digits of the magnitude. */
  ghost predicate Denotes(n: int, s: string) {
    s != [] && (s[0] == '-' <==> n < 0) && Body(Unsigned(n, s), if n < 0 then -n else n)
  }

  lemma {:induction false} CommasOut(s: string)
    ensures forall c | c in WithoutCommas(s) :: c in s && c != ','
    ensures s != [] && s[0] != ',' ==> WithoutCommas(s) != [] && WithoutCommas(s)[0] == s[0]
  {
    if s != [] {
      CommasOut(s[1..]);
    }
  }

  lemma {:induction false} NumeralBody(d: string, m: nat)
    requires m < 100000 && IsNumeral(d) && Value(d) == m
    ensures Body(d, m)
  {
    NoCommas(d);
  }

  lemma {:induction false} BodyNumeral(body: string, m: nat)
    requires m < 100000 && Body(body, m)
    ensures IsNumeral(body) && Value(body) == m
  {
    NoCommas(body);
  }

  lemma {:induction false} SmallBody(body: string, m: nat)
    requires m < 100000
    ensures body == Decimal(m) <==> Body(body, m)
  {
    DecimalDenotes(m);
    NumeralBody(Decimal(m), m);
    if Body(body, m) {
      BodyNumeral(body, m);
      OneNumeral(body, m);
    }
  }

  lemma {:induction false} GroupedBody(body: string, m: nat)
    requires m >= 100000 && Grouped(body) && IsNumeral(WithoutCommas(body)) && Value(WithoutCommas(body)) == m
    ensures Body(body, m)
  {
    forall i | 0 <= i < |body|
      ensures body[i] == ',' <==> (|body| - i) % 4 == 0
    {
      assert CommaAt(body, i);
    }
  }

  lemma {:induction false} BodyGrouped(body: string, m: nat)
    requires m >= 100000 && Body(body, m)
    ensures Grouped(body)
  {
    forall i | 0 <= i < |body|
      ensures CommaAt(body, i)
    {
    }
  }

  lemma {:induction false} LargeBody(body: string, m: nat)
    requires m >= 100000
    ensures Separated(body, m) <==> Body(body, m)
  {
    DecimalDenotes(m);
    if Separated(body, m) {
      GroupedBody(body, m);
    }
    if Body(body, m) {
      BodyGrouped(body, m);
      OneNumeral(WithoutCommas(body), m);
    }
  }

  lemma {:induction false} StartsWithDigit(body: string, m: int)
    requires Body(body, m)
    ensures body[0] != '-'
  {
    CommasOut(body);
  }

  /** The texts that the formatters produce are exactly those that denote the number. */
  lemma {:induction false} TextDenotes(n: int, s: string)
    ensures IsText(n, s) <==> Denotes(n, s)
  {
    var m: nat, body := if n < 0 then -n else n, Unsigned(n, s);
    if m < 100000 {
      SmallBody(body, m);
      DecimalDenotes(m);
    } else {
      LargeBody(body, m);
    }
    if Body(body, m) {
      StartsWithDigit(body, m);
    }
    if n < 0 && s != [] {
      assert s == [s[0]] + body;
    }
  }

  lemma {:induction false} NoCommas(s: string)
    requires forall i | 0 <= i < |s| :: s[i] != ','
    ensures WithoutCommas(s) == s
  {
    if s != [] {
      NoCommas(s[1..]);
      assert s == [s[0]] + s[1..];
    }
  }

  function Signed(n: nat, neg: bool): int {
    var v: int := n;
    if neg then -v else v
  }

  /** Writes in front of what is written already. */
  method PutChar(out: array<char>, i: int, c: char)
    requires 0 <= i < out.Length
    modifies out
    ensures out[i..] == [c] + old(out[i + 1..])
  {
    out[i] := c;
  }

  /** One round of the loop: a comma where a group is full, else the next digit. */
  method PutNext(ghost n0: nat, ghost neg: bool, out: array<char>, i: int, n0': nat, ghost g0: nat, comma0: nat)
    returns (n: nat, ghost g: nat, comma: nat)
    requires n0 <= (if neg then MAX_INT64 + 1 else MAX_UINT64) && out.Length == MAX_LENGTH
    requires -1 <= i < MAX_LENGTH && n0' > 0 && Written(n0, n0', out[i + 1..], g0, comma0)
    modifies out
    ensures (if neg then 0 else -1) <= i - 1
    ensures Written(n0, n, out[i..], g, comma)
  {
    ghost var w := out[i + 1..];
    n, g, comma := n0', g0, comma0;
    RoomLeft(n0, n, w, g, comma, neg);
    if comma == 3 {
      WriteComma(n0, n, w, g, comma);
      comma, g := 0, g + 1;
      PutChar(out, i, ',');
    } else {
      var q, c := n / 10, DigitChar(n % 10);
      WriteDigit(n0, n, q, c, w, g, comma);
      comma := comma + 1;
      PutChar(out, i, c);
      n := q;
    }
  }

  lemma NothingWritten(n0: nat)
    requires n0 > 0
    ensures Written(n0, n0, [], 0, 0)
  {
    assert Decimal(n0) == Decimal(n0) + [];
  }

  lemma EverythingWritten(n0: nat, w: string, g: nat, comma: nat)
    requires Written(n0, 0, w, g, comma)
    ensures Separated(w, n0) && w != []
  {
  }

  method FillBuffer(n0: nat, neg: bool, out: array<char>) returns (i: int)
    requires 100000 <= n0 <= (if neg then MAX_INT64 + 1 else MAX_UINT64) && out.Length == MAX_LENGTH
    modifies out
    ensures (if neg then 0 else -1) <= i < MAX_LENGTH - 1
    ensures Separated(out[i + 1..], n0)
  {
    i := MAX_LENGTH - 1;
    var comma: nat, n := 0, n0;
    ghost var g: nat := 0;
    assert out[i + 1..] == [];
    NothingWritten(n0);
    while n > 0
      invariant (if neg then 0 else -1) <= i < MAX_LENGTH
      invariant Written(n0, n, out[i + 1..], g, comma)
      decreases i
    {
      n, g, comma := PutNext(n0, neg, out, i, n, g, comma);
      i := i - 1;
    }
    EverythingWritten(n0, out[i + 1..], g, comma);
  }

  method FormatUint64(n: nat, neg: bool) returns (s: string)
    requires n <= if neg then MAX_INT64 + 1 else MAX_UINT64
    ensures IsText(Signed(n, neg), s)
  {
    if n < 100000 {
      return Numeral(Signed(n, neg));
    }
    var out := new char[MAX_LENGTH];
    var i := FillBuffer(n, neg, out);
    ghost var w := out[i + 1..];
    if neg {
      out[i] := '-';
      i := i - 1;
      assert out[i + 1..] == ['-'] + w;
      assert out[i + 1..][1..] == w;
    }
    return out[i + 1..];
  }

  /** Negation and conversion as 64-bit machine operations. */
  function Negate64(n: int): int
    requires -(MAX_INT64 + 1) <= n <= MAX_INT64
  {
    if n == -(MAX_INT64 + 1) then n else -n
  }

  function ToUint64(n: int): nat {
    n % (MAX_UINT64 + 1)
  }

  lemma MachineMagnitude(n: int)
    requires -(MAX_INT64 + 1) <= n <= MAX_INT64
    ensures n < 0 ==> ToUint64(Negate64(n)) == -n <= MAX_INT64 + 1
    ensures n >= 0 ==> ToUint64(n) == n
  {
  }

  method FormatLogfmtInt64(n: int) returns (s: string)
    requires -(MAX_INT64 + 1) <= n <= MAX_INT64
    ensures IsText(n, s) && Denotes(n, s)
  {
    MachineMagnitude(n);
    var v := if n < 0 then ToUint64(Negate64(n)) else ToUint64(n);
    assert Signed(v, n < 0) == n;
    s := FormatUint64(v, n < 0);
    TextDenotes(n, s);
  }

  method FormatLogfmtUint64(n: nat) returns (s: string)
    requires n <= MAX_UINT64
    ensures IsText(n, s) && Denotes(n, s)
  {
    s := FormatUint64(n, false);
    TextDenotes(n, s);
  }

  // ----- numbers of any size

  /** The last digits of a numeral have been written: `g` groups with their commas and
      `comma` more digits. */
  ghost predicate WrittenBig(digits: string, w: string, g: nat, comma: nat) {
    && GroupedPart(w) && comma <= 3 && |w| == 4 * g + comma && (w != [] ==> comma > 0)
    && 3 * g + comma <= |digits|
    && WithoutCommas(w) == digits[|digits| - (3 * g + comma)..]
  }

  lemma BigRoom(len: nat, g: nat, comma: nat)
    requires 3 * g + comma < len && comma <= 3
    ensures 4 * g + comma < len + len / 3
    ensures comma == 3 ==> 4 * g + 5 <= len + len / 3
  {
  }

  lemma SuffixStep(digits: string, k: nat)
    requires k < |digits|
    ensures digits[|digits| - (k + 1)..] == [digits[|digits| - (k + 1)]] + digits[|digits| - k..]
  {
  }

  lemma BigDigit(digits: string, w: string, g: nat, comma: nat, k: nat)
    requires WrittenBig(digits, w, g, comma) && k == 3 * g + comma && k < |digits| && comma < 3
    requires digits[|digits| - (k + 1)] != ','
    ensures WrittenBig(digits, [digits[|digits| - (k + 1)]] + w, g, comma + 1)
  {
    SuffixStep(digits, k);
    Prepend(digits[|digits| - (k + 1)], w);
    DigitGroups(digits[|digits| - (k + 1)], w, g, comma);
  }

  lemma BigComma(digits: string, w: string, g: nat, comma: nat, k: nat)
    requires WrittenBig(digits, w, g, comma) && k == 3 * g + comma && k < |digits| && comma == 3
    requires digits[|digits| - (k + 1)] != ','
    ensures WrittenBig(digits, [digits[|digits| - (k + 1)]] + ([','] + w), g + 1, 1)
  {
    var c := digits[|digits| - (k + 1)];
    SuffixStep(digits, k);
    Prepend(',', w);
    GroupedMore(',', w);
    Prepend(c, [','] + w);
    DigitGroups(c, [','] + w, g + 1, 0);
  }

  /** One digit of the loop, with a comma before it where a group is full. */
  method PutBigDigit(ghost digits: string, buf: array<char>, i0: int, ghost g: nat, comma0: nat, ghost k: nat, c: char)
    returns (i: int, comma: nat, ghost g': nat)
    requires -1 <= i0 < buf.Length && WrittenBig(digits, buf[i0 + 1..], g, comma0)
    requires k == 3 * g + comma0 && k < |digits| && c == digits[|digits| - (k + 1)] && c != ','
    requires buf.Length >= |digits| + |digits| / 3
    modifies buf
    ensures -1 <= i < buf.Length && 3 * g' + comma == k + 1
    ensures WrittenBig(digits, buf[i + 1..], g', comma)
  {
    i, comma, g' := i0, comma0, g;
    ghost var w := buf[i + 1..];
    BigRoom(|digits|, g, comma0);
    if comma == 3 {
      BigComma(digits, w, g, comma0, k);
      PutChar(buf, i, ',');
      i, comma, g' := i - 1, 0, g + 1;
      PutChar(buf, i, c);
    } else {
      BigDigit(digits, w, g, comma0, k);
      PutChar(buf, i, c);
    }
    i, comma := i - 1, comma + 1;
  }

  lemma AllWritten(digits: string, w: string, g: nat, comma: nat, m: nat)
    requires WrittenBig(digits, w, g, comma) && 3 * g + comma == |digits| && digits == Decimal(m)
    ensures Separated(w, m)
  {
    assert digits[0..] == digits;
    assert w != [] by {
      assert digits != [];
    }
    assert CommaAt(w, 0);
  }

  lemma LargeText(n: int, w: string)
    requires (n <= -100000 || n >= 100000) && Separated(w, if n < 0 then -n else n)
    ensures IsText(n, if n < 0 then ['-'] + w else w)
  {
    assert (['-'] + w)[1..] == w;
  }

  /** The loop over the digits of the text, from the last one. */
  method FillLarge(text: string, sign: nat, ghost digits: string, buf: array<char>)
    returns (i: int, ghost g: nat, ghost comma: nat)
    requires sign <= 1 && sign < |text| && digits == text[sign..]
    requires forall k | 0 <= k < |digits| :: digits[k] != ','
    requires buf.Length == |text| + |text| / 3
    modifies buf
    ensures -1 <= i < buf.Length && 3 * g + comma == |digits|
    ensures WrittenBig(digits, buf[i + 1..], g, comma)
  {
    var j, c: nat := |text| - 1, 0;
    i, g := buf.Length - 1, 0;
    assert buf[i + 1..] == [] && digits[|digits|..] == [];
    while j >= sign
      invariant sign - 1 <= j < |text| && -1 <= i < buf.Length
      invariant 3 * g + c == |text| - 1 - j
      invariant WrittenBig(digits, buf[i + 1..], g, c)
    {
      i, c, g := PutBigDigit(digits, buf, i, g, c, |text| - 1 - j, text[j]);
      j := j - 1;
    }
    comma := c;
  }

  lemma BigText(n: int, sign: nat)
    requires sign == if n < 0 then 1 else 0
    ensures sign < |Numeral(n)| && Numeral(n)[sign..] == Decimal(if n < 0 then -n else n)
    ensures n < 0 ==> Numeral(n)[0] == '-'
  {
  }

  method FormatLarge(n: int) returns (s: string)
    requires n <= -100000 || n >= 100000
    ensures IsText(n, s)
  {
    var text, sign := Numeral(n), if n < 0 then 1 else 0;
    BigText(n, sign);
    var buf := new char[|text| + |text| / 3];
    var i, g, comma := FillLarge(text, sign, text[sign..], buf);
    AllWritten(text[sign..], buf[i + 1..], g, comma, if n < 0 then -n else n);
    LargeText(n, buf[i + 1..]);
    if sign == 1 {
      BigRoom(|text|, g, comma);
      PutChar(buf, i, text[0]);
      i := i - 1;
    }
    return buf[i + 1..];
  }

  /** FormatLogfmtBigInt: for every whole number. */
  method FormatLogfmtBigInt(n: int) returns (s: string)
    ensures IsText(n, s) && Denotes(n, s)
  {
    if 0 <= n <= MAX_UINT64 {
      s := FormatLogfmtUint64(n);
    } else if -(MAX_INT64 + 1) <= n <= MAX_INT64 {
      s := FormatLogfmtInt64(n);
    } else {
      s := FormatLarge(n);
    }
    TextDenotes(n, s);
  }
}
