/** String helpers shared by the models: trimming, upper-casing, decimal numerals and the total
    order on identifiers. */
module Text {

  /** The characters that String.prototype.trim removes. */
  predicate IsSpace(c: char) {
    || '\t' <= c <= '\r'
    || c == ' '
    || c in {'\U{A0}', '\U{1680}', '\U{2028}', '\U{2029}', '\U{202F}', '\U{205F}', '\U{3000}', '\U{FEFF}'}
    || '\U{2000}' <= c <= '\U{200A}'
  }

  function TrimLeft(s: string): string {
    if s != "" && IsSpace(s[0]) then TrimLeft(s[1..]) else s
  }

  function TrimRight(s: string): string {
    if s != "" && IsSpace(s[|s| - 1]) then TrimRight(s[..|s| - 1]) else s
  }

  function Trim(s: string): string {
    TrimRight(TrimLeft(s))
  }

  /** No white space at either end. */
  predicate Trimmed(s: string) {
    s == "" || (!IsSpace(s[0]) && !IsSpace(s[|s| - 1]))
  }

  lemma {:induction false} TrimRightKeepsHead(s: string)
    ensures var t := TrimRight(s); t <= s && (t != "" ==> !IsSpace(t[|t| - 1]))
  {
    if s != "" && IsSpace(s[|s| - 1]) {
      TrimRightKeepsHead(s[..|s| - 1]);
    }
  }

  lemma {:induction false} TrimLeftHead(s: string)
    ensures var t := TrimLeft(s); t != "" ==> !IsSpace(t[0])
  {
    if s != "" && IsSpace(s[0]) {
      TrimLeftHead(s[1..]);
    }
  }

  lemma TrimIsTrimmed(s: string)
    ensures Trimmed(Trim(s))
  {
    TrimLeftHead(s);
    TrimRightKeepsHead(TrimLeft(s));
  }

  lemma TrimFixes(s: string)
    requires Trimmed(s)
    ensures Trim(s) == s
  {
  }

  lemma TrimIdempotent(s: string)
    ensures Trim(Trim(s)) == Trim(s)
  {
    TrimIsTrimmed(s);
    TrimFixes(Trim(s));
  }

  predicate Blank(s: string) {
    forall c :: c in s ==> IsSpace(c)
  }

  lemma {:induction false} TrimLeftTakesSpace(s: string) returns (n: nat)
    ensures n <= |s| && TrimLeft(s) == s[n..] && Blank(s[..n])
  {
    n := 0;
    if s != "" && IsSpace(s[0]) {
      n := TrimLeftTakesSpace(s[1..]);
      assert s[..n + 1] == [s[0]] + s[1..][..n];
      n := n + 1;
    }
  }

  lemma {:induction false} TrimRightTakesSpace(s: string) returns (n: nat)
    ensures n <= |s| && TrimRight(s) == s[..n] && Blank(s[n..])
  {
    n := |s|;
    if s != "" && IsSpace(s[|s| - 1]) {
      n := TrimRightTakesSpace(s[..|s| - 1]);
      assert s[n..] == s[..|s| - 1][n..] + [s[|s| - 1]];
    }
  }

  /** Trimming takes away nothing but white space at the ends. */
  lemma TrimTakesSpace(s: string) returns (left: string, right: string)
    ensures s == left + Trim(s) + right && Blank(left) && Blank(right)
  {
    var i := TrimLeftTakesSpace(s);
    var j := TrimRightTakesSpace(s[i..]);
    left, right := s[..i], s[i..][j..];
  }

  // ---------------------------------------------------------------- upper case

  /** What the Unicode upper-case table guarantees: one character may become several, but never
      none; upper case is stable; digits stay what they are and white space is not produced. */
  ghost predicate IsCaseTable(up: char -> string) {
    && (forall c :: up(c) != "")
    && (forall c :: '0' <= c <= '9' ==> up(c) == [c])
    && (forall c, d :: d in up(c) ==> up(d) == [d])
    && (forall c, d :: d in up(c) && IsSpace(d) ==> IsSpace(c))
  }

  type CaseMap = char -> string

  function Upper(up: CaseMap, s: string): string {
    if s == "" then "" else up(s[0]) + Upper(up, s[1..])
  }

  lemma {:induction false} UpperConcat(up: CaseMap, s: string, t: string)
    ensures Upper(up, s + t) == Upper(up, s) + Upper(up, t)
  {
    if s == "" {
      assert s + t == t;
    } else {
      assert (s + t)[1..] == s[1..] + t;
      UpperConcat(up, s[1..], t);
    }
  }

  lemma {:induction false} UpperFixesDigits(up: CaseMap, s: string)
    requires IsCaseTable(up)
    requires Digits(s)
    ensures Upper(up, s) == s
  {
    if s != "" {
      UpperFixesDigits(up, s[1..]);
      assert s == [s[0]] + s[1..];
    }
  }

  lemma {:induction false} UpperIdempotent(up: CaseMap, s: string)
    requires IsCaseTable(up)
    ensures Upper(up, Upper(up, s)) == Upper(up, s)
  {
    if s != "" {
      UpperConcat(up, up(s[0]), Upper(up, s[1..]));
      UpperFixesUpper(up, up(s[0]));
      UpperIdempotent(up, s[1..]);
    }
  }

  lemma {:induction false} UpperFixesUpper(up: CaseMap, s: string)
    requires forall i :: 0 <= i < |s| ==> up(s[i]) == [s[i]]
    ensures Upper(up, s) == s
  {
    if s != "" {
      UpperFixesUpper(up, s[1..]);
      assert s == [s[0]] + s[1..];
    }
  }

  lemma {:induction false} UpperKeepsTrimmed(up: CaseMap, s: string)
    requires IsCaseTable(up)
    requires Trimmed(s)
    ensures Trimmed(Upper(up, s)) && (Upper(up, s) == "" <==> s == "")
  {
    if s != "" {
      var u := Upper(up, s);
      assert u[0] in up(s[0]);
      var n := |s| - 1;
      assert s == s[..n] + [s[n]];
      UpperConcat(up, s[..n], [s[n]]);
      assert Upper(up, [s[n]]) == up(s[n]);
      assert u[|u| - 1] in up(s[n]);
    }
  }

  /** String length as JavaScript counts it: characters outside the basic plane take two units. */
  function Utf16Length(s: string): nat {
    if s == "" then 0 else (if s[0] > '\U{FFFF}' then 2 else 1) + Utf16Length(s[1..])
  }

  // ---------------------------------------------------------------- decimal numerals

  predicate Digits(s: string) {
    forall i :: 0 <= i < |s| ==> '0' <= s[i] <= '9'
  }

  function DigitValue(c: char): (v: nat)
    requires '0' <= c <= '9'
  {
    c as int - '0' as int
  }

  function Decimal(n: nat): (s: string)
    ensures s != "" && Digits(s)
  {
    var last := ['0' + (n % 10) as char];
    if n < 10 then last else Decimal(n / 10) + last
  }

  function ParseDecimal(s: string): nat
    requires Digits(s)
  {
    if s == "" then 0 else 10 * ParseDecimal(s[..|s| - 1]) + DigitValue(s[|s| - 1])
  }

  function Repeat(c: char, n: nat): (s: string)
    ensures |s| == n && forall i :: 0 <= i < n ==> s[i] == c
  {
    if n == 0 then "" else [c] + Repeat(c, n - 1)
  }

  /** String.prototype.padStart with a one-character filler. */
  function PadStart(s: string, width: nat, fill: char): string {
    if |s| >= width then s else Repeat(fill, width - |s|) + s
  }

  /** Padding fills up to the width in front of what there is. */
  lemma PaddedShape(s: string, width: nat, fill: char)
    ensures var r := PadStart(s, width, fill);
            && |r| == (if |s| >= width then |s| else width) && r[|r| - |s|..] == s
            && forall i :: 0 <= i < |r| - |s| ==> r[i] == fill
  {
  }

  lemma {:induction false} ParseOfDecimal(n: nat)
    ensures ParseDecimal(Decimal(n)) == n
  {
    if n >= 10 {
      var s := Decimal(n);
      ParseOfDecimal(n / 10);
      assert s[..|s| - 1] == Decimal(n / 10);
    }
  }

  /** A numeral has no zero in front, and one digit below ten. */
  lemma {:induction false} DecimalIsShort(n: nat)
    ensures (n > 0 ==> Decimal(n)[0] != '0') && (n < 10 ==> |Decimal(n)| == 1)
  {
    if n >= 10 {
      DecimalIsShort(n / 10);
      assert Decimal(n)[0] == Decimal(n / 10)[0];
    }
  }

  lemma {:induction false} LeadingZeros(k: nat, s: string)
    requires Digits(s)
    ensures Digits(Repeat('0', k) + s) && ParseDecimal(Repeat('0', k) + s) == ParseDecimal(s)
    decreases |s|, k
  {
    var t := Repeat('0', k) + s;
    if s != "" {
      assert t[..|t| - 1] == Repeat('0', k) + s[..|s| - 1];
      LeadingZeros(k, s[..|s| - 1]);
    } else if k > 0 {
      assert t[..|t| - 1] == Repeat('0', k - 1) + "";
      LeadingZeros(k - 1, "");
    }
  }

  /** Zero padding never changes which number a numeral denotes. */
  lemma ParseOfPadded(n: nat, width: nat)
    ensures Digits(PadStart(Decimal(n), width, '0'))
    ensures ParseDecimal(PadStart(Decimal(n), width, '0')) == n
  {
    ParseOfDecimal(n);
    var d := Decimal(n);
    if |d| < width {
      LeadingZeros(width - |d|, d);
    }
  }

  predicate HexDigits(s: string) {
    forall i :: 0 <= i < |s| ==> '0' <= s[i] <= '9' || 'a' <= s[i] <= 'f' || 'A' <= s[i] <= 'F'
  }

  /** The UUID pattern that permanent local identifiers must match (version 1-8, variant 8-b). */
  predicate IsUuid(s: string) {
    && |s| == 36
    && s[8] == s[13] == s[18] == s[23] == '-'
    && HexDigits(s[..8] + s[9..13] + s[14..18] + s[19..23] + s[24..])
    && '1' <= s[14] <= '8'
    && s[19] in {'8', '9', 'a', 'b', 'A', 'B'}
  }

  // ---------------------------------------------------------------- order on identifiers

  /** Lexicographic order by character code, the order of record ids in both stores. */
  predicate Less(a: string, b: string) {
    b != "" && (a == "" || a[0] < b[0] || (a[0] == b[0] && Less(a[1..], b[1..])))
  }

  lemma {:induction false} LessTotal(a: string, b: string)
    ensures a == b || Less(a, b) || Less(b, a)
  {
    if a != "" && b != "" && a[0] == b[0] {
      LessTotal(a[1..], b[1..]);
      assert a == [a[0]] + a[1..] && b == [b[0]] + b[1..];
    }
  }

  lemma {:induction false} LessIrreflexive(a: string)
    ensures !Less(a, a)
  {
    if a != "" {
      LessIrreflexive(a[1..]);
    }
  }

  lemma {:induction false} LessTransitive(a: string, b: string, c: string)
    requires Less(a, b) && Less(b, c)
    ensures Less(a, c)
  {
    if a != "" && a[0] == b[0] && b[0] == c[0] {
      LessTransitive(a[1..], b[1..], c[1..]);
    }
  }

  /** One identifier comes before another where the first difference, or its end, says so. */
  lemma {:induction false} LessAtDifference(a: string, b: string, i: nat)
    requires i <= |a| && i <= |b| && a[..i] == b[..i]
    ensures i < |a| && i < |b| && a[i] != b[i] ==> (Less(a, b) <==> a[i] < b[i])
    ensures i == |a| ==> (Less(a, b) <==> i < |b|)
  {
    if i > 0 {
      assert a[0] == a[..i][0] == b[..i][0] == b[0];
      assert a[1..][..i - 1] == a[..i][1..] && b[1..][..i - 1] == b[..i][1..];
      LessAtDifference(a[1..], b[1..], i - 1);
    }
  }
}
