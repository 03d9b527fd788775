/** The framing of the network calculator: a decimal length, the separator, the payload, the
    separator; with the number conversions of the C++ library it goes through. */
module Wire {
  import opened Tally

  const INT_MAX: int := 0x7FFF_FFFF
  const INT_MIN: int := -0x8000_0000
  const WORD: int := 0x1_0000_0000_0000_0000   // 2^64, the range of size_t
  const MAX_SIZE: int := 0x7FFF_FFFF_FFFF_FFFF // no std::string is longer

  const SEP: string := "\r\n"

  // ---- std::to_string and std::stoi ----

  predicate IsDigit(c: char) { '0' <= c <= '9' }
  predicate IsSpace(c: char) { c == ' ' || ('\t' <= c <= '\r') }

  function DigitOf(d: nat): char
    requires d < 10
  {
    (('0' as int) + d) as char
  }

  /** std::to_string of an unsigned number. */
  function Decimal(n: nat): string {
    if n < 10 then [DigitOf(n)] else Decimal(n / 10) + [DigitOf(n % 10)]
  }

  function DigitValue(c: char): nat
    requires IsDigit(c)
  {
    c as int - '0' as int
  }

  function ValueOf(ds: string): nat
    requires forall c :: c in ds ==> IsDigit(c)
  {
    if ds == "" then 0
    else 10 * ValueOf(ds[..|ds| - 1]) + DigitValue(ds[|ds| - 1])
  }

  function AfterSpace(s: string): string {
    if s != "" && IsSpace(s[0]) then AfterSpace(s[1..]) else s
  }

  function LeadingDigits(s: string): (ds: string)
    ensures forall c :: c in ds ==> IsDigit(c)
  {
    if s != "" && IsDigit(s[0]) then [s[0]] + LeadingDigits(s[1..]) else ""
  }

  datatype Parsed = Value(n: int) | InvalidArgument | OutOfRange

  /** std::stoi: white space, an optional sign, as many digits as there are; anything may follow. */
  function Stoi(s: string): Parsed {
    var t := AfterSpace(s);
    var negative := t != "" && t[0] == '-';
    var ds := LeadingDigits(if t != "" && (t[0] == '-' || t[0] == '+') then t[1..] else t);
    var n: int := ValueOf(ds);
    var v := if negative then -n else n;
    if ds == "" then InvalidArgument
    else if INT_MIN <= v <= INT_MAX then Value(v)
    else OutOfRange
  }

  lemma {:induction false} DecimalDigits(n: nat)
    ensures Decimal(n) != "" && forall c :: c in Decimal(n) ==> IsDigit(c)
    ensures ValueOf(Decimal(n)) == n
  {
    if n >= 10 {
      DecimalDigits(n / 10);
      var front := Decimal(n / 10);
      assert Decimal(n)[..|Decimal(n)| - 1] == front;
    }
  }

  lemma {:induction false} AllLeading(s: string)
    requires forall c :: c in s ==> IsDigit(c)
    ensures LeadingDigits(s) == s
  {
    if s != "" {
      AllLeading(s[1..]);
      assert s == [s[0]] + s[1..];
    }
  }

  /** Printing a length and reading it back: the number itself, or out of range for an int. */
  lemma StoiOfDecimal(n: nat)
    ensures Stoi(Decimal(n)) == if n <= INT_MAX then Value(n) else OutOfRange
  {
    DecimalDigits(n);
    AllLeading(Decimal(n));
    assert IsDigit(Decimal(n)[0]);
  }

  /** The number without superfluous zeros, in the digits of base ten. */
  lemma {:induction false} DecimalShape(n: nat)
    ensures n < 10 ==> Decimal(n) == ["0123456789"[n]]
    ensures n >= 10 ==> |Decimal(n)| > 1 && Decimal(n)[0] != '0' && Decimal(n)[|Decimal(n)| - 1] == "0123456789"[n % 10]
  {
    if n >= 10 {
      DecimalShape(n / 10);
    }
  }

  lemma {:induction false} SpacesSkipped(ws: string, rest: string)
    requires (forall c :: c in ws ==> IsSpace(c)) && (rest == "" || !IsSpace(rest[0]))
    ensures AfterSpace(ws + rest) == rest
  {
    if ws == "" {
      assert ws + rest == rest;
    } else {
      assert (ws + rest)[1..] == ws[1..] + rest;
      SpacesSkipped(ws[1..], rest);
    }
  }

  lemma {:induction false} DigitsRead(ds: string, junk: string)
    requires (forall c :: c in ds ==> IsDigit(c)) && (junk == "" || !IsDigit(junk[0]))
    ensures LeadingDigits(ds + junk) == ds
  {
    if ds == "" {
      assert ds + junk == junk;
    } else {
      assert (ds + junk)[1..] == ds[1..] + junk;
      DigitsRead(ds[1..], junk);
    }
  }

  /** What std::stoi reads: white space, an optional sign, all digits there are; the number if it is an
      int. Without a digit there is no number. */
  lemma StoiReads(ws: string, sign: string, ds: string, junk: string)
    requires (forall c :: c in ws ==> c == ' ' || '\t' <= c <= '\r') && (sign == "" || sign == "+" || sign == "-")
    requires (forall c :: c in ds ==> IsDigit(c)) && (junk == "" || !IsDigit(junk[0]))
    requires sign == "" && ds == "" && junk != "" ==> !IsSpace(junk[0]) && junk[0] != '+' && junk[0] != '-'
    ensures var n: int := ValueOf(ds); var v := if sign == "-" then -n else n;
      Stoi(ws + (sign + (ds + junk))) ==
        if ds == "" then InvalidArgument else if -2147483648 <= v <= 2147483647 then Value(v) else OutOfRange
  {
    var body := ds + junk;
    var t := sign + body;
    assert ds != "" ==> body[0] == ds[0] && IsDigit(ds[0]);
    assert ds == "" ==> body == junk;
    assert sign == "" ==> t == body;
    assert sign != "" ==> t[0] == sign[0] && t[1..] == body;
    SpacesSkipped(ws, t);
    DigitsRead(ds, junk);
  }

  lemma {:induction false} DecimalShort(n: nat)
    requires n <= INT_MAX
    ensures |Decimal(n)| <= 10
  {
    DigitsBound(n, 10);
  }

  function TenTo(k: nat): nat { if k == 0 then 1 else 10 * TenTo(k - 1) }

  lemma {:induction false} DigitsBound(n: nat, k: nat)
    requires k > 0 && n < TenTo(k)
    ensures |Decimal(n)| <= k
  {
    if n >= 10 {
      assert TenTo(k) == 10 * TenTo(k - 1);
      DigitsBound(n / 10, k - 1);
    }
  }

  // ---- std::string::find(sep) ----

  function Find(b: string): Option<nat> {
    if |b| < 2 then None
    else if b[0] == '\r' && b[1] == '\n' then Some(0)
    else match Find(b[1..])
         case None => None
         case Some(p) => Some(p + 1)
  }

  predicate SepAt(b: string, p: nat) { p + 2 <= |b| && b[p] == '\r' && b[p + 1] == '\n' }

  /** Where the first carriage return followed by a line feed is, if there is one. */
  lemma {:induction false} FindFirst(b: string)
    ensures match Find(b)
            case None => forall q: nat :: !SepAt(b, q)
            case Some(p) => SepAt(b, p) && forall q: nat :: q < p ==> !SepAt(b, q)
  {
    if |b| >= 2 {
      FindFirst(b[1..]);
      assert forall q: nat :: q > 0 ==> (SepAt(b, q) <==> SepAt(b[1..], q - 1));
    }
  }

  /** The first separator is the header's, whatever the payload contains. */
  lemma {:induction false} FindHeader(digits: string, rest: string)
    requires forall c :: c in digits ==> IsDigit(c)
    ensures Find(digits + SEP + rest) == Some(|digits|)
  {
    var b := digits + SEP + rest;
    if digits != "" {
      FindHeader(digits[1..], rest);
      assert b[1..] == digits[1..] + SEP + rest;
      assert IsDigit(b[0]);
    }
  }

  /** Without the whole header there is no separator yet. */
  lemma {:induction false} FindNothing(digits: string, b: string)
    requires forall c :: c in digits ==> IsDigit(c)
    requires b <= digits + "\r"
    ensures Find(b) == None
  {
    if |b| >= 2 {
      assert b[0] == digits[0] && IsDigit(b[0]);
      assert (digits + "\r")[1..] == digits[1..] + "\r";
      FindNothing(digits[1..], b[1..]);
    }
  }

  // ---- Encode and Decode ----

  function Encode(j: string): string { Decimal(|j|) + SEP + j + SEP }

  /** Conversion of a signed number to size_t, and of a size_t to int. */
  function ToSize(x: int): nat { x % WORD }
  function ToInt(x: nat): int {
    var r := x % 0x1_0000_0000;
    if r <= INT_MAX then r else r - 0x1_0000_0000
  }

  datatype Decoded = Incomplete | Frame(package: string, rest: string) | Throws

  /** `Decode`: the package and what is left of the buffer, or the buffer stays as it is, or stoi throws. */
  function Decode(buffer: string): Decoded {
    match Find(buffer)
    case None => Incomplete
    case Some(pos) =>
      FindInside(buffer);
      match Stoi(buffer[..pos])
      case InvalidArgument => Throws
      case OutOfRange => Throws
      case Value(n) => Cut(buffer, pos, n)
  }

  /** `Decode` from line 158 on: separator at `pos`, length `n` read. */
  function Cut(buffer: string, pos: nat, n: int): Decoded
    requires pos + |SEP| <= |buffer|
  {
    var target := ToSize(ToInt(ToSize(pos + ToSize(n) + 2 * |SEP|)));
    if |buffer| < target then Incomplete
    else
      var start := pos + |SEP|;
      var stop := if start + ToSize(n) <= |buffer| then start + ToSize(n) else |buffer|;
      Frame(buffer[start..stop], buffer[target..])
  }

  lemma {:induction false} FindInside(b: string)
    ensures Find(b).Some? ==> Find(b).value + 2 <= |b|
  {
    if |b| >= 2 {
      FindInside(b[1..]);
    }
  }

  /** The frames that fit the arithmetic of `Decode`. */
  predicate Fits(j: string) { |Encode(j)| <= INT_MAX }

  lemma EncodeShape(j: string)
    ensures |Encode(j)| == |Decimal(|j|)| + |j| + 4
    ensures forall k :: 0 <= k < |j| ==> Encode(j)[|Decimal(|j|)| + 2 + k] == j[k]
  {
  }

  /** A frame: the length in decimal, a separator, the payload, a separator. */
  lemma EncodeParts(j: string)
    ensures var d, e := |Decimal(|j|)|, Encode(j);
      && |e| == d + |j| + 4 && e[..d] == Decimal(|j|) && e[d..d + 2] == "\r\n"
      && e[d + 2..d + 2 + |j|] == j && e[d + 2 + |j|..] == "\r\n"
  {
    Slices(Decimal(|j|), j, "");
    assert Encode(j) + "" == Encode(j);
  }

  /** The conversions change nothing for a frame that fits, and make the target unreachable for a
      length that is an int while the frame's is not. */
  lemma TargetOf(pos: nat, n: nat)
    requires n <= INT_MAX && pos <= 10
    ensures pos + n + 4 <= INT_MAX ==> ToSize(ToInt(ToSize(pos + ToSize(n) + 4))) == pos + n + 4
    ensures pos + n + 4 > INT_MAX ==> ToSize(ToInt(ToSize(pos + ToSize(n) + 4))) > MAX_SIZE
  {
    assert ToSize(n) == n && ToSize(pos + n + 4) == pos + n + 4;
  }

  lemma CutAt(b: string, pos: nat, n: nat)
    requires pos <= 10 && pos + n + 4 <= INT_MAX && pos + n + 4 <= |b|
    ensures Cut(b, pos, n) == Frame(b[pos + 2..pos + 2 + n], b[pos + n + 4..])
  {
    TargetOf(pos, n);
    assert ToSize(n) == n;
  }

  lemma CutFits(j: string, rest: string)
    requires Fits(j)
    ensures Cut(Encode(j) + rest, |Decimal(|j|)|, |j|) == Frame(j, rest)
  {
    var d := Decimal(|j|);
    EncodeShape(j);
    DecimalShort(|j|);
    CutAt(Encode(j) + rest, |d|, |j|);
    Slices(d, j, rest);
  }

  lemma Slices(d: string, j: string, rest: string)
    ensures var b := d + SEP + j + SEP + rest;
      b[|d| + 2..|d| + 2 + |j|] == j && b[|d| + |j| + 4..] == rest
  {
  }

  lemma CutOverflows(j: string, b: string)
    requires !Fits(j) && |j| <= INT_MAX && |b| <= MAX_SIZE && |Decimal(|j|)| + 2 <= |b|
    ensures Cut(b, |Decimal(|j|)|, |j|) == Incomplete
  {
    EncodeShape(j);
    DecimalShort(|j|);
    TargetOf(|Decimal(|j|)|, |j|);
  }

  /** `Decode` on an encoded payload followed by anything returns the payload and leaves the rest,
      exactly when the length of the frame is within an int. */
  lemma DecodeOfEncode(j: string, rest: string)
    requires |Encode(j)| + |rest| <= MAX_SIZE
    ensures Decode(Encode(j) + rest) == Frame(j, rest) <==> Fits(j)
    ensures Fits(j) <==> |Encode(j)| <= 2147483647
    ensures |j| > INT_MAX ==> Decode(Encode(j) + rest) == Throws
    ensures !Fits(j) && |j| <= INT_MAX ==> Decode(Encode(j) + rest) == Incomplete
  {
    HeaderFound(j, rest);
    EncodeShape(j);
    if Fits(j) {
      CutFits(j, rest);
    } else if |j| <= INT_MAX {
      CutOverflows(j, Encode(j) + rest);
    }
  }

  /** `Decode` throws exactly when there is a separator and what stands before the first one is not read
      as an int; without a separator it asks for more. */
  lemma ThrowsExactly(b: string)
    ensures Decode(b).Throws? <==>
      exists p: nat :: SepAt(b, p) && (forall q: nat :: q < p ==> !SepAt(b, q)) && !Stoi(b[..p]).Value?
    ensures (forall p: nat :: !SepAt(b, p)) ==> Decode(b).Incomplete?
  {
    FindFirst(b);
    if Find(b).Some? {
      var p := Find(b).value;
      assert SepAt(b, p);
      forall q: nat | SepAt(b, q) && forall r: nat :: r < q ==> !SepAt(b, r) ensures q == p {
      }
    }
  }

  /** A negative length takes the rest of the buffer for the package. */
  lemma NegativeLength(b: string, pos: nat, n: int)
    requires Find(b) == Some(pos) && pos + 2 <= |b| <= MAX_SIZE && Stoi(b[..pos]) == Value(n) && n < 0
    ensures Decode(b).Frame? ==> Decode(b).package == b[pos + 2..]
  {
    assert ToSize(n) == n + WORD && pos + 2 + ToSize(n) > |b|;
    assert b[pos + 2..|b|] == b[pos + 2..];
  }

  /** `Decode` succeeds and removes nothing exactly when the header's number is minus the length of the
      header and both separators, as 32-bit arithmetic sees it. */
  lemma StandsStillExactly(b: string, pos: nat, n: int)
    requires Find(b) == Some(pos) && pos <= |b| && Stoi(b[..pos]) == Value(n) && |b| <= MAX_SIZE
    ensures Decode(b).Frame? && Decode(b).rest == b <==> (pos + n + 4) % 0x1_0000_0000 == 0
  {
    FindInside(b);
    TargetZero(pos, n);
    var target := ToSize(ToInt(ToSize(pos + ToSize(n) + 4)));
    if 0 < target <= |b| {
      assert |b[target..]| < |b|;
    }
  }

  lemma TargetZero(pos: nat, n: int)
    requires INT_MIN <= n <= INT_MAX && pos <= MAX_SIZE
    ensures ToSize(ToInt(ToSize(pos + ToSize(n) + 4))) == 0 <==> (pos + n + 4) % 0x1_0000_0000 == 0
  {
    var x := ToSize(pos + ToSize(n) + 4);
    var k := (pos + ToSize(n) + 4) / WORD;
    assert x == pos + n + 4 + (if n < 0 then WORD else 0) - k * WORD;
    assert x % 0x1_0000_0000 == (pos + n + 4) % 0x1_0000_0000;
  }

  lemma HeaderFound(j: string, rest: string)
    ensures var d, b := Decimal(|j|), Encode(j) + rest;
      Find(b) == Some(|d|) && b[..|d|] == d && Stoi(b[..|d|]) == (if |j| <= INT_MAX then Value(|j|) else OutOfRange)
  {
    var d, b := Decimal(|j|), Encode(j) + rest;
    DecimalDigits(|j|);
    StoiOfDecimal(|j|);
    assert b == d + SEP + (j + SEP + rest);
    FindHeader(d, j + SEP + rest);
    assert b[..|d|] == d;
  }

  lemma PartOfHeader(d: string, tail: string, part: string)
    requires part < d + SEP + tail && |part| < |d| + 2
    ensures part <= d + "\r"
  {
    assert (d + SEP + tail)[..|d| + 1] == d + "\r";
    assert part == (d + SEP + tail)[..|part|];
  }

  lemma PartPastHeader(d: string, tail: string, part: string)
    requires part < d + SEP + tail && |part| >= |d| + 2
    ensures part == d + SEP + part[|d| + 2..] && part[..|d|] == d
  {
    assert part == (d + SEP + tail)[..|part|];
  }

  lemma CutTooShort(b: string, pos: nat, n: nat)
    requires pos <= 10 && pos + n + 4 <= INT_MAX && pos + 2 <= |b| < pos + n + 4
    ensures Cut(b, pos, n) == Incomplete
  {
    TargetOf(pos, n);
  }

  /** On any part of a frame that lacks its end, `Decode` asks for more and leaves the buffer alone. */
  lemma DecodeOfPart(j: string, part: string)
    requires Fits(j) && part < Encode(j)
    ensures Decode(part) == Incomplete
  {
    var d := Decimal(|j|);
    DecimalDigits(|j|);
    EncodeShape(j);
    assert Encode(j) == d + SEP + (j + SEP);
    if |part| < |d| + 2 {
      PartOfHeader(d, j + SEP, part);
      FindNothing(d, part);
    } else {
      PartPastHeader(d, j + SEP, part);
      FindHeader(d, part[|d| + 2..]);
      StoiOfDecimal(|j|);
      DecimalShort(|j|);
      CutTooShort(part, |d|, |j|);
    }
  }
}
