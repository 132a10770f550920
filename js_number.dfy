/** The JavaScript number handling the page parameters go through:
    `parseInt` of a query or body value, `+` and `<` on the result, and
    `Array.prototype.slice` reading a non-number index. Only the integer
    values `parseInt` can produce are modelled, with `NaN` as its own case;
    a value is given by its JavaScript text (`String(v)`). */
module JsNumber {
  import Text
  import Seqs

  /** An integer-valued JavaScript number or `NaN`. In JSON `NaN` is
      written `null`. */
  datatype JsInt = Int(value: int) | NaN

  /** The value of `c` as a digit in base `radix` (2 to 36), or -1. */
  function DigitIn(c: char, radix: nat): (d: int)
    ensures -1 <= d < radix
    ensures radix == 10 ==> (d >= 0 <==> Text.IsDigit(c))
  {
    var v := if '0' <= c <= '9' then c as int - '0' as int
             else if 'a' <= c <= 'z' then c as int - 'a' as int + 10
             else if 'A' <= c <= 'Z' then c as int - 'A' as int + 10
             else -1;
    if v < radix then v else -1
  }

  /** The length of the longest prefix of `s` made of base-`radix` digits. */
  function DigitRun(s: string, radix: nat): (n: nat)
    ensures n <= |s|
    ensures forall i :: 0 <= i < n ==> DigitIn(s[i], radix) >= 0
    ensures n < |s| ==> DigitIn(s[n], radix) < 0
  {
    if s == [] || DigitIn(s[0], radix) < 0 then 0 else DigitRun(s[1..], radix) + 1
  }

  /** The number the base-`radix` digits `s` denote, most significant first. */
  function RunValue(s: string, radix: nat): nat
    requires forall i :: 0 <= i < |s| ==> DigitIn(s[i], radix) >= 0
  {
    if s == [] then 0 else RunValue(s[..|s| - 1], radix) * radix + DigitIn(s[|s| - 1], radix)
  }

  /** `s` without its leading white space (`trimStart`). */
  function SkipSpace(s: string): (r: string)
    ensures |r| <= |s| && r == s[|s| - |r|..]
    ensures r != [] ==> !Text.IsSpace(r[0])
  {
    if s != [] && Text.IsSpace(s[0]) then SkipSpace(s[1..]) else s
  }

  /** The text after an optional leading sign. */
  function Unsigned(t: string): (u: string)
    ensures |u| <= |t| && u == t[|t| - |u|..]
  {
    if t != [] && (t[0] == '-' || t[0] == '+') then t[1..] else t
  }

  /** `u` starts with the `0x` or `0X` prefix of a base-16 number. */
  predicate HexPrefix(u: string) {
    |u| >= 2 && u[0] == '0' && (u[1] == 'x' || u[1] == 'X')
  }

  /** The value of the longest digit run that starts `w`, or `NaN` when
      there is none. */
  function LeadingRun(w: string, radix: nat): (r: JsInt)
    ensures r.NaN? <==> DigitRun(w, radix) == 0
  {
    var n := DigitRun(w, radix);
    if n == 0 then NaN else Int(RunValue(w[..n], radix))
  }

  /** `parseInt(text)` with no radix: leading white space is skipped, one
      sign is read, a `0x`/`0X` prefix selects base 16 (else base 10), and
      the longest run of digits that follows is the value; no digits at
      all gives `NaN`. Text after the run ("10px", "2.5") is ignored. */
  function ParseInt(text: string): (r: JsInt)
  {
    var t := SkipSpace(text);
    var u := Unsigned(t);
    var magnitude := if HexPrefix(u) then LeadingRun(u[2..], 16) else LeadingRun(u, 10);
    if magnitude.Int? && t[0] == '-' then Int(-magnitude.value) else magnitude
  }

  /** Base-10 digits read by `RunValue` are read as `Text.ParseDigits`
      reads them. */
  lemma {:induction false} RunValueDecimal(s: string)
    requires forall i :: 0 <= i < |s| ==> Text.IsDigit(s[i])
    ensures RunValue(s, 10) == Text.ParseDigits(s)
  {
    if s != [] {
      RunValueDecimal(s[..|s| - 1]);
      assert Text.DigitValue(s[|s| - 1]) == DigitIn(s[|s| - 1], 10);
    }
  }

  /** The digit run of decimal digits followed by a non-digit (or
      nothing) is exactly those digits. */
  lemma {:induction false} DigitRunOfDigits(s: string, rest: string)
    requires forall i :: 0 <= i < |s| ==> Text.IsDigit(s[i])
    requires rest == [] || !Text.IsDigit(rest[0])
    ensures DigitRun(s + rest, 10) == |s|
  {
    if s != [] {
      assert (s + rest)[1..] == s[1..] + rest;
      DigitRunOfDigits(s[1..], rest);
    } else {
      assert s + rest == rest;
    }
  }

  /** `parseInt` reads back the decimal text of a natural number, also
      when other text follows it ("10px", "2.5"), as long as that text
      does not start with a digit (and "0" is not followed by "x"). */
  lemma ParseIntNatText(n: nat, rest: string)
    requires rest == [] || !Text.IsDigit(rest[0])
    requires n == 0 && rest != [] ==> rest[0] != 'x' && rest[0] != 'X'
    ensures ParseInt(Text.NatText(n) + rest) == Int(n)
  {
    var d := Text.NatText(n);
    var s := d + rest;
    assert s[0] == d[0];
    if HexPrefix(s) {
      Text.NatTextLeadingDigit(n);
      assert false;
    }
    ParseIntDecimal(s);
    DigitRunOfDigits(d, rest);
    assert s[..|d|] == d;
    RunValueDecimal(d);
    Text.NatTextRoundTrip(n);
  }

  /** Text that starts with a decimal digit other than a `0x` prefix is
      read as a base-10 run. */
  lemma ParseIntDecimal(s: string)
    requires s != [] && Text.IsDigit(s[0]) && !HexPrefix(s)
    ensures ParseInt(s) == LeadingRun(s, 10)
  {
    assert !Text.IsSpace(s[0]);
    assert SkipSpace(s) == s;
    assert Unsigned(s) == s;
  }

  /** Text without any decimal digit parses to `NaN`, the empty string
      included. */
  lemma ParseIntNoDigits(s: string)
    requires forall i :: 0 <= i < |s| ==> !Text.IsDigit(s[i])
    ensures ParseInt(s) == NaN
  {
    var u := Unsigned(SkipSpace(s));
    assert u == s[|s| - |u|..];
    if u != [] {
      assert u[0] == s[|s| - |u|];
      assert DigitIn(u[0], 10) < 0;
    }
  }

  /** The `+` of two numbers: `NaN` absorbs. */
  function Plus(a: JsInt, b: JsInt): (r: JsInt)
    ensures r.NaN? <==> a.NaN? || b.NaN?
    ensures r.Int? ==> r.value == a.value + b.value
  {
    if a.NaN? || b.NaN? then NaN else Int(a.value + b.value)
  }

  /** `a < n`: every comparison with `NaN` is false. */
  predicate Below(a: JsInt, n: int) {
    a.Int? && a.value < n
  }

  /** How `slice` reads a number index (`ToIntegerOrInfinity`): `NaN` is 0. */
  function SliceIndex(a: JsInt): (i: int)
    ensures a.Int? ==> i == a.value
    ensures a.NaN? ==> i == 0
  {
    if a.NaN? then 0 else a.value
  }

  /** `{data: s.slice(offset, offset + limit), total: s.length,
      hasMore: offset + limit < s.length}` on parsed numbers. */
  function Paginate<T>(s: seq<T>, offset: JsInt, limit: JsInt): (p: Seqs.Page<T>)
    ensures p.total == |s|
    ensures offset.NaN? || limit.NaN? ==> p.data == [] && !p.hasMore
    ensures offset.Int? && limit.Int? ==> p == Seqs.Paginate(s, offset.value, limit.value)
  {
    var end := Plus(offset, limit);
    Seqs.Page(Seqs.Slice(s, SliceIndex(offset), SliceIndex(end)), |s|, Below(end, |s|))
  }

  /** The default offset "0" parses to 0. */
  lemma ParseIntZero()
    ensures ParseInt("0") == Int(0)
  {
    ParseIntNatText(0, []);
    assert Text.NatText(0) + [] == "0";
  }

  /** With the offset left at its default "0" and a limit given as the
      decimal text of `n`, the page is the first `n` elements and
      `hasMore` says that more remain. */
  lemma DefaultOffsetPage<T>(s: seq<T>, n: nat)
    ensures var p := Paginate(s, ParseInt("0"), ParseInt(Text.NatText(n)));
            p.data == Seqs.Take(s, n) && (p.hasMore <==> n < |s|)
  {
    ParseIntZero();
    ParseIntNatText(n, []);
    assert Text.NatText(n) + [] == Text.NatText(n);
    Seqs.PaginateWindow(s, 0, n);
  }
}
