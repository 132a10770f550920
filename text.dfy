/** The few JavaScript string operations the core uses: `toLowerCase` and
    `toUpperCase` on ASCII letters, `includes`, `trim() == ""`, `split(' ')`,
    and `Number.prototype.toString` for decimal amounts held in cents. */
module Text {

  function LowerChar(c: char): char {
    if 'A' <= c <= 'Z' then (c as int + 32) as char else c
  }

  function UpperChar(c: char): char {
    if 'a' <= c <= 'z' then (c as int - 32) as char else c
  }

  /** `s.toLowerCase()` on ASCII letters. */
  function Lower(s: string): (r: string)
    ensures |r| == |s|
    ensures forall i :: 0 <= i < |s| ==> r[i] == LowerChar(s[i])
  {
    if s == [] then [] else [LowerChar(s[0])] + Lower(s[1..])
  }

  /** `s.toUpperCase()` on ASCII letters. */
  function Upper(s: string): (r: string)
    ensures |r| == |s|
    ensures forall i :: 0 <= i < |s| ==> r[i] == UpperChar(s[i])
  {
    if s == [] then [] else [UpperChar(s[0])] + Upper(s[1..])
  }

  /** The characters `trim` and `parseInt` skip: JavaScript's white space
      (tab, vertical tab, form feed, space, no-break space, byte order
      mark and the other space separators) and line terminators. */
  predicate IsSpace(c: char) {
    || c == '\t' || c == '\n' || c == '\U{000B}' || c == '\U{000C}' || c == '\r' || c == ' '
    || c == '\U{00A0}' || c == '\U{1680}' || '\U{2000}' <= c <= '\U{200A}'
    || c == '\U{2028}' || c == '\U{2029}' || c == '\U{202F}' || c == '\U{205F}'
    || c == '\U{3000}' || c == '\U{FEFF}'
  }

  /** `s.trim()` is the empty string. */
  predicate IsBlank(s: string) {
    forall i :: 0 <= i < |s| ==> IsSpace(s[i])
  }

  /** `s.includes(sub)`: scans the positions of `s` from the left. */
  function Contains(s: string, sub: string): bool
    decreases |s|
  {
    if |sub| > |s| then false
    else if s[..|sub|] == sub then true
    else Contains(s[1..], sub)
  }

  /** `sub` occurs in `s` starting at position `i`. */
  predicate OccursAt(s: string, sub: string, i: int) {
    0 <= i <= |s| - |sub| && s[i..i + |sub|] == sub
  }

  /** `Contains` agrees with the definition of an occurrence. */
  lemma {:induction false} ContainsIff(s: string, sub: string)
    ensures Contains(s, sub) <==> exists i :: OccursAt(s, sub, i)
    decreases |s|
  {
    if |sub| > |s| {
      forall i ensures !OccursAt(s, sub, i) {}
    } else if s[..|sub|] == sub {
      assert OccursAt(s, sub, 0);
    } else {
      ContainsIff(s[1..], sub);
      if Contains(s[1..], sub) {
        var i :| OccursAt(s[1..], sub, i);
        assert s[1..][i..i + |sub|] == s[i + 1..i + 1 + |sub|];
        assert OccursAt(s, sub, i + 1);
      } else {
        forall i | OccursAt(s, sub, i) ensures false {
          if i > 0 {
            assert s[1..][i - 1..i - 1 + |sub|] == s[i..i + |sub|];
            assert OccursAt(s[1..], sub, i - 1);
          }
        }
      }
    }
  }

  /** A prefix that lacks the first character of `sub` cannot hold the
      start of an occurrence, so it does not change whether `sub` occurs. */
  lemma ContainsAfterPrefix(p: string, s: string, sub: string)
    requires sub != [] && sub[0] !in p
    ensures Contains(p + s, sub) <==> Contains(s, sub)
  {
    ContainsIff(p + s, sub);
    ContainsIff(s, sub);
    if Contains(s, sub) {
      var i :| OccursAt(s, sub, i);
      assert (p + s)[|p| + i..|p| + i + |sub|] == s[i..i + |sub|];
      assert OccursAt(p + s, sub, |p| + i);
    }
    if Contains(p + s, sub) {
      var i :| OccursAt(p + s, sub, i);
      assert (p + s)[i] == sub[0] by {
        assert (p + s)[i..i + |sub|][0] == sub[0];
      }
      if i < |p| {
        assert false;
      }
      assert (p + s)[i..i + |sub|] == s[i - |p|..i - |p| + |sub|];
      assert OccursAt(s, sub, i - |p|);
    }
  }

  lemma ContainsItself(s: string)
    ensures Contains(s, s)
  {
    assert s[..|s|] == s;
  }

  /** A text holds whatever was put in the middle of it. */
  lemma ContainsInside(a: string, sub: string, b: string)
    ensures Contains(a + sub + b, sub)
  {
    var s := a + sub + b;
    assert OccursAt(s, sub, |a|) by {
      assert s[|a|..|a| + |sub|] == sub;
    }
    ContainsIff(s, sub);
  }

  // ---------------------------------------------------------------------
  // split

  /** `s.split(sep)` for a one-character separator: the fields between
      separators, always at least one. */
  function Split(s: string, sep: char): (r: seq<string>)
    ensures |r| >= 1
  {
    if s == [] then [""]
    else
      var rest := Split(s[1..], sep);
      if s[0] == sep then [""] + rest else [[s[0]] + rest[0]] + rest[1..]
  }

  /** `fields.join(sep)`. */
  function Join(fields: seq<string>, sep: char): string
    requires |fields| >= 1
  {
    if |fields| == 1 then fields[0] else fields[0] + [sep] + Join(fields[1..], sep)
  }

  /** Splitting loses nothing: joining the fields gives the text back. */
  lemma {:induction false} JoinSplit(s: string, sep: char)
    ensures Join(Split(s, sep), sep) == s
  {
    if s != [] {
      JoinSplit(s[1..], sep);
      var rest := Split(s[1..], sep);
      if s[0] != sep {
        if |rest| == 1 {
          assert Join(rest, sep) == rest[0];
        } else {
          assert Join(rest, sep) == rest[0] + [sep] + Join(rest[1..], sep);
          assert Join([[s[0]] + rest[0]] + rest[1..], sep)
              == [s[0]] + rest[0] + [sep] + Join(rest[1..], sep);
        }
      }
    }
  }

  /** No field of a split holds the separator. */
  lemma {:induction false} SplitFieldsFree(s: string, sep: char)
    ensures forall k :: 0 <= k < |Split(s, sep)| ==> sep !in Split(s, sep)[k]
  {
    if s != [] {
      SplitFieldsFree(s[1..], sep);
    }
  }

  /** Joining separator-free fields and splitting again gives the fields. */
  lemma {:induction false} SplitJoin(fields: seq<string>, sep: char)
    requires |fields| >= 1
    requires forall k :: 0 <= k < |fields| ==> sep !in fields[k]
    ensures Split(Join(fields, sep), sep) == fields
  {
    if |fields| == 1 {
      SplitNoSep(fields[0], sep);
    } else {
      SplitJoin(fields[1..], sep);
      SplitPrefix(fields[0], Join(fields[1..], sep), sep);
      assert Join(fields, sep) == fields[0] + ([sep] + Join(fields[1..], sep));
    }
  }

  lemma {:induction false} SplitNoSep(s: string, sep: char)
    requires sep !in s
    ensures Split(s, sep) == [s]
  {
    if s != [] {
      SplitNoSep(s[1..], sep);
      assert [s[0]] + s[1..] == s;
    }
  }

  lemma {:induction false} SplitPrefix(a: string, b: string, sep: char)
    requires sep !in a
    ensures Split(a + [sep] + b, sep) == [a] + Split(b, sep)
  {
    if a == [] {
      assert a + [sep] + b == [sep] + b;
      assert ([sep] + b)[1..] == b;
    } else {
      SplitPrefix(a[1..], b, sep);
      assert (a + [sep] + b)[1..] == a[1..] + [sep] + b;
      assert [a[0]] + a[1..] == a;
    }
  }

  // ---------------------------------------------------------------------
  // numbers as text

  function DigitChar(d: nat): char
    requires d < 10
  {
    "0123456789"[d]
  }

  predicate IsDigit(c: char) {
    '0' <= c <= '9'
  }

  /** Decimal text of a natural number, as `n.toString()` writes it. */
  function NatText(n: nat): (r: string)
    ensures |r| >= 1
    ensures forall i :: 0 <= i < |r| ==> IsDigit(r[i])
  {
    if n < 10 then [DigitChar(n)] else NatText(n / 10) + [DigitChar(n % 10)]
  }

  /** Only zero is written with a leading "0". */
  lemma {:induction false} NatTextLeadingDigit(n: nat)
    ensures NatText(n)[0] == '0' ==> n == 0 && NatText(n) == "0"
  {
    if n >= 10 {
      NatTextLeadingDigit(n / 10);
      assert NatText(n)[0] == NatText(n / 10)[0];
    }
  }

  function DigitValue(c: char): nat
    requires IsDigit(c)
  {
    c as nat - '0' as nat
  }

  /** Reads a run of decimal digits back as a number. */
  function ParseDigits(s: string): nat
    requires forall i :: 0 <= i < |s| ==> IsDigit(s[i])
  {
    if s == [] then 0 else ParseDigits(s[..|s| - 1]) * 10 + DigitValue(s[|s| - 1])
  }

  lemma {:induction false} NatTextRoundTrip(n: nat)
    ensures ParseDigits(NatText(n)) == n
  {
    if n >= 10 {
      NatTextRoundTrip(n / 10);
      var t := NatText(n);
      assert t[..|t| - 1] == NatText(n / 10);
    }
  }

  /** The text of an amount of `cents` hundredths, as JavaScript's
      `Number.prototype.toString` writes the corresponding decimal number:
      no fraction when it is whole, otherwise without trailing zeros. */
  function CentsText(cents: int): (r: string)
    ensures |r| >= 1
  {
    var sign := if cents < 0 then "-" else "";
    var m: nat := if cents < 0 then -cents else cents;
    var whole := NatText(m / 100);
    var frac := m % 100;
    sign + whole + (if frac == 0 then ""
                    else if frac % 10 == 0 then "." + [DigitChar(frac / 10)]
                    else "." + [DigitChar(frac / 10), DigitChar(frac % 10)])
  }

  lemma CentsTextExamples()
    ensures CentsText(25000) == "250"
    ensures CentsText(15075) == "150.75"
    ensures CentsText(7525) == "75.25"
    ensures CentsText(15050) == "150.5"
  {
    assert NatText(2) == "2";
    assert NatText(25) == "25";
    assert NatText(250) == "250";
    assert NatText(15) == "15";
    assert NatText(150) == "150";
    assert NatText(7) == "7";
    assert NatText(75) == "75";
  }
}
