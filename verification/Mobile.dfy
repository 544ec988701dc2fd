/**
  The mobile-number normaliser (auth/mobile.go). Every store key, rate-limit key and user row
  uses its result, so two requests concern the same subscriber exactly when it returns the
  same string for both.

  `wide` stands for the digits that unicode.IsDigit accepts beyond Latin-1. The code counts
  the digits it collected in UTF-8 bytes, so such a digit weighs two to four.
  */
module Mobile {
  import opened Text
  import opened Auth

  predicate IsAsciiDigit(c: char) { '0' <= c <= '9' }

  predicate IsDigit(c: char, wide: set<char>) {
    IsAsciiDigit(c) || (c as int > 0xFF && c in wide && !IsSpace(c))
  }

  predicate IsSeparator(c: char) { c == ' ' || c == '-' || c == '(' || c == ')' }

  function Digits(s: string, wide: set<char>): string {
    if s == "" then "" else (if IsDigit(s[0], wide) then [s[0]] else "") + Digits(s[1..], wide)
  }

  /** Only digits, separators and plus signs, and no plus sign behind a digit. */
  predicate WellFormed(s: string, wide: set<char>) {
    forall i :: 0 <= i < |s| ==>
      && (IsDigit(s[i], wide) || IsSeparator(s[i]) || s[i] == '+')
      && (s[i] == '+' ==> forall j :: 0 <= j < i ==> !IsDigit(s[j], wide))
  }

  /** Ten bytes, the first of them 6 to 9. */
  predicate IsNational(n: string) {
    ByteLen(n) == 10 && n != "" && '6' <= n[0] <= '9'
  }

  function StripTrunk(d: string): Option<string> {
    if ByteLen(d) == 10 then Some(d)
    else if ByteLen(d) == 11 && d[..1] == "0" then Some(d[1..])
    else if ByteLen(d) == 12 && |d| >= 2 && d[..2] == "91" then Some(d[2..])
    else None
  }

  /** The verdict on a trimmed, non-empty input. */
  function OfCore(core: string, wide: set<char>): Result<string> {
    if !WellFormed(core, wide) then Err(InvalidMobileFormat)
    else match StripTrunk(Digits(core, wide))
      case None => Err(InvalidMobileFormat)
      case Some(n) => if IsNational(n) then Ok("+91" + n) else Err(InvalidMobileFormat)
  }

  /** What NormalizeIndianMobile computes, without its scan. */
  function Normalize(input: string, wide: set<char>): (r: Result<string>)
    ensures r.Ok? ==> |r.value| > 3 && r.value[..3] == "+91"
    ensures r.Err? ==> r.error == InvalidMobile || r.error == InvalidMobileFormat
  {
    var t := TrimSpace(input);
    if t == "" then Err(InvalidMobile) else OfCore(t, wide)
  }

  method NormalizeIndianMobile(input: string, wide: set<char>) returns (r: Result<string>)
    ensures r == Normalize(input, wide)
  {
    var trimmed := TrimSpace(input);
    if trimmed == "" {
      return Err(InvalidMobile);
    }
    var number := "";
    for i := 0 to |trimmed|
      invariant number == Digits(trimmed[..i], wide)
      invariant WellFormed(trimmed[..i], wide)
    {
      var c := trimmed[i];
      DigitsConcat(trimmed[..i], [c], wide);
      assert trimmed[..i + 1] == trimmed[..i] + [c];
      NoDigits(trimmed[..i], wide);
      if c == '+' {
        if |number| > 0 {
          assert !WellFormed(trimmed, wide) by {
            var k :| 0 <= k < i && IsDigit(trimmed[..i][k], wide);
            assert trimmed[i] == '+' && IsDigit(trimmed[k], wide);
          }
          return Err(InvalidMobileFormat);
        }
      } else if IsDigit(c, wide) {
        number := number + [c];
      } else if !IsSeparator(c) {
        return Err(InvalidMobileFormat);
      }
    }
    assert trimmed[..|trimmed|] == trimmed;
    ByteLenTail(number);
    if ByteLen(number) == 10 {
    } else if ByteLen(number) == 11 && number[..1] == "0" {
      number := number[1..];
    } else if ByteLen(number) == 12 && |number| >= 2 && number[..2] == "91" {
      number := number[2..];
    } else {
      return Err(InvalidMobileFormat);
    }
    if ByteLen(number) != 10 || number[0] < '6' || number[0] > '9' {
      return Err(InvalidMobileFormat);
    }
    return Ok("+91" + number);
  }

  // ---- Supporting facts ----

  lemma {:induction false} DigitsConcat(a: string, b: string, wide: set<char>)
    ensures Digits(a + b, wide) == Digits(a, wide) + Digits(b, wide)
  {
    hide IsDigit;
    if a == "" {
      assert a + b == b;
    } else {
      var first := if IsDigit(a[0], wide) then [a[0]] else "";
      DigitsConcat(a[1..], b, wide);
      assert (a + b)[0] == a[0] && (a + b)[1..] == a[1..] + b;
      assert first + (Digits(a[1..], wide) + Digits(b, wide)) == first + Digits(a[1..], wide) + Digits(b, wide);
    }
  }

  lemma {:induction false} NoDigits(s: string, wide: set<char>)
    ensures Digits(s, wide) == "" <==> forall i :: 0 <= i < |s| ==> !IsDigit(s[i], wide)
  {
    if s != "" {
      NoDigits(s[1..], wide);
      if Digits(s, wide) == "" {
        forall i | 0 <= i < |s| ensures !IsDigit(s[i], wide) {
          if i > 0 { assert s[i] == s[1..][i - 1]; }
        }
      } else if !IsDigit(s[0], wide) {
        var i :| 0 <= i < |s[1..]| && IsDigit(s[1..][i], wide);
        assert IsDigit(s[i + 1], wide);
      }
    }
  }

  lemma {:induction false} DigitsOfDigits(d: string, wide: set<char>)
    requires forall i :: 0 <= i < |d| ==> IsDigit(d[i], wide)
    ensures Digits(d, wide) == d
  {
    if d != "" {
      assert forall i :: 0 <= i < |d[1..]| ==> d[1..][i] == d[i + 1];
      DigitsOfDigits(d[1..], wide);
    }
  }

  lemma {:induction false} DigitsAreDigits(s: string, wide: set<char>)
    ensures forall i :: 0 <= i < |Digits(s, wide)| ==> IsDigit(Digits(s, wide)[i], wide)
    ensures forall i :: 0 <= i < |Digits(s, wide)| ==> Digits(s, wide)[i] in s
    ensures forall i :: 0 <= i < |s| && IsDigit(s[i], wide) ==> s[i] in Digits(s, wide)
  {
    if s != "" {
      DigitsAreDigits(s[1..], wide);
      assert forall i :: 1 <= i < |s| ==> s[i] == s[1..][i - 1];
    }
  }

  /** Dropping one or two leading ASCII characters drops as many bytes. */
  lemma ByteLenTail(s: string)
    ensures s != "" ==> ByteLen(s) == Width(s[0]) + ByteLen(s[1..])
    ensures |s| >= 2 ==> ByteLen(s) == Width(s[0]) + Width(s[1]) + ByteLen(s[2..])
  {
    if |s| >= 2 {
      assert s[1..][1..] == s[2..];
      assert s[1..][0] == s[1];
    }
  }

  lemma {:induction false} AsciiLen(s: string)
    ensures ByteLen(s) >= |s|
    ensures ByteLen(s) == |s| <==> forall i :: 0 <= i < |s| ==> (s[i] as int) < 0x80
  {
    if s != "" {
      AsciiLen(s[1..]);
      assert forall i :: 1 <= i < |s| ==> s[i] == s[1..][i - 1];
      if ByteLen(s) == |s| {
        forall i | 0 <= i < |s| ensures (s[i] as int) < 0x80 {
          if i > 0 { assert s[i] == s[1..][i - 1]; }
        }
      } else if ByteLen(s[1..]) != |s[1..]| {
        var i :| 0 <= i < |s[1..]| && (s[1..][i] as int) >= 0x80;
        assert s[i + 1] as int >= 0x80;
      }
    }
  }

  // ---- Properties ----

  /** The grammar: a well-formed spelling of a national number, bare or behind 0 or 91. */
  predicate Denotes(input: string, n: string, wide: set<char>) {
    var t := TrimSpace(input);
    && WellFormed(t, wide) && IsNational(n)
    && (Digits(t, wide) == n || Digits(t, wide) == "0" + n || Digits(t, wide) == "91" + n)
  }

  /** Acceptance is exactly the grammar. */
  lemma AcceptedExactly(input: string, n: string, wide: set<char>)
    ensures Normalize(input, wide) == Ok("+91" + n) <==> Denotes(input, n, wide)
  {
    var t := TrimSpace(input);
    var d := Digits(t, wide);
    ByteLenTail(d);
    ByteLenTail("0" + n);
    ByteLenTail("91" + n);
    assert ("0" + n)[1..] == n && ("91" + n)[2..] == n;
    if Normalize(input, wide) == Ok("+91" + n) {
      var m := StripTrunk(d).value;
      assert n == ("+91" + n)[3..] == ("+91" + m)[3..] == m;
      assert ByteLen(d) == 11 ==> d == d[..1] + d[1..];
      assert ByteLen(d) == 12 ==> d == d[..2] + d[2..];
    }
  }

  /** The result is +91 and ten ASCII digits, the first 6 to 9 (E.164 form). */
  ghost predicate IsE164(s: string) {
    && |s| == 13 && s[..3] == "+91" && '6' <= s[3] <= '9'
    && forall i :: 3 <= i < 13 ==> IsAsciiDigit(s[i])
  }

  ghost predicate AllAscii(d: string) { forall i :: 0 <= i < |d| ==> IsAsciiDigit(d[i]) }

  lemma NationalE164(n: string)
    requires IsNational(n)
    ensures IsE164("+91" + n) <==> AllAscii(n)
  {
    var r := "+91" + n;
    AsciiLen(n);
    assert forall i :: 0 <= i < |n| ==> r[i + 3] == n[i];
    if AllAscii(n) {
      assert forall i :: 3 <= i < |r| ==> r[i] == n[i - 3];
    }
  }

  lemma TrunkIsAscii(d: string)
    requires StripTrunk(d).Some?
    ensures AllAscii(d) <==> AllAscii(StripTrunk(d).value)
  {
    var n := StripTrunk(d).value;
    var k := |d| - |n|;
    assert forall i :: 0 <= i < |n| ==> n[i] == d[k + i];
    assert forall i :: 0 <= i < k ==> d[i] == d[..k][i];
    if AllAscii(n) {
      forall i | 0 <= i < |d| ensures IsAsciiDigit(d[i]) {
        if i >= k { assert d[i] == n[i - k]; }
      }
    }
  }

  /** An accepted input yields an E.164 number if and only if all its digits are ASCII. */
  lemma E164IffAsciiDigits(input: string, wide: set<char>)
    requires Normalize(input, wide).Ok?
    ensures IsE164(Normalize(input, wide).value) <==>
      forall i :: 0 <= i < |TrimSpace(input)| && IsDigit(TrimSpace(input)[i], wide) ==>
        IsAsciiDigit(TrimSpace(input)[i])
  {
    var t := TrimSpace(input);
    var d := Digits(t, wide);
    NationalE164(StripTrunk(d).value);
    TrunkIsAscii(d);
    DigitsAreDigits(t, wide);
    if AllAscii(d) {
      forall i | 0 <= i < |t| && IsDigit(t[i], wide) ensures IsAsciiDigit(t[i]) {
        var j :| 0 <= j < |d| && d[j] == t[i];
      }
    } else {
      var j :| 0 <= j < |d| && !IsAsciiDigit(d[j]);
      var i :| 0 <= i < |t| && t[i] == d[j];
    }
  }

  /** A wide digit does get through: one ASCII digit and three of three bytes each pass as ten. */
  lemma WideDigitsPass()
    ensures
      var c := 0x0967 as char;
      var s := ['9', c, c, c];
      Normalize(s, {c}) == Ok("+91" + s) && !IsE164("+91" + s)
  {
    var c := 0x0967 as char;
    var s := ['9', c, c, c];
    TrimUnique("", s, "");
    assert "" + s + "" == s;
    DigitsOfDigits(s, {c});
    ByteLenTail(s);
    assert s[2..] == [c, c];
    ByteLenTail([c, c]);
    assert [c, c][2..] == "";
    assert ByteLen(s) == 10;
  }

  lemma PlusNumberIsTrimmed(n: string, wide: set<char>)
    requires n != "" && forall i :: 0 <= i < |n| ==> IsDigit(n[i], wide)
    ensures TrimSpace("+91" + n) == "+91" + n
    ensures WellFormed("+91" + n, wide) && Digits("+91" + n, wide) == "91" + n
  {
    var s := "+91" + n;
    assert s[|s| - 1] == n[|n| - 1];
    TrimUnique("", s, "");
    assert "" + s + "" == s;
    assert s == "+" + ("91" + n);
    DigitsConcat("+", "91" + n, wide);
    DigitsOfDigits("91" + n, wide);
  }

  /** Normalising twice is normalising once. */
  lemma Idempotent(input: string, wide: set<char>)
    requires Normalize(input, wide).Ok?
    ensures Normalize(Normalize(input, wide).value, wide) == Normalize(input, wide)
  {
    hide WellFormed, Digits, TrimSpace, IsDigit;
    var d := Digits(TrimSpace(input), wide);
    var n := StripTrunk(d).value;
    DigitsAreDigits(TrimSpace(input), wide);
    assert forall i :: 0 <= i < |n| ==> n[i] == d[|d| - |n| + i];
    PlusNumberIsTrimmed(n, wide);
    AcceptedExactly("+91" + n, n, wide);
  }

  /** Two accepted inputs are the same number if and only if they denote the same national number. */
  lemma SameNumber(a: string, b: string, wide: set<char>)
    requires Normalize(a, wide).Ok? && Normalize(b, wide).Ok?
    ensures Normalize(a, wide) == Normalize(b, wide) <==> exists n :: Denotes(a, n, wide) && Denotes(b, n, wide)
  {
    hide Denotes, OfCore;
    OnlyNumber(a, wide);
    OnlyNumber(b, wide);
    var r := Normalize(a, wide).value;
    assert r == "+91" + r[3..];
    assert Denotes(a, r[3..], wide);
  }

  /** An accepted input denotes exactly one national number; any other input denotes none. */
  lemma OnlyNumber(input: string, wide: set<char>)
    ensures
      match Normalize(input, wide)
      case Ok(r) => forall n :: Denotes(input, n, wide) <==> r == "+91" + n
      case Err(e) => (forall n :: !Denotes(input, n, wide)) && (e == InvalidMobile <==> TrimSpace(input) == "")
  {
    hide Denotes, WellFormed, StripTrunk, IsNational, Digits;
    forall n ensures Normalize(input, wide) == Ok("+91" + n) <==> Denotes(input, n, wide) {
      AcceptedExactly(input, n, wide);
    }
  }

  ghost predicate AllBlank(s: string) { forall i :: 0 <= i < |s| ==> s[i] == ' ' }

  /** The characters between position i and the trimmed core, on either side of it. */
  ghost function Outside(lead: string, core: string, tail: string, i: nat): string
    requires i <= |lead| + |core| + |tail|
  {
    if i <= |lead| then lead[i..]
    else if i >= |lead| + |core| then tail[..i - |lead| - |core|]
    else ""
  }

  /**
    Inserting a separator anywhere leaves an accepted number alone, except that a visible
    separator must not enclose white space other than a plain blank: that white space was
    trimmed before and is an illegal character now.
    */
  lemma InsertSeparator(lead: string, core: string, tail: string, i: nat, c: char, wide: set<char>)
    requires AllSpace(lead) && AllSpace(tail)
    requires core == TrimSpace(lead + core + tail)
    requires Normalize(lead + core + tail, wide).Ok?
    requires i <= |lead| + |core| + |tail| && IsSeparator(c)
    ensures
      var s := lead + core + tail;
      Normalize(s[..i] + [c] + s[i..], wide) == Normalize(s, wide) <==>
        c == ' ' || AllBlank(Outside(lead, core, tail, i))
  {
    hide WellFormed, IsNational, StripTrunk, Digits, OfCore, IsDigit;
    CoreEnds(lead + core + tail);
    Splice(lead, core, tail, i, c);
    if i <= |lead| {
      InsertLeft(lead[..i], lead[i..], core, tail, c, wide);
    } else if i >= |lead| + |core| {
      var k := i - |lead| - |core|;
      InsertRight(lead, core, tail[..k], tail[k..], c, wide);
    } else {
      InsertMiddle(lead, core, tail, i - |lead|, c, wide);
    }
  }

  /** A hyphen in front of a tab that used to be trimmed turns any bare accepted number into a malformed one. */
  lemma HyphenBeforeTab(n: string, wide: set<char>)
    requires |n| == 10 && AllAscii(n) && '6' <= n[0] <= '9'
    ensures Normalize("\t" + n, wide) == Ok("+91" + n)
    ensures Normalize("-\t" + n, wide) == Err(InvalidMobileFormat)
  {
    hide Digits, StripTrunk, ByteLen, TrimSpace;
    var core := "-\t" + n;
    assert "\t" + n + "" == "\t" + n && "" + core + "" == core;
    assert core[|core| - 1] == n[9] && core[1] == '\t';
    TrimUnique("\t", n, "");
    TrimUnique("", core, "");
    DigitsOfDigits(n, wide);
    AsciiLen(n);
    AcceptedExactly("\t" + n, n, wide);
  }

  lemma Splice(lead: string, core: string, tail: string, i: nat, c: char)
    requires i <= |lead| + |core| + |tail|
    ensures
      var s := lead + core + tail;
      var j, k := i - |lead|, i - |lead| - |core|;
      s[..i] + [c] + s[i..] ==
        if i <= |lead| then lead[..i] + [c] + lead[i..] + core + tail
        else if k >= 0 then lead + core + (tail[..k] + [c] + tail[k..])
        else lead + (core[..j] + [c] + core[j..]) + tail
  {
    var s := lead + core + tail;
    var j, k := i - |lead|, i - |lead| - |core|;
    if i <= |lead| {
      assert s[..i] == lead[..i] && s[i..] == lead[i..] + core + tail;
    } else if k >= 0 {
      assert s[..i] == lead + core + tail[..k] && s[i..] == tail[k..];
    } else {
      assert s[..i] == lead + core[..j] && s[i..] == core[j..] + tail;
    }
  }

  lemma InsertMiddle(lead: string, core: string, tail: string, j: nat, c: char, wide: set<char>)
    requires AllSpace(lead) && AllSpace(tail) && IsSeparator(c)
    requires 0 < j < |core| && !IsSpace(core[0]) && !IsSpace(core[|core| - 1])
    requires OfCore(core, wide).Ok?
    ensures Normalize(lead + (core[..j] + [c] + core[j..]) + tail, wide) == OfCore(core, wide)
  {
    hide IsNational, StripTrunk, Digits, IsDigit;
    var core' := core[..j] + [c] + core[j..];
    assert core'[0] == core[0] && core'[|core'| - 1] == core[|core| - 1];
    TrimUnique(lead, core', tail);
    InsertInside(core, j, c, wide);
  }

  lemma InsertLeft(a: string, b: string, core: string, tail: string, c: char, wide: set<char>)
    requires AllSpace(a) && AllSpace(b) && AllSpace(tail) && IsSeparator(c)
    requires core != "" && !IsSpace(core[0]) && !IsSpace(core[|core| - 1])
    requires OfCore(core, wide).Ok?
    ensures Normalize(a + [c] + b + core + tail, wide) == OfCore(core, wide) <==> c == ' ' || AllBlank(b)
  {
    hide IsNational, StripTrunk, Digits, WellFormed, IsDigit;
    if c == ' ' {
      TrimUnique(a + [c] + b, core, tail);
    } else {
      var core' := [c] + b + core;
      assert a + [c] + b + core + tail == a + core' + tail;
      assert core'[|core'| - 1] == core[|core| - 1];
      TrimUnique(a, core', tail);
      Enclose([c] + b, core, "", wide);
      assert core' == [c] + b + core + "";
      BlankPadding(c, b, false);
    }
  }

  lemma InsertRight(lead: string, core: string, a: string, b: string, c: char, wide: set<char>)
    requires AllSpace(a) && AllSpace(b) && AllSpace(lead) && IsSeparator(c)
    requires core != "" && !IsSpace(core[0]) && !IsSpace(core[|core| - 1])
    requires OfCore(core, wide).Ok?
    ensures Normalize(lead + core + (a + [c] + b), wide) == OfCore(core, wide) <==> c == ' ' || AllBlank(a)
  {
    hide IsNational, StripTrunk, Digits, WellFormed, IsDigit;
    if c == ' ' {
      TrimUnique(lead, core, a + [c] + b);
    } else {
      var core' := core + (a + [c]);
      assert lead + core + (a + [c] + b) == lead + core' + b;
      assert core'[|core'| - 1] == c;
      TrimUnique(lead, core', b);
      Enclose("", core, a + [c], wide);
      assert core' == "" + core + (a + [c]);
      BlankPadding(c, a, true);
    }
  }

  lemma CoreEnds(s: string)
    requires TrimSpace(s) != ""
    ensures var t := TrimSpace(s); !IsSpace(t[0]) && !IsSpace(t[|t| - 1])
  {
    var _, _ := TrimSplits(s);
    var _ := TrimRightSplits(TrimLeft(s));
  }

  /** Characters that are no digits around a core: well-formed iff each is a separator. */
  lemma Enclose(a: string, core: string, b: string, wide: set<char>)
    requires WellFormed(core, wide)
    requires forall k :: 0 <= k < |a| ==> IsSeparator(a[k]) || IsSpace(a[k])
    requires forall k :: 0 <= k < |b| ==> IsSeparator(b[k]) || IsSpace(b[k])
    ensures Digits(a + core + b, wide) == Digits(core, wide)
    ensures WellFormed(a + core + b, wide) <==>
      (forall k :: 0 <= k < |a| ==> IsSeparator(a[k])) && (forall k :: 0 <= k < |b| ==> IsSeparator(b[k]))
  {
    hide Digits;
    DigitsConcat(a + core, b, wide);
    DigitsConcat(a, core, wide);
    NoDigits(a, wide);
    NoDigits(b, wide);
    var s := a + core + b;
    assert forall k :: 0 <= k < |a| ==> s[k] == a[k];
    assert forall k :: 0 <= k < |core| ==> s[|a| + k] == core[k];
    assert forall k :: 0 <= k < |b| ==> s[|a| + |core| + k] == b[k];
    if (forall k :: 0 <= k < |a| ==> IsSeparator(a[k])) && (forall k :: 0 <= k < |b| ==> IsSeparator(b[k])) {
      forall i | 0 <= i < |s|
        ensures IsDigit(s[i], wide) || IsSeparator(s[i]) || s[i] == '+'
        ensures s[i] == '+' ==> forall j :: 0 <= j < i ==> !IsDigit(s[j], wide)
      {
        if |a| <= i < |a| + |core| {
          assert s[i] == core[i - |a|];
          if s[i] == '+' {
            forall j | 0 <= j < i ensures !IsDigit(s[j], wide) {
              if j >= |a| { assert s[j] == core[j - |a|]; }
            }
          }
        } else if i >= |a| + |core| {
          assert s[i] == b[i - |a| - |core|];
        }
      }
    }
  }

  lemma BlankPadding(c: char, pad: string, after: bool)
    requires IsSeparator(c) && AllSpace(pad)
    ensures AllBlank(pad) <==>
      var s := if after then pad + [c] else [c] + pad;
      forall k :: 0 <= k < |s| ==> IsSeparator(s[k])
  {
    var s := if after then pad + [c] else [c] + pad;
    var off := if after then 0 else 1;
    assert forall k :: 0 <= k < |pad| ==> s[k + off] == pad[k];
    if !AllBlank(pad) {
      var k :| 0 <= k < |pad| && pad[k] != ' ';
      assert !IsSeparator(s[k + off]);
    }
  }

  lemma InsertInside(core: string, j: nat, c: char, wide: set<char>)
    requires j <= |core| && IsSeparator(c) && WellFormed(core, wide)
    ensures var s := core[..j] + [c] + core[j..]; WellFormed(s, wide) && Digits(s, wide) == Digits(core, wide)
  {
    var s := core[..j] + [c] + core[j..];
    DigitsConcat(core[..j] + [c], core[j..], wide);
    DigitsConcat(core[..j], [c], wide);
    DigitsConcat(core[..j], core[j..], wide);
    assert core == core[..j] + core[j..];
    forall i | 0 <= i < |s|
      ensures IsDigit(s[i], wide) || IsSeparator(s[i]) || s[i] == '+'
      ensures s[i] == '+' ==> forall k :: 0 <= k < i ==> !IsDigit(s[k], wide)
    {
      var at := if i < j then i else i - 1;
      if i != j {
        assert s[i] == core[at];
        if s[i] == '+' {
          forall k | 0 <= k < i ensures !IsDigit(s[k], wide) {
            if k < j { assert s[k] == core[k]; } else if k > j { assert s[k] == core[k - 1]; }
          }
        }
      }
    }
  }
}
