/** Exact dollar amounts: what a user may enter, and how the API's amounts are shown. */
module Dollars {
  import opened Basics

  // ---------------------------------------------------------- decimal strings

  predicate IsDigit(c: char) {
    '0' <= c <= '9'
  }

  predicate AllDigits(s: string) {
    forall i :: 0 <= i < |s| ==> IsDigit(s[i])
  }

  function Digit(c: char): nat
    requires IsDigit(c)
  {
    c as nat - '0' as nat
  }

  /** The whole number a digit string denotes. */
  function Whole(s: string): nat
    requires AllDigits(s)
  {
    if s == "" then 0 else 10 * Whole(s[..|s| - 1]) + Digit(s[|s| - 1])
  }

  /** The fraction that digits after a point denote. */
  function Fraction(s: string): real
    requires AllDigits(s)
  {
    if s == "" then 0.0 else (Digit(s[0]) as real + Fraction(s[1..])) / 10.0
  }

  /** `split_once('.')`, with an empty fraction if there is no point. */
  function Split(s: string): (string, string) {
    if s == "" then ("", "")
    else if s[0] == '.' then ("", s[1..])
    else
      var (whole, fraction) := Split(s[1..]);
      ([s[0]] + whole, fraction)
  }

  function StripDollar(s: string): string {
    if s != "" && s[0] == '$' then s[1..] else s
  }

  function TrimStart(s: string): string {
    if s != "" && s[0] == '0' then TrimStart(s[1..]) else s
  }

  function TrimEnd(s: string): string {
    if s != "" && s[|s| - 1] == '0' then TrimEnd(s[..|s| - 1]) else s
  }

  /** A decimal: digits on both sides of the point, and at least one digit where `needsWhole` asks. */
  predicate Decimal(s: string, needsWhole: bool) {
    var (whole, fraction) := Split(s);
    AllDigits(whole) && AllDigits(fraction) && (whole != "" || (!needsWhole && fraction != ""))
  }

  /** The number a decimal denotes. */
  function Amount(s: string): real
    requires Decimal(s, false)
  {
    var (whole, fraction) := Split(s);
    Whole(whole) as real + Fraction(fraction)
  }

  // ---------------------------------------------------------------- parse_usd

  datatype InputError = NotDollars | NotAboveZero

  /** `parse_usd`. */
  function ParseUsd(value: string): Result<string, InputError> {
    var digits := StripDollar(value);
    var (whole, fraction) := Split(digits);
    if (whole == "" && fraction == "") || !AllDigits(whole) || !AllDigits(fraction) then Err(NotDollars)
    else
      var trimmed := TrimStart(whole);
      var w := if trimmed == "" then "0" else trimmed;
      var f := TrimEnd(fraction);
      if w == "0" && f == "" then Err(NotAboveZero)
      else if f == "" then Ok(w)
      else Ok(w + "." + f)
  }

  lemma {:induction false} FractionBounds(s: string)
    requires AllDigits(s)
    ensures 0.0 <= Fraction(s) < 1.0
  {
    if s != "" {
      FractionBounds(s[1..]);
    }
  }

  lemma {:induction false} LeadingZero(s: string)
    requires AllDigits(s)
    ensures Whole("0" + s) == Whole(s)
  {
    var t := "0" + s;
    if s == "" {
      assert t[..0] == "";
    } else {
      assert t[..|t| - 1] == "0" + s[..|s| - 1];
      LeadingZero(s[..|s| - 1]);
    }
  }

  lemma {:induction false} TrailingZero(s: string)
    requires AllDigits(s)
    ensures Fraction(s + "0") == Fraction(s)
  {
    if s == "" {
      assert (s + "0")[1..] == "";
    } else {
      assert (s + "0")[1..] == s[1..] + "0";
      TrailingZero(s[1..]);
    }
  }

  /** No leading zero, except for zero itself. */
  predicate Lean(w: string) {
    w != "" && AllDigits(w) && (w == "0" || w[0] != '0')
  }

  /** No trailing zero. */
  predicate Tight(f: string) {
    AllDigits(f) && (f == "" || f[|f| - 1] != '0')
  }

  lemma {:induction false} TrimStartKeeps(s: string)
    requires AllDigits(s)
    ensures AllDigits(TrimStart(s)) && Whole(TrimStart(s)) == Whole(s)
    ensures TrimStart(s) == "" || Lean(TrimStart(s))
  {
    if s != "" && s[0] == '0' {
      TrimStartKeeps(s[1..]);
      LeadingZero(s[1..]);
      assert s == "0" + s[1..];
    }
  }

  lemma {:induction false} TrimEndKeeps(s: string)
    requires AllDigits(s)
    ensures Tight(TrimEnd(s)) && Fraction(TrimEnd(s)) == Fraction(s)
  {
    if s != "" && s[|s| - 1] == '0' {
      TrimEndKeeps(s[..|s| - 1]);
      TrailingZero(s[..|s| - 1]);
      assert s == s[..|s| - 1] + "0";
    }
  }

  // ------------------------------------------------------ one string per value

  function Shown(n: nat): string {
    if n < 10 then [(('0' as nat) + n) as char] else Shown(n / 10) + [(('0' as nat) + n % 10) as char]
  }

  lemma {:induction false} ShownReads(n: nat)
    ensures AllDigits(Shown(n)) && Whole(Shown(n)) == n && Lean(Shown(n))
  {
    if n >= 10 {
      ShownReads(n / 10);
      assert Shown(n)[..|Shown(n)| - 1] == Shown(n / 10);
      assert Shown(n)[0] == Shown(n / 10)[0];
      assert Shown(n / 10) != "0";
    } else {
      assert Shown(n)[..0] == "";
    }
  }

  lemma ShownAppend(n: nat, c: char)
    requires n > 0 && IsDigit(c)
    ensures Shown(10 * n + Digit(c)) == Shown(n) + [c]
  {
    var m := 10 * n + Digit(c);
    assert m / 10 == n && m % 10 == Digit(c);
  }

  /** A digit string without leading zeros is the usual notation of its number. */
  lemma {:induction false} LeanIsShown(w: string)
    requires Lean(w)
    ensures w == Shown(Whole(w))
    ensures w != "0" ==> Whole(w) > 0
  {
    hide Shown;
    var front, last := w[..|w| - 1], w[|w| - 1];
    assert w == front + [last];
    if |w| == 1 {
      OneDigit(last);
    } else {
      assert front[0] == w[0];
      LeanIsShown(front);
      ShownAppend(Whole(front), last);
    }
  }

  lemma OneDigit(c: char)
    requires IsDigit(c)
    ensures Whole([c]) == Digit(c) && Shown(Digit(c)) == [c]
  {
    assert [c][..0] == "";
  }

  lemma {:induction false} TightUnique(f: string, g: string)
    requires Tight(f) && Tight(g) && Fraction(f) == Fraction(g)
    ensures f == g
  {
    TightPositive(f);
    TightPositive(g);
    if f != "" && g != "" {
      FractionBounds(f[1..]);
      FractionBounds(g[1..]);
      assert Digit(f[0]) == Digit(g[0]);
      TightUnique(f[1..], g[1..]);
      assert f == [f[0]] + f[1..] && g == [g[0]] + g[1..];
    }
  }

  lemma {:induction false} TightPositive(f: string)
    requires Tight(f)
    ensures Fraction(f) == 0.0 <==> f == ""
  {
    if f != "" {
      FractionBounds(f[1..]);
      TightPositive(f[1..]);
    }
  }

  lemma {:induction false} SplitJoined(w: string, f: string)
    requires AllDigits(w) && AllDigits(f)
    ensures Split(w) == (w, "") && Split(w + "." + f) == (w, f)
  {
    if w == "" {
      assert w + "." + f == "." + f;
    } else {
      SplitJoined(w[1..], f);
      assert (w + "." + f)[1..] == w[1..] + "." + f;
      assert w == [w[0]] + w[1..];
    }
  }

  function Joined(w: string, f: string): string {
    if f == "" then w else w + "." + f
  }

  /** What an accepted entry becomes: a lean whole part and a tight fraction of the same value. */
  lemma ParseMeans(value: string) returns (w: string, f: string)
    requires ParseUsd(value).Ok?
    ensures Lean(w) && Tight(f) && ParseUsd(value).value == Joined(w, f)
    ensures Decimal(StripDollar(value), false) && Amount(StripDollar(value)) == Whole(w) as real + Fraction(f)
    ensures !(w == "0" && f == "")
  {
    var (whole, fraction) := Split(StripDollar(value));
    TrimStartKeeps(whole);
    TrimEndKeeps(fraction);
    w := if TrimStart(whole) == "" then "0" else TrimStart(whole);
    f := TrimEnd(fraction);
    ZeroIsZero();
  }

  lemma ZeroIsZero()
    ensures Whole("0") == 0
  {
    assert "0"[..0] == "";
  }

  lemma JoinedReads(w: string, f: string)
    requires Lean(w) && Tight(f)
    ensures Decimal(Joined(w, f), true) && Amount(Joined(w, f)) == Whole(w) as real + Fraction(f)
    ensures Split(Joined(w, f)) == (w, f) && StripDollar(Joined(w, f)) == Joined(w, f)
  {
    SplitJoined(w, f);
    assert Joined(w, f)[0] == w[0];
  }

  /** An entry is accepted exactly if it is a decimal above zero, and its value is preserved. */
  lemma ParseKeepsValue(value: string)
    ensures ParseUsd(value).Ok? <==> Decimal(StripDollar(value), false) && Amount(StripDollar(value)) > 0.0
    ensures ParseUsd(value).Ok? ==>
      Decimal(ParseUsd(value).value, true) && Amount(ParseUsd(value).value) == Amount(StripDollar(value))
  {
    var (whole, fraction) := Split(StripDollar(value));
    if AllDigits(whole) && AllDigits(fraction) {
      TrimStartKeeps(whole);
      TrimEndKeeps(fraction);
      FractionBounds(fraction);
      TightPositive(TrimEnd(fraction));
      ZeroIsZero();
      if TrimStart(whole) != "" {
        LeanIsShown(TrimStart(whole));
      }
    }
    if ParseUsd(value).Ok? {
      var w, f := ParseMeans(value);
      JoinedReads(w, f);
    }
  }

  /**
   * With or without one dollar sign before it, a decimal above zero is accepted and keeps its
   * value, and nothing else is accepted.
   */
  lemma EntryKeepsValue(digits: string)
    ensures ParseUsd("$" + digits).Ok? <==> Decimal(digits, false) && Amount(digits) > 0.0
    ensures ParseUsd("$" + digits).Ok? ==>
      Decimal(ParseUsd("$" + digits).value, true) && Amount(ParseUsd("$" + digits).value) == Amount(digits)
    ensures Decimal(digits, false) ==> ParseUsd(digits) == ParseUsd("$" + digits)
    ensures ParseUsd(digits).Ok? && !Decimal(digits, false) ==> digits != "" && digits[0] == '$'
  {
    assert ("$" + digits)[1..] == digits;
    ParseKeepsValue("$" + digits);
    ParseKeepsValue(digits);
    if digits != "" && digits[0] == '$' {
      DollarIsNoDigit(digits);
    }
  }

  lemma DollarIsNoDigit(s: string)
    requires s != "" && s[0] == '$'
    ensures !Decimal(s, false)
  {
    assert Split(s).0[0] == '$';
  }

  /** One entry, read by hand. */
  lemma EntryExample()
    ensures ParseUsd("$07.50") == Ok("7.5") && Decimal("7.5", true) && Amount("7.5") == 7.5
  {
    assert "$07.50"[1..] == "07" + "." + "50" && "7.5" == "7" + "." + "5";
    SplitJoined("07", "50");
    SplitJoined("7", "5");
    assert "07"[1..] == "7" && TrimStart("7") == "7" && TrimStart("07") == "7";
    assert "50"[..1] == "5" && TrimEnd("5") == "5" && TrimEnd("50") == "5";
    assert "7"[..0] == "" && Whole("7") == 7;
    assert "5"[1..] == "" && Fraction("") == 0.0 && Fraction("5") == 0.5;
  }

  /** Two accepted entries give the same string exactly if they denote the same amount. */
  lemma OneStringPerAmount(a: string, b: string)
    requires ParseUsd(a).Ok? && ParseUsd(b).Ok?
    ensures Decimal(StripDollar(a), false) && Decimal(StripDollar(b), false)
    ensures ParseUsd(a) == ParseUsd(b) <==> Amount(StripDollar(a)) == Amount(StripDollar(b))
  {
    ParseKeepsValue(a);
    ParseKeepsValue(b);
    if Amount(StripDollar(a)) == Amount(StripDollar(b)) {
      var w, f := ParseMeans(a);
      var v, g := ParseMeans(b);
      FractionBounds(f);
      FractionBounds(g);
      assert Whole(w) == Whole(v);
      LeanIsShown(w);
      LeanIsShown(v);
      TightUnique(f, g);
    }
  }

  /** What parsing returns, parsing leaves alone. */
  lemma ParsedIsFixed(value: string)
    requires ParseUsd(value).Ok?
    ensures ParseUsd(ParseUsd(value).value) == ParseUsd(value)
  {
    var s := ParseUsd(value).value;
    var w, f := ParseMeans(value);
    JoinedReads(w, f);
    ParseKeepsValue(value);
    ParseKeepsValue(s);
    OneStringPerAmount(s, value);
  }

  // ------------------------------------------------------------ cents, dollars

  const U128: nat := 0x1_0000_0000_0000_0000_0000_0000_0000_0000

  /** `format!("{fraction:0<3}")`. */
  function Pad(f: string): string
    decreases 3 - |f|
  {
    if |f| < 3 then Pad(f + "0") else f
  }

  function Checked(n: nat): Option<nat> {
    if n < U128 then Some(n) else None
  }

  /** `cents`. */
  function Cents(amount: string): Option<nat> {
    var (whole, fraction) := Split(amount);
    if whole == "" || !AllDigits(whole) || !AllDigits(fraction) then None
    else
      PadKeeps(fraction);
      var padded := Pad(fraction);
      var roundUp := if padded[2] >= '5' then 1 else 0;
      var dollars := Checked(Whole(whole));
      if dollars.None? || Checked(dollars.value * 100).None? then None
      else Checked(dollars.value * 100 + (Whole(padded[..2]) + roundUp))
  }

  /** The amount in cents, rounded half up. */
  function HalfUp(amount: real): int {
    (amount * 100.0 + 0.5).Floor
  }

  lemma {:induction false} PadKeeps(f: string)
    requires AllDigits(f)
    ensures AllDigits(Pad(f)) && |Pad(f)| >= 3 && Fraction(Pad(f)) == Fraction(f)
    decreases 3 - |f|
  {
    if |f| < 3 {
      TrailingZero(f);
      PadKeeps(f + "0");
    }
  }

  lemma TwoDigits(p: string)
    requires AllDigits(p) && |p| >= 3
    ensures Whole(p[..2]) == 10 * Digit(p[0]) + Digit(p[1])
    ensures Fraction(p) * 100.0 == (10 * Digit(p[0]) + Digit(p[1])) as real + Fraction(p[2..])
    ensures Fraction(p[2..]) * 10.0 == Digit(p[2]) as real + Fraction(p[3..])
  {
    assert p[..2][..1] == [p[0]];
    OneDigit(p[0]);
    assert p[1..][1..] == p[2..] && p[2..][1..] == p[3..];
    assert Fraction(p) * 10.0 == Digit(p[0]) as real + Fraction(p[1..]);
    assert Fraction(p[1..]) * 10.0 == Digit(p[1]) as real + Fraction(p[2..]);
  }

  lemma RoundsHalfUp(n: nat, p: string)
    requires AllDigits(p) && |p| >= 3
    ensures HalfUp(n as real + Fraction(p)) == 100 * n + Whole(p[..2]) + (if p[2] >= '5' then 1 else 0)
  {
    TwoDigits(p);
    FractionBounds(p[3..]);
    var base := 100 * n + Whole(p[..2]);
    var scaled := (n as real + Fraction(p)) * 100.0;
    assert scaled == base as real + Fraction(p[2..]);
    if p[2] >= '5' {
      assert 0.5 <= Fraction(p[2..]) < 1.0;
    } else {
      assert Digit(p[2]) <= 4;
      assert 0.0 <= Fraction(p[2..]) < 0.5;
    }
  }

  /** `cents` is the value rounded half up, for every decimal whose cents fit 128 bits, and only those. */
  lemma CentsAreHalfUp(amount: string)
    ensures Cents(amount) == (if Decimal(amount, true) && HalfUp(Amount(amount)) < U128
      then Some(HalfUp(Amount(amount))) else None)
  {
    if Decimal(amount, true) {
      var (whole, fraction) := Split(amount);
      PadKeeps(fraction);
      RoundsHalfUp(Whole(whole), Pad(fraction));
    }
  }

  /** `dollars`, for amounts that `cents` reads; others are shown as they are. */
  function DollarsOf(cents: nat): string {
    Shown(cents / 100) + "." + (if cents % 100 < 10 then "0" + Shown(cents % 100) else Shown(cents % 100))
  }

  lemma PadTwo(n: nat)
    requires n < 100
    ensures var s := if n < 10 then "0" + Shown(n) else Shown(n);
      AllDigits(s) && |s| == 2 && Fraction(s) * 100.0 == n as real
  {
    var s := if n < 10 then "0" + Shown(n) else Shown(n);
    ShownReads(n);
    if n < 10 {
    } else {
      assert Shown(n / 10) == [(('0' as nat) + n / 10) as char];
    }
    assert Digit(s[0]) == n / 10 && Digit(s[1]) == n % 10;
    assert s[1..][1..] == "";
    assert Fraction(s[1..]) * 10.0 == Digit(s[1]) as real;
    assert Fraction(s) * 10.0 == Digit(s[0]) as real + Fraction(s[1..]);
  }

  /** What is shown reads back as exactly those cents. */
  lemma DollarsReadBack(cents: nat)
    requires cents < U128
    ensures Decimal(DollarsOf(cents), true)
    ensures Amount(DollarsOf(cents)) * 100.0 == cents as real
    ensures Cents(DollarsOf(cents)) == Some(cents)
  {
    var w, f := Shown(cents / 100), if cents % 100 < 10 then "0" + Shown(cents % 100) else Shown(cents % 100);
    ShownReads(cents / 100);
    PadTwo(cents % 100);
    SplitJoined(w, f);
    assert Amount(DollarsOf(cents)) * 100.0 == (100 * (cents / 100)) as real + (cents % 100) as real;
    CentsAreHalfUp(DollarsOf(cents));
  }

  /** `dollars`: cents if the amount is a decimal that fits, and otherwise the amount made printable. */
  function Dollars(amount: string, printable: string -> string): string {
    var cents := Cents(amount);
    if cents.Some? then DollarsOf(cents.value) else printable(amount)
  }

  /** Every decimal that fits is shown as its value rounded half up, and shown again as the same. */
  lemma DollarsShowHalfUp(amount: string, printable: string -> string)
    requires Decimal(amount, true) && HalfUp(Amount(amount)) < U128
    ensures HalfUp(Amount(amount)) >= 0
    ensures var shown := Dollars(amount, printable);
      && shown == DollarsOf(HalfUp(Amount(amount)))
      && Decimal(shown, true)
      && Amount(shown) * 100.0 == HalfUp(Amount(amount)) as real
      && Dollars(shown, printable) == shown
  {
    CentsAreHalfUp(amount);
    DollarsReadBack(Cents(amount).value);
  }

  /** What a user enters is shown as its own value, rounded half up. */
  lemma EnteredIsShown(value: string, printable: string -> string)
    requires Decimal(StripDollar(value), false) && Amount(StripDollar(value)) > 0.0
    requires HalfUp(Amount(StripDollar(value))) < U128
    ensures ParseUsd(value).Ok?
    ensures var shown := Dollars(ParseUsd(value).value, printable);
      Decimal(shown, true) && Amount(shown) * 100.0 == HalfUp(Amount(StripDollar(value))) as real
  {
    ParseKeepsValue(value);
    DollarsShowHalfUp(ParseUsd(value).value, printable);
  }
}
