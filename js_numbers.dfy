/** The two number/string conversions the pages rely on: the global `parseInt(string)` with no
    radix (the home page's request bodies) and the decimal text of a non-negative integer (how
    JSX renders a count). */
module JsNumbers {
  import opened JsValues

  /** The characters `parseInt` skips at the start: ECMAScript's WhiteSpace and LineTerminator. */
  predicate IsJsSpace(c: char) {
    || c == '\t' || c == '\U{b}' || c == '\U{c}' || c == ' ' || c == '\U{a0}' || c == '\U{feff}'
    || c == '\n' || c == '\r' || c == '\U{2028}' || c == '\U{2029}'
    || c == '\U{1680}' || ('\U{2000}' <= c <= '\U{200a}') || c == '\U{202f}' || c == '\U{205f}' || c == '\U{3000}'
  }

  function TrimStart(s: string): (r: string)
    ensures |r| <= |s| && r == s[|s| - |r|..]
    ensures r == [] || !IsJsSpace(r[0])
  {
    if s != [] && IsJsSpace(s[0]) then TrimStart(s[1..]) else s
  }

  /** The value of `c` as a digit in `radix` (10 or 16), or -1 when it is not one. */
  function DigitValue(c: char, radix: nat): (d: int)
    ensures -1 <= d < radix || (radix < 10 && d < 10) || (radix < 16 && d < 16)
  {
    if '0' <= c <= '9' && (c as int - '0' as int) < radix then c as int - '0' as int
    else if radix == 16 && 'a' <= c <= 'f' then c as int - 'a' as int + 10
    else if radix == 16 && 'A' <= c <= 'F' then c as int - 'A' as int + 10
    else -1
  }

  predicate IsDigit(c: char, radix: nat) {
    DigitValue(c, radix) >= 0
  }

  /** Length of the longest prefix of `s` made of `radix` digits. */
  function DigitRun(s: string, radix: nat): (n: nat)
    ensures n <= |s|
    ensures forall i :: 0 <= i < n ==> IsDigit(s[i], radix)
    ensures n < |s| ==> !IsDigit(s[n], radix)
  {
    if s != [] && IsDigit(s[0], radix) then 1 + DigitRun(s[1..], radix) else 0
  }

  /** The number a string of `radix` digits denotes, most significant digit first. */
  function DigitsValue(ds: string, radix: nat): nat
    requires forall i :: 0 <= i < |ds| ==> IsDigit(ds[i], radix)
  {
    if ds == [] then 0
    else
      var init := ds[..|ds| - 1];
      assert forall i :: 0 <= i < |init| ==> init[i] == ds[i];
      var d := DigitValue(ds[|ds| - 1], radix);
      assert d >= 0 by { assert IsDigit(ds[|ds| - 1], radix); }
      var high: nat := DigitsValue(init, radix) * radix;
      high + d
  }

  /** The unsigned part of `parseInt`: a "0x" or "0X" prefix switches to hexadecimal, and the
      longest run of digits that follows is the value; None (NaN) when that run is empty. */
  function ParseMagnitude(u: string): (r: Option<nat>)
  {
    var hex := |u| >= 2 && u[0] == '0' && (u[1] == 'x' || u[1] == 'X');
    var radix := if hex then 16 else 10;
    var v := if hex then u[2..] else u;
    var n := DigitRun(v, radix);
    if n == 0 then None else Some(DigitsValue(v[..n], radix))
  }

  /** `t` without its leading sign, if it has one. */
  function Unsigned(t: string): string {
    if t != [] && (t[0] == '-' || t[0] == '+') then t[1..] else t
  }

  /** `parseInt(s)`, with None for NaN: leading whitespace is skipped and one sign is read
      before the magnitude. */
  function ParseInt(s: string): (r: Option<int>)
    // NaN exactly when no digit follows the whitespace, the sign and the "0x" prefix
    ensures var u := Unsigned(TrimStart(s));
      r.None? <==>
        if |u| >= 2 && u[0] == '0' && (u[1] == 'x' || u[1] == 'X') then |u| == 2 || !IsDigit(u[2], 16)
        else u == [] || !IsDigit(u[0], 10)
    // only a leading minus gives a negative result
    ensures r.Some? && r.value < 0 ==> TrimStart(s) != [] && TrimStart(s)[0] == '-'
  {
    var t := TrimStart(s);
    var negative := t != [] && t[0] == '-';
    var u := Unsigned(t);
    match ParseMagnitude(u)
    case None => None
    case Some(m) => Some(if negative then -(m as int) else m as int)
  }

  /** The least magnitude that rounding to an IEEE 754 double (to nearest, ties to even) turns
      into an infinity: 2^1024 - 2^970, the largest finite double plus half a unit in its last
      place. */
  const DoubleOverflow: nat := 0xfffffffffffffc00000000000000000000000000000000000000000000000000000000000000000000000000000000000000000000000000000000000000000000000000000000000000000000000000000000000000000000000000000000000000000000000000000000000000000000000000000000000000000000000000

  /** `parseInt(s)` gives a finite number: not NaN, and not beyond the double range, where the
      result is Infinity or -Infinity. */
  predicate ParsesFinite(s: string) {
    ParseInt(s).Some? && -(DoubleOverflow as int) < ParseInt(s).value < DoubleOverflow
  }

  /** The character of a decimal digit. */
  function DigitChar(d: nat): (c: char)
    requires d < 10
    ensures DigitValue(c, 10) == d
  {
    ('0' as int + d) as char
  }

  /** The decimal text of `n`, as `String(n)` gives it for a non-negative integer. */
  function ShowNat(n: nat): (s: string)
    ensures s != []
    ensures forall i :: 0 <= i < |s| ==> IsDigit(s[i], 10)
    ensures |s| > 1 ==> s[0] != '0'
  {
    if n < 10 then [DigitChar(n)] else ShowNat(n / 10) + [DigitChar(n % 10)]
  }

  lemma {:induction false} ShowNatValue(n: nat)
    ensures DigitsValue(ShowNat(n), 10) == n
  {
    var s := ShowNat(n);
    if n >= 10 {
      ShowNatValue(n / 10);
      assert s[..|s| - 1] == ShowNat(n / 10);
    }
  }

  /** `parseInt` reads back the decimal text of a number, and stops at the first character that
      cannot continue it (so "2025.5" and "1e3" read as 2025 and 1). */
  lemma ParseIntShowNat(n: nat, rest: string)
    // an "x" after the text "0" would make it a hexadecimal prefix
    requires rest == [] || (!IsDigit(rest[0], 10) && (n == 0 ==> rest[0] != 'x' && rest[0] != 'X'))
    ensures ParseInt(ShowNat(n) + rest) == Some(n)
  {
    ShowNatValue(n);
    ShowNatZero(n);
    var text := ShowNat(n);
    assert (text + rest)[0] == text[0];
    ParseIntDigitFirst(text + rest);
    ParseMagnitudeDecimal(text, rest);
  }

  lemma ShowNatZero(n: nat)
    ensures ShowNat(n) == "0" <==> n == 0
  {
    if n < 10 {
      assert ShowNat(n)[0] == DigitChar(n);
    }
  }

  /** A string that starts with a digit has no whitespace or sign for `parseInt` to skip. */
  lemma ParseIntDigitFirst(s: string)
    requires s != [] && IsDigit(s[0], 10)
    ensures ParseInt(s) == ParseMagnitude(s)
  {
    assert !IsJsSpace(s[0]) && s[0] != '-' && s[0] != '+';
    assert TrimStart(s) == s;
    assert Unsigned(s) == s;
  }

  lemma ParseMagnitudeDecimal(text: string, rest: string)
    requires text != [] && (|text| > 1 ==> text[0] != '0')
    requires forall i :: 0 <= i < |text| ==> IsDigit(text[i], 10)
    requires rest == [] || (!IsDigit(rest[0], 10) && (text == "0" ==> rest[0] != 'x' && rest[0] != 'X'))
    ensures ParseMagnitude(text + rest) == Some(DigitsValue(text, 10))
  {
    var s := text + rest;
    assert !(|s| >= 2 && s[0] == '0' && (s[1] == 'x' || s[1] == 'X')) by {
      if |text| > 1 {
        assert s[1] == text[1] && IsDigit(text[1], 10);
      } else if rest != [] {
        assert s[1] == rest[0];
        if text[0] == '0' {
          assert text == "0";
        }
      }
    }
    DigitRunPrefix(text, rest);
    assert s[..|text|] == text;
  }

  lemma {:induction false} DigitRunPrefix(text: string, rest: string)
    requires forall i :: 0 <= i < |text| ==> IsDigit(text[i], 10)
    requires rest == [] || !IsDigit(rest[0], 10)
    ensures DigitRun(text + rest, 10) == |text|
  {
    if text != [] {
      assert (text + rest)[0] == text[0];
      assert (text + rest)[1..] == text[1..] + rest;
      DigitRunPrefix(text[1..], rest);
    } else {
      assert text + rest == rest;
    }
  }

  /** An empty string, or one with no digits after the sign, parses to NaN. */
  lemma ParseIntNaN()
    ensures ParseInt("") == None
    ensures ParseInt("-") == None
    ensures ParseInt("abc") == None
  {
    ParseIntEmpty();
    ParseIntSignOnly();
    ParseIntLetters();
  }

  lemma ParseIntEmpty()
    ensures ParseInt("") == None
  {
    assert TrimStart("") == "";
    assert DigitRun("", 10) == 0;
  }

  lemma ParseIntSignOnly()
    ensures ParseInt("-") == None
  {
    assert TrimStart("-") == "-" by { assert !IsJsSpace('-'); }
    assert "-"[1..] == "";
    assert DigitRun("", 10) == 0;
  }

  lemma ParseIntLetters()
    ensures ParseInt("abc") == None
  {
    assert TrimStart("abc") == "abc" by { assert !IsJsSpace('a'); }
    assert DigitRun("abc", 10) == 0 by { assert !IsDigit('a', 10); }
  }
}

/** next-auth sessions as the pages receive them, and the access gate the protected pages share. */
module Sessions {
  import opened JsValues

  datatype User = User(name: Option<string>, email: Option<string>)

  /** A session: its user (the jwt callback copies no user data, so it may be missing) and
      the backend token the session callback copies into `accessToken` (undefined when the
      sign-in did not produce one). */
  datatype Session = Session(user: Option<User>, accessToken: Option<string>)

  datatype Provider = Provider(id: string, name: string)

  /** What a page's `getServerSideProps` returns. */
  datatype ServerSideProps =
    | Redirect(destination: string, permanent: bool)
    | SessionProps(session: Session)
    | ProvidersProps(providers: seq<Provider>)

  /** The built-in next-auth sign-in route the home, models and support pages redirect to. */
  const ApiSignInPath := "/api/auth/signin"

  /** The gate of a protected page: no session means a temporary redirect and no props;
      a session is handed to the page. */
  function RequireSession(session: Option<Session>, signInPath: string): (r: ServerSideProps)
    ensures r.Redirect? <==> session.None?
    ensures session.None? ==> r == Redirect(signInPath, false)
    ensures session.Some? ==> r == SessionProps(session.value)
  {
    match session
    case None => Redirect(signInPath, false)
    case Some(s) => SessionProps(s)
  }
}
