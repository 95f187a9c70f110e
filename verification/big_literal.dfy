/**
 * The integer literals Go's `new(big.Int).SetString(s, 0)` accepts, and the
 * value it gives them. Both clients call it on a block identifier
 * (client/jsonrpcClient.go:33, client/jsonrpc_client.go:58) and the caching
 * client on a block's `number` field (client/jsonrpc_client.go:43, :104).
 *
 * With base 0 the literal is: an optional sign '+' or '-'; then either a base
 * prefix "0x"/"0X" (hexadecimal), "0b"/"0B" (binary), "0o"/"0O" or a lone "0"
 * (octal) followed by digits of that base, or else decimal digits. A single
 * '_' may stand between a prefix and a digit or between two digits. The whole
 * string must be consumed.
 */
module BigLiteral {
  import opened Wrappers
  import opened Numerals

  predicate IsDigitOf(c: char, base: nat) { DigitValue(c) < base }

  /** `u` with its '_' separators removed. */
  function StripSeparators(u: string): (d: string)
    ensures |d| <= |u|
    ensures forall i :: 0 <= i < |d| ==> d[i] != '_'
  {
    if u == [] then [] else (if u[0] == '_' then [] else [u[0]]) + StripSeparators(u[1..])
  }

  /**
   * Separators are well placed: each '_' follows a digit, or the base prefix
   * when there is one, and the text does not end in '_'.
   */
  predicate SeparatorsOk(u: string, prefixed: bool)
  {
    && (forall i :: 0 <= i < |u| && u[i] == '_' ==> if i == 0 then prefixed else u[i - 1] != '_')
    && (|u| > 0 ==> u[|u| - 1] != '_')
  }

  /**
   * The digits after the prefix (or the whole literal when there is none):
   * digits of the base and well-placed separators, with at least one digit.
   */
  function ParseBody(u: string, base: nat, prefixed: bool): Option<nat>
  {
    if (forall i :: 0 <= i < |u| ==> u[i] == '_' || IsDigitOf(u[i], base))
       && SeparatorsOk(u, prefixed) && |StripSeparators(u)| > 0
    then Some(Value(StripSeparators(u), base))
    else None
  }

  /** An unsigned literal: the part after the optional sign. */
  function ParseMagnitude(t: string): Option<nat>
  {
    if |t| == 0 then None
    else if t[0] != '0' then ParseBody(t, 10, false)
    else if |t| == 1 then Some(0)
    else if t[1] == 'x' || t[1] == 'X' then ParseBody(t[2..], 16, true)
    else if t[1] == 'b' || t[1] == 'B' then ParseBody(t[2..], 2, true)
    else if t[1] == 'o' || t[1] == 'O' then ParseBody(t[2..], 8, true)
    else ParseBody(t[1..], 8, true)
  }

  /** `new(big.Int).SetString(s, 0)`: the value, or None where Go reports `ok == false`. */
  function SetString(s: string): (r: Option<int>)
    ensures s == [] ==> r == None
    ensures r.Some? && r.value < 0 ==> s[0] == '-'
  {
    if |s| > 0 && (s[0] == '+' || s[0] == '-') then
      match ParseMagnitude(s[1..])
      case None => None
      case Some(m) => var v: int := if s[0] == '-' then -(m as int) else m; Some(v)
    else
      match ParseMagnitude(s)
      case None => None
      case Some(m) => var v: int := m; Some(v)
  }

  predicate Accepts(s: string) { SetString(s).Some? }

  lemma {:induction false} StripNoSeparators(u: string)
    requires forall i :: 0 <= i < |u| ==> u[i] != '_'
    ensures StripSeparators(u) == u
  {
    if u != [] {
      StripNoSeparators(u[1..]);
    }
  }

  /**
   * The canonical form the handler produces, "0x" and `%x` digits, is accepted
   * and read back as the number printed.
   */
  lemma SetStringCanonicalHex(n: nat)
    ensures SetString("0x" + HexLower(n)) == Some(n)
  {
    var h := HexLower(n);
    HexLowerRoundTrip(n);
    StripNoSeparators(h);
    var s := "0x" + h;
    assert s[1..][0] == 'x';
    assert s[2..] == h;
    assert forall i :: 0 <= i < |h| ==> IsDigitOf(h[i], 16);
  }

  /** A `%d` string is accepted as the decimal number printed. */
  lemma SetStringDecimal(n: nat)
    ensures SetString(Decimal(n)) == Some(n)
  {
    var d := Decimal(n);
    DecimalRoundTrip(n);
    StripNoSeparators(d);
    assert forall i :: 0 <= i < |d| ==> IsDigitOf(d[i], 10);
    if d[0] == '0' {
      assert |d| == 1;
      assert Value(d, 10) == 0 by { assert d[..0] == []; }
    }
  }

  /** "ff" is not an integer literal: bare hex digits need the "0x" prefix. */
  lemma BareHexRejected()
    ensures !Accepts("ff")
  {
    assert !IsDigitOf("ff"[0], 10);
  }

  /** "-1" is accepted: a sign is part of the syntax. */
  lemma NegativeAccepted()
    ensures SetString("-1") == Some(-1)
  {
    var t := "-1"[1..];
    assert t == "1";
    StripNoSeparators(t);
    assert Value(t, 10) == 1 by { assert t[..0] == []; }
  }

  /** "0xff" and "255" denote the same number. */
  lemma HexAndDecimalAgree()
    ensures SetString("0xff") == SetString("255") == Some(255)
  {
    assert HexLower(255) == "ff" by { assert HexLower(15) == "f"; }
    SetStringCanonicalHex(255);
    assert Decimal(255) == "255" by { assert Decimal(25) == "25"; }
    SetStringDecimal(255);
  }

  /** `SetString` rejects "0_": the lone-"0" prefix does not excuse a trailing separator. */
  lemma ZeroSeparatorRejected()
    ensures SetString("0_") == None
  {
    assert "0_"[1..] == "_";
  }

  /** A literal ending in '_' is rejected, whatever comes before it. */
  lemma TrailingSeparatorRejected(s: string)
    requires |s| > 0 && s[|s| - 1] == '_'
    ensures SetString(s) == None
  {
    var t := if s[0] == '+' || s[0] == '-' then s[1..] else s;
    assert t == [] || t[|t| - 1] == '_';
    if |t| >= 2 {
      assert t[2..] == [] || t[2..][|t[2..]| - 1] == '_';
      assert t[1..][|t[1..]| - 1] == '_';
    }
  }

  // Go's scanner, character by character. `ParseMagnitude` states the
  // grammar as a whole; what follows is the left-to-right loop of `nat.scan`
  // in math/big with base 0, and `ScanMatchesGrammar` proves the two agree.

  /** What the scanner remembers about the character before the current one. */
  datatype Prev = DigitBefore | SeparatorBefore | OtherBefore

  /** The loop's variables: `prev`, `invalSep`, the digit count and the value so far. */
  datatype ScanState = ScanState(prev: Prev, invalSep: bool, count: nat, value: nat)

  /**
   * The digit loop: a '_' is a separator, flagged invalid unless it follows a
   * digit; a digit of `base` is counted and accumulated; any other character
   * stops the loop and is left unread. Returns the final state and the
   * unread rest of the input.
   */
  function ScanDigits(u: string, base: nat, st: ScanState): (r: (ScanState, string))
    ensures |r.1| <= |u|
    ensures r.0.count >= st.count
  {
    if u == [] then (st, [])
    else if u[0] == '_' then
      ScanDigits(u[1..], base, st.(prev := SeparatorBefore, invalSep := st.invalSep || st.prev != DigitBefore))
    else if IsDigitOf(u[0], base) then
      ScanDigits(u[1..], base, ScanState(DigitBefore, st.invalSep, st.count + 1, st.value * base + DigitValue(u[0])))
    else (st, u)
  }

  /**
   * The end of `nat.scan` and `SetString`'s end-of-input check: no digit is an
   * error except after the lone "0" prefix, which reads as 0; a misplaced or
   * trailing separator is an error; unread input is an error.
   */
  function ScanResult(r: (ScanState, string), zeroPrefix: bool): Option<nat>
  {
    var st := r.0;
    if st.count == 0 && !zeroPrefix then None
    else if st.invalSep || st.prev == SeparatorBefore || r.1 != [] then None
    else if st.count == 0 then Some(0)
    else Some(st.value)
  }

  /**
   * The scan of the text after the sign: a leading '0' sets `prev` to a digit
   * and picks the base from the next character; otherwise the base is 10 and
   * nothing precedes the first character.
   */
  function ScanMagnitude(t: string): Option<nat>
  {
    var afterZero := ScanState(DigitBefore, false, 0, 0);
    if t == [] then None
    else if t[0] != '0' then ScanResult(ScanDigits(t, 10, ScanState(OtherBefore, false, 0, 0)), false)
    else if |t| == 1 then ScanResult((ScanState(DigitBefore, false, 1, 0), []), false)
    else if t[1] == 'x' || t[1] == 'X' then ScanResult(ScanDigits(t[2..], 16, afterZero), false)
    else if t[1] == 'b' || t[1] == 'B' then ScanResult(ScanDigits(t[2..], 2, afterZero), false)
    else if t[1] == 'o' || t[1] == 'O' then ScanResult(ScanDigits(t[2..], 8, afterZero), false)
    else ScanResult(ScanDigits(t[1..], 8, afterZero), true)
  }

  predicate DigitsOrSeparators(u: string, base: nat)
  {
    forall i :: 0 <= i < |u| ==> u[i] == '_' || IsDigitOf(u[i], base)
  }

  /** The character before position `i` of `u` is a digit; `p` is the kind of the one before `u`. */
  predicate DigitBeforeAt(u: string, i: nat, p: Prev)
    requires i < |u|
  {
    if i == 0 then p == DigitBefore else u[i - 1] != '_'
  }

  /** The separators of `u` are well placed when the character before `u` is of kind `p`. */
  predicate SeparatorsOkAfter(u: string, p: Prev)
  {
    && (forall i :: 0 <= i < |u| && u[i] == '_' ==> DigitBeforeAt(u, i, p))
    && (if |u| == 0 then p != SeparatorBefore else u[|u| - 1] != '_')
  }

  lemma SeparatorsOkStep(u: string, p: Prev)
    requires |u| > 0
    ensures SeparatorsOkAfter(u, p) <==>
      (u[0] == '_' ==> p == DigitBefore)
      && SeparatorsOkAfter(u[1..], if u[0] == '_' then SeparatorBefore else DigitBefore)
  {
    var t := u[1..];
    var q := if u[0] == '_' then SeparatorBefore else DigitBefore;
    assert |t| == 0 ==> (q != SeparatorBefore <==> u[|u| - 1] != '_');
    assert |t| > 0 ==> t[|t| - 1] == u[|u| - 1];
    if SeparatorsOkAfter(u, p) {
      forall j | 0 <= j < |t| && t[j] == '_'
        ensures DigitBeforeAt(t, j, q)
      {
        assert u[j + 1] == '_';
        assert DigitBeforeAt(u, j + 1, p);
      }
      assert u[0] == '_' ==> DigitBeforeAt(u, 0, p);
      assert SeparatorsOkAfter(t, q);
    }
    if (u[0] == '_' ==> p == DigitBefore) && SeparatorsOkAfter(t, q) {
      forall i | 0 <= i < |u| && u[i] == '_'
        ensures DigitBeforeAt(u, i, p)
      {
        if i > 0 {
          assert t[i - 1] == '_';
          assert DigitBeforeAt(t, i - 1, q);
        }
      }
      assert u[|u| - 1] != '_';
      assert SeparatorsOkAfter(u, p);
    }
  }

  lemma DigitsOrSeparatorsStep(u: string, base: nat)
    requires |u| > 0
    ensures DigitsOrSeparators(u, base) <==>
      (u[0] == '_' || IsDigitOf(u[0], base)) && DigitsOrSeparators(u[1..], base)
  {
    var t := u[1..];
    if DigitsOrSeparators(u, base) {
      forall j | 0 <= j < |t| ensures t[j] == '_' || IsDigitOf(t[j], base) {
        assert t[j] == u[j + 1];
      }
    }
    if (u[0] == '_' || IsDigitOf(u[0], base)) && DigitsOrSeparators(t, base) {
      forall i | 0 <= i < |u| ensures u[i] == '_' || IsDigitOf(u[i], base) {
        if i > 0 { assert u[i] == t[i - 1]; }
      }
    }
  }

  lemma {:induction false} StripEmpty(u: string)
    requires |StripSeparators(u)| == 0
    ensures forall i :: 0 <= i < |u| ==> u[i] == '_'
  {
    if u != [] {
      StripEmpty(u[1..]);
      forall i | 0 <= i < |u| ensures u[i] == '_' {
        if i > 0 { assert u[i] == u[1..][i - 1]; }
      }
    }
  }

  /** The digit loop reads all of `u` exactly when `u` holds only digits of the base and separators. */
  lemma {:induction false} ScanReadsAll(u: string, base: nat, st: ScanState)
    ensures ScanDigits(u, base, st).1 == [] <==> DigitsOrSeparators(u, base)
  {
    if u != [] {
      DigitsOrSeparatorsStep(u, base);
      if u[0] == '_' {
        ScanReadsAll(u[1..], base, st.(prev := SeparatorBefore, invalSep := st.invalSep || st.prev != DigitBefore));
      } else if IsDigitOf(u[0], base) {
        ScanReadsAll(u[1..], base, ScanState(DigitBefore, st.invalSep, st.count + 1, st.value * base + DigitValue(u[0])));
      }
    }
  }

  /**
   * On digits and separators, the digit loop counts the digits and reads them
   * as a number, continuing from the digits `d` already read.
   */
  lemma {:induction false} ScanReadsValue(u: string, base: nat, st: ScanState, d: string)
    requires DigitsOrSeparators(u, base)
    requires st.value == Value(d, base)
    ensures ScanDigits(u, base, st).0.count == st.count + |StripSeparators(u)|
    ensures ScanDigits(u, base, st).0.value == Value(d + StripSeparators(u), base)
  {
    if u == [] {
      assert d + StripSeparators(u) == d;
    } else {
      var t := u[1..];
      DigitsOrSeparatorsStep(u, base);
      if u[0] == '_' {
        assert StripSeparators(u) == StripSeparators(t);
        ScanReadsValue(t, base, st.(prev := SeparatorBefore, invalSep := st.invalSep || st.prev != DigitBefore), d);
      } else {
        var next := ScanState(DigitBefore, st.invalSep, st.count + 1, st.value * base + DigitValue(u[0]));
        assert ScanDigits(u, base, st) == ScanDigits(t, base, next);
        assert StripSeparators(u) == [u[0]] + StripSeparators(t);
        ValueSnoc(d, u[0], base);
        ScanReadsValue(t, base, next, d + [u[0]]);
        assert d + [u[0]] + StripSeparators(t) == d + StripSeparators(u);
      }
    }
  }

  /**
   * On digits and separators, the loop ends with a separator error (a flagged
   * '_' or a trailing one) exactly when the separators are misplaced.
   */
  lemma {:induction false} ScanFlagsSeparators(u: string, base: nat, st: ScanState)
    requires DigitsOrSeparators(u, base)
    ensures var r := ScanDigits(u, base, st).0;
      (r.invalSep || r.prev == SeparatorBefore) <==> (st.invalSep || !SeparatorsOkAfter(u, st.prev))
  {
    if u != [] {
      DigitsOrSeparatorsStep(u, base);
      SeparatorsOkStep(u, st.prev);
      if u[0] == '_' {
        ScanFlagsSeparators(u[1..], base, st.(prev := SeparatorBefore, invalSep := st.invalSep || st.prev != DigitBefore));
      } else {
        ScanFlagsSeparators(u[1..], base, ScanState(DigitBefore, st.invalSep, st.count + 1, st.value * base + DigitValue(u[0])));
      }
    }
  }

  /** The scan of a body after its prefix gives what the grammar gives. */
  lemma BodyScan(u: string, base: nat, prefixed: bool, zeroPrefix: bool)
    requires zeroPrefix ==> |u| > 0 && prefixed
    ensures ScanResult(ScanDigits(u, base, ScanState(if prefixed then DigitBefore else OtherBefore, false, 0, 0)), zeroPrefix)
         == ParseBody(u, base, prefixed)
  {
    var p := if prefixed then DigitBefore else OtherBefore;
    var st := ScanState(p, false, 0, 0);
    ScanReadsAll(u, base, st);
    if DigitsOrSeparators(u, base) {
      ScanReadsValue(u, base, st, []);
      ScanFlagsSeparators(u, base, st);
    }
    assert [] + StripSeparators(u) == StripSeparators(u);
    assert SeparatorsOkAfter(u, p) == SeparatorsOk(u, prefixed);
    if DigitsOrSeparators(u, base) && |StripSeparators(u)| == 0 && zeroPrefix {
      StripEmpty(u);
    }
  }

  /**
   * Go's character-by-character scan and the grammar agree on every text:
   * the same literals are accepted, with the same value.
   */
  lemma ScanMatchesGrammar(t: string)
    ensures ScanMagnitude(t) == ParseMagnitude(t)
  {
    if t != [] && t[0] != '0' {
      BodyScan(t, 10, false, false);
    } else if |t| > 1 {
      if t[1] == 'x' || t[1] == 'X' {
        BodyScan(t[2..], 16, true, false);
      } else if t[1] == 'b' || t[1] == 'B' {
        BodyScan(t[2..], 2, true, false);
      } else if t[1] == 'o' || t[1] == 'O' {
        BodyScan(t[2..], 8, true, false);
      } else {
        BodyScan(t[1..], 8, true, true);
      }
    }
  }
}
