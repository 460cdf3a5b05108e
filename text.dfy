/** The pieces of Python's `str` and `int` that the bot relies on:
    `str.isspace`, `str.strip`, `str.split()[0]`, `int(text)`, `str(n)`,
    left-justified formatting (`f"{x:<w}"`) and string accumulation. */
module Text {
  import opened Wrappers

  /** `c.isspace()` in Python 3: the ASCII controls 9-13 and 28-31, the space,
      and the Unicode space separators. */
  predicate IsSpace(c: char)
  {
    c == ' ' || '\t' <= c <= '\r' || '\U{1C}' <= c <= '\U{1F}' || c == '\U{85}' || c == '\U{A0}'
    || c == '\U{1680}' || '\U{2000}' <= c <= '\U{200A}' || c == '\U{2028}' || c == '\U{2029}'
    || c == '\U{202F}' || c == '\U{205F}' || c == '\U{3000}'
  }

  predicate IsDigit(c: char)
  {
    '0' <= c <= '9'
  }

  predicate AllDigits(s: string)
  {
    forall i :: 0 <= i < |s| ==> IsDigit(s[i])
  }

  /** `s.lstrip()`: the suffix of `s` left after its leading whitespace. */
  function TrimStart(s: string): (r: string)
    ensures |r| <= |s| && r == s[|s| - |r|..]
    ensures forall i :: 0 <= i < |s| - |r| ==> IsSpace(s[i])
    ensures r == [] || !IsSpace(r[0])
  {
    if |s| > 0 && IsSpace(s[0]) then TrimStart(s[1..]) else s
  }

  /** `s.rstrip()`: the prefix of `s` left before its trailing whitespace. */
  function TrimEnd(s: string): (r: string)
    ensures |r| <= |s| && r == s[..|r|]
    ensures forall i :: |r| <= i < |s| ==> IsSpace(s[i])
    ensures r == [] || !IsSpace(r[|r| - 1])
  {
    if |s| > 0 && IsSpace(s[|s| - 1]) then TrimEnd(s[..|s| - 1]) else s
  }

  /** `s.strip()`. */
  function Strip(s: string): string
  {
    TrimEnd(TrimStart(s))
  }

  /** Length of the run of non-whitespace characters that starts `s`. */
  function TokenLength(s: string): (n: nat)
    ensures n <= |s|
    ensures forall i :: 0 <= i < n ==> !IsSpace(s[i])
    ensures n == |s| || IsSpace(s[n])
  {
    if |s| == 0 || IsSpace(s[0]) then 0 else 1 + TokenLength(s[1..])
  }

  /** `s.split()[0]`, or None where Python's list would be empty and the
      index would raise: a token exists exactly when the text has a
      non-space character, and it is a non-empty run of them. */
  function FirstToken(s: string): (r: Option<string>)
    ensures r.None? <==> forall i :: 0 <= i < |s| ==> IsSpace(s[i])
    ensures r.Some? ==> |r.value| > 0 && forall i :: 0 <= i < |r.value| ==> !IsSpace(r.value[i])
  {
    if |s| == 0 then None
    else if IsSpace(s[0]) then FirstToken(s[1..])
    else Some(s[..TokenLength(s)])
  }

  /** The token is a maximal run of non-space characters, preceded in the
      text only by whitespace: it starts at `k`, after `k` spaces. */
  lemma {:induction false} FirstTokenShape(s: string, tok: string, k: nat)
    requires FirstToken(s) == Some(tok) && k == |s| - |TrimStart(s)|
    ensures |tok| > 0 && k + |tok| <= |s|
    ensures forall i :: 0 <= i < |tok| ==> !IsSpace(tok[i])
    ensures forall i :: 0 <= i < k ==> IsSpace(s[i])
    ensures s[k..k + |tok|] == tok
    ensures k + |tok| == |s| || IsSpace(s[k + |tok|])
  {
    var t := TrimStart(s);
    FirstTokenOfTrimmed(s);
    TokenInSuffix(s, t, k, tok);
  }

  /** The first token is the token that starts the text left after its
      leading whitespace. */
  lemma {:induction false} FirstTokenOfTrimmed(s: string)
    ensures var t := TrimStart(s);
            FirstToken(s) == if t == [] then None else Some(t[..TokenLength(t)])
  {
    if |s| > 0 && IsSpace(s[0]) {
      FirstTokenOfTrimmed(s[1..]);
    }
  }

  /** The run of non-space characters that starts the suffix `t` of `s`
      at `k` sits at `k` in `s`, and ends at a space or at the end. */
  lemma {:induction false} TokenInSuffix(s: string, t: string, k: nat, tok: string)
    requires k + |t| == |s| && t == s[k..] && t != [] && !IsSpace(t[0])
    requires tok == t[..TokenLength(t)]
    ensures |tok| > 0 && k + |tok| <= |s|
    ensures forall i :: 0 <= i < |tok| ==> !IsSpace(tok[i])
    ensures s[k..k + |tok|] == tok
    ensures k + |tok| == |s| || IsSpace(s[k + |tok|])
  {
    var n := TokenLength(t);
    if k + n < |s| {
      assert s[k + n] == t[n];
    }
  }

  function DigitChar(d: nat): (c: char)
    requires d < 10
    ensures IsDigit(c)
  {
    (('0' as int) + d) as char
  }

  function DigitValue(c: char): (d: nat)
    requires IsDigit(c)
    ensures d < 10
  {
    (c as int) - ('0' as int)
  }

  /** `str(n)` for a non-negative int: its decimal digits, most significant first. */
  function NatToString(n: nat): (s: string)
    ensures |s| > 0
  {
    if n < 10 then [DigitChar(n)] else NatToString(n / 10) + [DigitChar(n % 10)]
  }

  /** `str(i)` for any int. */
  function IntToString(i: int): (s: string)
    ensures |s| > 0
  {
    if i < 0 then "-" + NatToString(-i) else NatToString(i)
  }

  /** `str(n)` is all digits, without a leading zero unless `n` is 0. */
  lemma {:induction false} NatToStringDigits(n: nat)
    ensures AllDigits(NatToString(n))
    ensures n >= 10 ==> NatToString(n)[0] != '0'
  {
    if n >= 10 {
      NatToStringDigits(n / 10);
    }
  }

  /** `str(i)` starts with a minus sign exactly when `i` is negative, and
      is otherwise made of digits. */
  lemma {:induction false} IntToStringSign(i: int)
    ensures IsDigit(IntToString(i)[|IntToString(i)| - 1])
    ensures i < 0 <==> IntToString(i)[0] == '-'
    ensures i >= 0 ==> AllDigits(IntToString(i))
  {
    if i < 0 {
      NatToStringDigits(-i);
      assert IntToString(i)[|IntToString(i)| - 1] == NatToString(-i)[|NatToString(-i)| - 1];
    } else {
      NatToStringDigits(i);
    }
  }

  /** The value of a string of decimal digits. */
  function DigitsValue(s: string): nat
    requires AllDigits(s)
  {
    if |s| == 0 then 0 else DigitsValue(s[..|s| - 1]) * 10 + DigitValue(s[|s| - 1])
  }

  /** The digit groups `int()` accepts: digits, with single underscores
      allowed between two digits (PEP 515). */
  predicate DigitGroups(s: string)
  {
    && |s| > 0
    && (forall i :: 0 <= i < |s| ==> IsDigit(s[i]) || s[i] == '_')
    && (forall i :: 0 <= i < |s| && s[i] == '_' ==> 0 < i < |s| - 1 && IsDigit(s[i - 1]) && IsDigit(s[i + 1]))
  }

  function RemoveUnderscores(s: string): (r: string)
    requires forall i :: 0 <= i < |s| ==> IsDigit(s[i]) || s[i] == '_'
    ensures AllDigits(r)
  {
    if |s| == 0 then ""
    else if s[0] == '_' then RemoveUnderscores(s[1..])
    else [s[0]] + RemoveUnderscores(s[1..])
  }

  /** The magnitude `int()` reads from unsigned digit groups. */
  function ParseMagnitude(body: string): Option<nat>
  {
    if DigitGroups(body) then Some(DigitsValue(RemoveUnderscores(body))) else None
  }

  /** One optional sign, then the magnitude. */
  function ParseSigned(t: string): Option<int>
  {
    if |t| > 0 && t[0] == '-' then
      match ParseMagnitude(t[1..])
      case None => None
      case Some(m) => Some(0 - m)
    else if |t| > 0 && t[0] == '+' then
      match ParseMagnitude(t[1..])
      case None => None
      case Some(m) => Some(m)
    else
      match ParseMagnitude(t)
      case None => None
      case Some(m) => Some(m)
  }

  /** `int(s)` for base 10: surrounding whitespace is ignored, then one
      optional sign and digit groups; None stands for the ValueError. */
  function ParseInt(s: string): (r: Option<int>)
    ensures NoDigit(s) ==> r == None
  {
    StrippedNeedsADigit(s);
    ParseSigned(Strip(s))
  }

  lemma {:induction false} RemoveUnderscoresOfDigits(s: string)
    requires AllDigits(s)
    ensures RemoveUnderscores(s) == s
  {
    if |s| > 0 {
      RemoveUnderscoresOfDigits(s[1..]);
    }
  }

  lemma {:induction false} DigitsValueOfNatToString(n: nat)
    ensures AllDigits(NatToString(n)) && DigitsValue(NatToString(n)) == n
  {
    NatToStringDigits(n);
    if n >= 10 {
      var s := NatToString(n);
      DigitsValueOfNatToString(n / 10);
      assert s[..|s| - 1] == NatToString(n / 10);
    }
  }

  /** Text that neither starts nor ends with whitespace is its own strip. */
  lemma {:induction false} StripUnchanged(s: string)
    requires |s| > 0 && !IsSpace(s[0]) && !IsSpace(s[|s| - 1])
    ensures Strip(s) == s
  {
    assert TrimStart(s) == s;
  }

  lemma {:induction false} ParseMagnitudeOfNatToString(n: nat)
    ensures ParseMagnitude(NatToString(n)) == Some(n)
  {
    var body := NatToString(n);
    NatToStringDigits(n);
    assert DigitGroups(body);
    RemoveUnderscoresOfDigits(body);
    DigitsValueOfNatToString(n);
  }

  /** `int(str(i)) == i`: the decimal rendering is read back unchanged. */
  lemma {:induction false} ParseIntOfIntToString(i: int)
    ensures ParseInt(IntToString(i)) == Some(i)
  {
    var s := IntToString(i);
    IntToStringSign(i);
    assert !IsSpace(s[0]) && !IsSpace(s[|s| - 1]) by {
      assert s[0] == '-' || IsDigit(s[0]);
      assert IsDigit(s[|s| - 1]);
    }
    StripUnchanged(s);
    if i < 0 {
      ParseMagnitudeOfNatToString(-i);
      assert s[1..] == NatToString(-i);
    } else {
      ParseMagnitudeOfNatToString(i);
      assert IsDigit(s[0]);
    }
  }

  predicate NoDigit(s: string)
  {
    forall i :: 0 <= i < |s| ==> !IsDigit(s[i])
  }

  lemma {:induction false} ParseMagnitudeNeedsADigit(body: string)
    requires NoDigit(body)
    ensures ParseMagnitude(body) == None
  {
    if |body| > 0 {
      assert !IsDigit(body[0]);
    }
  }

  /** `int()` refuses text that holds no digit at all, the empty text
      included: stripping adds no digit, and neither a sign nor digit groups
      can be read without one. */
  lemma {:induction false} StrippedNeedsADigit(s: string)
    ensures NoDigit(s) ==> ParseSigned(Strip(s)) == None
  {
    if NoDigit(s) {
      StripKeepsNoDigit(s);
      ParseSignedNeedsADigit(Strip(s));
    }
  }

  /** Stripping only removes characters, so it adds no digit. */
  lemma StripKeepsNoDigit(s: string)
    requires NoDigit(s)
    ensures NoDigit(Strip(s))
  {
    var u := TrimStart(s);
    assert u == s[|s| - |u|..];
    var t := TrimEnd(u);
    assert t == u[..|t|];
  }

  /** A sign followed by no digit, or no digit at all, does not parse. */
  lemma ParseSignedNeedsADigit(t: string)
    requires NoDigit(t)
    ensures ParseSigned(t) == None
  {
    if |t| > 0 {
      assert NoDigit(t[1..]);
      ParseMagnitudeNeedsADigit(t[1..]);
    }
    ParseMagnitudeNeedsADigit(t);
  }

  /** `f"{s:<width}"`: `s` padded on the right with spaces up to `width`. */
  function PadRight(s: string, width: nat): string
  {
    if |s| < width then s + Spaces(width - |s|) else s
  }

  function Spaces(n: nat): string
  {
    if n == 0 then "" else Spaces(n - 1) + " "
  }

  lemma {:induction false} SpacesShape(n: nat)
    ensures |Spaces(n)| == n && forall i :: 0 <= i < n ==> Spaces(n)[i] == ' '
  {
    if n > 0 {
      SpacesShape(n - 1);
    }
  }

  /** Padding keeps the text as its prefix, is at least `width` long and
      adds only spaces. */
  lemma {:induction false} PadRightShape(s: string, width: nat)
    ensures |PadRight(s, width)| == if |s| < width then width else |s|
    ensures forall i :: 0 <= i < |s| ==> PadRight(s, width)[i] == s[i]
    ensures forall i :: |s| <= i < |PadRight(s, width)| ==> PadRight(s, width)[i] == ' '
  {
    if |s| < width {
      SpacesShape(width - |s|);
    }
  }

  /** The text obtained by appending the parts one after the other, as a
      loop doing `text += part` builds it. */
  function Concat(parts: seq<string>): string
  {
    if parts == [] then "" else parts[0] + Concat(parts[1..])
  }

  lemma {:induction false} ConcatAppend(a: seq<string>, b: seq<string>)
    ensures Concat(a + b) == Concat(a) + Concat(b)
  {
    if a != [] {
      assert (a + b)[1..] == a[1..] + b;
      ConcatAppend(a[1..], b);
    } else {
      assert a + b == b;
    }
  }

  /** Accumulating the parts one at a time: the first `i + 1` parts join to
      the first `i` followed by part `i`. */
  lemma {:induction false} ConcatPrefixStep(parts: seq<string>, i: nat)
    requires i < |parts|
    ensures Concat(parts[..i + 1]) == Concat(parts[..i]) + parts[i]
    ensures i == 0 ==> Concat(parts[..1]) == parts[0]
  {
    assert parts[..i + 1] == parts[..i] + [parts[i]];
    ConcatAppend(parts[..i], [parts[i]]);
    assert Concat([parts[i]]) == parts[i] + Concat([]);
  }
}
