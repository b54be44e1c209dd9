/**
 * The Java string operations the directions generator relies on, with their
 * Java edge cases: concatenating a null reference prints "null",
 * Integer.parseInt accepts an optional sign and rejects anything out of the
 * 32-bit range, String.replace replaces every non-overlapping occurrence from
 * left to right (and, for an empty target, inserts the replacement around every
 * character), and split("\n")[0] keeps the text before the first line break.
 */
module JavaText {
  import opened Wrappers

  const IntMin: int := -0x8000_0000
  const IntMax: int := 0x7fff_ffff

  /** The text that string concatenation produces for a possibly-null string. */
  function JavaStr(s: Option<string>): string
  {
    if s.Some? then s.value else "null"
  }

  /** String.startsWith. */
  predicate StartsWith(s: string, prefix: string)
  {
    |prefix| <= |s| && s[..|prefix|] == prefix
  }

  /** String.endsWith. */
  predicate EndsWith(s: string, suffix: string)
  {
    |suffix| <= |s| && s[|s| - |suffix|..] == suffix
  }

  lemma Affixes(x: string, y: string)
    ensures StartsWith(x + y, x) && EndsWith(x + y, y)
  {
    assert (x + y)[..|x|] == x;
    assert (x + y)[|x|..] == y;
  }

  /** An ASCII decimal digit, the only digits Integer.toString prints. */
  predicate IsDigit(c: char)
  {
    '0' <= c <= '9'
  }

  predicate AllDigits(s: string)
  {
    forall i :: 0 <= i < |s| ==> IsDigit(s[i])
  }

  function DigitValue(c: char): nat
    requires IsDigit(c)
  {
    (c as int) - ('0' as int)
  }

  function DigitChar(d: nat): (c: char)
    requires d < 10
    ensures IsDigit(c) && DigitValue(c) == d
  {
    ('0' as int + d) as char
  }

  type Digit = d: nat | d < 10

  /**
   * Character.digit(c, 10): the value of c as a decimal digit of any script
   * (the Unicode tables belong to the platform, so the caller supplies them),
   * or None where Java returns -1.
   */
  type DigitTable = char -> Option<Digit>

  /** The platform's table reads '0'..'9' as their ASCII values. */
  predicate AsciiAgrees(digit: DigitTable)
  {
    forall c :: IsDigit(c) ==> digit(c) == Some(DigitValue(c))
  }

  predicate AllDigitsIn(s: string, digit: DigitTable)
  {
    forall i :: 0 <= i < |s| ==> digit(s[i]).Some?
  }

  /** The number a string of decimal digits denotes, read most significant digit first. */
  function DigitsValue(s: string, digit: DigitTable): nat
    requires AllDigitsIn(s, digit)
  {
    if s == [] then 0 else DigitsValue(s[..|s| - 1], digit) * 10 + digit(s[|s| - 1]).value
  }

  /** Integer.toString for a non-negative int: decimal digits, no leading zero. */
  function NatToString(n: nat): (r: string)
    ensures |r| > 0 && AllDigits(r)
    ensures r[0] != '0' || n == 0
    ensures n < 10 <==> |r| == 1
  {
    if n < 10 then [DigitChar(n)] else NatToString(n / 10) + [DigitChar(n % 10)]
  }

  /**
   * Integer.parseInt in radix 10: None where Java throws NumberFormatException
   * (empty text, a first character below '0' other than a sign, a lone sign, a
   * character that is not a decimal digit, a value outside the 32-bit range).
   */
  function ParseInt(s: string, digit: DigitTable): (r: Option<int>)
    ensures r.Some? ==> IntMin <= r.value <= IntMax
    ensures r.Some? ==> |s| > 0 && AllDigitsIn(if s[0] == '-' || s[0] == '+' then s[1..] else s, digit)
  {
    if |s| == 0 then None
    else if s[0] < '0' then
      if s[0] != '-' && s[0] != '+' then None
      else if |s| == 1 || !AllDigitsIn(s[1..], digit) then None
      else
        var v: int := if s[0] == '-' then 0 - (DigitsValue(s[1..], digit) as int) else DigitsValue(s[1..], digit);
        if IntMin <= v <= IntMax then Some(v) else None
    else if !AllDigitsIn(s, digit) then None
    else if DigitsValue(s, digit) <= IntMax then Some(DigitsValue(s, digit))
    else None
  }

  lemma {:induction false} DigitsValueOfNatToString(n: nat, digit: DigitTable)
    requires AsciiAgrees(digit)
    ensures AllDigitsIn(NatToString(n), digit) && DigitsValue(NatToString(n), digit) == n
  {
    var s := NatToString(n);
    forall i | 0 <= i < |s|
      ensures digit(s[i]).Some?
    {
      assert IsDigit(s[i]);
    }
    if n >= 10 {
      var p := NatToString(n / 10);
      assert s == p + [DigitChar(n % 10)];
      assert s[..|s| - 1] == p;
      DigitsValueOfNatToString(n / 10, digit);
    }
  }

  /** Parsing the decimal text of an int gives the int back. */
  lemma ParseIntOfNatToString(n: nat, digit: DigitTable)
    requires AsciiAgrees(digit) && n <= IntMax
    ensures ParseInt(NatToString(n), digit) == Some(n)
  {
    DigitsValueOfNatToString(n, digit);
  }

  /** Unsigned text made of decimal digits of any script parses to the number they denote, when it fits. */
  lemma ParseIntAccepts(s: string, digit: DigitTable)
    requires |s| > 0 && s[0] >= '0' && AllDigitsIn(s, digit) && DigitsValue(s, digit) <= IntMax
    ensures ParseInt(s, digit) == Some(DigitsValue(s, digit))
  {
  }

  /** A sign followed by decimal digits parses to the signed number, when it fits. */
  lemma ParseIntAcceptsSigned(s: string, digit: DigitTable)
    requires |s| > 1 && (s[0] == '-' || s[0] == '+') && AllDigitsIn(s[1..], digit)
    requires IntMin <= (if s[0] == '-' then 0 - DigitsValue(s[1..], digit) else DigitsValue(s[1..], digit)) <= IntMax
    ensures ParseInt(s, digit) == Some(if s[0] == '-' then 0 - DigitsValue(s[1..], digit) else DigitsValue(s[1..], digit))
  {
  }

  /** The empty text and a lone sign do not parse. */
  lemma ParseIntRejectsShort(s: string, digit: DigitTable)
    requires s == [] || s == "-" || s == "+"
    ensures ParseInt(s, digit) == None
  {
  }

  /** Text with a character other than a decimal digit (after an optional sign) does not parse. */
  lemma ParseIntRejectsNonDigit(s: string, i: nat, digit: DigitTable)
    requires 0 < i < |s| || (i == 0 < |s| && s[0] != '-' && s[0] != '+')
    requires digit(s[i]).None?
    ensures ParseInt(s, digit) == None
  {
    if s[0] == '-' || s[0] == '+' {
      assert s[1..][i - 1] == s[i];
    }
  }

  /** Digits whose value exceeds the 32-bit range do not parse, in any script. */
  lemma ParseIntRejectsLarge(s: string, digit: DigitTable)
    requires |s| > 0 && s[0] >= '0' && AllDigitsIn(s, digit) && DigitsValue(s, digit) > IntMax
    ensures ParseInt(s, digit) == None
  {
  }

  /** Whether target occurs in s (target non-empty). */
  predicate Occurs(s: string, target: string)
    requires |target| > 0
    decreases |s|
  {
    |target| <= |s| && (s[..|target|] == target || Occurs(s[1..], target))
  }

  /** The replacement before, between and after all characters of s. */
  function InsertAround(s: string, replacement: string): string
  {
    if s == [] then replacement else replacement + [s[0]] + InsertAround(s[1..], replacement)
  }

  /** String.replace(target, replacement). */
  function ReplaceAll(s: string, target: string, replacement: string): string
  {
    if |target| == 0 then InsertAround(s, replacement) else ReplaceEach(s, target, replacement)
  }

  /** String.replace for a non-empty target: every occurrence, left to right, without overlap. */
  function ReplaceEach(s: string, target: string, replacement: string): string
    requires |target| > 0
    decreases |s|
  {
    if |s| < |target| then s
    else if s[..|target|] == target then replacement + ReplaceEach(s[|target|..], target, replacement)
    else [s[0]] + ReplaceEach(s[1..], target, replacement)
  }

  lemma {:induction false} InsertAroundEmpty(s: string)
    ensures InsertAround(s, []) == s
  {
    if s != [] {
      InsertAroundEmpty(s[1..]);
    }
  }

  /** Replacing a string by itself changes nothing. */
  lemma ReplaceAllSelf(s: string, target: string)
    ensures ReplaceAll(s, target, target) == s
    decreases |s|
  {
    if |target| == 0 {
      InsertAroundEmpty(s);
    } else {
      ReplaceEachSelf(s, target);
    }
  }

  lemma {:induction false} ReplaceEachSelf(s: string, target: string)
    requires |target| > 0
    ensures ReplaceEach(s, target, target) == s
    decreases |s|
  {
    if |s| < |target| {
    } else if s[..|target|] == target {
      ReplaceEachSelf(s[|target|..], target);
      assert s == s[..|target|] + s[|target|..];
    } else {
      ReplaceEachSelf(s[1..], target);
      assert s == [s[0]] + s[1..];
    }
  }

  /** Text in which the target does not occur is returned unchanged. */
  lemma ReplaceAllAbsent(s: string, target: string, replacement: string)
    requires |target| > 0 && !Occurs(s, target)
    ensures ReplaceAll(s, target, replacement) == s
    decreases |s|
  {
    ReplaceEachAbsent(s, target, replacement);
  }

  lemma {:induction false} ReplaceEachAbsent(s: string, target: string, replacement: string)
    requires |target| > 0 && !Occurs(s, target)
    ensures ReplaceEach(s, target, replacement) == s
    decreases |s|
  {
    if |s| >= |target| {
      ReplaceEachAbsent(s[1..], target, replacement);
      assert s == [s[0]] + s[1..];
    }
  }

  /** Text that is exactly the target becomes exactly the replacement. */
  lemma ReplaceAllWhole(target: string, replacement: string)
    requires |target| > 0
    ensures ReplaceAll(target, target, replacement) == replacement
  {
    assert target[|target|..] == [];
    assert ReplaceEach([], target, replacement) == [];
  }

  lemma ConsChain(whole: string, c: string, tail: string, p: string, r: string, x0: string, x: string, pre: string)
    requires whole == c + tail && tail == p + r + x0 && x0 == x && pre == c + p
    ensures whole == pre + r + x
  {
  }

  /** Text that does not start with the target keeps its first character. */
  lemma ReplaceEachSkip(s: string, target: string, replacement: string)
    requires |target| > 0 && |target| <= |s| && s[..|target|] != target
    ensures ReplaceEach(s, target, replacement) == [s[0]] + ReplaceEach(s[1..], target, replacement)
  {
  }

  /** Whether the target occurs in s starting at position k. */
  predicate MatchAt(s: string, target: string, k: nat)
  {
    k + |target| <= |s| && s[k..k + |target|] == target
  }

  /** A match one character into s is a match in the text after its first character. */
  lemma MatchAtTail(s: string, target: string, k: nat)
    requires |s| > 0
    ensures MatchAt(s, target, k + 1) == MatchAt(s[1..], target, k)
  {
    if k + 1 + |target| <= |s| {
      assert s[1..][k..k + |target|] == s[k + 1..k + 1 + |target|];
    }
  }

  /** No occurrence of the target starts before position i of s. */
  predicate NoMatchBefore(s: string, target: string, i: nat)
    decreases i
  {
    i == 0 || (|s| > 0 && !MatchAt(s, target, 0) && NoMatchBefore(s[1..], target, i - 1))
  }

  /**
   * When the first occurrence of the target in s starts at i, replace keeps
   * the text before i, puts the replacement in the target's place and goes on
   * after it.
   */
  lemma {:induction false} ReplaceEachFirstAt(s: string, i: nat, target: string, replacement: string)
    requires |target| > 0 && MatchAt(s, target, i) && NoMatchBefore(s, target, i)
    ensures ReplaceEach(s, target, replacement) == s[..i] + replacement + ReplaceEach(s[i + |target|..], target, replacement)
    decreases i
  {
    if i == 0 {
      ReplaceEachMatch(s, target, replacement);
    } else {
      MatchAtTail(s, target, i - 1);
      var j: nat := i - 1;
      ReplaceEachFirstAt(s[1..], j, target, replacement);
      FirstAtStep(s, i, j, target, replacement);
    }
  }

  /** The inductive step of ReplaceEachFirstAt, from its result on the text after the first character. */
  lemma FirstAtStep(s: string, i: nat, j: nat, target: string, replacement: string)
    requires |target| > 0 && 0 < i && j == i - 1 && MatchAt(s, target, i) && !MatchAt(s, target, 0)
    requires ReplaceEach(s[1..], target, replacement)
      == s[1..][..j] + replacement + ReplaceEach(s[1..][j + |target|..], target, replacement)
    ensures ReplaceEach(s, target, replacement) == s[..i] + replacement + ReplaceEach(s[i + |target|..], target, replacement)
  {
    StepSlices(s, i, j, target);
    ReplaceEachSkip(s, target, replacement);
    ConsChain(ReplaceEach(s, target, replacement), [s[0]], ReplaceEach(s[1..], target, replacement), s[1..][..j],
              replacement, ReplaceEach(s[1..][j + |target|..], target, replacement),
              ReplaceEach(s[i + |target|..], target, replacement), s[..i]);
  }

  /** Text that starts with the target: the replacement, then the rest replaced. */
  lemma ReplaceEachMatch(s: string, target: string, replacement: string)
    requires |target| > 0 && MatchAt(s, target, 0)
    ensures ReplaceEach(s, target, replacement) == s[..0] + replacement + ReplaceEach(s[|target|..], target, replacement)
  {
    assert s[..|target|] == s[0..0 + |target|];
  }

  /** The slices the inductive step of ReplaceEachFirstAt relates. */
  lemma StepSlices(s: string, i: nat, j: nat, target: string)
    requires 0 < i && j == i - 1 && MatchAt(s, target, i) && !MatchAt(s, target, 0)
    ensures |target| <= |s| && s[..|target|] != target
    ensures s[1..][j + |target|..] == s[i + |target|..]
    ensures s[..i] == [s[0]] + s[1..][..j]
  {
    assert s[..|target|] == s[0..0 + |target|];
    assert s[1..][j + |target|..] == s[i + |target|..];
    assert s[..i] == [s[0]] + s[1..][..j];
  }

  /** No occurrence starts inside a when the target does not occur in a followed by all but its last character. */
  lemma {:induction false} NoMatchBeforeTarget(a: string, target: string, b: string)
    requires |target| > 0 && !Occurs(a + target[..|target| - 1], target)
    ensures NoMatchBefore(a + target + b, target, |a|)
    decreases |a|
  {
    if a != [] {
      var n := |target|;
      var s := a + target + b;
      var w := a + target[..n - 1];
      assert s[..n] == w[..n] by {
        assert s == w + ([target[n - 1]] + b);
      }
      assert s[0..0 + n] == s[..n];
      assert w[1..] == a[1..] + target[..n - 1];
      NoMatchBeforeTarget(a[1..], target, b);
      assert s[1..] == a[1..] + target + b;
    }
  }

  /**
   * Text a + target + b in which the target does not start earlier becomes a,
   * the replacement, and b with its own occurrences replaced.
   */
  lemma ReplaceAllFirst(a: string, target: string, b: string, replacement: string)
    requires |target| > 0 && !Occurs(a + target[..|target| - 1], target)
    ensures ReplaceAll(a + target + b, target, replacement) == a + replacement + ReplaceAll(b, target, replacement)
  {
    var s := a + target + b;
    NoMatchBeforeTarget(a, target, b);
    assert s[|a|..|a| + |target|] == target;
    assert s[..|a|] == a && s[|a| + |target|..] == b;
    ReplaceEachFirstAt(s, |a|, target, replacement);
  }

  /** The text before the first line break (all of s when it has none). */
  function FirstLine(s: string): (r: string)
    ensures |r| <= |s| && r == s[..|r|]
    ensures forall i :: 0 <= i < |r| ==> r[i] != '\n'
    ensures |r| < |s| ==> s[|r|] == '\n'
  {
    if s == [] || s[0] == '\n' then [] else [s[0]] + FirstLine(s[1..])
  }

  /**
   * Whether split("\n")[0] is defined: Java drops trailing empty pieces, so a
   * non-empty text made only of line breaks splits into no pieces at all.
   */
  predicate HasFirstLine(s: string)
  {
    s == [] || exists i :: 0 <= i < |s| && s[i] != '\n'
  }
}
