/** The string operations the services share: Python's `str.strip`, ASCII lower-casing,
    the reference sanitiser `_safe_ref` and decimal rendering of a counter. */
module Text {

  /** The characters `str.strip()` removes. */
  predicate IsSpace(c: char) {
    || '\t' <= c <= '\r' || '\U{1C}' <= c <= ' ' || c == '\U{85}' || c == '\U{A0}' || c == '\U{1680}'
    || '\U{2000}' <= c <= '\U{200A}' || c == '\U{2028}' || c == '\U{2029}' || c == '\U{202F}'
    || c == '\U{205F}' || c == '\U{3000}'
  }

  predicate IsDash(c: char) { c == '-' }

  function DropLeft(p: char -> bool, s: string): string {
    if s != "" && p(s[0]) then DropLeft(p, s[1..]) else s
  }

  function DropRight(p: char -> bool, s: string): string {
    if s != "" && p(s[|s| - 1]) then DropRight(p, s[..|s| - 1]) else s
  }

  function Strip(s: string): string { DropRight(IsSpace, DropLeft(IsSpace, s)) }

  /** No character at either end satisfies `p`. */
  predicate Bare(p: char -> bool, s: string) {
    s == "" || (!p(s[0]) && !p(s[|s| - 1]))
  }

  predicate Trimmed(s: string) { Bare(IsSpace, s) }

  lemma {:induction false} DropLeftFacts(p: char -> bool, s: string)
    ensures var t := DropLeft(p, s); (t == "" || !p(t[0])) && |t| <= |s| && t == s[|s| - |t|..]
  {
    if s != "" && p(s[0]) {
      DropLeftFacts(p, s[1..]);
    }
  }

  lemma {:induction false} DropRightFacts(p: char -> bool, s: string)
    ensures var t := DropRight(p, s); (t == "" || !p(t[|t| - 1])) && |t| <= |s| && t == s[..|t|]
  {
    if s != "" && p(s[|s| - 1]) {
      DropRightFacts(p, s[..|s| - 1]);
    }
  }

  /** Stripping leaves nothing to strip, and leaves a trimmed string as it is. */
  lemma StripFacts(s: string)
    ensures Trimmed(Strip(s))
    ensures Trimmed(s) ==> Strip(s) == s
  {
    var t := DropLeft(IsSpace, s);
    DropLeftFacts(IsSpace, s);
    DropRightFacts(IsSpace, t);
  }

  lemma StripTwice(s: string)
    ensures Strip(Strip(s)) == Strip(s)
  {
    StripFacts(s);
    StripFacts(Strip(s));
  }

  /** The 29 characters `str.isspace()` is true of. */
  lemma SpacesListed(c: char)
    ensures IsSpace(c) <==>
            c in ['\t', '\n', '\U{0B}', '\U{0C}', '\r', '\U{1C}', '\U{1D}', '\U{1E}', '\U{1F}', ' ', '\U{85}', '\U{A0}',
                  '\U{1680}', '\U{2000}', '\U{2001}', '\U{2002}', '\U{2003}', '\U{2004}', '\U{2005}', '\U{2006}', '\U{2007}',
                  '\U{2008}', '\U{2009}', '\U{200A}', '\U{2028}', '\U{2029}', '\U{202F}', '\U{205F}', '\U{3000}']
  {
  }

  predicate All(p: char -> bool, s: string) { forall i :: 0 <= i < |s| ==> p(s[i]) }

  lemma {:induction false} DropLeftAll(p: char -> bool, a: string, t: string)
    requires All(p, a) && (t == "" || !p(t[0]))
    ensures DropLeft(p, a + t) == t
  {
    if a == "" {
      assert a + t == t;
    } else {
      assert (a + t)[1..] == a[1..] + t;
      DropLeftAll(p, a[1..], t);
    }
  }

  lemma {:induction false} DropRightAll(p: char -> bool, t: string, b: string)
    requires All(p, b) && (t == "" || !p(t[|t| - 1]))
    ensures DropRight(p, t + b) == t
  {
    if b == "" {
      assert t + b == t;
    } else {
      assert (t + b)[..|t + b| - 1] == t + b[..|b| - 1];
      DropRightAll(p, t, b[..|b| - 1]);
    }
  }

  /** Stripping takes the blanks around a trimmed text away, and nothing else. */
  lemma StripAround(a: string, t: string, b: string)
    requires All(IsSpace, a) && All(IsSpace, b) && Trimmed(t)
    ensures Strip(a + t + b) == t
  {
    if t == "" {
      assert a + t + b == a + b;
      assert (a + b) + "" == a + b && "" + "" == "";
      DropLeftAll(IsSpace, a + b, "");
    } else {
      assert a + t + b == a + (t + b);
      DropLeftAll(IsSpace, a, t + b);
      DropRightAll(IsSpace, t, b);
    }
  }

  function LowerChar(c: char): char {
    if 'A' <= c <= 'Z' then c - 'A' + 'a' else c
  }

  /** `str.lower()` on ASCII letters; every other character is left alone. */
  function Lower(s: string): (r: string)
    ensures |r| == |s|
    ensures forall i :: 0 <= i < |s| ==> r[i] == LowerChar(s[i])
  {
    if s == "" then "" else [LowerChar(s[0])] + Lower(s[1..])
  }

  const CAPITALS := "ABCDEFGHIJKLMNOPQRSTUVWXYZ"
  const SMALL_LETTERS := "abcdefghijklmnopqrstuvwxyz"

  /** Each of the 26 capitals becomes its small letter. */
  lemma LowerExactly(c: char)
    ensures forall i :: 0 <= i < 26 && CAPITALS[i] == c ==> LowerChar(c) == SMALL_LETTERS[i]
    ensures c !in CAPITALS ==> LowerChar(c) == c
  {
    CapitalsListed(c);
    var i := (c as int) - ('A' as int);
    if 0 <= i < 26 {
      LetterAt(i);
    }
    forall j | 0 <= j < 26 && CAPITALS[j] == c ensures LowerChar(c) == SMALL_LETTERS[j] {
      LetterAt(j);
    }
  }

  lemma LetterAt(i: nat)
    requires i < 26
    ensures CAPITALS[i] == 'A' + i as char && SMALL_LETTERS[i] == 'a' + i as char
  {
  }

  predicate WordChar(c: char) { 'a' <= c <= 'z' || '0' <= c <= '9' || c == '_' || c == '-' }

  predicate Word(s: string) { s != "" && forall i :: 0 <= i < |s| ==> WordChar(s[i]) }

  /** Normalising a plain word by stripping and lower-casing leaves it as it is. */
  lemma WordNormal(s: string)
    requires Word(s)
    ensures Strip(s) == s && Lower(s) == s
  {
    StripFacts(s);
  }

  function OrElse(s: string, default: string): string { if s != "" then s else default }

  // ---- reference sanitiser ----

  predicate RefChar(c: char) {
    || 'A' <= c <= 'Z' || 'a' <= c <= 'z' || '0' <= c <= '9' || c == '_' || c == '.' || c == ':' || c == '-'
  }

  predicate BadRefChar(c: char) { !RefChar(c) }

  /** Every maximal run of characters outside the allowed set becomes one dash. */
  function Collapse(s: string): string
    decreases |s|
  {
    if s == "" then ""
    else if RefChar(s[0]) then [s[0]] + Collapse(s[1..])
    else
      DropLeftFacts(BadRefChar, s);
      "-" + Collapse(DropLeft(BadRefChar, s))
  }

  function SafeRef(value: string): string {
    OrElse(DropRight(IsDash, DropLeft(IsDash, Collapse(Strip(value)))), "ticket")
  }

  const DIGITS := "0123456789"

  lemma CapitalsListed(c: char)
    ensures c in CAPITALS <==> 'A' <= c <= 'Z'
  {
    if 'A' <= c <= 'Z' {
      assert CAPITALS[(c - 'A') as int] == c;
    }
  }

  lemma SmallLettersListed(c: char)
    ensures c in SMALL_LETTERS <==> 'a' <= c <= 'z'
  {
    if 'a' <= c <= 'z' {
      assert SMALL_LETTERS[(c - 'a') as int] == c;
    }
  }

  lemma DigitsListed(c: char)
    ensures c in DIGITS <==> '0' <= c <= '9'
  {
    if '0' <= c <= '9' {
      assert DIGITS[(c - '0') as int] == c;
    }
  }

  lemma RefCharsListed(c: char)
    ensures RefChar(c) <==> c in CAPITALS || c in SMALL_LETTERS || c in DIGITS || c in {'_', '.', ':', '-'}
  {
    CapitalsListed(c);
    SmallLettersListed(c);
    DigitsListed(c);
  }

  predicate AllRefChars(s: string) { forall i :: 0 <= i < |s| ==> RefChar(s[i]) }

  lemma {:induction false} CollapseFacts(s: string)
    ensures AllRefChars(Collapse(s))
    ensures AllRefChars(s) ==> Collapse(s) == s
    decreases |s|
  {
    if s != "" {
      if RefChar(s[0]) {
        CollapseFacts(s[1..]);
      } else {
        DropLeftFacts(BadRefChar, s);
        CollapseFacts(DropLeft(BadRefChar, s));
      }
    }
  }

  /** A run of other characters becomes one dash; the text in front of it is kept. */
  lemma {:induction false} CollapseRun(a: string, run: string, b: string)
    requires AllRefChars(a) && run != "" && All(BadRefChar, run) && (b == "" || RefChar(b[0]))
    ensures Collapse(a + run + b) == a + "-" + Collapse(b)
  {
    var s := a + run + b;
    if a == "" {
      assert s == run + b;
      DropLeftAll(BadRefChar, run, b);
    } else {
      assert s[1..] == a[1..] + run + b;
      CollapseRun(a[1..], run, b);
      assert a == [a[0]] + a[1..];
      assert [a[0]] + (a[1..] + "-" + Collapse(b)) == a + "-" + Collapse(b);
    }
  }

  /** The reference of a text: its collapsed form without dashes at its ends, or "ticket" when nothing is left. */
  lemma SafeRefExactly(value: string, a: string, r: string, b: string)
    requires Collapse(Strip(value)) == a + r + b && All(IsDash, a) && All(IsDash, b) && Bare(IsDash, r)
    ensures SafeRef(value) == if r == "" then "ticket" else r
  {
    if r == "" {
      assert a + r + b == (a + b) + "" && "" + "" == "";
      DropLeftAll(IsDash, a + b, "");
    } else {
      assert a + r + b == a + (r + b);
      DropLeftAll(IsDash, a, r + b);
      DropRightAll(IsDash, r, b);
    }
  }

  lemma RefCharsTrimmed(s: string)
    requires AllRefChars(s)
    ensures Trimmed(s)
  {
  }

  /** A sanitised reference is a non-empty, trimmed word over the allowed characters that neither starts
      nor ends with a dash, and sanitising it again changes nothing. */
  lemma SafeRefFacts(value: string)
    ensures var r := SafeRef(value);
            r != "" && AllRefChars(r) && Trimmed(r) && Bare(IsDash, r) && SafeRef(r) == r
  {
    var c := Collapse(Strip(value));
    CollapseFacts(Strip(value));
    DropLeftFacts(IsDash, c);
    DropRightFacts(IsDash, DropLeft(IsDash, c));
    var r := SafeRef(value);
    assert AllRefChars(r);
    RefCharsTrimmed(r);
    StripFacts(r);
    CollapseFacts(r);
    DropLeftFacts(IsDash, r);
    DropRightFacts(IsDash, r);
  }

  // ---- decimal counters ----

  function Digit(d: nat): char
    requires d < 10
  {
    '0' + d as char
  }

  function Decimal(n: nat): string {
    if n < 10 then [Digit(n)] else Decimal(n / 10) + [Digit(n % 10)]
  }

  function Value(s: string): nat
    requires forall i :: 0 <= i < |s| ==> '0' <= s[i] <= '9'
  {
    if s == "" then 0 else Value(s[..|s| - 1]) * 10 + (s[|s| - 1] - '0') as nat
  }

  lemma {:induction false} DecimalFacts(n: nat)
    ensures Decimal(n) != "" && (n > 0 ==> Decimal(n)[0] != '0') && (n == 0 ==> Decimal(n) == "0")
    ensures forall i :: 0 <= i < |Decimal(n)| ==> '0' <= Decimal(n)[i] <= '9'
    ensures Value(Decimal(n)) == n
  {
    if n >= 10 {
      DecimalFacts(n / 10);
      assert Decimal(n)[..|Decimal(n)| - 1] == Decimal(n / 10);
    } else {
      assert Decimal(n)[..|Decimal(n)| - 1] == "";
    }
  }

  /** Whatever stands before the last dash, the counter after it can be read back. */
  lemma CounterReadable(a: string, m: nat, b: string, n: nat)
    requires a + "-" + Decimal(m) == b + "-" + Decimal(n)
    ensures m == n && a == b
  {
    DecimalFacts(m);
    DecimalFacts(n);
    var s, t := a + "-" + Decimal(m), b + "-" + Decimal(n);
    assert s[|a|] == '-' && t[|b|] == '-';
    if |a| != |b| {
      assert false;
    } else {
      assert Decimal(m) == s[|a| + 1..] == t[|b| + 1..] == Decimal(n);
      assert a == s[..|a|] == t[..|b|] == b;
    }
  }

  /** Nothing that starts with a non-space and ends with a non-space needs stripping. */
  lemma PrefixTrimmed(prefix: string, s: string)
    requires prefix != "" && !IsSpace(prefix[0]) && s != "" && Trimmed(s)
    ensures Trimmed(prefix + s) && Strip(prefix + s) == prefix + s
  {
    var t := prefix + s;
    assert t[0] == prefix[0] && t[|t| - 1] == s[|s| - 1];
    StripFacts(t);
  }
}
