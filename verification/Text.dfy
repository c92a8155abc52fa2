/** Text primitives shared by the models. A string is a sequence of Unicode code points. */
module Text {

  /** The code points Go's `unicode.IsSpace` accepts. */
  predicate IsSpace(c: char) {
    var u := c as int;
    9 <= u <= 13 || u == 0x20 || u == 0x85 || u == 0xA0 || u == 0x1680 || 0x2000 <= u <= 0x200A
    || u == 0x2028 || u == 0x2029 || u == 0x202F || u == 0x205F || u == 0x3000
  }

  predicate AllSpace(s: string) {
    forall i :: 0 <= i < |s| ==> IsSpace(s[i])
  }

  function TrimLeft(s: string): string {
    if s != "" && IsSpace(s[0]) then TrimLeft(s[1..]) else s
  }

  function TrimRight(s: string): string {
    if s != "" && IsSpace(s[|s| - 1]) then TrimRight(s[..|s| - 1]) else s
  }

  /** `strings.TrimSpace`. */
  function TrimSpace(s: string): string {
    TrimRight(TrimLeft(s))
  }

  lemma {:induction false} TrimLeftCuts(s: string)
    ensures var t := TrimLeft(s);
            |t| <= |s| && t == s[|s| - |t|..] && AllSpace(s[..|s| - |t|]) && (t != "" ==> !IsSpace(t[0]))
  {
    if s != "" && IsSpace(s[0]) {
      TrimLeftCuts(s[1..]);
    }
  }

  lemma {:induction false} TrimRightCuts(s: string)
    ensures var t := TrimRight(s);
            |t| <= |s| && t == s[..|t|] && AllSpace(s[|t|..]) && (t != "" ==> !IsSpace(t[|t| - 1]))
  {
    if s != "" && IsSpace(s[|s| - 1]) {
      var t := TrimRight(s);
      TrimRightCuts(s[..|s| - 1]);
      assert s[|t|..] == s[..|s| - 1][|t|..] + [s[|s| - 1]];
    }
  }

  lemma TrimSpaceEnds(s: string)
    ensures TrimSpace(s) != "" ==> !IsSpace(TrimSpace(s)[0]) && !IsSpace(TrimSpace(s)[|TrimSpace(s)| - 1])
  {
    TrimLeftCuts(s);
    TrimRightCuts(TrimLeft(s));
  }

  /** Trimming cuts one contiguous slice out, so what a substring search misses it still misses. */
  lemma TrimSpaceSlices(s: string)
    ensures exists lo: nat, hi: nat ::
              lo <= hi <= |s| && TrimSpace(s) == s[lo..hi] && AllSpace(s[..lo]) && AllSpace(s[hi..])
  {
    var l := TrimLeft(s);
    var t := TrimRight(l);
    TrimLeftCuts(s);
    TrimRightCuts(l);
    var lo := |s| - |l|;
    SliceOfSuffix(s, lo, |t|);
    assert TrimSpace(s) == s[lo..lo + |t|] && AllSpace(s[..lo]) && AllSpace(s[lo + |t|..]);
  }

  lemma SliceOfSuffix(s: string, lo: nat, n: nat)
    requires lo + n <= |s|
    ensures s[lo..][..n] == s[lo..lo + n] && s[lo..][n..] == s[lo + n..]
  {
  }

  lemma TrimSpaceIsIdentity(s: string)
    requires s != "" ==> !IsSpace(s[0]) && !IsSpace(s[|s| - 1])
    ensures TrimSpace(s) == s
  {
  }

  /** The bytes Go's `len` counts: the UTF-8 length of the text. */
  function Utf8Len(s: string): nat {
    if s == "" then 0 else RuneLen(s[0]) + Utf8Len(s[1..])
  }

  function RuneLen(c: char): nat {
    var u := c as int;
    if u < 0x80 then 1 else if u < 0x800 then 2 else if u < 0x10000 then 3 else 4
  }

  /** `strings.Join(parts, "")`. */
  function Concat(parts: seq<string>): string {
    if parts == [] then "" else parts[0] + Concat(parts[1..])
  }

  lemma {:induction false} ConcatAppend(a: seq<string>, b: seq<string>)
    ensures Concat(a + b) == Concat(a) + Concat(b)
  {
    if a == [] {
      assert a + b == b;
    } else {
      assert (a + b)[1..] == a[1..] + b;
      ConcatAppend(a[1..], b);
    }
  }

  lemma {:induction false} Utf8LenAppend(a: string, b: string)
    ensures Utf8Len(a + b) == Utf8Len(a) + Utf8Len(b)
  {
    if a == "" {
      assert a + b == b;
    } else {
      assert (a + b)[1..] == a[1..] + b;
      Utf8LenAppend(a[1..], b);
    }
  }

  /** One byte below 0x80, two below 0x800, three in the rest of the basic plane, four beyond. */
  lemma Utf8LenOfRune(c: char)
    ensures c <= '\U{7F}' ==> Utf8Len([c]) == 1
    ensures '\U{80}' <= c <= '\U{7FF}' ==> Utf8Len([c]) == 2
    ensures '\U{800}' <= c <= '\U{FFFF}' ==> Utf8Len([c]) == 3
    ensures '\U{10000}' <= c ==> Utf8Len([c]) == 4
  {
    assert [c][1..] == [];
  }

  /** The white space code points, one by one. */
  lemma SpacesAreExactly(c: char)
    ensures IsSpace(c)
       <==> c as int in {0x09, 0x0A, 0x0B, 0x0C, 0x0D, 0x20, 0x85, 0xA0, 0x1680, 0x2000, 0x2001, 0x2002, 0x2003, 0x2004,
                         0x2005, 0x2006, 0x2007, 0x2008, 0x2009, 0x200A, 0x2028, 0x2029, 0x202F, 0x205F, 0x3000}
  {
  }

  // ---- Decimal numbers ----

  function Digits(n: nat): string {
    if n < 10 then ['0' + n as char] else Digits(n / 10) + ['0' + (n % 10) as char]
  }

  /** `%d`. */
  function Decimal(n: int): string {
    if n < 0 then "-" + Digits(-n) else Digits(n)
  }

  lemma DigitsOf(n: nat)
    ensures n < 10 ==> Digits(n) == ['0' + n as char]
    ensures n >= 10 ==> Digits(n) == Digits(n / 10) + ['0' + (n % 10) as char]
  {
  }

  lemma DecimalExamples()
    ensures Decimal(0) == "0" && Decimal(7) == "7" && Decimal(10) == "10" && Decimal(205) == "205"
    ensures Decimal(-3) == "-3"
  {
    DigitsOf(10);
    DigitsOf(205);
    DigitsOf(20);
  }
}
