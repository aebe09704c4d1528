/**
 * The output file names of the generators, "{name} {StarCount}.csv" or
 * "{name} {StarCount} {number}.csv", with integers written in decimal as C#
 * string interpolation writes them (a leading '-' for negative values).
 */
module Text {
  import opened Wrappers

  predicate IsDigit(c: char) {
    '0' <= c <= '9'
  }

  function DigitChar(d: nat): (c: char)
    requires d < 10
    ensures IsDigit(c) && (c as int) - ('0' as int) == d
  {
    (('0' as int) + d) as char
  }

  /** The decimal digits of n, most significant first, without leading zeros. */
  function NatToString(n: nat): (s: string)
    ensures |s| > 0
    ensures forall i :: 0 <= i < |s| ==> IsDigit(s[i])
    decreases n
  {
    if n < 10 then [DigitChar(n)] else NatToString(n / 10) + [DigitChar(n % 10)]
  }

  /** The value of a string of decimal digits. */
  function DigitsValue(s: string): nat
    requires forall i :: 0 <= i < |s| ==> IsDigit(s[i])
  {
    if |s| == 0 then 0
    else
      assert IsDigit(s[|s| - 1]);
      DigitsValue(s[..|s| - 1]) * 10 + ((s[|s| - 1] as int) - ('0' as int))
  }

  /** Reading back the digits gives the number: NatToString loses nothing. */
  lemma {:induction false} DigitsValueOfNatToString(n: nat)
    ensures DigitsValue(NatToString(n)) == n
    decreases n
  {
    var s := NatToString(n);
    if n >= 10 {
      DigitsValueOfNatToString(n / 10);
      assert s[..|s| - 1] == NatToString(n / 10);
    }
  }

  /** An int as C# writes it: the digits of its magnitude, after '-' when it is negative. */
  function IntToString(i: int): string {
    if i < 0 then "-" + NatToString(-i) else NatToString(i)
  }

  /** Two integers are written the same exactly when they are equal. */
  lemma IntToStringInjective(a: int, b: int)
    ensures IntToString(a) == IntToString(b) <==> a == b
  {
    var sa, sb := IntToString(a), IntToString(b);
    if a < 0 && b < 0 {
      if sa == sb {
        assert NatToString(-a) == sa[1..] == sb[1..] == NatToString(-b);
        DigitsValueOfNatToString(-a);
        DigitsValueOfNatToString(-b);
      }
    } else if a >= 0 && b >= 0 {
      if sa == sb {
        assert NatToString(a) == sa == sb == NatToString(b);
        DigitsValueOfNatToString(a);
        DigitsValueOfNatToString(b);
      }
    } else if a < 0 {
      assert sa[0] == '-' && IsDigit(sb[0]);
    } else {
      assert sb[0] == '-' && IsDigit(sa[0]);
    }
  }

  /** The part of the file name after "{name} {StarCount}". */
  function FileNameTail(number: Option<int>): string {
    match number
    case None => ".csv"
    case Some(k) => " " + IntToString(k) + ".csv"
  }

  /** The file name Generate saves to. */
  function FileName(name: string, starCount: int, number: Option<int>): string {
    name + " " + IntToString(starCount) + FileNameTail(number)
  }

  /**
   * Every file name starts with "{name} {StarCount}" and ends with ".csv",
   * and for one name and star count, different numbers (or a number and no
   * number) never give the same file name.
   */
  lemma FileNameDistinct(name: string, starCount: int, a: Option<int>, b: Option<int>)
    requires a != b
    ensures FileName(name, starCount, a) != FileName(name, starCount, b)
  {
    var head := name + " " + IntToString(starCount);
    var ta, tb := FileNameTail(a), FileNameTail(b);
    assert FileName(name, starCount, a) == head + ta;
    assert FileName(name, starCount, b) == head + tb;
    if head + ta == head + tb {
      assert ta == (head + ta)[|head|..] == (head + tb)[|head|..] == tb;
      if a.Some? && b.Some? {
          var x, y := a.value, b.value;
          var sx, sy := IntToString(x), IntToString(y);
          assert ta == " " + sx + ".csv" && tb == " " + sy + ".csv";
          assert |sx| == |sy|;
          assert sx == ta[1..|ta| - 4] == tb[1..|tb| - 4] == sy;
          IntToStringInjective(x, y);
      }
    }
  }

  /** A file name is "{name} {StarCount}", a tail, and ".csv". */
  lemma FileNameLayout(name: string, starCount: int, number: Option<int>)
    ensures FileName(name, starCount, number)[..|name| + 1] == name + " "
    ensures |FileName(name, starCount, number)| >= |name| + 6
    ensures FileName(name, starCount, number)[|FileName(name, starCount, number)| - 4..] == ".csv"
  {
  }
}
