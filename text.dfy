/** The string primitives the Google parser relies on, with JavaScript's
    meaning: `split("..")`, `parseInt` and the printing of an integer. */
module Text {
  import opened Wrappers

  /** The separator of a Google sandbox order id and its renewal counter. */
  const Sep: string := ".."

  /** `s` holds no occurrence of the separator. */
  predicate NoSep(s: string)
  {
    forall i :: 0 <= i < |s| - 1 ==> !(s[i] == '.' && s[i + 1] == '.')
  }

  predicate EndsWithDot(s: string)
  {
    |s| > 0 && s[|s| - 1] == '.'
  }

  /** Glues parts back together with the separator (`parts.join("..")`). */
  function Join(parts: seq<string>): string
    requires |parts| >= 1
    decreases |parts|
  {
    if |parts| == 1 then parts[0] else parts[0] + Sep + Join(parts[1..])
  }

  /** `s.split("..")`: cut at every leftmost, non-overlapping occurrence of
      the separator. */
  function Split(s: string): (parts: seq<string>)
    ensures |parts| >= 1
    decreases |s|
  {
    if |s| < 2 then [s]
    else if s[..2] == Sep then [""] + Split(s[2..])
    else
      var rest := Split(s[1..]);
      [[s[0]] + rest[0]] + rest[1..]
  }

  /** Joining the parts with the separator gives back `s`. */
  lemma {:induction false} SplitGlues(s: string)
    ensures Join(Split(s)) == s
    decreases |s|
  {
    if |s| >= 2 {
      if s[..2] == Sep {
        var rest := Split(s[2..]);
        SplitGlues(s[2..]);
        var parts := [""] + rest;
        assert parts[1..] == rest;
        assert Join(parts) == "" + Sep + Join(rest);
        assert s == Sep + s[2..];
      } else {
        var rest := Split(s[1..]);
        SplitGlues(s[1..]);
        var parts := [[s[0]] + rest[0]] + rest[1..];
        assert s == [s[0]] + s[1..];
        if |rest| > 1 {
          assert parts[1..] == rest[1..];
          assert Join(parts) == [s[0]] + rest[0] + Sep + Join(rest[1..]);
          assert Join(rest) == rest[0] + Sep + Join(rest[1..]);
        }
      }
    }
  }

  /** No part of a split holds the separator. */
  lemma {:induction false} SplitPartsNoSep(s: string)
    ensures forall k :: 0 <= k < |Split(s)| ==> NoSep(Split(s)[k])
    decreases |s|
  {
    if |s| >= 2 {
      if s[..2] == Sep {
        var rest := Split(s[2..]);
        SplitPartsNoSep(s[2..]);
        var parts := [""] + rest;
        forall k | 0 < k < |parts| ensures NoSep(parts[k]) {
          assert parts[k] == rest[k - 1];
        }
      } else {
        var rest := Split(s[1..]);
        SplitPartsNoSep(s[1..]);
        var head := [s[0]] + rest[0];
        var parts := [head] + rest[1..];
        assert NoSep(head) by {
          if |rest[0]| >= 1 {
            assert rest[0][0] == s[1] by {
              SplitGlues(s[1..]);
              JoinStartsWithFirst(rest);
              assert s[1..][0] == s[1];
            }
            assert !(s[0] == '.' && s[1] == '.') by {
              assert s[..2] == [s[0], s[1]];
            }
            forall i | 0 < i < |head| - 1 ensures !(head[i] == '.' && head[i + 1] == '.') {
              assert head[i] == rest[0][i - 1] && head[i + 1] == rest[0][i];
            }
          }
        }
        forall k | 0 < k < |parts| ensures NoSep(parts[k]) {
          assert parts[k] == rest[k];
        }
      }
    }
  }

  /** The first part is a prefix of the joined string. */
  lemma {:induction false} JoinStartsWithFirst(parts: seq<string>)
    requires |parts| >= 1
    ensures |Join(parts)| >= |parts[0]|
    ensures Join(parts)[..|parts[0]|] == parts[0]
  {
    if |parts| > 1 {
      assert Join(parts) == parts[0] + (Sep + Join(parts[1..]));
    }
  }

  /** A string without the separator is not cut at all. */
  lemma {:induction false} SplitNoSep(x: string)
    requires NoSep(x)
    ensures Split(x) == [x]
    decreases |x|
  {
    if |x| >= 2 {
      assert x[..2] != Sep by {
        assert !(x[0] == '.' && x[1] == '.');
      }
      assert NoSep(x[1..]) by {
        forall i | 0 <= i < |x[1..]| - 1
          ensures !(x[1..][i] == '.' && x[1..][i + 1] == '.')
        {
          assert x[1..][i] == x[i + 1] && x[1..][i + 1] == x[i + 2];
        }
      }
      SplitNoSep(x[1..]);
      assert [x[0]] + x[1..] == x;
    }
  }

  /** A first part without the separator and without a trailing dot ends
      exactly at the separator that follows it. */
  lemma {:induction false} SplitAtFirstSep(x: string, rest: string)
    requires NoSep(x) && !EndsWithDot(x)
    ensures Split(x + Sep + rest) == [x] + Split(rest)
    decreases |x|
  {
    if |x| == 0 {
      assert x + Sep + rest == Sep + rest;
      assert (Sep + rest)[..2] == Sep;
      assert (Sep + rest)[2..] == rest;
    } else {
      var s := x + Sep + rest;
      assert s[..2] != Sep by {
        if |x| == 1 {
          assert s[0] == x[0] && x[0] != '.';
        } else {
          assert s[0] == x[0] && s[1] == x[1];
        }
      }
      var x' := x[1..];
      assert NoSep(x') by {
        forall i | 0 <= i < |x'| - 1
          ensures !(x'[i] == '.' && x'[i + 1] == '.')
        {
          assert x'[i] == x[i + 1] && x'[i + 1] == x[i + 2];
        }
      }
      assert !EndsWithDot(x') by {
        if |x'| > 0 {
          assert x'[|x'| - 1] == x[|x| - 1];
        }
      }
      assert s[1..] == x' + Sep + rest;
      SplitAtFirstSep(x', rest);
      assert [x[0]] + x' == x;
    }
  }

  /** Parts that hold no separator, none but the last ending in a dot. */
  predicate WellCut(parts: seq<string>)
  {
    |parts| >= 1
    && (forall k :: 0 <= k < |parts| ==> NoSep(parts[k]))
    && (forall k :: 0 <= k < |parts| - 1 ==> !EndsWithDot(parts[k]))
  }

  /** Splitting undoes joining whenever the parts are cut unambiguously. */
  lemma {:induction false} SplitJoin(parts: seq<string>)
    requires WellCut(parts)
    ensures Split(Join(parts)) == parts
    decreases |parts|
  {
    if |parts| == 1 {
      SplitNoSep(parts[0]);
    } else {
      assert WellCut(parts[1..]) by {
        forall k | 0 <= k < |parts[1..]| ensures NoSep(parts[1..][k]) {
          assert parts[1..][k] == parts[k + 1];
        }
        forall k | 0 <= k < |parts[1..]| - 1 ensures !EndsWithDot(parts[1..][k]) {
          assert parts[1..][k] == parts[k + 1];
        }
      }
      SplitJoin(parts[1..]);
      assert !EndsWithDot(parts[0]);
      SplitAtFirstSep(parts[0], Join(parts[1..]));
      assert [parts[0]] + parts[1..] == parts;
    }
  }

  // ---------------------------------------------------------------------------
  // Integers and their decimal text
  // ---------------------------------------------------------------------------

  predicate IsDigit(c: char)
  {
    '0' <= c <= '9'
  }

  function DigitValue(c: char): nat
    requires IsDigit(c)
  {
    (c as int) - ('0' as int)
  }

  function DigitChar(d: nat): char
    requires d < 10
  {
    (('0' as int) + d) as char
  }

  /** The longest prefix of `s` made of decimal digits. */
  function LeadingDigits(s: string): (ds: string)
    ensures |ds| <= |s| && ds == s[..|ds|]
    ensures forall i :: 0 <= i < |ds| ==> IsDigit(ds[i])
    ensures |ds| < |s| ==> !IsDigit(s[|ds|])
  {
    if |s| == 0 || !IsDigit(s[0]) then ""
    else [s[0]] + LeadingDigits(s[1..])
  }

  /** The value of a string of decimal digits, most significant first. */
  function DigitsValue(ds: string): nat
    requires forall i :: 0 <= i < |ds| ==> IsDigit(ds[i])
    decreases |ds|
  {
    if |ds| == 0 then 0
    else DigitsValue(ds[..|ds| - 1]) * 10 + DigitValue(ds[|ds| - 1])
  }

  /** JavaScript `parseInt(s)`: an optional sign, then the leading decimal
      digits; no digits at all gives NaN, here `None`. */
  function ParseInt(s: string): (r: Option<int>)
    ensures r.None? <==> LeadingDigits(if |s| > 0 && s[0] in "+-" then s[1..] else s) == ""
  {
    var signed := |s| > 0 && s[0] in "+-";
    var ds := LeadingDigits(if signed then s[1..] else s);
    if ds == "" then None
    else if signed && s[0] == '-' then Some(-(DigitsValue(ds) as int))
    else Some(DigitsValue(ds))
  }

  /** The decimal text of a natural number, without leading zeros. */
  function NatToString(n: nat): (s: string)
    ensures |s| >= 1
    ensures forall i :: 0 <= i < |s| ==> IsDigit(s[i])
    ensures DigitsValue(s) == n
    decreases n
  {
    if n < 10 then [DigitChar(n)]
    else
      var s := NatToString(n / 10) + [DigitChar(n % 10)];
      assert s[..|s| - 1] == NatToString(n / 10);
      s
  }

  /** The decimal text of an integer, as a JavaScript template literal prints it. */
  function IntToString(n: int): (s: string)
    ensures n < 0 <==> (|s| > 0 && s[0] == '-')
    ensures forall i :: 0 < i < |s| ==> IsDigit(s[i])
  {
    if n < 0 then "-" + NatToString(-n) else NatToString(n)
  }

  /** The text JavaScript prints for a number that may be NaN. */
  function NumberToString(n: Option<int>): string
  {
    if n.None? then "NaN" else IntToString(n.value)
  }

  /** An all-digit string is its own longest digit prefix. */
  lemma {:induction false} LeadingDigitsAll(ds: string)
    requires forall i :: 0 <= i < |ds| ==> IsDigit(ds[i])
    ensures LeadingDigits(ds) == ds
    decreases |ds|
  {
    if |ds| > 0 {
      LeadingDigitsAll(ds[1..]);
      assert [ds[0]] + ds[1..] == ds;
    }
  }

  /** Printing an integer and parsing it back gives the integer. */
  lemma {:induction false} ParseIntToString(n: int)
    ensures ParseInt(IntToString(n)) == Some(n)
  {
    var s := IntToString(n);
    if n < 0 {
      var t := NatToString(-n);
      assert s[1..] == t;
      LeadingDigitsAll(t);
    } else {
      LeadingDigitsAll(s);
    }
  }

  /** The printed integer never contains a dot, so it is never cut. */
  lemma IntToStringNoDot(n: int)
    ensures NoSep(IntToString(n)) && !EndsWithDot(IntToString(n))
  {
  }
}
