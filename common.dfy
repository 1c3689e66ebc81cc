/** Numeric conventions of the two host languages, and the option/result
    wrappers the rest of the model returns. */
module Common {

  datatype Option<+T> = None | Some(value: T)

  datatype Result<+T, +E> = Ok(value: T) | Err(error: E)

  /** JavaScript's Math.round on an exact value: halves round towards +infinity. */
  function Round(x: real): (r: int)
    ensures x - 0.5 < r as real <= x + 0.5
  {
    (x + 0.5).Floor
  }

  /** Math.round is the integer nearest to x (ties upwards), so it is the
      identity on integers and monotone. */
  lemma RoundOfInt(n: int)
    ensures Round(n as real) == n
  {
  }

  lemma RoundMonotone(x: real, y: real)
    requires x <= y
    ensures Round(x) <= Round(y)
  {
  }

  /** C++'s conversion of a double to int: truncation towards zero. */
  function Trunc(x: real): (r: int)
    ensures x >= 0.0 ==> r == x.Floor
    ensures x >= 0.0 ==> 0 <= r && r as real <= x < r as real + 1.0
    ensures x < 0.0 ==> r <= 0 && x <= r as real < x + 1.0
  {
    if x >= 0.0 then x.Floor else -((-x).Floor)
  }

  /** C++'s integer division, which truncates towards zero. */
  function CDiv(a: int, b: int): (q: int)
    requires b > 0
    ensures a >= 0 ==> q == a / b
    ensures a < 0 ==> q == -((-a) / b)
    ensures a >= 0 ==> q * b <= a < q * b + b
  {
    if a >= 0 then a / b else -((-a) / b)
  }

  /** JavaScript's `%`, whose result takes the sign of the dividend. */
  function JsRem(a: int, b: int): (r: int)
    requires b > 0
    ensures a >= 0 ==> 0 <= r < b && r == a % b
    ensures a < 0 ==> -b < r <= 0
  {
    if a >= 0 then a % b else -((-a) % b)
  }

  function Min(a: int, b: int): (m: int)
    ensures m <= a && m <= b && (m == a || m == b)
  {
    if a <= b then a else b
  }

  function Max(a: int, b: int): (m: int)
    ensures m >= a && m >= b && (m == a || m == b)
  {
    if a >= b then a else b
  }

  function MinR(a: real, b: real): (m: real)
    ensures m <= a && m <= b && (m == a || m == b)
  {
    if a <= b then a else b
  }

  function MaxR(a: real, b: real): (m: real)
    ensures m >= a && m >= b && (m == a || m == b)
  {
    if a >= b then a else b
  }

  /** The number a string of decimal digits denotes. */
  function DigitsValue(s: string): int
    decreases |s|
  {
    if |s| == 0 then 0 else DigitsValue(s[..|s| - 1]) * 10 + (s[|s| - 1] as int - '0' as int)
  }

  /** std::to_string on a non-negative int. */
  function NatToString(n: nat): (s: string)
    ensures |s| >= 1
    ensures forall i :: 0 <= i < |s| ==> '0' <= s[i] <= '9'
  {
    var digit := ['0' + (n % 10) as char];
    if n < 10 then digit else NatToString(n / 10) + digit
  }

  /** The digits of NatToString(n) read back as n, with no leading zero. */
  lemma {:induction false} NatToStringReadsBack(n: nat)
    ensures DigitsValue(NatToString(n)) == n
    ensures |NatToString(n)| > 1 ==> NatToString(n)[0] != '0'
    decreases n
  {
    if n >= 10 {
      NatToStringReadsBack(n / 10);
      var front := NatToString(n / 10);
      var s := NatToString(n);
      assert s[..|s| - 1] == front;
    }
  }

  /** A left-to-right `reduce((sum, x) => sum + f(x), 0)`, unfolded from the end. */
  function Sum<T>(s: seq<T>, f: T -> real): real
    decreases |s|
  {
    if |s| == 0 then 0.0 else Sum(s[..|s| - 1], f) + f(s[|s| - 1])
  }

  lemma SumAppend<T>(s: seq<T>, x: T, f: T -> real)
    ensures Sum(s + [x], f) == Sum(s, f) + f(x)
  {
    assert (s + [x])[..|s|] == s;
  }

  lemma {:induction false} SumConcat<T>(a: seq<T>, b: seq<T>, f: T -> real)
    ensures Sum(a + b, f) == Sum(a, f) + Sum(b, f)
    decreases |b|
  {
    if |b| == 0 {
      assert a + b == a;
    } else {
      var front := b[..|b| - 1];
      SumConcat(a, front, f);
      assert a + b == (a + front) + [b[|b| - 1]];
      SumAppend(a + front, b[|b| - 1], f);
    }
  }

  /** SumNonNegative, stated as an implication so that functions can use it. */
  lemma SumNonNegativeWhen<T>(s: seq<T>, f: T -> real)
    ensures (forall i :: 0 <= i < |s| ==> f(s[i]) >= 0.0) ==> Sum(s, f) >= 0.0
  {
    if forall i :: 0 <= i < |s| ==> f(s[i]) >= 0.0 {
      SumNonNegative(s, f);
    }
  }

  lemma {:induction false} SumNonNegative<T>(s: seq<T>, f: T -> real)
    requires forall i :: 0 <= i < |s| ==> f(s[i]) >= 0.0
    ensures Sum(s, f) >= 0.0
    decreases |s|
  {
    if |s| > 0 {
      SumNonNegative(s[..|s| - 1], f);
    }
  }
  /** Array.prototype.filter: the elements satisfying p, in order. */
  function Filter<T>(s: seq<T>, p: T -> bool): (r: seq<T>)
    ensures |r| <= |s|
    decreases |s|
  {
    if |s| == 0 then []
    else Filter(s[..|s| - 1], p) + (if p(s[|s| - 1]) then [s[|s| - 1]] else [])
  }

  function Negate<T>(p: T -> bool): T -> bool
  {
    x => !p(x)
  }

  /** Array.prototype.find: the first element satisfying p. */
  function FindFirst<T>(s: seq<T>, p: T -> bool): Option<T>
    decreases |s|
  {
    if |s| == 0 then None
    else if p(s[0]) then Some(s[0])
    else FindFirst(s[1..], p)
  }

  lemma {:induction false} FindFirstSpec<T>(s: seq<T>, p: T -> bool)
    ensures FindFirst(s, p).None? <==> forall i :: 0 <= i < |s| ==> !p(s[i])
    ensures FindFirst(s, p).Some? ==>
              exists i :: 0 <= i < |s| && s[i] == FindFirst(s, p).value && p(s[i])
                          && forall j :: 0 <= j < i ==> !p(s[j])
    decreases |s|
  {
    if |s| > 0 && !p(s[0]) {
      FindFirstSpec(s[1..], p);
      if FindFirst(s, p).Some? {
        var i :| 0 <= i < |s[1..]| && s[1..][i] == FindFirst(s[1..], p).value && p(s[1..][i])
                 && forall j :: 0 <= j < i ==> !p(s[1..][j]);
        assert s[i + 1] == FindFirst(s, p).value;
        forall j | 0 <= j < i + 1
          ensures !p(s[j])
        {
          if j > 0 {
            assert s[j] == s[1..][j - 1];
          }
        }
      } else {
        forall i | 0 <= i < |s|
          ensures !p(s[i])
        {
          if i > 0 {
            assert s[i] == s[1..][i - 1];
          }
        }
      }
    } else if |s| > 0 {
      assert s[0] == FindFirst(s, p).value;
    }
  }

  lemma {:induction false} FilterMembership<T>(s: seq<T>, p: T -> bool)
    ensures forall x :: x in Filter(s, p) <==> x in s && p(x)
    decreases |s|
  {
    if |s| > 0 {
      var front := s[..|s| - 1];
      FilterMembership(front, p);
      assert s == front + [s[|s| - 1]];
    }
  }

  /** An element satisfying p everywhere is left alone by the filter. */
  lemma {:induction false} FilterKeepsAll<T>(s: seq<T>, p: T -> bool)
    requires forall i :: 0 <= i < |s| ==> p(s[i])
    ensures Filter(s, p) == s
    decreases |s|
  {
    if |s| > 0 {
      var front := s[..|s| - 1];
      FilterKeepsAll(front, p);
      assert s == front + [s[|s| - 1]];
    }
  }

  /** Filtering by p and by its negation splits the sequence: nothing is
      lost and nothing is duplicated. */
  lemma {:induction false} FilterPartition<T>(s: seq<T>, p: T -> bool)
    ensures multiset(Filter(s, p)) + multiset(Filter(s, Negate(p))) == multiset(s)
    decreases |s|
  {
    if |s| > 0 {
      var front := s[..|s| - 1];
      FilterPartition(front, p);
      assert s == front + [s[|s| - 1]];
    }
  }

  /** The sum over a sequence is the sum over each side of a filter. */
  lemma {:induction false} SumFilterSplit<T>(s: seq<T>, p: T -> bool, f: T -> real)
    ensures Sum(s, f) == Sum(Filter(s, p), f) + Sum(Filter(s, Negate(p)), f)
    decreases |s|
  {
    if |s| > 0 {
      var front := s[..|s| - 1];
      var x := s[|s| - 1];
      SumFilterSplit(front, p, f);
      assert Sum(s, f) == Sum(front, f) + f(x);
      var yes, no := Filter(front, p), Filter(front, Negate(p));
      if p(x) {
        assert Filter(s, p) == yes + [x];
        assert Filter(s, Negate(p)) == no + [] == no;
        SumAppend(yes, x, f);
      } else {
        assert Negate(p)(x);
        assert Filter(s, p) == yes + [] == yes;
        assert Filter(s, Negate(p)) == no + [x];
        SumAppend(no, x, f);
      }
    }
  }

  lemma {:induction false} SumMonotone<T>(s: seq<T>, f: T -> real, g: T -> real)
    requires forall i :: 0 <= i < |s| ==> f(s[i]) <= g(s[i])
    ensures Sum(s, f) <= Sum(s, g)
    decreases |s|
  {
    if |s| > 0 {
      SumMonotone(s[..|s| - 1], f, g);
    }
  }

  /** With non-negative terms, one term never exceeds the sum. */
  lemma {:induction false} SumAtLeastMember<T>(s: seq<T>, x: T, f: T -> real)
    requires x in s
    requires forall i :: 0 <= i < |s| ==> f(s[i]) >= 0.0
    ensures f(x) <= Sum(s, f)
    decreases |s|
  {
    var front := s[..|s| - 1];
    SumNonNegative(front, f);
    if x != s[|s| - 1] {
      assert s == front + [s[|s| - 1]];
      SumAtLeastMember(front, x, f);
    }
  }
  /** When p holds nowhere, the filter keeps nothing. */
  lemma {:induction false} FilterDropsAll<T>(s: seq<T>, p: T -> bool)
    requires forall i :: 0 <= i < |s| ==> !p(s[i])
    ensures Filter(s, p) == []
    decreases |s|
  {
    if |s| > 0 {
      FilterDropsAll(s[..|s| - 1], p);
    }
  }

  lemma {:induction false} FindFirstFound<T>(s: seq<T>, p: T -> bool)
    ensures FindFirst(s, p).Some? ==> FindFirst(s, p).value in s && p(FindFirst(s, p).value)
    decreases |s|
  {
    if |s| > 0 && !p(s[0]) {
      FindFirstFound(s[1..], p);
    }
  }

  lemma {:induction false} FilterContains<T>(s: seq<T>, p: T -> bool, x: T)
    requires x in s && p(x)
    ensures x in Filter(s, p)
    decreases |s|
  {
    var front := s[..|s| - 1];
    if x != s[|s| - 1] {
      assert s == front + [s[|s| - 1]];
      FilterContains(front, p, x);
    }
  }

  lemma {:induction false} FilterSumNonNegative<T>(s: seq<T>, p: T -> bool, f: T -> real)
    requires forall i :: 0 <= i < |s| ==> f(s[i]) >= 0.0
    ensures forall i :: 0 <= i < |Filter(s, p)| ==> f(Filter(s, p)[i]) >= 0.0
    ensures Sum(Filter(s, p), f) >= 0.0
    decreases |s|
  {
    if |s| > 0 {
      FilterSumNonNegative(s[..|s| - 1], p, f);
    }
    SumNonNegative(Filter(s, p), f);
  }

  /** With non-negative terms, the first element satisfying p weighs no
      more than all the elements satisfying p together. */
  lemma FirstBelowFilterSum<T>(s: seq<T>, p: T -> bool, f: T -> real)
    requires forall i :: 0 <= i < |s| ==> f(s[i]) >= 0.0
    ensures Sum(Filter(s, p), f) >= 0.0
    ensures FindFirst(s, p).Some? ==> 0.0 <= f(FindFirst(s, p).value) <= Sum(Filter(s, p), f)
  {
    FilterSumNonNegative(s, p, f);
    var first := FindFirst(s, p);
    if first.Some? {
      FindFirstFound(s, p);
      FilterContains(s, p, first.value);
      SumAtLeastMember(Filter(s, p), first.value, f);
    }
  }
}
