/** The arithmetic and the label of a hole in the Kotlin rewrite
    (src/Hole.kt): how many holes a row of `count` holes stands for, the
    outline a round hole's cutter follows, what cutting it costs, and the
    text the hole prints as. The hole objects themselves live in KtModel. */
module KtHole {
  import opened Common
  import opened KtPipe

  /** Kotlin's `Int`: a 32-bit two's complement integer. */
  type Int32 = x: int | -0x8000_0000 <= x < 0x8000_0000

  /** The 32-bit two's complement value of `n`: `n` itself when it fits,
      otherwise `n` wrapped around modulo 2^32. */
  function Wrap32(n: int): (r: Int32)
    ensures -0x8000_0000 <= n < 0x8000_0000 ==> r == n
    ensures (n - r) % 0x1_0000_0000 == 0
  {
    (n + 0x8000_0000) % 0x1_0000_0000 - 0x8000_0000
  }

  /** A through hole goes through both walls, so it is cut twice. */
  function Multiplicity(through: bool): int
  {
    if through then 2 else 1
  }

  /** `count()`: the number of holes actually cut, `count` doubled for a
      through hole, computed in 32-bit arithmetic. A hole that does not go
      through counts as it is; a through hole counts twice as long as the
      product fits. */
  function EffectiveCount(count: Int32, through: bool): (r: Int32)
    ensures !through ==> r == count
    ensures through && -0x4000_0000 <= count < 0x4000_0000 ==> r == 2 * count
  {
    Wrap32(count * Multiplicity(through))
  }

  /** The 32-bit product wraps: 2^30 through holes count as -2^31. */
  lemma EffectiveCountWraps()
    ensures EffectiveCount(0x4000_0000, true) == -0x8000_0000
  {
  }

  /** `RoundHole.length()`: the outline of all the holes of a row, the
      diameter times pi, times `count`, doubled for a through hole (the
      multiplication is in floating point, so it does not wrap). */
  function RoundLength(diameter: real, count: Int32, through: bool): real
  {
    diameter * Pi * count as real * Multiplicity(through) as real
  }

  /** A through hole has exactly twice the outline of the same hole that
      does not go through, and either is the one-hole outline times the
      number of cuts. */
  lemma RoundLengthPerCut(diameter: real, count: Int32)
    ensures RoundLength(diameter, count, true) == 2.0 * RoundLength(diameter, count, false)
    ensures RoundLength(diameter, count, false) == count as real * RoundLength(diameter, 1, false)
  {
  }

  /** `cuttingCost()` as written: one incut fee plus the cutting rate times
      `length`, all multiplied by `count()`. */
  function CuttingCostAsWritten(costs: PipeCosts, length: real, count: Int32, through: bool): real
  {
    (costs.incut + costs.cutting * length) * EffectiveCount(count, through) as real
  }

  /** For a round hole the outline already covers every hole of the row,
      so the cutting term of the cost as written grows with the square of
      the number of holes. */
  lemma AsWrittenCuttingIsQuadratic(costs: PipeCosts, diameter: real, count: Int32, through: bool)
    requires -0x4000_0000 <= count < 0x4000_0000
    ensures var n := EffectiveCount(count, through) as real;
            CuttingCostAsWritten(costs, RoundLength(diameter, count, through), count, through)
            == costs.incut * n + costs.cutting * diameter * Pi * n * n
  {
  }

  /** Two round holes of diameter one, incut fee zero and cutting rate one,
      are charged 4 pi as written, twice the 2 pi their outlines cost. */
  lemma AsWrittenChargesTwoHolesTwice()
    ensures CuttingCostAsWritten(PipeCosts(0.0, 0.0, 1.0, 0.0), RoundLength(1.0, 2, false), 2, false) == 4.0 * Pi
    ensures CuttingCost(PipeCosts(0.0, 0.0, 1.0, 0.0), 1.0, 2, false) == 2.0 * Pi
  {
  }

  /** The cutting cost of a row of round holes as evidently intended: one
      incut fee per hole cut plus the cutting rate over the row's outline. */
  function CuttingCost(costs: PipeCosts, diameter: real, count: Int32, through: bool): real
  {
    costs.incut * EffectiveCount(count, through) as real
    + costs.cutting * RoundLength(diameter, count, through)
  }

  /** A row of holes costs exactly one hole's cost per hole cut: `count`
      times a single hole, twice that for a through row. */
  lemma CuttingCostPerHole(costs: PipeCosts, diameter: real, count: Int32, through: bool)
    requires -0x4000_0000 <= count < 0x4000_0000
    ensures CuttingCost(costs, diameter, count, through)
         == (count * Multiplicity(through)) as real * CuttingCost(costs, diameter, 1, false)
  {
  }

  /** The decimal digit `d` as a character. */
  function DigitChar(d: int): (c: char)
    requires 0 <= d < 10
    ensures '0' <= c <= '9' && c as int - '0' as int == d
  {
    ('0' as int + d) as char
  }

  predicate IsDigits(s: string)
  {
    forall i :: 0 <= i < |s| ==> '0' <= s[i] <= '9'
  }

  /** Kotlin's text of a non-negative `Int`: its decimal digits, never
      empty and without a leading zero unless the number is zero. */
  function Decimal(n: nat): (s: string)
    ensures |s| >= 1 && IsDigits(s)
    ensures s[0] == '0' ==> n == 0
  {
    if n < 10 then [DigitChar(n)] else Decimal(n / 10) + [DigitChar(n % 10)]
  }

  /** The number a string of decimal digits denotes. */
  function ParseDecimal(s: string): nat
    requires IsDigits(s)
  {
    if s == [] then 0
    else ParseDecimal(s[..|s| - 1]) * 10 + (s[|s| - 1] as int - '0' as int)
  }

  /** Reading back the text of a number gives the number. */
  lemma {:induction false} ParseDecimalInverse(n: nat)
    ensures ParseDecimal(Decimal(n)) == n
  {
    var s := Decimal(n);
    if n >= 10 {
      assert s[..|s| - 1] == Decimal(n / 10);
      ParseDecimalInverse(n / 10);
    }
  }

  const HolePrefix: string := "Отв. "
  const ThroughMarker: string := "скв. "
  const CountSuffix: string := " шт"

  /** `RoundHole.sizeString()`: the diameter sign followed by the
      diameter's text. */
  function SizeString(diameterText: string): string
  {
    "ф" + diameterText
  }

  /** The text a hole prints as: the hole prefix, the through marker for a
      through hole, the size, and for a row of more than one hole the count
      in pieces. */
  function Label(count: Int32, through: bool, sizeString: string): string
  {
    HolePrefix
    + (if through then ThroughMarker else "")
    + sizeString
    + (if count > 1 then " - " + Decimal(count) + CountSuffix else "")
  }

  /** A number's text holds no spaces. */
  predicate HasNoSpace(s: string)
  {
    forall i :: 0 <= i < |s| ==> s[i] != ' '
  }

  /** A round hole's label always starts with the hole prefix; the through
      marker follows it exactly when the hole goes through; the label ends
      with the pieces suffix exactly when there is more than one hole, and
      then the count can be read back from it. */
  lemma {:induction false} LabelShape(count: Int32, through: bool, diameterText: string)
    requires HasNoSpace(diameterText)
    ensures var s := Label(count, through, SizeString(diameterText));
            && |s| >= 6 && s[..5] == HolePrefix
            && (through <==> |s| >= 10 && s[5..10] == ThroughMarker)
            && (count > 1 <==> s[|s| - 3..] == CountSuffix)
            && (count > 1 ==> ParseDecimal(s[|s| - 3 - |Decimal(count)|..|s| - 3]) == count)
  {
    var s := Label(count, through, SizeString(diameterText));
    var head := HolePrefix + (if through then ThroughMarker else "");
    var body := head + SizeString(diameterText);
    assert s[..5] == HolePrefix;
    if through {
      assert s[5..10] == ThroughMarker;
    } else {
      assert s[5] == 'ф';
      assert |s| >= 10 ==> s[5..10][0] == 'ф';
    }
    if count > 1 {
      var digits := Decimal(count);
      assert s == body + " - " + digits + CountSuffix;
      assert s[|s| - 3..] == CountSuffix;
      assert s[|s| - 3 - |digits|..|s| - 3] == digits;
      ParseDecimalInverse(count);
    } else {
      assert s == body;
      var t := |diameterText|;
      if t >= 3 {
        assert s[|s| - 3] == diameterText[t - 3];
      } else if t == 2 {
        assert s[|s| - 3] == 'ф';
      } else if t == 1 {
        assert s[|s| - 2] == 'ф';
      } else {
        assert s[|s| - 1] == 'ф';
      }
    }
  }
}
