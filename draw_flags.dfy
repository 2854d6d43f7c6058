/** The draw-flag bit set of src/graphics/framebuffer.ts (`DrawFlag`,
 *  `has_flag`) and the buffer mask of `Framebuffer.clear`. A bit set is a
 *  non-negative number; `&` and `|` are defined on its binary digits. */
module DrawFlags {

  /** Binary digit `k` of `n`. */
  function Bit(n: nat, k: nat): bool
  {
    if k == 0 then n % 2 == 1 else Bit(n / 2, k - 1)
  }

  function Pow2(k: nat): (p: nat)
    ensures p >= 1
  {
    if k == 0 then 1 else 2 * Pow2(k - 1)
  }

  /** JavaScript's `a & b`. */
  function And(a: nat, b: nat): nat
  {
    if a == 0 || b == 0 then 0
    else 2 * And(a / 2, b / 2) + (if a % 2 == 1 && b % 2 == 1 then 1 else 0)
  }

  /** JavaScript's `a | b`. */
  function Or(a: nat, b: nat): nat
  {
    if a == 0 then b
    else if b == 0 then a
    else 2 * Or(a / 2, b / 2) + (if a % 2 == 1 || b % 2 == 1 then 1 else 0)
  }

  lemma {:induction false} BitOfZero(k: nat)
    ensures !Bit(0, k)
  {
    if k > 0 {
      BitOfZero(k - 1);
    }
  }

  lemma {:induction false} AndBit(a: nat, b: nat, k: nat)
    ensures Bit(And(a, b), k) == (Bit(a, k) && Bit(b, k))
  {
    if a == 0 || b == 0 {
      BitOfZero(k);
    } else if k > 0 {
      AndBit(a / 2, b / 2, k - 1);
    }
  }

  lemma {:induction false} OrBit(a: nat, b: nat, k: nat)
    ensures Bit(Or(a, b), k) == (Bit(a, k) || Bit(b, k))
  {
    if a == 0 {
      BitOfZero(k);
    } else if b == 0 {
      BitOfZero(k);
    } else if k > 0 {
      OrBit(a / 2, b / 2, k - 1);
    }
  }

  /** Numbers with the same digits are equal. */
  lemma {:induction false} BitsDetermine(a: nat, b: nat)
    requires forall k: nat :: Bit(a, k) == Bit(b, k)
    ensures a == b
    decreases a + b
  {
    if a != 0 || b != 0 {
      assert Bit(a, 0) == Bit(b, 0);
      forall k: nat
        ensures Bit(a / 2, k) == Bit(b / 2, k)
      {
        assert Bit(a, k + 1) == Bit(b, k + 1);
      }
      BitsDetermine(a / 2, b / 2);
    }
  }

  lemma {:induction false} Pow2Bit(k: nat, j: nat)
    ensures Bit(Pow2(k), j) <==> j == k
  {
    if k == 0 {
      if j > 0 {
        BitOfZero(j - 1);
      }
    } else if j > 0 {
      Pow2Bit(k - 1, j - 1);
    }
  }

  /** `has_flag`: `(bit_flag & flag) === flag`. */
  predicate HasFlag(bitFlag: nat, flag: nat)
  {
    And(bitFlag, flag) == flag
  }

  /** Every digit of `flag` is a digit of `bitFlag`. */
  ghost predicate Covers(bitFlag: nat, flag: nat)
  {
    forall k: nat :: Bit(flag, k) ==> Bit(bitFlag, k)
  }

  /** `has_flag` holds exactly when every digit of the flag is set in the bit set. */
  lemma HasFlagDigits(bitFlag: nat, flag: nat)
    ensures HasFlag(bitFlag, flag) <==> Covers(bitFlag, flag)
  {
    if Covers(bitFlag, flag) {
      forall k: nat
        ensures Bit(And(bitFlag, flag), k) == Bit(flag, k)
      {
        AndBit(bitFlag, flag, k);
      }
      BitsDetermine(And(bitFlag, flag), flag);
    }
    if HasFlag(bitFlag, flag) {
      forall k: nat | Bit(flag, k)
        ensures Bit(bitFlag, k)
      {
        AndBit(bitFlag, flag, k);
      }
    }
  }

  /** `has_flag(b, f)` is `b | f === b`. */
  lemma HasFlagAsUnion(bitFlag: nat, flag: nat)
    ensures HasFlag(bitFlag, flag) <==> Or(bitFlag, flag) == bitFlag
  {
    HasFlagDigits(bitFlag, flag);
    if HasFlag(bitFlag, flag) {
      forall k: nat
        ensures Bit(Or(bitFlag, flag), k) == Bit(bitFlag, k)
      {
        OrBit(bitFlag, flag, k);
      }
      BitsDetermine(Or(bitFlag, flag), bitFlag);
    }
    if Or(bitFlag, flag) == bitFlag {
      forall k: nat | Bit(flag, k)
        ensures Bit(bitFlag, k)
      {
        OrBit(bitFlag, flag, k);
      }
    }
  }

  /** A bit set has two flags together exactly when it has each. */
  lemma HasFlagOfUnion(bitFlag: nat, f: nat, g: nat)
    ensures HasFlag(bitFlag, Or(f, g)) <==> HasFlag(bitFlag, f) && HasFlag(bitFlag, g)
  {
    HasFlagDigits(bitFlag, Or(f, g));
    HasFlagDigits(bitFlag, f);
    HasFlagDigits(bitFlag, g);
    forall k: nat
      ensures Bit(Or(f, g), k) == (Bit(f, k) || Bit(g, k))
    {
      OrBit(f, g, k);
    }
  }

  /** A single-digit flag is set exactly when its digit is. */
  lemma HasSingleFlag(bitFlag: nat, k: nat)
    ensures HasFlag(bitFlag, Pow2(k)) <==> Bit(bitFlag, k)
  {
    HasFlagDigits(bitFlag, Pow2(k));
    forall j: nat
      ensures Bit(Pow2(k), j) <==> j == k
    {
      Pow2Bit(k, j);
    }
  }

  datatype DrawFlag =
    | DepthTest | CullFront | CullBack | CullFrontAndBack
    | DepthFuncNever | DepthFuncLess | DepthFuncEqual | DepthFuncLessEqual
    | DepthFuncGreater | DepthFuncNotEqual | DepthFuncGreaterEqual | DepthFuncAlways
    | ForceWriteDepth

  /** The digit of every flag except `DEPTH_TEST`, whose value is 0. */
  function Shift(f: DrawFlag): (k: nat)
    ensures k < 12
  {
    match f
    case DepthTest => 0
    case CullFront => 0
    case CullBack => 1
    case CullFrontAndBack => 2
    case DepthFuncNever => 3
    case DepthFuncLess => 4
    case DepthFuncEqual => 5
    case DepthFuncLessEqual => 6
    case DepthFuncGreater => 7
    case DepthFuncNotEqual => 8
    case DepthFuncGreaterEqual => 9
    case DepthFuncAlways => 10
    case ForceWriteDepth => 11
  }

  /** The enum value of a flag: `DEPTH_TEST = 0`, the others `1 << k`. */
  function FlagBits(f: DrawFlag): nat
  {
    if f == DepthTest then 0 else Pow2(Shift(f))
  }

  /** The bit set a list of flags combines into with `|`. */
  function Combine(fs: seq<DrawFlag>): nat
  {
    if fs == [] then 0 else Or(Combine(fs[..|fs| - 1]), FlagBits(fs[|fs| - 1]))
  }

  /** `DEPTH_TEST` is 0, so every bit set has it. */
  lemma DepthTestAlwaysSet(bitFlag: nat)
    ensures HasFlag(bitFlag, FlagBits(DepthTest))
  {
  }

  /** The flag whose digit is `k`. */
  function FlagAt(k: nat): DrawFlag
  {
    match k
    case 0 => CullFront
    case 1 => CullBack
    case 2 => CullFrontAndBack
    case 3 => DepthFuncNever
    case 4 => DepthFuncLess
    case 5 => DepthFuncEqual
    case 6 => DepthFuncLessEqual
    case 7 => DepthFuncGreater
    case 8 => DepthFuncNotEqual
    case 9 => DepthFuncGreaterEqual
    case 10 => DepthFuncAlways
    case _ => ForceWriteDepth
  }

  /** Distinct flags other than `DEPTH_TEST` have distinct digits. */
  lemma ShiftInverse(f: DrawFlag)
    requires f != DepthTest
    ensures FlagAt(Shift(f)) == f
  {
  }

  /** A flag's bit holds another flag only when it is the same flag. */
  lemma FlagBitsDistinct(f: DrawFlag, g: DrawFlag)
    requires f != DepthTest
    ensures HasFlag(FlagBits(g), FlagBits(f)) <==> f == g
  {
    HasSingleFlag(FlagBits(g), Shift(f));
    if g == DepthTest {
      BitOfZero(Shift(f));
    } else {
      Pow2Bit(Shift(g), Shift(f));
      ShiftInverse(f);
      ShiftInverse(g);
    }
  }

  /** A combination of flags has exactly the listed flags (and `DEPTH_TEST`). */
  lemma {:induction false} CombineHasFlag(fs: seq<DrawFlag>, f: DrawFlag)
    ensures HasFlag(Combine(fs), FlagBits(f)) <==> f == DepthTest || f in fs
    decreases |fs|
  {
    if f != DepthTest {
      HasSingleFlag(Combine(fs), Shift(f));
      if fs == [] {
        BitOfZero(Shift(f));
      } else {
        var init := fs[..|fs| - 1];
        var last := fs[|fs| - 1];
        CombineHasFlag(init, f);
        HasSingleFlag(Combine(init), Shift(f));
        FlagBitsDistinct(f, last);
        HasSingleFlag(FlagBits(last), Shift(f));
        OrBit(Combine(init), FlagBits(last), Shift(f));
        assert fs == init + [last];
      }
    }
  }

  const COLOR_BUFFER_DIGIT: nat := 14   // COLOR_BUFFER_BIT = 0x4000
  const DEPTH_BUFFER_DIGIT: nat := 8    // DEPTH_BUFFER_BIT = 0x0100

  /** `(use_color ? COLOR_BUFFER_BIT : 0) | (use_depth ? DEPTH_BUFFER_BIT : 0)` */
  function ClearMask(useColor: bool, useDepth: bool): nat
  {
    Or(if useColor then Pow2(COLOR_BUFFER_DIGIT) else 0, if useDepth then Pow2(DEPTH_BUFFER_DIGIT) else 0)
  }

  /** The mask has the colour digit exactly when colour is used, the depth
   *  digit exactly when depth is used, and no other digit. */
  lemma ClearMaskDigits(useColor: bool, useDepth: bool, k: nat)
    ensures Bit(ClearMask(useColor, useDepth), k) <==>
      (k == COLOR_BUFFER_DIGIT && useColor) || (k == DEPTH_BUFFER_DIGIT && useDepth)
  {
    OrBit(if useColor then Pow2(COLOR_BUFFER_DIGIT) else 0, if useDepth then Pow2(DEPTH_BUFFER_DIGIT) else 0, k);
    Pow2Bit(COLOR_BUFFER_DIGIT, k);
    Pow2Bit(DEPTH_BUFFER_DIGIT, k);
    BitOfZero(k);
  }

  lemma ClearMaskEmpty(useColor: bool, useDepth: bool)
    ensures ClearMask(useColor, useDepth) == 0 <==> !useColor && !useDepth
  {
    ClearMaskDigits(useColor, useDepth, COLOR_BUFFER_DIGIT);
    ClearMaskDigits(useColor, useDepth, DEPTH_BUFFER_DIGIT);
    BitOfZero(COLOR_BUFFER_DIGIT);
    BitOfZero(DEPTH_BUFFER_DIGIT);
  }

  lemma BufferBits()
    ensures Pow2(COLOR_BUFFER_DIGIT) == 0x4000 && Pow2(DEPTH_BUFFER_DIGIT) == 0x0100
  {
  }
}
