/**
 * Policy resolution of h264d_log.c: the GetBitVal bit test, explain_ctrl_flag and the
 * level mask computed by h264d_log_init.
 */
module H264dLogPolicy {
  import opened H264dLogDefs

  /** The plain bit test: bit `pos` of `val` is set. */
  predicate Bit(val: bv32, pos: bv8)
    requires pos < 32
  {
    (val >> pos) & 1 == 1
  }

  /**
   * The GetBitVal macro, `((val >> pos) & 0x1) & val`. The final `& val` keeps only bit 0
   * of `val`, so the result is 1 only when bit `pos` AND bit 0 (DEBUG_EN) are both set.
   */
  function GetBitVal(val: bv32, pos: bv8): (r: bv32)
    requires pos < 32
    ensures r == 0 || r == 1
    ensures r == 1 <==> Bit(val, pos) && Bit(val, LOG_DEBUG_EN)
  {
    ((val >> pos) & 1) & val
  }

  /** The three flags explain_ctrl_flag writes into LogFlag_t. */
  datatype Policy = Policy(printEn: bool, writeEn: bool, debugEn: bool)

  /** Bits 4..13: the five read-syntax and five write-syntax channels. */
  const SYNTAX_BITS: bv32 := 0x3FF0

  /**
   * explain_ctrl_flag: print_en and write_en are GetBitVal of their bits; debug_en is the
   * conjunction of DEBUG_EN and all ten syntax bits.
   */
  function ExplainCtrlFlag(ctrl: bv32): (p: Policy)
    ensures p.printEn <==> Bit(ctrl, LOG_DEBUG_EN) && Bit(ctrl, LOG_PRINT)
    ensures p.writeEn <==> Bit(ctrl, LOG_DEBUG_EN) && Bit(ctrl, LOG_WRITE)
    ensures p.debugEn <==> Bit(ctrl, LOG_DEBUG_EN) && ctrl & SYNTAX_BITS == SYNTAX_BITS
  {
    Policy(
      GetBitVal(ctrl, LOG_PRINT) != 0,
      GetBitVal(ctrl, LOG_WRITE) != 0,
      GetBitVal(ctrl, LOG_DEBUG_EN) != 0
      && GetBitVal(ctrl, LOG_READ_NALU) != 0
      && GetBitVal(ctrl, LOG_READ_SPS) != 0
      && GetBitVal(ctrl, LOG_READ_SUBSPS) != 0
      && GetBitVal(ctrl, LOG_READ_PPS) != 0
      && GetBitVal(ctrl, LOG_READ_SLICE) != 0
      && GetBitVal(ctrl, LOG_WRITE_SPSPPS) != 0
      && GetBitVal(ctrl, LOG_WRITE_RPS) != 0
      && GetBitVal(ctrl, LOG_WRITE_SCANLIST) != 0
      && GetBitVal(ctrl, LOG_WRITE_STEAM) != 0
      && GetBitVal(ctrl, LOG_WRITE_REG) != 0)
  }

  /** The fast path of h264d_log_init is taken when none of the three flags is set. */
  predicate Inactive(p: Policy)
  {
    !p.debugEn && !p.printEn && !p.writeEn
  }

  /** The bits that must all be set for debug_en: DEBUG_EN and bits 4..13. */
  predicate IsDebugBit(b: bv8)
  {
    b == LOG_DEBUG_EN || LOG_READ_NALU <= b <= LOG_WRITE_REG
  }

  /** debug_en holds exactly when every one of the eleven debug bits is set. */
  lemma DebugEnIffEveryDebugBit(ctrl: bv32)
    ensures ExplainCtrlFlag(ctrl).debugEn <==> forall b: bv8 :: IsDebugBit(b) ==> Bit(ctrl, b)
  {
    if forall b: bv8 :: IsDebugBit(b) ==> Bit(ctrl, b) {
      assert Bit(ctrl, 0) && Bit(ctrl, 4) && Bit(ctrl, 5) && Bit(ctrl, 6) && Bit(ctrl, 7);
      assert Bit(ctrl, 8) && Bit(ctrl, 9) && Bit(ctrl, 10) && Bit(ctrl, 11);
      assert Bit(ctrl, 12) && Bit(ctrl, 13);
    }
  }

  /** Clearing any single one of the eleven debug bits turns debug_en off (a conjunction). */
  lemma ClearingADebugBitDisablesDebug(ctrl: bv32, b: bv8)
    requires IsDebugBit(b)
    ensures !ExplainCtrlFlag(ctrl & !(1 << b)).debugEn
  {
  }

  /** With DEBUG_EN clear nothing is enabled: every flag is off and GetBitVal is 0 everywhere. */
  lemma NoDebugEnBitDisablesAll(ctrl: bv32)
    requires !Bit(ctrl, LOG_DEBUG_EN)
    ensures Inactive(ExplainCtrlFlag(ctrl))
    ensures forall pos: bv8 :: pos < 32 ==> GetBitVal(ctrl, pos) == 0
  {
  }

  /**
   * The level mask `(1 << level) - 1` has exactly the bits below `level` set. The shift
   * is computed on 32 bits; `level` must stay below 32, as any larger C shift is undefined.
   */
  function LevelMask(level: bv32): (r: bv32)
    requires level < 32
    ensures forall k: bv8 :: k < 32 ==> (Bit(r, k) <==> (k as bv32) < level)
    ensures level == 0 ==> r == 0
  {
    (1 << level) - 1
  }
}
