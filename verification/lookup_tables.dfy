/**
 * The lookup tables of src/parser.rs: the one-character functions the decoder recognises directly, each with
 * the byte predicate that says which codes the table holds.
 */
module LookupTables {
  import opened Characters
  import opened ControlFunctions
  import C0
  import C1
  import IndependentControlFunctions

  /** All C0 functions except ESC, which may open a longer function; SI and SO stand for LS0 and LS1. */
  const C0_CODES: seq<ControlFunction> := [
    C0.ACK, C0.BEL, C0.BS, C0.CAN, C0.CR, C0.DC1, C0.DC2, C0.DC3, C0.DC4, C0.DLE, C0.EM, C0.ENQ, C0.EOT,
    C0.ETB, C0.ETX, C0.FF, C0.HT, C0.IS1, C0.IS2, C0.IS3, C0.IS4, C0.LF, C0.NAK, C0.NUL, C0.SI, C0.SO, C0.SOH,
    C0.STX, C0.SUB, C0.SYN, C0.VT
  ]

  /** A C0 code other than ESC. */
  predicate IsC0Code(b: int) {
    0 <= b < 0x20 && b != 0x1B
  }

  /** All C1 functions except CSI, which opens a control sequence. */
  const C1_CODES: seq<ControlFunction> := [
    C1.BPH, C1.NBH, C1.NEL, C1.SSA, C1.ESA, C1.HTS, C1.HTJ, C1.VTS, C1.PLD, C1.PLU, C1.RI, C1.SS2, C1.SS3,
    C1.DCS, C1.PU1, C1.PU2, C1.STS, C1.CCH, C1.MW, C1.SPA, C1.EPA, C1.SOS, C1.SCI, C1.ST, C1.OSC, C1.PM, C1.APC
  ]

  /** An assigned C1 code other than CSI's `05/11`. */
  predicate IsC1Code(b: int) {
    C1.IsAssigned(b) && b != 0x5B
  }

  /** All ten independent control functions. */
  const INDEPENDENT_CODES: seq<ControlFunction> := [
    IndependentControlFunctions.DMI, IndependentControlFunctions.INT, IndependentControlFunctions.EMI,
    IndependentControlFunctions.RIS, IndependentControlFunctions.CMD, IndependentControlFunctions.LS2,
    IndependentControlFunctions.LS3, IndependentControlFunctions.LS3R, IndependentControlFunctions.LS2R,
    IndependentControlFunctions.LS1R
  ]

  /** A code of an independent control function. */
  predicate IsIndependentCode(b: int) {
    IndependentControlFunctions.IsAssigned(b)
  }

  // ---- C0_CODES ----------------------------------------------------------------------------------

  /** The entries at 0 to 7 are one-character C0 functions without parameters on codes the table holds. */
  lemma C0CodesShape0To7()
    ensures forall i :: 0 <= i < 8 ==>
      && C0_CODES[i].functionType == ControlFunctionType.C0 && C0_CODES[i].parameters == []
      && |C0_CODES[i].value| == 1 && IsC0Code(C0_CODES[i].value[0] as int)
  {
  }

  /** The entries at 8 to 15 are one-character C0 functions without parameters on codes the table holds. */
  lemma C0CodesShape8To15()
    ensures forall i :: 8 <= i < 16 ==>
      && C0_CODES[i].functionType == ControlFunctionType.C0 && C0_CODES[i].parameters == []
      && |C0_CODES[i].value| == 1 && IsC0Code(C0_CODES[i].value[0] as int)
  {
  }

  /** The entries at 16 to 23 are one-character C0 functions without parameters on codes the table holds. */
  lemma C0CodesShape16To23()
    ensures forall i :: 16 <= i < 24 ==>
      && C0_CODES[i].functionType == ControlFunctionType.C0 && C0_CODES[i].parameters == []
      && |C0_CODES[i].value| == 1 && IsC0Code(C0_CODES[i].value[0] as int)
  {
  }

  /** The entries at 24 to 30 are one-character C0 functions without parameters on codes the table holds. */
  lemma C0CodesShape24To30()
    ensures forall i :: 24 <= i < 31 ==>
      && C0_CODES[i].functionType == ControlFunctionType.C0 && C0_CODES[i].parameters == []
      && |C0_CODES[i].value| == 1 && IsC0Code(C0_CODES[i].value[0] as int)
  {
  }

  /** Every entry is a one-character C0 function without parameters on a code the table holds. */
  lemma C0CodesShape()
    ensures forall i :: 0 <= i < |C0_CODES| ==>
      && C0_CODES[i].functionType == ControlFunctionType.C0 && C0_CODES[i].parameters == []
      && |C0_CODES[i].value| == 1 && IsC0Code(C0_CODES[i].value[0] as int)
  {
    C0CodesShape0To7();
    C0CodesShape8To15();
    C0CodesShape16To23();
    C0CodesShape24To30();
  }

  /** Where in `C0_CODES` the function on code `b` is listed. */
  function C0CodesPosition(b: int): nat {
    if b == 0x00 then 23 else if b == 0x01 then 26 else if b == 0x02 then 27 else if b == 0x03 then 14
    else if b == 0x04 then 12 else if b == 0x05 then 11 else if b == 0x06 then 0 else if b == 0x07 then 1
    else if b == 0x08 then 2 else if b == 0x09 then 16 else if b == 0x0A then 21 else if b == 0x0B then 30
    else if b == 0x0C then 15 else if b == 0x0D then 4 else if b == 0x0E then 25 else if b == 0x0F then 24
    else if b == 0x10 then 9 else if b == 0x11 then 5 else if b == 0x12 then 6 else if b == 0x13 then 7
    else if b == 0x14 then 8 else if b == 0x15 then 22 else if b == 0x16 then 29 else if b == 0x17 then 13
    else if b == 0x18 then 3 else if b == 0x19 then 10 else if b == 0x1A then 28 else if b == 0x1C then 20
    else if b == 0x1D then 19 else if b == 0x1E then 18 else 17
  }

  /** A code from `00/00` to `00/07` that the table holds is listed at its position. */
  lemma C0CodesPositionInBlock0(b: int)
    requires IsC0Code(b) && b / 8 == 0
    ensures C0CodesPosition(b) < |C0_CODES| && C0_CODES[C0CodesPosition(b)].value == [b as char]
  {
  }

  /** A code from `00/08` to `00/15` that the table holds is listed at its position. */
  lemma C0CodesPositionInBlock1(b: int)
    requires IsC0Code(b) && b / 8 == 1
    ensures C0CodesPosition(b) < |C0_CODES| && C0_CODES[C0CodesPosition(b)].value == [b as char]
  {
  }

  /** A code from `01/00` to `01/07` that the table holds is listed at its position. */
  lemma C0CodesPositionInBlock2(b: int)
    requires IsC0Code(b) && b / 8 == 2
    ensures C0CodesPosition(b) < |C0_CODES| && C0_CODES[C0CodesPosition(b)].value == [b as char]
  {
  }

  /** A code from `01/08` to `01/15` that the table holds is listed at its position. */
  lemma C0CodesPositionInBlock3(b: int)
    requires IsC0Code(b) && b / 8 == 3
    ensures C0CodesPosition(b) < |C0_CODES| && C0_CODES[C0CodesPosition(b)].value == [b as char]
  {
  }

  /** A code the table holds is listed at its position. */
  lemma C0CodesPositionOf(b: int)
    requires IsC0Code(b)
    ensures C0CodesPosition(b) < |C0_CODES| && C0_CODES[C0CodesPosition(b)].value == [b as char]
  {
    if b / 8 == 0 {
      C0CodesPositionInBlock0(b);
    } else if b / 8 == 1 {
      C0CodesPositionInBlock1(b);
    } else if b / 8 == 2 {
      C0CodesPositionInBlock2(b);
    } else {
      C0CodesPositionInBlock3(b);
    }
  }

  /** A 7-bit code is the identifier of an entry of `C0_CODES` exactly when `IsC0Code` holds of it. */
  lemma C0CodesLookup(b: int)
    requires 0 <= b < 0x80
    ensures (exists i :: 0 <= i < |C0_CODES| && C0_CODES[i].value == [b as char]) <==> IsC0Code(b)
  {
    if IsC0Code(b) {
      C0CodesPositionOf(b);
    } else {
      C0CodesShape();
    }
  }

  // ---- C1_CODES ----------------------------------------------------------------------------------

  /** The entries at 0 to 7 are one-character C1 functions without parameters on codes the table holds. */
  lemma C1CodesShape0To7()
    ensures forall i :: 0 <= i < 8 ==>
      && C1_CODES[i].functionType == ControlFunctionType.C1 && C1_CODES[i].parameters == []
      && |C1_CODES[i].value| == 1 && IsC1Code(C1_CODES[i].value[0] as int)
  {
  }

  /** The entries at 8 to 15 are one-character C1 functions without parameters on codes the table holds. */
  lemma C1CodesShape8To15()
    ensures forall i :: 8 <= i < 16 ==>
      && C1_CODES[i].functionType == ControlFunctionType.C1 && C1_CODES[i].parameters == []
      && |C1_CODES[i].value| == 1 && IsC1Code(C1_CODES[i].value[0] as int)
  {
  }

  /** The entries at 16 to 23 are one-character C1 functions without parameters on codes the table holds. */
  lemma C1CodesShape16To23()
    ensures forall i :: 16 <= i < 24 ==>
      && C1_CODES[i].functionType == ControlFunctionType.C1 && C1_CODES[i].parameters == []
      && |C1_CODES[i].value| == 1 && IsC1Code(C1_CODES[i].value[0] as int)
  {
  }

  /** The entries at 24 to 26 are one-character C1 functions without parameters on codes the table holds. */
  lemma C1CodesShape24To26()
    ensures forall i :: 24 <= i < 27 ==>
      && C1_CODES[i].functionType == ControlFunctionType.C1 && C1_CODES[i].parameters == []
      && |C1_CODES[i].value| == 1 && IsC1Code(C1_CODES[i].value[0] as int)
  {
  }

  /** Every entry is a one-character C1 function without parameters on a code the table holds. */
  lemma C1CodesShape()
    ensures forall i :: 0 <= i < |C1_CODES| ==>
      && C1_CODES[i].functionType == ControlFunctionType.C1 && C1_CODES[i].parameters == []
      && |C1_CODES[i].value| == 1 && IsC1Code(C1_CODES[i].value[0] as int)
  {
    C1CodesShape0To7();
    C1CodesShape8To15();
    C1CodesShape16To23();
    C1CodesShape24To26();
  }

  /** Where in `C1_CODES` the function on code `b` is listed. */
  function C1CodesPosition(b: int): nat {
    if b == 0x42 then 0 else if b == 0x43 then 1 else if b == 0x45 then 2 else if b == 0x46 then 3
    else if b == 0x47 then 4 else if b == 0x48 then 5 else if b == 0x49 then 6 else if b == 0x4A then 7
    else if b == 0x4B then 8 else if b == 0x4C then 9 else if b == 0x4D then 10 else if b == 0x4E then 11
    else if b == 0x4F then 12 else if b == 0x50 then 13 else if b == 0x51 then 14 else if b == 0x52 then 15
    else if b == 0x53 then 16 else if b == 0x54 then 17 else if b == 0x55 then 18 else if b == 0x56 then 19
    else if b == 0x57 then 20 else if b == 0x58 then 21 else if b == 0x5A then 22 else if b == 0x5C then 23
    else if b == 0x5D then 24 else if b == 0x5E then 25 else 26
  }

  /** A code from `04/00` to `04/07` that the table holds is listed at its position. */
  lemma C1CodesPositionInBlock8(b: int)
    requires IsC1Code(b) && b / 8 == 8
    ensures C1CodesPosition(b) < |C1_CODES| && C1_CODES[C1CodesPosition(b)].value == [b as char]
  {
  }

  /** A code from `04/08` to `04/15` that the table holds is listed at its position. */
  lemma C1CodesPositionInBlock9(b: int)
    requires IsC1Code(b) && b / 8 == 9
    ensures C1CodesPosition(b) < |C1_CODES| && C1_CODES[C1CodesPosition(b)].value == [b as char]
  {
  }

  /** A code from `05/00` to `05/07` that the table holds is listed at its position. */
  lemma C1CodesPositionInBlock10(b: int)
    requires IsC1Code(b) && b / 8 == 10
    ensures C1CodesPosition(b) < |C1_CODES| && C1_CODES[C1CodesPosition(b)].value == [b as char]
  {
  }

  /** A code from `05/08` to `05/15` that the table holds is listed at its position. */
  lemma C1CodesPositionInBlock11(b: int)
    requires IsC1Code(b) && b / 8 == 11
    ensures C1CodesPosition(b) < |C1_CODES| && C1_CODES[C1CodesPosition(b)].value == [b as char]
  {
  }

  /** A code the table holds is listed at its position. */
  lemma C1CodesPositionOf(b: int)
    requires IsC1Code(b)
    ensures C1CodesPosition(b) < |C1_CODES| && C1_CODES[C1CodesPosition(b)].value == [b as char]
  {
    if b / 8 == 8 {
      C1CodesPositionInBlock8(b);
    } else if b / 8 == 9 {
      C1CodesPositionInBlock9(b);
    } else if b / 8 == 10 {
      C1CodesPositionInBlock10(b);
    } else {
      C1CodesPositionInBlock11(b);
    }
  }

  /** A 7-bit code is the identifier of an entry of `C1_CODES` exactly when `IsC1Code` holds of it. */
  lemma C1CodesLookup(b: int)
    requires 0 <= b < 0x80
    ensures (exists i :: 0 <= i < |C1_CODES| && C1_CODES[i].value == [b as char]) <==> IsC1Code(b)
  {
    if IsC1Code(b) {
      C1CodesPositionOf(b);
    } else {
      C1CodesShape();
    }
  }

  // ---- INDEPENDENT_CODES ----------------------------------------------------------------------------------

  /** The entries at 0 to 7 are one-character IndependentControlFunction functions without parameters on codes the table holds. */
  lemma IndependentCodesShape0To7()
    ensures forall i :: 0 <= i < 8 ==>
      && INDEPENDENT_CODES[i].functionType == ControlFunctionType.IndependentControlFunction && INDEPENDENT_CODES[i].parameters == []
      && |INDEPENDENT_CODES[i].value| == 1 && IsIndependentCode(INDEPENDENT_CODES[i].value[0] as int)
  {
  }

  /** The entries at 8 to 9 are one-character IndependentControlFunction functions without parameters on codes the table holds. */
  lemma IndependentCodesShape8To9()
    ensures forall i :: 8 <= i < 10 ==>
      && INDEPENDENT_CODES[i].functionType == ControlFunctionType.IndependentControlFunction && INDEPENDENT_CODES[i].parameters == []
      && |INDEPENDENT_CODES[i].value| == 1 && IsIndependentCode(INDEPENDENT_CODES[i].value[0] as int)
  {
  }

  /** Every entry is a one-character IndependentControlFunction function without parameters on a code the table holds. */
  lemma IndependentCodesShape()
    ensures forall i :: 0 <= i < |INDEPENDENT_CODES| ==>
      && INDEPENDENT_CODES[i].functionType == ControlFunctionType.IndependentControlFunction && INDEPENDENT_CODES[i].parameters == []
      && |INDEPENDENT_CODES[i].value| == 1 && IsIndependentCode(INDEPENDENT_CODES[i].value[0] as int)
  {
    IndependentCodesShape0To7();
    IndependentCodesShape8To9();
  }

  /** Where in `INDEPENDENT_CODES` the function on code `b` is listed. */
  function IndependentCodesPosition(b: int): nat {
    if b == 0x60 then 0 else if b == 0x61 then 1 else if b == 0x62 then 2 else if b == 0x63 then 3
    else if b == 0x64 then 4 else if b == 0x6E then 5 else if b == 0x6F then 6 else if b == 0x7C then 7
    else if b == 0x7D then 8 else 9
  }

  /** A code from `06/00` to `06/07` that the table holds is listed at its position. */
  lemma IndependentCodesPositionInBlock12(b: int)
    requires IsIndependentCode(b) && b / 8 == 12
    ensures IndependentCodesPosition(b) < |INDEPENDENT_CODES| && INDEPENDENT_CODES[IndependentCodesPosition(b)].value == [b as char]
  {
  }

  /** A code from `06/08` to `06/15` that the table holds is listed at its position. */
  lemma IndependentCodesPositionInBlock13(b: int)
    requires IsIndependentCode(b) && b / 8 == 13
    ensures IndependentCodesPosition(b) < |INDEPENDENT_CODES| && INDEPENDENT_CODES[IndependentCodesPosition(b)].value == [b as char]
  {
  }

  /** A code from `07/08` to `07/15` that the table holds is listed at its position. */
  lemma IndependentCodesPositionInBlock15(b: int)
    requires IsIndependentCode(b) && b / 8 == 15
    ensures IndependentCodesPosition(b) < |INDEPENDENT_CODES| && INDEPENDENT_CODES[IndependentCodesPosition(b)].value == [b as char]
  {
  }

  /** A code the table holds is listed at its position. */
  lemma IndependentCodesPositionOf(b: int)
    requires IsIndependentCode(b)
    ensures IndependentCodesPosition(b) < |INDEPENDENT_CODES| && INDEPENDENT_CODES[IndependentCodesPosition(b)].value == [b as char]
  {
    if b / 8 == 12 {
      IndependentCodesPositionInBlock12(b);
    } else if b / 8 == 13 {
      IndependentCodesPositionInBlock13(b);
    } else {
      IndependentCodesPositionInBlock15(b);
    }
  }

  /** A 7-bit code is the identifier of an entry of `INDEPENDENT_CODES` exactly when `IsIndependentCode` holds of it. */
  lemma IndependentCodesLookup(b: int)
    requires 0 <= b < 0x80
    ensures (exists i :: 0 <= i < |INDEPENDENT_CODES| && INDEPENDENT_CODES[i].value == [b as char]) <==> IsIndependentCode(b)
  {
    if IsIndependentCode(b) {
      IndependentCodesPositionOf(b);
    } else {
      IndependentCodesShape();
    }
  }

  /** No code is both a C1 code and an independent code, so at most one of the two look-ups after ESC matches. */
  lemma C1AndIndependentDisjoint(b: int)
    ensures !(IsC1Code(b) && IsIndependentCode(b))
  {
  }
}
