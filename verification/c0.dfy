/**
 * The C0 set of src/c0.rs: control functions written as one character in columns `00` and `01`.
 */
module C0 {
  import opened Characters
  import opened ControlFunctions

  /** `c0!(xx/yy)`: the C0 function with code `xx/yy`. */
  function New(xx: int, yy: int): ControlFunction
    requires 0 <= xx <= 7 && 0 <= yy <= 15
  {
    NewC0([Ascii(xx, yy)])
  }

  /** The function with code `xx/yy` is written as that one character. */
  lemma NewRenders(xx: int, yy: int)
    requires 0 <= xx <= 7 && 0 <= yy <= 15
    ensures Render(New(xx, yy)) == [Ascii(xx, yy)]
  {
  }

  /** The escape sequence `ESC ! @` that designates this C0 set. */
  const ANNOUNCER_SEQUENCE: string := [Ascii(1, 11), Ascii(2, 1), Ascii(4, 0)]

  const ACK: ControlFunction := New(0, 6)
  const BEL: ControlFunction := New(0, 7)
  const BS: ControlFunction := New(0, 8)
  const CAN: ControlFunction := New(1, 8)
  const CR: ControlFunction := New(0, 13)
  const DC1: ControlFunction := New(1, 1)
  const DC2: ControlFunction := New(1, 2)
  const DC3: ControlFunction := New(1, 3)
  const DC4: ControlFunction := New(1, 4)
  const DLE: ControlFunction := New(1, 0)
  const EM: ControlFunction := New(1, 9)
  const ENQ: ControlFunction := New(0, 5)
  const EOT: ControlFunction := New(0, 4)
  const ESC: ControlFunction := New(1, 11)
  const ETB: ControlFunction := New(1, 7)
  const ETX: ControlFunction := New(0, 3)
  const FF: ControlFunction := New(0, 12)
  const HT: ControlFunction := New(0, 9)
  const IS1: ControlFunction := New(1, 15)
  const IS2: ControlFunction := New(1, 14)
  const IS3: ControlFunction := New(1, 13)
  const IS4: ControlFunction := New(1, 12)
  const LF: ControlFunction := New(0, 10)
  const LS0: ControlFunction := New(0, 15)
  const LS1: ControlFunction := New(0, 14)
  const NAK: ControlFunction := New(1, 5)
  const NUL: ControlFunction := New(0, 0)
  const SI: ControlFunction := New(0, 15)
  const SO: ControlFunction := New(0, 14)
  const SOH: ControlFunction := New(0, 1)
  const STX: ControlFunction := New(0, 2)
  const SUB: ControlFunction := New(1, 10)
  const SYN: ControlFunction := New(1, 6)
  const VT: ControlFunction := New(0, 11)

  /** The thirty-two distinct C0 functions; LS0 and LS1 are further names for SI and SO. */
  const All: seq<ControlFunction> := [
    ACK, BEL, BS, CAN, CR, DC1, DC2, DC3, DC4, DLE,
    EM, ENQ, EOT, ESC, ETB, ETX, FF, HT, IS1, IS2,
    IS3, IS4, LF, NAK, NUL, SI, SO, SOH, STX, SUB,
    SYN, VT
  ]

  /** Every code of columns `00` and `01` is assigned. */
  predicate IsAssigned(b: int) {
    0 <= b < 0x20
  }

  /** Every function of the set belongs to its family, has one identifying character and no parameters. */
  lemma Shape()
    ensures forall i :: 0 <= i < |All| ==> All[i].functionType == ControlFunctionType.C0 && All[i].parameters == [] && |All[i].value| == 1
  {
  }

  /** Every function of the set sits on an assigned code. */
  lemma OnAssignedCodes()
    ensures forall i :: 0 <= i < |All| ==> |All[i].value| == 1 && IsAssigned(All[i].value[0] as int)
  {
  }

  /** Every function of the set satisfies the invariants of a control function. */
  lemma AllValid()
    ensures forall i :: 0 <= i < |All| ==> Valid(All[i])
  {
    Shape();
    OnAssignedCodes();
  }

  /** Where in `All` the function with an assigned code `b` is listed. */
  function Position(b: int): nat {
    if b == 0x00 then 24 else if b == 0x01 then 27 else if b == 0x02 then 28 else if b == 0x03 then 15
    else if b == 0x04 then 12 else if b == 0x05 then 11 else if b == 0x06 then 0 else if b == 0x07 then 1
    else if b == 0x08 then 2 else if b == 0x09 then 17 else if b == 0x0A then 22 else if b == 0x0B then 31
    else if b == 0x0C then 16 else if b == 0x0D then 4 else if b == 0x0E then 26 else if b == 0x0F then 25
    else if b == 0x10 then 9 else if b == 0x11 then 5 else if b == 0x12 then 6 else if b == 0x13 then 7
    else if b == 0x14 then 8 else if b == 0x15 then 23 else if b == 0x16 then 30 else if b == 0x17 then 14
    else if b == 0x18 then 3 else if b == 0x19 then 10 else if b == 0x1A then 29 else if b == 0x1B then 13
    else if b == 0x1C then 21 else if b == 0x1D then 20 else if b == 0x1E then 19 else 18
  }

  /** An assigned code from `00/00` to `00/07` names the function listed at its position. */
  lemma PositionInBlock0(b: int)
    requires IsAssigned(b) && b / 8 == 0
    ensures Position(b) < |All| && All[Position(b)].value == [b as char]
  {
  }

  /** An assigned code from `00/08` to `00/15` names the function listed at its position. */
  lemma PositionInBlock1(b: int)
    requires IsAssigned(b) && b / 8 == 1
    ensures Position(b) < |All| && All[Position(b)].value == [b as char]
  {
  }

  /** An assigned code from `01/00` to `01/07` names the function listed at its position. */
  lemma PositionInBlock2(b: int)
    requires IsAssigned(b) && b / 8 == 2
    ensures Position(b) < |All| && All[Position(b)].value == [b as char]
  {
  }

  /** An assigned code from `01/08` to `01/15` names the function listed at its position. */
  lemma PositionInBlock3(b: int)
    requires IsAssigned(b) && b / 8 == 3
    ensures Position(b) < |All| && All[Position(b)].value == [b as char]
  {
  }

  /** An assigned code names the function listed at its position. */
  lemma PositionOf(b: int)
    requires IsAssigned(b)
    ensures Position(b) < |All| && All[Position(b)].value == [b as char]
  {
    if b / 8 == 0 {
      PositionInBlock0(b);
    } else if b / 8 == 1 {
      PositionInBlock1(b);
    } else if b / 8 == 2 {
      PositionInBlock2(b);
    } else {
      PositionInBlock3(b);
    }
  }

  /** The functions listed at positions 0 to 7 sit at the positions of their codes. */
  lemma ListedAtPosition0To7()
    ensures forall i :: 0 <= i < 8 ==> |All[i].value| == 1 && Position(All[i].value[0] as int) == i
  {
  }

  /** The functions listed at positions 8 to 15 sit at the positions of their codes. */
  lemma ListedAtPosition8To15()
    ensures forall i :: 8 <= i < 16 ==> |All[i].value| == 1 && Position(All[i].value[0] as int) == i
  {
  }

  /** The functions listed at positions 16 to 23 sit at the positions of their codes. */
  lemma ListedAtPosition16To23()
    ensures forall i :: 16 <= i < 24 ==> |All[i].value| == 1 && Position(All[i].value[0] as int) == i
  {
  }

  /** The functions listed at positions 24 to 31 sit at the positions of their codes. */
  lemma ListedAtPosition24To31()
    ensures forall i :: 24 <= i < 32 ==> |All[i].value| == 1 && Position(All[i].value[0] as int) == i
  {
  }

  /** Every function is listed at the position of its own code. */
  lemma ListedAtPosition()
    ensures forall i :: 0 <= i < |All| ==> |All[i].value| == 1 && Position(All[i].value[0] as int) == i
  {
    ListedAtPosition0To7();
    ListedAtPosition8To15();
    ListedAtPosition16To23();
    ListedAtPosition24To31();
  }

  /** No two functions of the set share a code. */
  lemma Distinct()
    ensures forall i, j :: 0 <= i < j < |All| ==> All[i].value != All[j].value
  {
    ListedAtPosition();
  }

  /** A code has a function of the set exactly when it is assigned. */
  lemma CodeTable(b: int)
    requires 0 <= b < 0x80
    ensures (exists i :: 0 <= i < |All| && All[i].value == [b as char]) <==> IsAssigned(b)
  {
    if IsAssigned(b) {
      PositionOf(b);
    } else {
      OnAssignedCodes();
    }
  }

  /** Locking-shift zero shares its code with shift-in. */
  lemma LS0IsSI()
    ensures LS0 == SI
  {
  }

  /** Locking-shift one shares its code with shift-out. */
  lemma LS1IsSO()
    ensures LS1 == SO
  {
  }

  /** ESCAPE is `01/11`; BELL, LINE FEED and CARRIAGE RETURN are `00/07`, `00/10` and `00/13`; the announcer is `ESC ! @`. */
  lemma WellKnownCodes()
    ensures ESC.value == [0x1B as char] && Render(ESC) == [0x1B as char]
    ensures BEL.value == [0x07 as char] && LF.value == [0x0A as char] && CR.value == [0x0D as char]
    ensures ANNOUNCER_SEQUENCE == [0x1B as char, '!', '@']
  {
  }
}
