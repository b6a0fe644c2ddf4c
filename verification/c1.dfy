/**
 * The C1 set of src/c1.rs: control functions written as ESCAPE followed by one character of columns `04` and `05`.
 */
module C1 {
  import opened Characters
  import opened ControlFunctions

  /** `c1!(xx/yy)`: the C1 function `ESC xx/yy`. */
  function New(xx: int, yy: int): ControlFunction
    requires 0 <= xx <= 7 && 0 <= yy <= 15
  {
    NewC1([Ascii(xx, yy)])
  }

  /** The function with code `xx/yy` is written as ESCAPE and that character. */
  lemma NewRenders(xx: int, yy: int)
    requires 0 <= xx <= 7 && 0 <= yy <= 15
    ensures Render(New(xx, yy)) == [ESCAPE, Ascii(xx, yy)]
  {
  }

  /** The escape sequence `ESC & @` that designates this C1 set. */
  const ANNOUNCER_SEQUENCE: string := [Ascii(1, 11), Ascii(2, 6), Ascii(4, 0)]

  /** The alternative designation `ESC " F`. */
  const ALTERNATIVE_ANNOUNCER_SEQUENCE: string := [Ascii(1, 11), Ascii(2, 2), Ascii(4, 6)]

  const APC: ControlFunction := New(5, 15)
  const BPH: ControlFunction := New(4, 2)
  const CCH: ControlFunction := New(5, 4)
  const CSI: ControlFunction := New(5, 11)
  const DCS: ControlFunction := New(5, 0)
  const EPA: ControlFunction := New(5, 7)
  const ESA: ControlFunction := New(4, 7)
  const HTJ: ControlFunction := New(4, 9)
  const HTS: ControlFunction := New(4, 8)
  const MW: ControlFunction := New(5, 5)
  const NBH: ControlFunction := New(4, 3)
  const NEL: ControlFunction := New(4, 5)
  const OSC: ControlFunction := New(5, 13)
  const PLD: ControlFunction := New(4, 11)
  const PLU: ControlFunction := New(4, 12)
  const PM: ControlFunction := New(5, 14)
  const PU1: ControlFunction := New(5, 1)
  const PU2: ControlFunction := New(5, 2)
  const RI: ControlFunction := New(4, 13)
  const SCI: ControlFunction := New(5, 10)
  const SOS: ControlFunction := New(5, 8)
  const SPA: ControlFunction := New(5, 6)
  const SSA: ControlFunction := New(4, 6)
  const SS2: ControlFunction := New(4, 14)
  const SS3: ControlFunction := New(4, 15)
  const ST: ControlFunction := New(5, 12)
  const STS: ControlFunction := New(5, 3)
  const VTS: ControlFunction := New(4, 10)

  /** The twenty-eight C1 functions. */
  const All: seq<ControlFunction> := [
    APC, BPH, CCH, CSI, DCS, EPA, ESA, HTJ, HTS, MW,
    NBH, NEL, OSC, PLD, PLU, PM, PU1, PU2, RI, SCI,
    SOS, SPA, SSA, SS2, SS3, ST, STS, VTS
  ]

  /** The codes of columns `04` and `05` ECMA-48 assigns; `04/00`, `04/01`, `04/04` and `05/09` are unused. */
  predicate IsAssigned(b: int) {
    0x40 <= b < 0x60 && b !in {0x40, 0x41, 0x44, 0x59}
  }

  /** Every function of the set belongs to its family, has one identifying character and no parameters. */
  lemma Shape()
    ensures forall i :: 0 <= i < |All| ==> All[i].functionType == ControlFunctionType.C1 && All[i].parameters == [] && |All[i].value| == 1
  {
  }

  /** Every function of the set sits on an assigned code. */
  lemma OnAssignedCodes()
    ensures forall i :: 0 <= i < |All| ==> |All[i].value| == 1 && IsAssigned(All[i].value[0] as int)
  {
  }

  /** Every function of the set satisfies the invariants of a control function. */
  lemma AllValid()
    ensures forall i :: 0 <= i < |All| ==> Valid(All[i])
  {
    Shape();
    OnAssignedCodes();
  }

  /** Where in `All` the function with an assigned code `b` is listed. */
  function Position(b: int): nat {
    if b == 0x42 then 1 else if b == 0x43 then 10 else if b == 0x45 then 11 else if b == 0x46 then 22
    else if b == 0x47 then 6 else if b == 0x48 then 8 else if b == 0x49 then 7 else if b == 0x4A then 27
    else if b == 0x4B then 13 else if b == 0x4C then 14 else if b == 0x4D then 18 else if b == 0x4E then 23
    else if b == 0x4F then 24 else if b == 0x50 then 4 else if b == 0x51 then 16 else if b == 0x52 then 17
    else if b == 0x53 then 26 else if b == 0x54 then 2 else if b == 0x55 then 9 else if b == 0x56 then 21
    else if b == 0x57 then 5 else if b == 0x58 then 20 else if b == 0x5A then 19 else if b == 0x5B then 3
    else if b == 0x5C then 25 else if b == 0x5D then 12 else if b == 0x5E then 15 else 0
  }

  /** An assigned code from `04/00` to `04/07` names the function listed at its position. */
  lemma PositionInBlock8(b: int)
    requires IsAssigned(b) && b / 8 == 8
    ensures Position(b) < |All| && All[Position(b)].value == [b as char]
  {
  }

  /** An assigned code from `04/08` to `04/15` names the function listed at its position. */
  lemma PositionInBlock9(b: int)
    requires IsAssigned(b) && b / 8 == 9
    ensures Position(b) < |All| && All[Position(b)].value == [b as char]
  {
  }

  /** An assigned code from `05/00` to `05/07` names the function listed at its position. */
  lemma PositionInBlock10(b: int)
    requires IsAssigned(b) && b / 8 == 10
    ensures Position(b) < |All| && All[Position(b)].value == [b as char]
  {
  }

  /** An assigned code from `05/08` to `05/15` names the function listed at its position. */
  lemma PositionInBlock11(b: int)
    requires IsAssigned(b) && b / 8 == 11
    ensures Position(b) < |All| && All[Position(b)].value == [b as char]
  {
  }

  /** An assigned code names the function listed at its position. */
  lemma PositionOf(b: int)
    requires IsAssigned(b)
    ensures Position(b) < |All| && All[Position(b)].value == [b as char]
  {
    if b / 8 == 8 {
      PositionInBlock8(b);
    } else if b / 8 == 9 {
      PositionInBlock9(b);
    } else if b / 8 == 10 {
      PositionInBlock10(b);
    } else {
      PositionInBlock11(b);
    }
  }

  /** The functions listed at positions 0 to 7 sit at the positions of their codes. */
  lemma ListedAtPosition0To7()
    ensures forall i :: 0 <= i < 8 ==> |All[i].value| == 1 && Position(All[i].value[0] as int) == i
  {
  }

  /** The functions listed at positions 8 to 15 sit at the positions of their codes. */
  lemma ListedAtPosition8To15()
    ensures forall i :: 8 <= i < 16 ==> |All[i].value| == 1 && Position(All[i].value[0] as int) == i
  {
  }

  /** The functions listed at positions 16 to 23 sit at the positions of their codes. */
  lemma ListedAtPosition16To23()
    ensures forall i :: 16 <= i < 24 ==> |All[i].value| == 1 && Position(All[i].value[0] as int) == i
  {
  }

  /** The functions listed at positions 24 to 27 sit at the positions of their codes. */
  lemma ListedAtPosition24To27()
    ensures forall i :: 24 <= i < 28 ==> |All[i].value| == 1 && Position(All[i].value[0] as int) == i
  {
  }

  /** Every function is listed at the position of its own code. */
  lemma ListedAtPosition()
    ensures forall i :: 0 <= i < |All| ==> |All[i].value| == 1 && Position(All[i].value[0] as int) == i
  {
    ListedAtPosition0To7();
    ListedAtPosition8To15();
    ListedAtPosition16To23();
    ListedAtPosition24To27();
  }

  /** No two functions of the set share a code. */
  lemma Distinct()
    ensures forall i, j :: 0 <= i < j < |All| ==> All[i].value != All[j].value
  {
    ListedAtPosition();
  }

  /** A code has a function of the set exactly when it is assigned. */
  lemma CodeTable(b: int)
    requires 0 <= b < 0x80
    ensures (exists i :: 0 <= i < |All| && All[i].value == [b as char]) <==> IsAssigned(b)
  {
    if IsAssigned(b) {
      PositionOf(b);
    } else {
      OnAssignedCodes();
    }
  }

  /** CONTROL SEQUENCE INTRODUCER is `05/11`, written `ESC [`; NEXT LINE is `04/05` and STRING TERMINATOR `05/12`; the announcers are `ESC & @` and `ESC " F`. */
  lemma WellKnownCodes()
    ensures CSI.value == ['['] && Render(CSI) == [0x1B as char, '[']
    ensures NEL.value == ['E'] && ST.value == ['\\']
    ensures ANNOUNCER_SEQUENCE == [0x1B as char, '&', '@'] && ALTERNATIVE_ANNOUNCER_SEQUENCE == [0x1B as char, '\"', 'F']
  {
  }
}
