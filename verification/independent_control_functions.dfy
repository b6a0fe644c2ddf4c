/**
 * The independent control functions of src/independent_control_functions.rs: ESCAPE followed by one character
 * of columns `06` and `07`.
 */
module IndependentControlFunctions {
  import opened Characters
  import opened ControlFunctions

  /** `independent!(xx/yy)`: the independent control function `ESC xx/yy`. */
  function New(xx: int, yy: int): ControlFunction
    requires 0 <= xx <= 7 && 0 <= yy <= 15
  {
    NewIndependent([Ascii(xx, yy)])
  }

  /** The function with code `xx/yy` is written as ESCAPE and that character. */
  lemma NewRenders(xx: int, yy: int)
    requires 0 <= xx <= 7 && 0 <= yy <= 15
    ensures Render(New(xx, yy)) == [ESCAPE, Ascii(xx, yy)]
  {
  }

  const CMD: ControlFunction := New(6, 4)
  const DMI: ControlFunction := New(6, 0)
  const EMI: ControlFunction := New(6, 2)
  const INT: ControlFunction := New(6, 1)
  const LS1R: ControlFunction := New(7, 14)
  const LS2: ControlFunction := New(6, 14)
  const LS2R: ControlFunction := New(7, 13)
  const LS3: ControlFunction := New(6, 15)
  const LS3R: ControlFunction := New(7, 12)
  const RIS: ControlFunction := New(6, 3)

  /** The ten independent control functions. */
  const All: seq<ControlFunction> := [
    CMD, DMI, EMI, INT, LS1R, LS2, LS2R, LS3, LS3R, RIS
  ]

  /** The codes of columns `06` and `07` that name a standardised independent function. */
  predicate IsAssigned(b: int) {
    b in {0x60, 0x61, 0x62, 0x63, 0x64, 0x6E, 0x6F, 0x7C, 0x7D, 0x7E}
  }

  /** Every function of the set belongs to its family, has one identifying character and no parameters. */
  lemma Shape()
    ensures forall i :: 0 <= i < |All| ==> All[i].functionType == ControlFunctionType.IndependentControlFunction && All[i].parameters == [] && |All[i].value| == 1
  {
  }

  /** Every function of the set sits on an assigned code. */
  lemma OnAssignedCodes()
    ensures forall i :: 0 <= i < |All| ==> |All[i].value| == 1 && IsAssigned(All[i].value[0] as int)
  {
  }

  /** Every function of the set satisfies the invariants of a control function. */
  lemma AllValid()
    ensures forall i :: 0 <= i < |All| ==> Valid(All[i])
  {
    Shape();
    OnAssignedCodes();
  }

  /** Where in `All` the function with an assigned code `b` is listed. */
  function Position(b: int): nat {
    if b == 0x60 then 1 else if b == 0x61 then 3 else if b == 0x62 then 2 else if b == 0x63 then 9
    else if b == 0x64 then 0 else if b == 0x6E then 5 else if b == 0x6F then 7 else if b == 0x7C then 8
    else if b == 0x7D then 6 else 4
  }

  /** An assigned code from `06/00` to `06/07` names the function listed at its position. */
  lemma PositionInBlock12(b: int)
    requires IsAssigned(b) && b / 8 == 12
    ensures Position(b) < |All| && All[Position(b)].value == [b as char]
  {
  }

  /** An assigned code from `06/08` to `06/15` names the function listed at its position. */
  lemma PositionInBlock13(b: int)
    requires IsAssigned(b) && b / 8 == 13
    ensures Position(b) < |All| && All[Position(b)].value == [b as char]
  {
  }

  /** An assigned code from `07/08` to `07/15` names the function listed at its position. */
  lemma PositionInBlock15(b: int)
    requires IsAssigned(b) && b / 8 == 15
    ensures Position(b) < |All| && All[Position(b)].value == [b as char]
  {
  }

  /** An assigned code names the function listed at its position. */
  lemma PositionOf(b: int)
    requires IsAssigned(b)
    ensures Position(b) < |All| && All[Position(b)].value == [b as char]
  {
    if b / 8 == 12 {
      PositionInBlock12(b);
    } else if b / 8 == 13 {
      PositionInBlock13(b);
    } else {
      PositionInBlock15(b);
    }
  }

  /** The functions listed at positions 0 to 7 sit at the positions of their codes. */
  lemma ListedAtPosition0To7()
    ensures forall i :: 0 <= i < 8 ==> |All[i].value| == 1 && Position(All[i].value[0] as int) == i
  {
  }

  /** The functions listed at positions 8 to 9 sit at the positions of their codes. */
  lemma ListedAtPosition8To9()
    ensures forall i :: 8 <= i < 10 ==> |All[i].value| == 1 && Position(All[i].value[0] as int) == i
  {
  }

  /** Every function is listed at the position of its own code. */
  lemma ListedAtPosition()
    ensures forall i :: 0 <= i < |All| ==> |All[i].value| == 1 && Position(All[i].value[0] as int) == i
  {
    ListedAtPosition0To7();
    ListedAtPosition8To9();
  }

  /** No two functions of the set share a code. */
  lemma Distinct()
    ensures forall i, j :: 0 <= i < j < |All| ==> All[i].value != All[j].value
  {
    ListedAtPosition();
  }

  /** A code has a function of the set exactly when it is assigned. */
  lemma CodeTable(b: int)
    requires 0 <= b < 0x80
    ensures (exists i :: 0 <= i < |All| && All[i].value == [b as char]) <==> IsAssigned(b)
  {
    if IsAssigned(b) {
      PositionOf(b);
    } else {
      OnAssignedCodes();
    }
  }

  /** INTERRUPT is `06/01`, written `ESC a`. */
  lemma WellKnownCodes()
    ensures INT.value == ['a'] && Render(INT) == [0x1B as char, 'a']
  {
  }
}
