# ECMA-48 control functions: a Dafny model

This project models the core of a library that writes and reads the control functions of ECMA-48, the
standard behind terminal escape codes. The model covers four parts.

- **The control-function value** (`ControlFunctions`). A `ControlFunction` has one of four types: C0,
  C1, control sequence or independent control function. It also has a one- or two-character
  identifier and a list of parameters that are already rendered as text.
  - `Render` writes a function out the way `Display` does:
    - a C0 function is its bare character;
    - a C1 or independent function is ESC followed by its identifier;
    - a control sequence is `ESC [`, the parameters joined by `;`, then the identifier.
  - `PrivateUse` is the one constructor that can fail. It runs four checks in a fixed order and
    returns the first failure as an error.
  - `DebugFunction` is the `xx/yy` byte notation that `Debug` prints.
  - `EqualsStr` is comparison with a string.
- **The catalogs** (`C0`, `C1`, `IndependentControlFunctions`, `Modes`). These are the fixed code
  tables: 34 C0 names on 32 codes, 28 C1 functions, 10 independent functions and 20 modes. The decoder
  builds its lookup tables from them (`LookupTables`).
- **The builders** (`ControlSequences`, `ModeSetting`, `ControlStrings`).
  - Each control-sequence builder maps optional numbers or enumeration values to decimal parameters,
    filling in the defaults of the `sequence!` macro.
  - `set` and `reset` build SET MODE and RESET MODE for one mode.
  - The five control-string helpers wrap content between an opening delimiter and STRING TERMINATOR.
- **The decoder** (`Parser`). `TokenStream` walks its input once. It hands out runs of text and the
  control functions between them.
  - `Recognize` is one turn of the loop of `next`.
  - `ScanFrom` is the scan of a control sequence after `ESC [`.
  - `Next` is `Iterator::next`. `Tokenize` drains a stream into a list.

`RoundTrip` connects the writer and the reader:
- the tokens of any input spell that input back exactly;
- a canonical list of tokens, once spelled, is read back as the same list;
- every function the builders make with at least one parameter is read back as itself. SGR, SM and RM of an
  empty list have no parameter, and come back with one empty parameter instead;
- the parser's documented examples hold.

Input is modelled as a sequence of characters, not of UTF-8 bytes. A character is 7-bit exactly when
its UTF-8 form is a single byte. `Utf8Len` models the byte counts in the places where the library
compares them.

Where the code and the ECMA-48 description differ, the model follows the code, with one exception, SCROLL
RIGHT:
- A control-sequence scan can fail. It fails on a non-ASCII character, on a byte outside the parameter
  and final ranges, on a byte after the intermediate byte that is not a final byte, or at the end of
  the input. In that case `next` hands out nothing for the attempt. The ESC stays in the pending text
  and the walk resumes at the next character (`src/parser.rs:346`). See `Parser.AfterCsi` and
  `RoundTrip.ExampleInvalidControlSequence`.
- The accepted final bytes run from `04/00` to `07/15`, so DEL is included (`src/parser.rs:52-57`).
  See `Parser.IsFinalByte`.
- The parameter lists `[]` and `[""]` are written identically (`ControlFunctions.RenderEmptyParameters`).
  The decoder reads both back as `[""]`.
- The independent-function table is spelled `INDEPDENDENT_CODES` in the source. The model calls it
  `INDEPENDENT_CODES`.
- SCROLL RIGHT is the one place where the model keeps both versions. `ControlSequences.SRAsWritten` is the
  code as written, on `02/00 05/08` (`src/control_sequences.rs:2144-2146`), which is the identifier of SPQR.
  `ControlSequences.SR` is the intended builder, on `02/00 04/01`. Everything the model states about the
  builders covers `SR`, not `SRAsWritten`. See `## Findings`.

## Model

| member | source | states |
|---|---|---|
| Characters.NotationIsUnique | src/lib.rs:115-119 | `ascii!(xx/yy)` is the 7-bit character in column xx, row yy, and no other character has that notation |
| Characters.AsciiBytes | src/lib.rs:299-303 | for 7-bit text, the byte count `as_bytes().len()` equals the character count, and the bytes are the character codes |
| Characters.Utf8LenOne | src/parser.rs:275 | a text is one byte long exactly when it is a single 7-bit character |
| Characters.Utf8Concat | src/lib.rs:299-303 | UTF-8 encoding and byte length distribute over concatenation |
| Strings.Decimal | src/control_sequences.rs:75-77 | `u32::to_string` writes a canonical decimal (no leading zero) whose value is the number |
| Strings.CanonicalDecimal | src/control_sequences.rs:75-77 | a canonical decimal is the `to_string` of its own value, so writing numbers is injective |
| Strings.JoinSplit | src/parser.rs:294-297 | splitting on `;` and joining with `;` gives back the text |
| Strings.SplitJoin | src/lib.rs:319-321 | joining at least one separator-free part and splitting again gives back the parts, empty ones included |
| Strings.Split | src/parser.rs:294-297 | splitting yields at least one part, and no part holds the separator |
| Strings.PadTwo | src/lib.rs:346 | `{:02}` of a number below 100 is two digits denoting that number |
| ControlFunctions.NewC0 | src/lib.rs:243-252 | a C0 function on the identifier, with no parameters; written as that identifier alone (`C0.NewRenders`) |
| ControlFunctions.NewC1 | src/lib.rs:254-263 | a C1 function on the identifier, with no parameters; written as ESC and the identifier (`C1.NewRenders`) |
| ControlFunctions.NewSequence | src/lib.rs:265-272 | a control sequence with exactly the given identifier and parameters; how it is written is in `RenderShape` and how it reads back in `RoundTrip.RenderRoundTrip` |
| ControlFunctions.NewIndependent | src/lib.rs:274-283 | an independent function on the identifier, with no parameters; written as ESC and the identifier (`IndependentControlFunctions.NewRenders`) |
| ControlFunctions.PrivateUse | src/lib.rs:289-317 | accepted exactly when the identifier is one character, or `02/00` and one character, in column 07. Non-ASCII fails first, then a length above two, then a missing intermediate byte. On success the result is a control sequence with exactly the given identifier and parameters |
| ControlFunctions.PrivateUseValid | src/lib.rs:289-317 | whatever `private_use` accepts satisfies the invariants of a control function |
| ControlFunctions.Render | src/lib.rs:324-339 | `Display`. What it writes for each type is stated in `RenderShape` and `RenderedParameters`. That the decoder reads it back is stated in `RoundTrip.RenderRoundTrip` |
| ControlFunctions.FormatParameters | src/lib.rs:319-321 | the parameters joined with `;`. `Strings.SplitJoin` gives them back when none holds `;`; `RenderEmptyParameters` shows that `[]` and `[""]` format alike |
| ControlFunctions.RenderShape | src/lib.rs:324-339 | C0 writes its identifier; C1 and independent functions write ESC and then the identifier; a control sequence writes `ESC [`, then its parameter text, then its identifier |
| ControlFunctions.RenderedParameters | src/lib.rs:319-339 | when no parameter of a control sequence holds `;`, splitting the text between CSI and the identifier on `;` gives the parameters back; no parameters at all come back as one empty parameter |
| ControlFunctions.RenderEmptyParameters | src/lib.rs:319-321 | no parameters and one empty parameter render to the same text, although they are different values |
| ControlFunctions.ByteNotation | src/lib.rs:346 | `{:02}/{:02}` of the two halves of a byte: five characters with `/` in the middle, read back by `ByteNotationRoundTrip` |
| ControlFunctions.DebugFunction | src/lib.rs:341-357 | the `function` field of `Debug`, the notations of the identifier's UTF-8 bytes joined by spaces, read back by `DebugFunctionRoundTrip`; for 7-bit identifiers see `DebugOfAscii` |
| ControlFunctions.ByteNotationRoundTrip | src/lib.rs:346 | the `xx/yy` notation of a byte reads back as that byte |
| ControlFunctions.NotationsRoundTrip | src/lib.rs:343-350 | the list of byte notations reads back as the bytes |
| ControlFunctions.DebugFunctionRoundTrip | src/lib.rs:343-350 | the `function` field of `Debug`, split on spaces, reads back as the UTF-8 bytes of the identifier |
| ControlFunctions.DebugOfAscii | src/lib.rs:433-445 | a 7-bit identifier `xx/yy` is shown as `xx/yy`, two digits each |
| ControlFunctions.EqualsStr | src/lib.rs:365-385 | `PartialEq` with a string. It requires `Comparable`, which excludes the inputs on which the source panics. It is equality with the rendering by `EqualsStrIsRenderEquality` |
| ControlFunctions.EqualsStrIsRenderEquality | src/lib.rs:365-385 | for every function of the library, comparing with a string is comparing with its rendering |
| C0.NewRenders | src/c0.rs:45-49 | a C0 function is written as its single character |
| C0.Shape | src/c0.rs:72-378 | every C0 constant is of type C0, has one character and has no parameters |
| C0.OnAssignedCodes | src/c0.rs:72-378 | every C0 constant lies in columns `00` and `01` |
| C0.Distinct | src/c0.rs:25-42 | the 32 distinct C0 functions have pairwise different codes |
| C0.CodeTable | src/c0.rs:25-42 | a 7-bit code has a C0 function exactly when it is below `02/00`, so all 32 codes are covered |
| C0.LS0IsSI | src/c0.rs:280 | LS0 and SI are the same function (`00/15`) |
| C0.LS1IsSO | src/c0.rs:294 | LS1 and SO are the same function (`00/14`) |
| C0.WellKnownCodes | src/c0.rs:63-268 | ESC is `0x1B` and is written as that one character; BEL, LF and CR are `0x07`, `0x0A` and `0x0D`; the announcer is `ESC ! @` |
| C1.NewRenders | src/c1.rs:46-50 | a C1 function is written as ESC and its character |
| C1.Shape | src/c1.rs:76-348 | every C1 constant is of type C1, has one character and has no parameters |
| C1.OnAssignedCodes | src/c1.rs:76-348 | every C1 constant sits on an assigned code of columns `04` and `05` |
| C1.Distinct | src/c1.rs:25-42 | the 28 C1 functions have pairwise different codes |
| C1.WellKnownCodes | src/c1.rs:59-330 | CSI is `[` and is written `ESC [`; NEL is `E` and ST is `\`; the announcers are `ESC & @` and `ESC " F` |
| C1.CodeTable | src/c1.rs:25-42 | a 7-bit code has a C1 function exactly when it is in columns `04`–`05` and not `04/00`, `04/01`, `04/04` or `05/09` |
| IndependentControlFunctions.NewRenders | src/independent_control_functions.rs:47-51 | an independent function is written as ESC and its character |
| IndependentControlFunctions.Shape | src/independent_control_functions.rs:60-135 | every constant is an independent control function with one character and no parameters |
| IndependentControlFunctions.Distinct | src/independent_control_functions.rs:21-38 | the 10 independent functions have pairwise different codes |
| IndependentControlFunctions.CodeTable | src/independent_control_functions.rs:21-38 | a 7-bit code has an independent function exactly when it is one of `06/00`–`06/04`, `06/14`, `06/15`, `07/12`–`07/14` |
| IndependentControlFunctions.WellKnownCodes | src/independent_control_functions.rs:76 | INT is `06/01` and is written `ESC a` |
| LookupTables.C0CodesShape | src/parser.rs:33-37 | every entry of `C0_CODES` is a one-character C0 function other than ESC |
| LookupTables.C0CodesLookup | src/parser.rs:33-37 | a 7-bit code is the identifier of an entry of `C0_CODES` exactly when it is a C0 code other than ESC |
| LookupTables.C1CodesShape | src/parser.rs:39-43 | every entry of `C1_CODES` is a one-character C1 function without parameters, on an assigned C1 code other than `[` |
| LookupTables.C1CodesLookup | src/parser.rs:39-43 | a 7-bit code is the identifier of an entry of `C1_CODES` exactly when it is an assigned C1 code other than `[` |
| LookupTables.IndependentCodesShape | src/parser.rs:45-47 | every entry of the independent table is a one-character independent function without parameters, on an independent code |
| LookupTables.IndependentCodesLookup | src/parser.rs:45-47 | a 7-bit code is the identifier of an entry of the independent table exactly when it is an independent code |
| LookupTables.C1AndIndependentDisjoint | src/parser.rs:220-249 | no code is both a C1 code and an independent code, so at most one of the two look-ups after ESC can match |
| Modes.ValueRoundTrip | src/modes.rs:54-497 | every mode reads back from its discriminant |
| Modes.FromValueInverse | src/modes.rs:54-497 | the discriminants are exactly 1 to 18, 21 and 22, and each denotes the mode it reads as |
| Modes.AbbreviationValues1To9 | src/modes.rs:515-555 | the abbreviations GATM … DCSM name the modes with values 1 to 9 |
| Modes.AbbreviationValues10To22 | src/modes.rs:560-610 | the abbreviations HEM … ZDM name the modes with values 10 to 18, 21 and 22 |
| ControlSequences.Sequence | src/control_sequences.rs:73-155 | every arm of `sequence!` writes each number as one canonical decimal parameter, in order |
| ControlSequences.Discriminants | src/control_sequences.rs:1841-1844 | `iter().map(...)` of a list of enumeration values: one number per item, in order, each the item's discriminant |
| ControlSequences.SequenceValid | src/control_sequences.rs:73-155 | a `sequence!` result on a final byte in columns `04`–`07`, alone or after `02/00`, is a well-formed control sequence, whatever its numbers |
| ControlSequences.EncodesDetermines | src/control_sequences.rs:73-155 | an identifier and a list of numbers determine the control sequence |
| ControlSequences.EncodesInjective | src/control_sequences.rs:73-155 | two builder results are equal exactly when their identifiers and numbers are |
| ControlSequences.NumericWithDefault | src/control_sequences.rs:79-84 | the 26 one-number builders write their number, or 1 when it is absent, under their own final byte |
| ControlSequences.TwoNumericWithDefaults | src/control_sequences.rs:86-94 | CPR, CUP and HVP write both numbers, each 1 when absent |
| ControlSequences.SelectiveEditing | src/control_sequences.rs:96-101 | the selective editing builders write the discriminant of the choice, or 0, the default choice, when it is absent |
| ControlSequences.SelectiveTabulation | src/control_sequences.rs:96-101 | CTC and TBC write the discriminant, or 0 when it is absent |
| ControlSequences.SelectiveDevice | src/control_sequences.rs:96-101 | DSR and MC write the discriminant, or 0 when it is absent |
| ControlSequences.SelectivePresentation | src/control_sequences.rs:96-101 | PTX, SDS, SIMD and SRS write the discriminant, or 0 when it is absent |
| ControlSequences.IntermediateSelectiveLayout | src/control_sequences.rs:103-108 | JFY, PFS, QUAD, SSU and SVS have a `02/00` identifier and write the discriminant or 0 |
| ControlSequences.IntermediateSelectiveCharacters | src/control_sequences.rs:103-108 | GCC, PEC, SAPV, SCO, SHS and SPQR have a `02/00` identifier and write the discriminant or 0 |
| ControlSequences.IntermediateTwoSelectiveWithDefaults | src/control_sequences.rs:110-118 | SPD writes both discriminants, each 0 when absent |
| ControlSequences.IntermediateNumeric | src/control_sequences.rs:120-122 | the one-number builders with a `02/00` identifier write that number |
| ControlSequences.IntermediateNumericWithDefault | src/control_sequences.rs:124-129 | PPA, PPB, PPR and SL default to 1; SACS and SRCS default to 0 |
| ControlSequences.IntermediateTwoNumeric | src/control_sequences.rs:131-136 | DTA and SPI write both numbers |
| ControlSequences.IntermediateTwoNumericWithDefaults | src/control_sequences.rs:138-146 | GSM writes both numbers, each 100 when absent |
| ControlSequences.DAParameters | src/control_sequences.rs:339-346 | DA asks with 0 both when the argument is absent and for `Request`; `Identify(x)` writes `x` |
| ControlSequences.FNTParameters | src/control_sequences.rs:721-728 | FNT writes the font's discriminant (0, `Primary`, when absent) and the font number (0 when absent) |
| ControlSequences.IDCSParameters | src/control_sequences.rs:882-890 | IDCS writes 1 for `Diagnostic`, 2 for `DynamicallyRedefinableCharacterSet` and `i` for `Private(i)` |
| ControlSequences.SEFParameters | src/control_sequences.rs:1643-1653 | SEF writes the bin and the stacker, each 0 when absent or `None` |
| ControlSequences.SCPParameters | src/control_sequences.rs:1502-1505 | SCP writes the path's discriminant (1 or 2) and the scope's discriminant |
| ControlSequences.TCCParameters | src/control_sequences.rs:2434-2437 | TCC writes the position and the character, 32 when the character is absent |
| ControlSequences.SGRParameters | src/control_sequences.rs:1841-1844 | no argument gives `0`; a list gives one parameter per rendition, in order; an empty list gives no parameter |
| ControlSequences.RenditionValueRoundTrip | src/control_sequences.rs:1657-1827 | every graphic rendition reads back from its discriminant |
| ControlSequences.RenditionFromValueInverse | src/control_sequences.rs:1657-1827 | the discriminants run from 0 to 63 with gaps at 26, 38, 48, 50 and 56–59, and each denotes the rendition it reads as |
| ControlSequences.ModeSequenceParameters | src/control_sequences.rs:1293-1295 | SM and RM write one parameter per mode, in order, under `h` and `l`; an empty list gives no parameter |
| ControlSequences.CBT | src/control_sequences.rs:162-164 | the control sequence with identifier `05/10` and one parameter, `n` (1 when absent), as `NumericWithDefault` states; well formed, by `BuildersValidCBTToDAQ` |
| ControlSequences.CHA | src/control_sequences.rs:172-174 | the control sequence with identifier `04/07` and one parameter, `n` (1 when absent), as `NumericWithDefault` states; well formed, by `BuildersValidCBTToDAQ` |
| ControlSequences.CHT | src/control_sequences.rs:182-184 | the control sequence with identifier `04/09` and one parameter, `n` (1 when absent), as `NumericWithDefault` states; well formed, by `BuildersValidCBTToDAQ` |
| ControlSequences.CNL | src/control_sequences.rs:192-194 | the control sequence with identifier `04/05` and one parameter, `n` (1 when absent), as `NumericWithDefault` states; well formed, by `BuildersValidCBTToDAQ` |
| ControlSequences.CPL | src/control_sequences.rs:202-204 | the control sequence with identifier `04/06` and one parameter, `n` (1 when absent), as `NumericWithDefault` states; well formed, by `BuildersValidCBTToDAQ` |
| ControlSequences.CPR | src/control_sequences.rs:219-221 | the control sequence with identifier `05/02` and the parameters `n` (1 when absent), `m` (1 when absent), as `TwoNumericWithDefaults` states; well formed, by `BuildersValidCBTToDAQ` |
| ControlSequences.CTC | src/control_sequences.rs:255-257 | the control sequence with identifier `05/07` and one parameter, the discriminant of `s` (0 when absent), as `SelectiveTabulation` states; well formed, by `BuildersValidCBTToDAQ` |
| ControlSequences.CUB | src/control_sequences.rs:265-267 | the control sequence with identifier `04/04` and one parameter, `n` (1 when absent), as `NumericWithDefault` states; well formed, by `BuildersValidCBTToDAQ` |
| ControlSequences.CUD | src/control_sequences.rs:275-277 | the control sequence with identifier `04/02` and one parameter, `n` (1 when absent), as `NumericWithDefault` states; well formed, by `BuildersValidCBTToDAQ` |
| ControlSequences.CUF | src/control_sequences.rs:285-287 | the control sequence with identifier `04/03` and one parameter, `n` (1 when absent), as `NumericWithDefault` states; well formed, by `BuildersValidCBTToDAQ` |
| ControlSequences.CUP | src/control_sequences.rs:295-297 | the control sequence with identifier `04/08` and the parameters `n` (1 when absent), `m` (1 when absent), as `TwoNumericWithDefaults` states; well formed, by `BuildersValidCBTToDAQ` |
| ControlSequences.CUU | src/control_sequences.rs:305-307 | the control sequence with identifier `04/01` and one parameter, `n` (1 when absent), as `NumericWithDefault` states; well formed, by `BuildersValidCBTToDAQ` |
| ControlSequences.CVT | src/control_sequences.rs:315-317 | the control sequence with identifier `05/09` and one parameter, `n` (1 when absent), as `NumericWithDefault` states; well formed, by `BuildersValidCBTToDAQ` |
| ControlSequences.DA | src/control_sequences.rs:339-346 | the control sequence with identifier `06/03` and one parameter, 0 for no argument and for `Request`, `x` for `Identify(x)`, as `DAParameters` states; well formed, by `BuildersValidCBTToDAQ` |
| ControlSequences.DAQ | src/control_sequences.rs:407-409 | the control sequence with identifier `06/15` and one parameter, the discriminant of `s` (0 when absent), as `SelectiveEditing` states; well formed, by `BuildersValidCBTToDAQ` |
| ControlSequences.DCH | src/control_sequences.rs:432-434 | the control sequence with identifier `05/00` and one parameter, `n` (1 when absent), as `NumericWithDefault` states; well formed, by `BuildersValidDCHToHPA` |
| ControlSequences.DL | src/control_sequences.rs:463-465 | the control sequence with identifier `04/13` and one parameter, `n` (1 when absent), as `NumericWithDefault` states; well formed, by `BuildersValidDCHToHPA` |
| ControlSequences.DSR | src/control_sequences.rs:506-508 | the control sequence with identifier `06/14` and one parameter, the discriminant of `s` (0 when absent), as `SelectiveDevice` states; well formed, by `BuildersValidDCHToHPA` |
| ControlSequences.DTA | src/control_sequences.rs:521-523 | the control sequence with identifier `02/00 05/04` and the parameters `n`, `m`, as `IntermediateTwoNumeric` states; well formed, by `BuildersValidDCHToHPA` |
| ControlSequences.EA | src/control_sequences.rs:553-555 | the control sequence with identifier `04/15` and one parameter, the discriminant of `s` (0 when absent), as `SelectiveEditing` states; well formed, by `BuildersValidDCHToHPA` |
| ControlSequences.ECH | src/control_sequences.rs:570-572 | the control sequence with identifier `05/08` and one parameter, `n` (1 when absent), as `NumericWithDefault` states; well formed, by `BuildersValidDCHToHPA` |
| ControlSequences.ED | src/control_sequences.rs:602-604 | the control sequence with identifier `04/10` and one parameter, the discriminant of `s` (0 when absent), as `SelectiveEditing` states; well formed, by `BuildersValidDCHToHPA` |
| ControlSequences.EF | src/control_sequences.rs:634-636 | the control sequence with identifier `04/14` and one parameter, the discriminant of `s` (0 when absent), as `SelectiveEditing` states; well formed, by `BuildersValidDCHToHPA` |
| ControlSequences.EL | src/control_sequences.rs:666-668 | the control sequence with identifier `04/11` and one parameter, the discriminant of `s` (0 when absent), as `SelectiveEditing` states; well formed, by `BuildersValidDCHToHPA` |
| ControlSequences.FNK | src/control_sequences.rs:673-675 | the control sequence with identifier `02/00 05/07` and one parameter, `n`, as `IntermediateNumeric` states; well formed, by `BuildersValidDCHToHPA` |
| ControlSequences.FNT | src/control_sequences.rs:721-728 | the control sequence with identifier `02/00 04/04` and the parameters: the font's discriminant (0 when absent) and the font number (0 when absent), as `FNTParameters` states; well formed, by `BuildersValidDCHToHPA` |
| ControlSequences.GCC | src/control_sequences.rs:757-759 | the control sequence with identifier `02/00 05/15` and one parameter, the discriminant of `s` (0 when absent), as `IntermediateSelectiveCharacters` states; well formed, by `BuildersValidDCHToHPA` |
| ControlSequences.GSM | src/control_sequences.rs:771-773 | the control sequence with identifier `02/00 04/02` and the parameters `h` (100 when absent), `w` (100 when absent), as `IntermediateTwoNumericWithDefaults` states; well formed, by `BuildersValidDCHToHPA` |
| ControlSequences.GSS | src/control_sequences.rs:785-787 | the control sequence with identifier `02/00 04/03` and one parameter, `n`, as `IntermediateNumeric` states; well formed, by `BuildersValidDCHToHPA` |
| ControlSequences.HPA | src/control_sequences.rs:795-797 | the control sequence with identifier `06/00` and one parameter, `n` (1 when absent), as `NumericWithDefault` states; well formed, by `BuildersValidDCHToHPA` |
| ControlSequences.HPB | src/control_sequences.rs:805-807 | the control sequence with identifier `06/10` and one parameter, `n` (1 when absent), as `NumericWithDefault` states; well formed, by `BuildersValidHPBToPPB` |
| ControlSequences.HPR | src/control_sequences.rs:815-817 | the control sequence with identifier `06/01` and one parameter, `n` (1 when absent), as `NumericWithDefault` states; well formed, by `BuildersValidHPBToPPB` |
| ControlSequences.HVP | src/control_sequences.rs:825-827 | the control sequence with identifier `06/06` and the parameters `n` (1 when absent), `m` (1 when absent), as `TwoNumericWithDefaults` states; well formed, by `BuildersValidHPBToPPB` |
| ControlSequences.ICH | src/control_sequences.rs:854-856 | the control sequence with identifier `04/00` and one parameter, `n` (1 when absent), as `NumericWithDefault` states; well formed, by `BuildersValidHPBToPPB` |
| ControlSequences.IDCS | src/control_sequences.rs:882-890 | the control sequence with identifier `02/00 04/15` and one parameter, 1 for `Diagnostic`, 2 for `DynamicallyRedefinableCharacterSet`, `i` for `Private(i)`, as `IDCSParameters` states; well formed, by `BuildersValidHPBToPPB` |
| ControlSequences.IGS | src/control_sequences.rs:898-900 | the control sequence with identifier `02/00 04/13` and one parameter, `n`, as `IntermediateNumeric` states; well formed, by `BuildersValidHPBToPPB` |
| ControlSequences.IL | src/control_sequences.rs:929-931 | the control sequence with identifier `04/12` and one parameter, `n` (1 when absent), as `NumericWithDefault` states; well formed, by `BuildersValidHPBToPPB` |
| ControlSequences.JFY | src/control_sequences.rs:976-978 | the control sequence with identifier `02/00 04/06` and one parameter, the discriminant of `s` (0 when absent), as `IntermediateSelectiveLayout` states; well formed, by `BuildersValidHPBToPPB` |
| ControlSequences.MC | src/control_sequences.rs:1015-1017 | the control sequence with identifier `06/09` and one parameter, the discriminant of `s` (0 when absent), as `SelectiveDevice` states; well formed, by `BuildersValidHPBToPPB` |
| ControlSequences.NP | src/control_sequences.rs:1026-1028 | the control sequence with identifier `05/05` and one parameter, `n` (1 when absent), as `NumericWithDefault` states; well formed, by `BuildersValidHPBToPPB` |
| ControlSequences.PEC | src/control_sequences.rs:1053-1055 | the control sequence with identifier `02/00 05/10` and one parameter, the discriminant of `s` (0 when absent), as `IntermediateSelectiveCharacters` states; well formed, by `BuildersValidHPBToPPB` |
| ControlSequences.PFS | src/control_sequences.rs:1121-1123 | the control sequence with identifier `02/00 04/10` and one parameter, the discriminant of `s` (0 when absent), as `IntermediateSelectiveLayout` states; well formed, by `BuildersValidHPBToPPB` |
| ControlSequences.PP | src/control_sequences.rs:1131-1133 | the control sequence with identifier `05/06` and one parameter, `n` (1 when absent), as `NumericWithDefault` states; well formed, by `BuildersValidHPBToPPB` |
| ControlSequences.PPA | src/control_sequences.rs:1141-1143 | the control sequence with identifier `02/00 05/00` and one parameter, `n` (1 when absent), as `IntermediateNumericWithDefault` states; well formed, by `BuildersValidHPBToPPB` |
| ControlSequences.PPB | src/control_sequences.rs:1151-1153 | the control sequence with identifier `02/00 05/02` and one parameter, `n` (1 when absent), as `IntermediateNumericWithDefault` states; well formed, by `BuildersValidHPBToPPB` |
| ControlSequences.PPR | src/control_sequences.rs:1161-1163 | the control sequence with identifier `02/00 05/01` and one parameter, `n` (1 when absent), as `IntermediateNumericWithDefault` states; well formed, by `BuildersValidPPRToSGR` |
| ControlSequences.PTX | src/control_sequences.rs:1229-1231 | the control sequence with identifier `05/12` and one parameter, the discriminant of `s` (0 when absent), as `SelectivePresentation` states; well formed, by `BuildersValidPPRToSGR` |
| ControlSequences.QUAD | src/control_sequences.rs:1275-1277 | the control sequence with identifier `02/00 04/08` and one parameter, the discriminant of `s` (0 when absent), as `IntermediateSelectiveLayout` states; well formed, by `BuildersValidPPRToSGR` |
| ControlSequences.REP | src/control_sequences.rs:1286-1288 | the control sequence with identifier `06/02` and one parameter, `n` (1 when absent), as `NumericWithDefault` states; well formed, by `BuildersValidPPRToSGR` |
| ControlSequences.RM | src/control_sequences.rs:1293-1295 | the control sequence with identifier `06/12` and parameters: one discriminant per mode, in order, as `ModeSequenceParameters` states; well formed, by `BuildersValidPPRToSGR` |
| ControlSequences.SACS | src/control_sequences.rs:1310-1312 | the control sequence with identifier `02/00 05/12` and one parameter, `n` (0 when absent), as `IntermediateNumericWithDefault` states; well formed, by `BuildersValidPPRToSGR` |
| ControlSequences.SAPV | src/control_sequences.rs:1411-1413 | the control sequence with identifier `02/00 05/13` and one parameter, the discriminant of `s` (0 when absent), as `IntermediateSelectiveCharacters` states; well formed, by `BuildersValidPPRToSGR` |
| ControlSequences.SCO | src/control_sequences.rs:1453-1455 | the control sequence with identifier `02/00 06/05` and one parameter, the discriminant of `s` (0 when absent), as `IntermediateSelectiveCharacters` states; well formed, by `BuildersValidPPRToSGR` |
| ControlSequences.SCP | src/control_sequences.rs:1502-1505 | the control sequence with identifier `02/00 06/11` and the parameters: the discriminants of the path and of its scope, as `SCPParameters` states; well formed, by `BuildersValidPPRToSGR` |
| ControlSequences.SCS | src/control_sequences.rs:1517-1519 | the control sequence with identifier `02/00 06/07` and one parameter, `n`, as `IntermediateNumeric` states; well formed, by `BuildersValidPPRToSGR` |
| ControlSequences.SD | src/control_sequences.rs:1530-1532 | the control sequence with identifier `05/04` and one parameter, `n` (1 when absent), as `NumericWithDefault` states; well formed, by `BuildersValidPPRToSGR` |
| ControlSequences.SDS | src/control_sequences.rs:1579-1581 | the control sequence with identifier `05/13` and one parameter, the discriminant of `s` (0 when absent), as `SelectivePresentation` states; well formed, by `BuildersValidPPRToSGR` |
| ControlSequences.SEE | src/control_sequences.rs:1610-1612 | the control sequence with identifier `05/01` and one parameter, the discriminant of `s` (0 when absent), as `SelectiveEditing` states; well formed, by `BuildersValidPPRToSGR` |
| ControlSequences.SEF | src/control_sequences.rs:1643-1653 | the control sequence with identifier `02/00 05/09` and the parameters: the bin and the stacker, each 0 when absent or `None`, as `SEFParameters` states; well formed, by `BuildersValidPPRToSGR` |
| ControlSequences.SGR | src/control_sequences.rs:1841-1844 | the control sequence with identifier `06/13` and parameters: one discriminant per rendition, in order, and `0` when the list is absent, as `SGRParameters` states; well formed, by `BuildersValidPPRToSGR` |
| ControlSequences.SHS | src/control_sequences.rs:1879-1881 | the control sequence with identifier `02/00 04/11` and one parameter, the discriminant of `s` (0 when absent), as `IntermediateSelectiveCharacters` states; well formed, by `BuildersValidSHSToSSU` |
| ControlSequences.SIMD | src/control_sequences.rs:1900-1902 | the control sequence with identifier `05/14` and one parameter, the discriminant of `s` (0 when absent), as `SelectivePresentation` states; well formed, by `BuildersValidSHSToSSU` |
| ControlSequences.SL | src/control_sequences.rs:1913-1915 | the control sequence with identifier `02/00 04/00` and one parameter, `n` (1 when absent), as `IntermediateNumericWithDefault` states; well formed, by `BuildersValidSHSToSSU` |
| ControlSequences.SLH | src/control_sequences.rs:1935-1937 | the control sequence with identifier `02/00 05/05` and one parameter, `n`, as `IntermediateNumeric` states; well formed, by `BuildersValidSHSToSSU` |
| ControlSequences.SLL | src/control_sequences.rs:1958-1960 | the control sequence with identifier `02/00 05/06` and one parameter, `n`, as `IntermediateNumeric` states; well formed, by `BuildersValidSHSToSSU` |
| ControlSequences.SLS | src/control_sequences.rs:1971-1973 | the control sequence with identifier `02/00 06/08` and one parameter, `n`, as `IntermediateNumeric` states; well formed, by `BuildersValidSHSToSSU` |
| ControlSequences.SM | src/control_sequences.rs:1978-1980 | the control sequence with identifier `06/08` and parameters: one discriminant per mode, in order, as `ModeSequenceParameters` states; well formed, by `BuildersValidSHSToSSU` |
| ControlSequences.SPD | src/control_sequences.rs:2048-2053 | the control sequence with identifier `02/00 05/03` and the parameters the discriminant of `s` (0 when absent), the discriminant of `t` (0 when absent), as `IntermediateTwoSelectiveWithDefaults` states; well formed, by `BuildersValidSHSToSSU` |
| ControlSequences.SPH | src/control_sequences.rs:2072-2074 | the control sequence with identifier `02/00 06/09` and one parameter, `n`, as `IntermediateNumeric` states; well formed, by `BuildersValidSHSToSSU` |
| ControlSequences.SPI | src/control_sequences.rs:2088-2090 | the control sequence with identifier `02/00 04/07` and the parameters `l`, `c`, as `IntermediateTwoNumeric` states; well formed, by `BuildersValidSHSToSSU` |
| ControlSequences.SPL | src/control_sequences.rs:2106-2108 | the control sequence with identifier `02/00 06/10` and one parameter, `n`, as `IntermediateNumeric` states; well formed, by `BuildersValidSHSToSSU` |
| ControlSequences.SPQR | src/control_sequences.rs:2131-2133 | the control sequence with identifier `02/00 05/08` and one parameter, the discriminant of `s` (0 when absent), as `IntermediateSelectiveCharacters` states; well formed, by `BuildersValidSHSToSSU` |
| ControlSequences.SRCS | src/control_sequences.rs:2162-2164 | the control sequence with identifier `02/00 06/06` and one parameter, `n` (0 when absent), as `IntermediateNumericWithDefault` states; well formed, by `BuildersValidSHSToSSU` |
| ControlSequences.SRS | src/control_sequences.rs:2207-2209 | the control sequence with identifier `05/11` and one parameter, the discriminant of `s` (0 when absent), as `SelectivePresentation` states; well formed, by `BuildersValidSHSToSSU` |
| ControlSequences.SSU | src/control_sequences.rs:2249-2251 | the control sequence with identifier `02/00 04/09` and one parameter, the discriminant of `s` (0 when absent), as `IntermediateSelectiveLayout` states; well formed, by `BuildersValidSHSToSSU` |
| ControlSequences.SSW | src/control_sequences.rs:2270-2272 | the control sequence with identifier `02/00 05/11` and one parameter, `n`, as `IntermediateNumeric` states; well formed, by `BuildersValidSSWToVPR` |
| ControlSequences.STAB | src/control_sequences.rs:2281-2283 | the control sequence with identifier `02/00 05/14` and one parameter, `s`, as `IntermediateNumeric` states; well formed, by `BuildersValidSSWToVPR` |
| ControlSequences.SU | src/control_sequences.rs:2294-2296 | the control sequence with identifier `05/03` and one parameter, `n` (1 when absent), as `NumericWithDefault` states; well formed, by `BuildersValidSSWToVPR` |
| ControlSequences.SVS | src/control_sequences.rs:2339-2341 | the control sequence with identifier `02/00 04/12` and one parameter, the discriminant of `s` (0 when absent), as `IntermediateSelectiveLayout` states; well formed, by `BuildersValidSSWToVPR` |
| ControlSequences.TAC | src/control_sequences.rs:2353-2355 | the control sequence with identifier `02/00 06/02` and one parameter, `n`, as `IntermediateNumeric` states; well formed, by `BuildersValidSSWToVPR` |
| ControlSequences.TALE | src/control_sequences.rs:2366-2368 | the control sequence with identifier `02/00 06/01` and one parameter, `n`, as `IntermediateNumeric` states; well formed, by `BuildersValidSSWToVPR` |
| ControlSequences.TATE | src/control_sequences.rs:2379-2381 | the control sequence with identifier `02/00 06/00` and one parameter, `n`, as `IntermediateNumeric` states; well formed, by `BuildersValidSSWToVPR` |
| ControlSequences.TBC | src/control_sequences.rs:2412-2414 | the control sequence with identifier `06/07` and one parameter, the discriminant of `s` (0 when absent), as `SelectiveTabulation` states; well formed, by `BuildersValidSSWToVPR` |
| ControlSequences.TCC | src/control_sequences.rs:2434-2437 | the control sequence with identifier `02/00 06/03` and the parameters: the position and the character, 32 when the character is absent, as `TCCParameters` states; well formed, by `BuildersValidSSWToVPR` |
| ControlSequences.TSR | src/control_sequences.rs:2445-2447 | the control sequence with identifier `02/00 06/04` and one parameter, `n`, as `IntermediateNumeric` states; well formed, by `BuildersValidSSWToVPR` |
| ControlSequences.TSS | src/control_sequences.rs:2458-2460 | the control sequence with identifier `02/00 04/05` and one parameter, `n`, as `IntermediateNumeric` states; well formed, by `BuildersValidSSWToVPR` |
| ControlSequences.VPA | src/control_sequences.rs:2468-2470 | the control sequence with identifier `06/04` and one parameter, `n` (1 when absent), as `NumericWithDefault` states; well formed, by `BuildersValidSSWToVPR` |
| ControlSequences.VPB | src/control_sequences.rs:2478-2480 | the control sequence with identifier `06/11` and one parameter, `n` (1 when absent), as `NumericWithDefault` states; well formed, by `BuildersValidSSWToVPR` |
| ControlSequences.VPR | src/control_sequences.rs:2488-2490 | the control sequence with identifier `06/05` and one parameter, `n` (1 when absent), as `NumericWithDefault` states; well formed, by `BuildersValidSSWToVPR` |
| ControlSequences.BuildersValidCBTToDAQ | src/control_sequences.rs:162-409 | every builder from `CBT` to `DAQ`, in source order, gives a well-formed control sequence for every argument |
| ControlSequences.BuildersValidDCHToHPA | src/control_sequences.rs:432-797 | every builder from `DCH` to `HPA`, in source order, gives a well-formed control sequence for every argument |
| ControlSequences.BuildersValidHPBToPPB | src/control_sequences.rs:805-1153 | every builder from `HPB` to `PPB`, in source order, gives a well-formed control sequence for every argument |
| ControlSequences.BuildersValidPPRToSGR | src/control_sequences.rs:1161-1844 | every builder from `PPR` to `SGR`, in source order, gives a well-formed control sequence for every argument |
| ControlSequences.BuildersValidSHSToSSU | src/control_sequences.rs:1879-2251 | every builder from `SHS` to `SSU` other than `SR`, in source order, gives a well-formed control sequence for every argument |
| ControlSequences.BuildersValidSSWToVPR | src/control_sequences.rs:2270-2490 | every builder from `SSW` to `VPR`, in source order, gives a well-formed control sequence for every argument |
| ControlSequences.SRAsWritten | src/control_sequences.rs:2144-2146 | SCROLL RIGHT as written, on `02/00 05/08`; `SRAsWrittenCollidesWithSPQR` shows it is SPQR |
| ControlSequences.SR | src/control_sequences.rs:2144-2146 | SCROLL RIGHT on `02/00 04/01`, one parameter `n` (1 when absent), as `SRParameters` states |
| ControlSequences.SRValid | src/control_sequences.rs:2144-2146 | the corrected SCROLL RIGHT gives a well-formed control sequence for every argument |
| ControlSequences.SRAsWrittenCollidesWithSPQR | src/control_sequences.rs:2144-2146 | as written, `SR(Some(q))` equals the SPQR that selects print quality `q`, and `SR(Some(0))` equals `SPQR(None)` |
| ControlSequences.SRParameters | src/control_sequences.rs:2144-2146 | SR on `02/00 04/01` writes its number (1 when absent) and never equals any SPQR |
| ModeSetting.Set | src/modes.rs:502-504 | `m.set()` is the SET MODE with the single parameter `m`, written `ESC [ <m> h` |
| ModeSetting.Reset | src/modes.rs:507-509 | `m.reset()` is the RESET MODE with the single parameter `m`, written `ESC [ <m> l` |
| ModeSetting.SetAndResetDifferInFinalByte | src/modes.rs:500-510 | `set` and `reset` of a mode are written identically except for the last character, `h` against `l` |
| ModeSetting.SettingOfSetAndReset | src/modes.rs:500-510 | `set` and `reset` read back as the mode and the direction they were built from |
| ModeSetting.SettingIsSetOrReset | src/modes.rs:500-510 | whatever reads as a mode setting is exactly the `set` or `reset` of that mode |
| ControlStrings.WrapShape | src/control_strings.rs:43-84 | wrapping adds the two opener characters in front and `ESC \` behind, with the content verbatim: four more characters and four more bytes |
| ControlStrings.ApplicationProgramCommand | src/control_strings.rs:43-45 | `ESC _`, the command string verbatim, `ESC \`; four bytes longer than the content |
| ControlStrings.DeviceControlString | src/control_strings.rs:55-57 | `ESC P`, the control string verbatim, `ESC \`; four bytes longer than the content |
| ControlStrings.OperatingSystemCommand | src/control_strings.rs:64-66 | `ESC ]`, the command verbatim, `ESC \`; four bytes longer than the content |
| ControlStrings.PrivacyMessage | src/control_strings.rs:73-75 | `ESC ^`, the message verbatim, `ESC \`; four bytes longer than the content |
| ControlStrings.ControlString | src/control_strings.rs:82-84 | `ESC X`, the string verbatim, `ESC \`; four bytes longer than the content |
| ControlStrings.UnwrapBuilders | src/control_strings.rs:43-84 | each of the five helpers is undone by `Unwrap`, giving back the opener and the content, for any content |
| ControlStrings.UnwrapIsWrap | src/control_strings.rs:43-84 | whatever `Unwrap` accepts is the wrapping of its content in one of the five openers |
| Parser.IsFinalByte | src/parser.rs:48-57 | a final byte is a character from `04/00` to `07/15`, DEL included; how the scan uses it is in `ScanIsSequenceBody` |
| Parser.IsParameterByte | src/parser.rs:59-65 | a parameter byte is a character from `03/00` to `03/15`; how the scan uses it is in `ScanIsSequenceBody` |
| Parser.SequenceOfRenders | src/parser.rs:280-308 | the sequence a well-formed body denotes is a valid control function, written as CSI followed by that body |
| Parser.ScanFrom | src/parser.rs:266-334 | `'control_sequence_loop`: what it consumes and produces is in `ScanFromSound` and `ScanFromComplete` |
| Parser.ScanFromSound | src/parser.rs:266-334 | when the scan loop ends a sequence, the text it consumed is a well-formed body and the sequence is the one that body denotes |
| Parser.ScanFromComplete | src/parser.rs:266-334 | when a prefix of the text is a well-formed body, the scan loop ends exactly there, with that sequence |
| Parser.ScanIsSequenceBody | src/parser.rs:252-334 | the scan after CSI succeeds exactly when a prefix is a well-formed body: parameter bytes, at most one `02/00` just before the final byte, and a final byte from `04/00` to `07/15` |
| Parser.Find | src/parser.rs:160-163 | the position of the first table entry equal to the text, at most the table's length; which entry it is, is in `FindIsFirstMatch` |
| Parser.FindIsFirstMatch | src/parser.rs:160-163 | `find` returns the first table entry that equals the text, or reports that none does |
| Parser.FindC0 | src/parser.rs:160-163 | a 7-bit character is found in `C0_CODES` exactly when it is a C0 code other than ESC, and then it is found as that function |
| Parser.FindC1 | src/parser.rs:220-223 | ESC and a 7-bit character are found in `C1_CODES` exactly when the character is an assigned C1 code other than `[` |
| Parser.FindIndependent | src/parser.rs:236-239 | ESC and a 7-bit character are found in the independent table exactly when the character is an independent code |
| Parser.IsCsi | src/parser.rs:252 | ESC and a 7-bit character equal CSI exactly when the character is `[` |
| Parser.Recognize | src/parser.rs:146-346 | a function found at a position spans at least one character and stays within the input; what is found is in `RecognizeIsReference` |
| Parser.AfterEscape | src/parser.rs:176-346 | after ESC, a function found spans at least one character within the input; what is found is in `AfterEscapeIsReference` |
| Parser.AfterCsi | src/parser.rs:252-346 | after `ESC [`, a control sequence found spans more than the two characters of CSI and stays within the input; when it is found is in `AfterCsiIsSequenceBody` |
| Parser.RecognizeIsReference | src/parser.rs:146-346 | one turn of the loop agrees with the range-based reference: text; a C0 code; ESC alone at the end, before non-ASCII or before an unlisted character; ESC with a C1 or independent code; ESC `[` and the scan |
| Parser.AfterEscapeIsReference | src/parser.rs:176-346 | the look-ahead after ESC agrees with the range-based reference |
| Parser.AfterCsiIsSequenceBody | src/parser.rs:252-346 | after `ESC [` a function is found exactly when a well-formed body follows; if none does, the ESC is left in the text |
| Parser.RecognizeText | src/parser.rs:146-211 | a character at or above `02/00` starts no function: non-ASCII and ordinary 7-bit characters stay in the text |
| Parser.RecognizeControlSequence | src/parser.rs:252-334 | `ESC [` followed by a well-formed body is recognised as the sequence that body denotes, with its full length |
| Parser.EmitCurrentString | src/parser.rs:123-132 | pending text is handed out as one text token and the position moves to its end; without pending text nothing changes. Stated as a step in `StepAtText` |
| Parser.NextFrom | src/parser.rs:138-351 | the loop of `next` from a position: it keeps the input, never moves back and moves forward when it hands out a token; the full step is in `NextIsStep` |
| Parser.Next | src/parser.rs:137-351 | `next` never moves the position back and moves it forward whenever it hands out a token |
| Parser.NextIsStep | src/parser.rs:123-351 | `next` hands out nothing only at the end of the input. Otherwise it hands out a token that spells the input from the old position to the new one: either the longest function-free text or the function found there |
| Parser.NextAfterEnd | src/parser.rs:137-351 | once `next` returns nothing, the stream is unchanged and every further call returns nothing |
| Parser.StepAtFunction | src/parser.rs:160-172 | with no pending text, a function found at the position is handed out and skipped |
| Parser.StepAtText | src/parser.rs:123-132 | pending text is handed out, and the walk stops at the next function, before that function |
| Parser.Collect | src/parser.rs:137-351 | the tokens `next` hands out until it returns nothing; they spell the rest of the input by `CollectSpellsInput` |
| Parser.Tokenize | src/parser.rs:100-106 | `TokenStream::from` and collect; stated by `TokenizeReconstructs`, `TokenizeTexts` and `RoundTrip.TokenizeSpelled` |
| Parser.CollectSpellsInput | src/parser.rs:123-351 | the tokens of a stream spell the rest of its input exactly |
| Parser.TokenizeReconstructs | src/parser.rs:123-351 | concatenating the texts and the renderings of the functions of `Tokenize(v)` gives `v` |
| Parser.TokenizeTexts | src/parser.rs:123-132 | no text token is empty, and no two text tokens are adjacent |
| Parser.TokenizePlainText | src/parser.rs:137-152 | input without C0 codes is one text token, or no token if it is empty |
| RoundTrip.TokenizeSingleFunction | src/parser.rs:137-351 | a text decodes to a single function exactly when a function spanning all of it is recognised at its start |
| RoundTrip.RecognizeC0Rendering | src/parser.rs:160-211 | every C0 function, ESC included, is recognised from its rendering |
| RoundTrip.RecognizeEscapeRendering | src/parser.rs:213-249 | ESC and a C1 or independent code are read as that function exactly when the code is in the decoder's tables |
| RoundTrip.RecognizeEscapePair | src/parser.rs:176-346 | ESC followed by a character from `04/00` on reads as a C1 function, as an independent function, as nothing (the failed scan of `ESC [`), or as ESC alone |
| RoundTrip.RecognizeSequenceRendering | src/parser.rs:252-334 | a rendered control sequence is recognised in full exactly when the text after CSI is a well-formed body |
| RoundTrip.SequenceOfRendering | src/parser.rs:280-308 | a sequence with at least one parameter, all of parameter bytes other than `;`, is read back as itself |
| RoundTrip.RenderRoundTrip | src/parser.rs:137-351 | the rendering of a valid function decodes to a single function exactly when the function is decodable. A decodable C0, C1 or independent function comes back unchanged, and so does a control sequence with at least one parameter, all of them plain (parameter bytes other than `;`) |
| RoundTrip.RecognizeRenderingPrefix | src/parser.rs:137-351 | an exact function is recognised from its rendering whatever text follows |
| RoundTrip.TokenizeSpelled | src/parser.rs:123-351 | a canonical list of tokens, spelled out and decoded, gives back the same list: the converse of `TokenizeReconstructs` |
| RoundTrip.EncodedRoundTrip | src/control_sequences.rs:73-155 | a `sequence!` result with at least one number, on an identifier of the builders' form (a final byte in columns `04`–`07`, alone or after `02/00`), is exact and decodes to exactly itself; no validity assumption is needed |
| RoundTrip.EncodedEmptyRoundTrip | src/control_sequences.rs:73-155 | a `sequence!` result with no numbers, on an identifier of the builders' form, decodes to the same sequence with one empty parameter, and so not to itself |
| RoundTrip.EmptyListBuilders | src/control_sequences.rs:1841-1844 | `SGR(Some([]))`, `SM([])` and `RM([])` decode to `m`, `h` and `l` with one empty parameter |
| RoundTrip.ModeSettingRoundTrip | src/modes.rs:500-510 | `set` and `reset` decode to themselves, and then to the mode and direction |
| RoundTrip.TokenizeControlString | src/control_strings.rs:43-84 | a control string whose content has no C0 code decodes to its opener, its content as one text, and STRING TERMINATOR; with empty content, to the opener and STRING TERMINATOR alone |
| RoundTrip.ExampleA | src/parser.rs:870-885 | `ESC[0u ESC[62c ESC[23;6H` decodes to the private-use `u` with parameter `0`, DA identifying as 62, and CUP(23, 6) |
| RoundTrip.ExampleNextLine | src/parser.rs:14-28 | three lines separated by NEL decode to the three texts with NEL between them |
| RoundTrip.ExampleInvalidControlSequence | src/parser.rs:651-662 | `ESC ESC [ ä` decodes to ESC alone followed by the text `ESC [ ä` |
| RoundTrip.ExampleCursorPosition | src/control_sequences.rs:295-297 | CUP(23, 6) is written `ESC[23;6H` and reads back as itself |
| RoundTrip.ExampleDebug | src/lib.rs:433-445 | `Debug` shows BEL as `00/07`, and `CUP(None, Some(10))` as `04/08` with parameters `1` and `10` |

## Left out

- `src/explain.rs` and `src/categories.rs` are not part of this model. The first holds description prose
  and its lookup tables; the second only re-exports.
- The `Display` text of `InvalidControlFunction` and its `Error` impl are fixed messages and are not
  modelled. `Debug` of `ControlFunctionType` is also left out.
- Of `Debug` of `ControlFunction`, only the `function` field (the `xx/yy` notation) is modelled. The
  struct formatting around it is not.
- `From<ControlFunction> for String` is `Render`.
- The two reverse `PartialEq` impls (`&str == ControlFunction`, `String == ControlFunction`) only swap
  their arguments and are not modelled separately.
- The `unsafe from_utf8_unchecked` of `ascii!` is modelled as a checked 7-bit character.
- `get_next_char_boundary` and UTF-8 character boundaries are abstracted: input is a sequence of
  characters, and a boundary is an index into it.
- Rust lifetimes and the borrowed slices in `Token::String` are modelled as copied sub-sequences.
- ControlFunctions.EqualsStr: requires `Comparable`. The source panics when it compares a C1 or
  independent function with a string that is a single two-byte character, because it slices inside that
  character.
- ControlFunctions.PrivateUse: requires a non-empty identifier, because the source indexes `value[0..1]`
  and panics on the empty string.
- ControlFunctions.EqualsStrIsRenderEquality: stated for identifiers of one 7-bit character, which is
  every C1 and independent function the library defines.
- RoundTrip.TokenizeSpelled: proved only for canonical token lists. Other lists are not read back as
  themselves:
  - text that holds a function;
  - two adjacent texts;
  - ESC followed by text;
  - parameters that are empty or hold `;`.
- RoundTrip.RenderRoundTrip: a control sequence with no parameters, or with parameters that are not
  plain, is decodable but not read back unchanged. For example, `[]` comes back as `[""]`.
- `Modes.FromValue`, `ControlSequences.RenditionFromValue`, `ControlStrings.Unwrap` and
  `ModeSetting.Setting` have no counterpart in the library. They are inverses introduced to state the
  catalogs' and builders' round trips.
- RoundTrip.EncodedRoundTrip: stated for builder results with at least one number. `SGR(Some([]))`, `SM([])`
  and `RM([])` have none and are not read back as themselves; `EncodedEmptyRoundTrip` and `EmptyListBuilders`
  state what they come back as.
- ControlFunctions.RenderedParameters: stated for parameters without `;`. A parameter that holds `;` splits
  into several when read back.
- Parameter values are `u32` (`ControlSequences.U32`). Builders never overflow, since they only write
  numbers out.

## Findings

| source | as written | input that shows it | evidently intended | confidence | as-written member | corrected member |
|---|---|---|---|---|---|---|
| src/control_sequences.rs:2144-2146 | `SR` is built on `02/00 05/08`, the identifier of `SPQR` | `SR(Some(0))`, which equals `SPQR(None)` | `02/00 04/01`, as in the module's overview table (src/control_sequences.rs:48) and `src/explain.rs:401` | not executed | ControlSequences.SRAsWrittenCollidesWithSPQR | ControlSequences.SRParameters |
