/**
 * The decoder of src/parser.rs. A `TokenStream` walks its input once and hands out, one at a time, the runs of
 * text that hold no control function and the control functions found between them. Malformed control
 * sequences degrade to text; the walk never fails.
 *
 * Input is a sequence of characters: the character boundaries the source computes on UTF-8 bytes are the
 * positions of this sequence, and a character is 7-bit exactly when its UTF-8 form is a single byte.
 */
module Parser {
  import opened Wrappers
  import opened Characters
  import opened Strings
  import opened ControlFunctions
  import opened LookupTables
  import C0
  import C1

  // ---- Byte classes ------------------------------------------------------------------------------

  /**
   * `CONTROL_FUNCTION_LOWER_BOUND` `04/00` to `CONTROL_FUNCTION_UPPER_BOUND` `07/15`: the final byte of a
   * control sequence, private-use finals and DEL included.
   */
  predicate IsFinalByte(c: char) {
    0x40 <= c as int <= 0x7F
  }

  /** `PARAMETER_LOWER_BOUND` `03/00` to `PARAMETER_UPPER_BOUND` `03/15`: a parameter byte. */
  predicate IsParameterByte(c: char) {
    0x30 <= c as int <= 0x3F
  }

  // ---- Control sequences -------------------------------------------------------------------------

  /**
   * What follows CSI in a well-formed control sequence: parameter bytes, then at most one intermediate byte
   * `02/00` directly before the final byte, then the final byte.
   */
  predicate IsSequenceBody(t: string) {
    && |t| >= 1
    && IsFinalByte(t[|t| - 1])
    && forall i :: 0 <= i < |t| - 1 ==> IsParameterByte(t[i]) || (i == |t| - 2 && t[i] == INTERMEDIATE)
  }

  /** The number of characters of the identifier at the end of a sequence body: the final byte, and the intermediate byte if present. */
  function IdentifierLength(t: string): nat
    requires |t| >= 1
  {
    if |t| >= 2 && t[|t| - 2] == INTERMEDIATE then 2 else 1
  }

  /** The control sequence a body denotes: the identifier at its end, the text before split on `;`. */
  function SequenceOf(t: string): ControlFunction
    requires IsSequenceBody(t)
  {
    var n := IdentifierLength(t);
    NewSequence(t[|t| - n..], Split(t[..|t| - n], SEPARATOR))
  }

  /** The control sequence a body denotes is well formed and is written as CSI followed by the body. */
  lemma SequenceOfRenders(t: string)
    requires IsSequenceBody(t)
    ensures Valid(SequenceOf(t))
    ensures Render(SequenceOf(t)) == [ESCAPE, CSI_FINAL] + t
  {
    var n := IdentifierLength(t);
    JoinSplit(t[..|t| - n], SEPARATOR);
    assert t == t[..|t| - n] + t[|t| - n..];
  }

  /**
   * `'control_sequence_loop` of `next`, over `body`, the text after `ESC [`, at position `k`; `intermediate`
   * says whether the character before `k` was the intermediate byte. The result is the control sequence found
   * and the length of body it spans, or `None` when the loop breaks out.
   */
  function ScanFrom(body: string, k: nat, intermediate: bool): Option<(ControlFunction, nat)>
    requires k <= |body|
    requires intermediate ==> 0 < k && body[k - 1] == INTERMEDIATE
    decreases |body| - k
  {
    if k == |body| then None
    else
      var c := body[k];
      if !IsAscii(c) then None
      else if IsFinalByte(c) then
        var value := if intermediate then body[k - 1..k + 1] else [c];
        var parametersUnparsed := if intermediate then body[..k - 1] else body[..k];
        Some((NewSequence(value, Split(parametersUnparsed, SEPARATOR)), k + 1))
      else if intermediate then None
      else if !IsParameterByte(c) then
        if c == INTERMEDIATE then ScanFrom(body, k + 1, true) else None
      else ScanFrom(body, k + 1, false)
  }

  /** The scan of a control sequence whose CSI has just been read. */
  function Scan(body: string): Option<(ControlFunction, nat)> {
    ScanFrom(body, 0, false)
  }

  /** What the scan has read before position `k`: parameter bytes, and the intermediate byte just before `k` if `intermediate`. */
  predicate ScannedPrefix(body: string, k: nat, intermediate: bool)
    requires k <= |body|
  {
    && (intermediate ==> 0 < k && body[k - 1] == INTERMEDIATE)
    && forall i :: 0 <= i < k ==> IsParameterByte(body[i]) || (intermediate && i == k - 1)
  }

  /** What the scan finds from `k` on is a well-formed sequence body, and the sequence that body denotes. */
  lemma {:induction false} ScanFromSound(body: string, k: nat, intermediate: bool)
    requires k <= |body| && ScannedPrefix(body, k, intermediate)
    ensures var r := ScanFrom(body, k, intermediate);
      r.Some? ==> k < r.value.1 <= |body| && IsSequenceBody(body[..r.value.1]) && r.value.0 == SequenceOf(body[..r.value.1])
    decreases |body| - k
  {
    if k < |body| && IsAscii(body[k]) {
      var c := body[k];
      if IsFinalByte(c) {
        var t := body[..k + 1];
        assert t[|t| - 1] == c;
        if intermediate {
          assert IdentifierLength(t) == 2;
          assert t[|t| - 2..] == body[k - 1..k + 1] && t[..|t| - 2] == body[..k - 1];
        } else {
          assert k > 0 ==> IsParameterByte(t[|t| - 2]);
          assert IdentifierLength(t) == 1;
          assert t[|t| - 1..] == [c] && t[..|t| - 1] == body[..k];
        }
      } else if !intermediate {
        if !IsParameterByte(c) {
          if c == INTERMEDIATE {
            ScanFromSound(body, k + 1, true);
          }
        } else {
          ScanFromSound(body, k + 1, false);
        }
      }
    }
  }

  /** A well-formed sequence body at the start of `body` is found by the scan from any point of its prefix. */
  lemma {:induction false} ScanFromComplete(body: string, k: nat, intermediate: bool, n: nat)
    requires k < n <= |body| && IsSequenceBody(body[..n]) && ScannedPrefix(body, k, intermediate)
    ensures ScanFrom(body, k, intermediate) == Some((SequenceOf(body[..n]), n))
    decreases |body| - k
  {
    var t := body[..n];
    assert forall i :: 0 <= i < n ==> t[i] == body[i];
    if intermediate && k < n - 1 {
      assert false;
    }
    if k == n - 1 {
      var c := body[k];
      if intermediate {
        assert IdentifierLength(t) == 2;
        assert t[|t| - 2..] == body[k - 1..k + 1] && t[..|t| - 2] == body[..k - 1];
      } else {
        assert k > 0 ==> IsParameterByte(body[k - 1]);
        assert IdentifierLength(t) == 1;
        assert t[|t| - 1..] == [c] && t[..|t| - 1] == body[..k];
      }
    } else {
      if IsParameterByte(body[k]) {
        ScanFromComplete(body, k + 1, false, n);
      } else {
        assert k == n - 2 && body[k] == INTERMEDIATE;
        ScanFromComplete(body, k + 1, true, n);
      }
    }
  }

  /**
   * The scan succeeds exactly on a text that starts with a well-formed sequence body, and then returns the
   * sequence that body denotes and its length; so at most one prefix of any text is a sequence body.
   */
  lemma ScanIsSequenceBody(body: string)
    ensures Scan(body).Some? ==>
      var (f, n) := Scan(body).value;
      0 < n <= |body| && IsSequenceBody(body[..n]) && f == SequenceOf(body[..n])
    ensures forall n :: 0 < n <= |body| && IsSequenceBody(body[..n]) ==> Scan(body) == Some((SequenceOf(body[..n]), n))
  {
    ScanFromSound(body, 0, false);
    forall n | 0 < n <= |body| && IsSequenceBody(body[..n])
      ensures Scan(body) == Some((SequenceOf(body[..n]), n))
    {
      ScanFromComplete(body, 0, false, n);
    }
  }

  // ---- Table lookups -----------------------------------------------------------------------------

  /**
   * `codes.into_iter().find(|code| code == s)`: the position of the first entry equal to `s` under string
   * equality, or `|codes|` when there is none.
   */
  function Find(codes: seq<ControlFunction>, s: string): (k: nat)
    requires forall j :: 0 <= j < |codes| ==> Comparable(codes[j], s)
    ensures k <= |codes|
    decreases |codes|
  {
    if |codes| == 0 then 0
    else if EqualsStr(codes[0], s) then 0
    else 1 + Find(codes[1..], s)
  }

  /** `Find` returns the first entry equal to `s`: none before it is, and it is unless it is past the end. */
  lemma {:induction false} FindIsFirstMatch(codes: seq<ControlFunction>, s: string)
    requires forall j :: 0 <= j < |codes| ==> Comparable(codes[j], s)
    ensures Find(codes, s) < |codes| ==> EqualsStr(codes[Find(codes, s)], s)
    ensures forall j :: 0 <= j < Find(codes, s) ==> !EqualsStr(codes[j], s)
    decreases |codes|
  {
    if |codes| > 0 && !EqualsStr(codes[0], s) {
      FindIsFirstMatch(codes[1..], s);
      forall j | 0 <= j < Find(codes, s)
        ensures !EqualsStr(codes[j], s)
      {
        if j > 0 {
          assert codes[j] == codes[1..][j - 1];
        }
      }
    }
  }

  /** A 7-bit character matches an entry of `C0_CODES` exactly when it is a C0 code other than ESC, and then it matches that code's function. */
  lemma FindC0(c: char)
    requires IsAscii(c)
    ensures Find(C0_CODES, [c]) < |C0_CODES| <==> IsC0Code(c as int)
    ensures Find(C0_CODES, [c]) < |C0_CODES| ==> C0_CODES[Find(C0_CODES, [c])] == NewC0([c])
  {
    C0CodesShape();
    C0CodesLookup(c as int);
    FindIsFirstMatch(C0_CODES, [c]);
    if IsC0Code(c as int) {
      var i :| 0 <= i < |C0_CODES| && C0_CODES[i].value == [c as int as char];
      assert EqualsStr(C0_CODES[i], [c]);
    }
  }

  /** ESC and a 7-bit character are two bytes. */
  lemma EscapePairLength(d: char)
    requires IsAscii(d)
    ensures Utf8Len([ESCAPE, d]) == 2
  {
    assert [ESCAPE, d][1..] == [d];
  }

  /** ESC and a 7-bit character match an entry of `C1_CODES` exactly when the character is a C1 code other than `[`. */
  lemma FindC1(d: char)
    requires IsAscii(d)
    ensures Find(C1_CODES, [ESCAPE, d]) < |C1_CODES| <==> IsC1Code(d as int)
    ensures Find(C1_CODES, [ESCAPE, d]) < |C1_CODES| ==> C1_CODES[Find(C1_CODES, [ESCAPE, d])] == NewC1([d])
  {
    C1CodesShape();
    C1CodesLookup(d as int);
    EscapePairLength(d);
    FindIsFirstMatch(C1_CODES, [ESCAPE, d]);
    if IsC1Code(d as int) {
      var i :| 0 <= i < |C1_CODES| && C1_CODES[i].value == [d as int as char];
      assert EqualsStr(C1_CODES[i], [ESCAPE, d]);
    }
  }

  /** ESC and a 7-bit character match an entry of `INDEPENDENT_CODES` exactly when the character is an independent function's code. */
  lemma FindIndependent(d: char)
    requires IsAscii(d)
    ensures Find(INDEPENDENT_CODES, [ESCAPE, d]) < |INDEPENDENT_CODES| <==> IsIndependentCode(d as int)
    ensures Find(INDEPENDENT_CODES, [ESCAPE, d]) < |INDEPENDENT_CODES| ==>
      INDEPENDENT_CODES[Find(INDEPENDENT_CODES, [ESCAPE, d])] == NewIndependent([d])
  {
    IndependentCodesShape();
    IndependentCodesLookup(d as int);
    EscapePairLength(d);
    FindIsFirstMatch(INDEPENDENT_CODES, [ESCAPE, d]);
    if IsIndependentCode(d as int) {
      var i :| 0 <= i < |INDEPENDENT_CODES| && INDEPENDENT_CODES[i].value == [d as int as char];
      assert EqualsStr(INDEPENDENT_CODES[i], [ESCAPE, d]);
    }
  }

  /** `control_sequence == CSI` holds of ESC and a 7-bit character exactly when the character is `[`. */
  lemma IsCsi(d: char)
    requires IsAscii(d)
    ensures EqualsStr(C1.CSI, [ESCAPE, d]) <==> d == CSI_FINAL
  {
    EscapePairLength(d);
    assert C1.CSI.functionType == ControlFunctionType.C1 && C1.CSI.value == [CSI_FINAL];
    assert [ESCAPE, d][1..2] == [d];
  }

  // ---- Recognition at one position ---------------------------------------------------------------

  /** The outcome of one turn of the loop of `next`. */
  datatype Recognition =
    | Plain                                          // the character stays in the pending text
    | Found(controlFunction: ControlFunction, length: nat)  // a control function of `length` characters starts here

  /**
   * One turn of the loop of `next` at a character boundary, `rest` being the input from there on: non-ASCII
   * text, a C0 code, ESC (handled by `AfterEscape`), or any other 7-bit text.
   */
  function Recognize(rest: string): (r: Recognition)
    requires |rest| > 0
    ensures r.Found? ==> 0 < r.length <= |rest|
  {
    var c := rest[0];
    if !IsAscii(c) then Plain
    else if Find(C0_CODES, [c]) < |C0_CODES| then Found(C0_CODES[Find(C0_CODES, [c])], 1)
    else if c != ESCAPE then Plain
    else AfterEscape(rest)
  }

  /**
   * The look-ahead after ESC: ESC alone at the end of the input or before a non-ASCII character; ESC with a C1
   * code or an independent code; CSI and the scan of a control sequence, whose failure leaves the ESC in the
   * pending text; otherwise ESC alone.
   */
  function AfterEscape(rest: string): (r: Recognition)
    requires |rest| > 0 && rest[0] == ESCAPE
    ensures r.Found? ==> 0 < r.length <= |rest|
  {
    if |rest| == 1 || !IsAscii(rest[1]) then Found(C0.ESC, 1)
    else
      var controlSequence := rest[..2];
      if Find(C1_CODES, controlSequence) < |C1_CODES| then Found(C1_CODES[Find(C1_CODES, controlSequence)], 2)
      else if Find(INDEPENDENT_CODES, controlSequence) < |INDEPENDENT_CODES| then
        Found(INDEPENDENT_CODES[Find(INDEPENDENT_CODES, controlSequence)], 2)
      else if EqualsStr(C1.CSI, controlSequence) then AfterCsi(rest)
      else Found(C0.ESC, 1)
  }

  /** The control sequence after `ESC [`, or the pending text when the scan fails. */
  function AfterCsi(rest: string): (r: Recognition)
    requires |rest| >= 2
    ensures r.Found? ==> 2 < r.length <= |rest|
  {
    ScanFromSound(rest[2..], 0, false);
    match Scan(rest[2..])
    case Some((f, n)) => Found(f, n + 2)
    case None => Plain
  }

  /**
   * The same recognition stated by code ranges instead of table look-ups: a C0 code other than ESC; ESC with
   * an assigned C1 code other than `[`, or with an independent code; ESC `[` and a control sequence; ESC alone.
   */
  function Reference(rest: string): Recognition
    requires |rest| > 0
  {
    var c := rest[0];
    if c as int >= 0x20 then Plain
    else if c != ESCAPE then Found(NewC0([c]), 1)
    else if |rest| == 1 || !IsAscii(rest[1]) then Found(C0.ESC, 1)
    else if IsC1Code(rest[1] as int) then Found(NewC1([rest[1]]), 2)
    else if IsIndependentCode(rest[1] as int) then Found(NewIndependent([rest[1]]), 2)
    else if rest[1] == CSI_FINAL then AfterCsi(rest)
    else Found(C0.ESC, 1)
  }

  /** The look-ahead after ESC agrees with the code ranges. */
  lemma AfterEscapeIsReference(rest: string)
    requires |rest| > 0 && rest[0] == ESCAPE
    ensures AfterEscape(rest) == Reference(rest)
  {
    if |rest| >= 2 && IsAscii(rest[1]) {
      assert rest[..2] == [ESCAPE, rest[1]];
      FindC1(rest[1]);
      FindIndependent(rest[1]);
      IsCsi(rest[1]);
    }
  }

  /** The decoder's table look-ups recognise exactly what the code ranges describe. */
  lemma RecognizeIsReference(rest: string)
    requires |rest| > 0
    ensures Recognize(rest) == Reference(rest)
  {
    if IsAscii(rest[0]) {
      FindC0(rest[0]);
      if rest[0] == ESCAPE {
        AfterEscapeIsReference(rest);
      }
    }
  }

  /** A control function starts at position `j` of `value`. */
  predicate StartsFunction(value: string, j: nat)
    requires j < |value|
  {
    Recognize(value[j..]).Found?
  }

  /** Text from `from` to `to` holds no start of a control function. */
  predicate PlainBetween(value: string, from: nat, to: nat)
    requires from <= to <= |value|
  {
    forall j :: from <= j < to ==> !StartsFunction(value, j)
  }

  /**
   * After `ESC [` a control function is recognised exactly when a well-formed sequence body follows; it is the
   * sequence that body denotes. Otherwise the ESC stays in the pending text.
   */
  lemma AfterCsiIsSequenceBody(rest: string)
    requires |rest| >= 2
    ensures AfterCsi(rest).Found? ==>
      var n := AfterCsi(rest).length;
      2 < n <= |rest| && IsSequenceBody(rest[2..n]) && AfterCsi(rest).controlFunction == SequenceOf(rest[2..n])
    ensures forall n :: 2 < n <= |rest| && IsSequenceBody(rest[2..n]) ==> AfterCsi(rest) == Found(SequenceOf(rest[2..n]), n)
  {
    AfterCsiSound(rest);
    forall n | 2 < n <= |rest| && IsSequenceBody(rest[2..n])
      ensures AfterCsi(rest) == Found(SequenceOf(rest[2..n]), n)
    {
      AfterCsiComplete(rest, n);
    }
  }

  /** What `AfterCsi` finds spans a well-formed sequence body and is the sequence it denotes. */
  lemma AfterCsiSound(rest: string)
    requires |rest| >= 2
    ensures AfterCsi(rest).Found? ==>
      var n := AfterCsi(rest).length;
      2 < n <= |rest| && IsSequenceBody(rest[2..n]) && AfterCsi(rest).controlFunction == SequenceOf(rest[2..n])
  {
    var body := rest[2..];
    ScanFromSound(body, 0, false);
    if AfterCsi(rest).Found? {
      var n := AfterCsi(rest).length;
      assert rest[2..n] == body[..n - 2];
    }
  }

  /** A well-formed sequence body right after `ESC [` is found by `AfterCsi`. */
  lemma AfterCsiComplete(rest: string, n: nat)
    requires 2 < n <= |rest| && IsSequenceBody(rest[2..n])
    ensures AfterCsi(rest) == Found(SequenceOf(rest[2..n]), n)
  {
    var body := rest[2..];
    assert rest[2..n] == body[..n - 2];
    ScanFromComplete(body, 0, false, n - 2);
  }

  /** A control sequence found after `ESC [` is well formed and written exactly as the text it was read from. */
  lemma AfterCsiFound(rest: string)
    requires |rest| >= 2 && rest[..2] == [ESCAPE, CSI_FINAL]
    ensures AfterCsi(rest).Found? ==>
      var r := AfterCsi(rest);
      0 < r.length <= |rest| && Render(r.controlFunction) == rest[..r.length] && Valid(r.controlFunction)
  {
    var r := AfterCsi(rest);
    if r.Found? {
      AfterCsiIsSequenceBody(rest);
      SequenceOfRenders(rest[2..r.length]);
      assert rest[..r.length] == rest[..2] + rest[2..r.length];
    }
  }

  /** What the reference recognises is a well-formed control function, written exactly as the text it was read from. */
  lemma ReferenceFound(rest: string)
    requires |rest| > 0
    ensures Reference(rest).Found? ==>
      var r := Reference(rest);
      0 < r.length <= |rest| && Render(r.controlFunction) == rest[..r.length] && Valid(r.controlFunction)
  {
    var c := rest[0];
    if c == ESCAPE && |rest| >= 2 && IsAscii(rest[1]) {
      var d := rest[1];
      assert rest[..2] == [ESCAPE, d];
      if !IsC1Code(d as int) && !IsIndependentCode(d as int) && d == CSI_FINAL {
        AfterCsiFound(rest);
      }
    }
  }

  /** What is recognised is a well-formed control function, written exactly as the text it was read from. */
  lemma RecognizeFound(rest: string)
    requires |rest| > 0
    ensures Recognize(rest).Found? ==>
      var r := Recognize(rest);
      0 < r.length <= |rest| && Render(r.controlFunction) == rest[..r.length] && Valid(r.controlFunction)
  {
    RecognizeIsReference(rest);
    ReferenceFound(rest);
  }

  /** The reference reads text without C0 codes (non-ASCII, printable, DEL) as pending text. */
  lemma RecognizeText(rest: string)
    requires |rest| > 0 && rest[0] as int >= 0x20
    ensures Recognize(rest) == Plain
  {
    RecognizeIsReference(rest);
  }

  /**
   * ESC `[` starts a control function exactly when a well-formed sequence body follows, and then it is the
   * sequence that body denotes; a failed scan leaves the ESC in the pending text.
   */
  lemma RecognizeControlSequence(rest: string)
    requires |rest| >= 2 && rest[..2] == [ESCAPE, CSI_FINAL]
    ensures Recognize(rest).Found? ==>
      var n := Recognize(rest).length;
      2 < n <= |rest| && IsSequenceBody(rest[2..n]) && Recognize(rest).controlFunction == SequenceOf(rest[2..n])
    ensures forall n :: 2 < n <= |rest| && IsSequenceBody(rest[2..n]) ==> Recognize(rest) == Found(SequenceOf(rest[2..n]), n)
  {
    assert rest[0] == ESCAPE && rest[1] == CSI_FINAL;
    RecognizeIsReference(rest);
    AfterCsiIsSequenceBody(rest);
  }

  // ---- The token stream --------------------------------------------------------------------------

  /** `Token`: a run of text without control functions, or a control function. */
  datatype Token = Text(text: string) | Function(controlFunction: ControlFunction)

  /** The text a token stands for: text verbatim, a function as it renders. */
  function Spelling(t: Token): string {
    match t
    case Text(text) => text
    case Function(f) => Render(f)
  }

  /** The text a list of tokens stands for. */
  function Spell(tokens: seq<Token>): string
    decreases |tokens|
  {
    if |tokens| == 0 then "" else Spelling(tokens[0]) + Spell(tokens[1..])
  }

  /** `TokenStream`: the input and the position up to which tokens have been handed out. */
  datatype TokenStream = TokenStream(value: string, position: nat)

  /** `TokenStream::from`. */
  function From(value: string): TokenStream {
    TokenStream(value, 0)
  }

  /** `emit_current_string`: the pending text up to `position` as a token, if there is any. */
  function EmitCurrentString(s: TokenStream, position: nat): (Option<Token>, TokenStream)
    requires s.position <= position <= |s.value|
  {
    if position != s.position then (Some(Text(s.value[s.position..position])), s.(position := position))
    else (None, s)
  }

  /**
   * One call of `next` on `s` returns `token` and leaves the stream as `s'`: nothing, once the input is used
   * up; otherwise a token that spells the input from the old position to the new one: either the longest run
   * of text from there that starts no control function, or the control function that starts there.
   */
  predicate IsStep(s: TokenStream, token: Option<Token>, s': TokenStream)
    requires s.position <= |s.value|
  {
    && s'.value == s.value && s.position <= s'.position <= |s.value|
    && (token.None? <==> s.position == |s.value|)
    && (token.None? ==> s' == s)
    && (token.Some? ==> s.position < s'.position && Spelling(token.value) == s.value[s.position..s'.position])
    && (token.Some? && token.value.Text? ==>
          && PlainBetween(s.value, s.position, s'.position)
          && (s'.position < |s.value| ==> StartsFunction(s.value, s'.position)))
    && (token.Some? && token.value.Function? ==>
          Recognize(s.value[s.position..]) == Found(token.value.controlFunction, s'.position - s.position))
  }

  /** The loop of `next` from `current`, everything from the stream's position to `current` being pending text. */
  function NextFrom(s: TokenStream, current: nat): (r: (Option<Token>, TokenStream))
    requires s.position <= current <= |s.value|
    ensures r.1.value == s.value && s.position <= r.1.position <= |s.value|
    ensures r.0.Some? ==> s.position < r.1.position
    decreases |s.value| - current
  {
    if current == |s.value| then EmitCurrentString(s, current)
    else
      match Recognize(s.value[current..])
      case Plain => NextFrom(s, current + 1)
      case Found(f, n) =>
        var (token, s') := EmitCurrentString(s, current);
        if token.Some? then (token, s') else (Some(Function(f)), s.(position := current + n))
  }

  /** `Iterator::next` of `TokenStream`. */
  function Next(s: TokenStream): (r: (Option<Token>, TokenStream))
    requires s.position <= |s.value|
    ensures r.1.value == s.value && s.position <= r.1.position <= |s.value|
    ensures r.0.Some? ==> s.position < r.1.position
  {
    NextFrom(s, s.position)
  }

  /** Where a control function starts after pending text, the loop hands out that text. */
  lemma TextStep(s: TokenStream, current: nat)
    requires s.position < current < |s.value| && PlainBetween(s.value, s.position, current)
    requires Recognize(s.value[current..]).Found?
    ensures IsStep(s, NextFrom(s, current).0, NextFrom(s, current).1)
  {
    assert NextFrom(s, current).0 == Some(Text(s.value[s.position..current]));
    assert NextFrom(s, current).1.position == current;
  }

  /** With no pending text, the loop hands out the control function that starts at the position. */
  lemma NextFromAtFunction(s: TokenStream)
    requires s.position < |s.value| && Recognize(s.value[s.position..]).Found?
    ensures NextFrom(s, s.position).0 == Some(Function(Recognize(s.value[s.position..]).controlFunction))
    ensures NextFrom(s, s.position).1.position == s.position + Recognize(s.value[s.position..]).length
  {
  }

  /** The first `n` characters from `p` on. */
  lemma PrefixOfSuffix(v: string, p: nat, n: nat)
    requires p + n <= |v|
    ensures v[p..][..n] == v[p..p + n]
  {
  }

  /** The control function the loop hands out with no pending text is written as the input it spans. */
  lemma FunctionSpelling(s: TokenStream)
    requires s.position < |s.value| && Recognize(s.value[s.position..]).Found?
    ensures Spelling(NextFrom(s, s.position).0.value) == s.value[s.position..NextFrom(s, s.position).1.position]
  {
    var rest := s.value[s.position..];
    var r := Recognize(rest);
    RecognizeFound(rest);
    NextFromAtFunction(s);
    PrefixOfSuffix(s.value, s.position, r.length);
  }

  /** Where a control function starts with no pending text, the loop hands out the function. */
  lemma FunctionStep(s: TokenStream)
    requires s.position < |s.value| && Recognize(s.value[s.position..]).Found?
    ensures IsStep(s, NextFrom(s, s.position).0, NextFrom(s, s.position).1)
  {
    NextFromAtFunction(s);
    FunctionSpelling(s);
  }

  /** At the end of the input the loop hands out the pending text, if any, and otherwise nothing. */
  lemma EndStep(s: TokenStream, current: nat)
    requires s.position <= current == |s.value| && PlainBetween(s.value, s.position, current)
    ensures IsStep(s, NextFrom(s, current).0, NextFrom(s, current).1)
  {
  }

  /** A character that starts no control function joins the pending text, and the loop goes on after it. */
  lemma PlainAdvance(s: TokenStream, current: nat)
    requires s.position <= current < |s.value| && PlainBetween(s.value, s.position, current)
    requires Recognize(s.value[current..]).Plain?
    ensures PlainBetween(s.value, s.position, current + 1)
    ensures NextFrom(s, current) == NextFrom(s, current + 1)
  {
  }

  /** The loop of `next` performs one step of the stream, from wherever the pending text reaches. */
  lemma {:induction false} NextFromIsStep(s: TokenStream, current: nat)
    requires s.position <= current <= |s.value| && PlainBetween(s.value, s.position, current)
    ensures IsStep(s, NextFrom(s, current).0, NextFrom(s, current).1)
    decreases |s.value| - current
  {
    if current == |s.value| {
      EndStep(s, current);
    } else {
      if Recognize(s.value[current..]).Plain? {
        PlainAdvance(s, current);
        NextFromIsStep(s, current + 1);
      } else if s.position < current {
        TextStep(s, current);
      } else {
        FunctionStep(s);
      }
    }
  }

  /** `next` hands out the longest run of text that starts no control function, or the function that starts at the position. */
  lemma NextIsStep(s: TokenStream)
    requires s.position <= |s.value|
    ensures IsStep(s, Next(s).0, Next(s).1)
  {
    NextFromIsStep(s, s.position);
  }

  /** The tokens `next` hands out from `s` until it returns `None`. */
  function Collect(s: TokenStream): seq<Token>
    requires s.position <= |s.value|
    decreases |s.value| - s.position
  {
    var (token, s') := Next(s);
    if token.None? then [] else [token.value] + Collect(s')
  }

  /** `TokenStream::from(value).collect()`. */
  function Tokenize(value: string): seq<Token> {
    Collect(From(value))
  }

  // ---- Properties of the stream ------------------------------------------------------------------

  /** Once `next` has returned `None` the stream stays where it is, and every later call returns `None` too. */
  lemma NextAfterEnd(s: TokenStream)
    requires s.position <= |s.value| && Next(s).0.None?
    ensures Next(s).1 == s && s.position == |s.value|
    ensures Next(Next(s).1).0.None?
  {
    NextIsStep(s);
    NextIsStep(Next(s).1);
  }

  /** A list of tokens spells its first token and then the rest. */
  lemma SpellCons(t: Token, tokens: seq<Token>)
    ensures Spell([t] + tokens) == Spelling(t) + Spell(tokens)
  {
    assert ([t] + tokens)[1..] == tokens;
  }

  /** The tokens spell the input from the stream's position on: text verbatim, functions as they render. */
  lemma {:induction false} CollectSpellsInput(s: TokenStream)
    requires s.position <= |s.value|
    ensures Spell(Collect(s)) == s.value[s.position..]
    decreases |s.value| - s.position
  {
    if s.position == |s.value| {
      CollectAtEnd(s);
    } else {
      StepSpelling(s);
      CollectCons(s);
      var s' := Next(s).1;
      CollectSpellsInput(s');
      SpellCons(Next(s).0.value, Collect(s'));
      assert s.value[s.position..] == s.value[s.position..s'.position] + s.value[s'.position..];
    }
  }

  /** Before the end of the input, `next` hands out a token spelling the text up to where the stream moves. */
  lemma StepSpelling(s: TokenStream)
    requires s.position < |s.value|
    ensures Next(s).0.Some? && Next(s).1.value == s.value && s.position < Next(s).1.position <= |s.value|
    ensures Spelling(Next(s).0.value) == s.value[s.position..Next(s).1.position]
  {
    NextIsStep(s);
  }

  /** Concatenating the tokens, text verbatim and functions rendered, gives back the input exactly. */
  lemma TokenizeReconstructs(value: string)
    ensures Spell(Tokenize(value)) == value
  {
    CollectSpellsInput(From(value));
  }

  /** At the end of the input the stream hands out nothing more. */
  lemma CollectAtEnd(s: TokenStream)
    requires s.position == |s.value|
    ensures Next(s).0.None? && Collect(s) == []
  {
    NextIsStep(s);
  }

  /** Before the end of the input the stream hands out a token and goes on from where that token ends. */
  lemma CollectCons(s: TokenStream)
    requires s.position < |s.value|
    ensures Next(s).0.Some? && Collect(s) == [Next(s).0.value] + Collect(Next(s).1)
  {
    NextIsStep(s);
  }

  /** A step from a position where a control function starts hands out that function. */
  lemma StepAtFunction(s: TokenStream)
    requires s.position < |s.value| && Recognize(s.value[s.position..]).Found?
    ensures Next(s).0 == Some(Function(Recognize(s.value[s.position..]).controlFunction))
    ensures Next(s).1.position == s.position + Recognize(s.value[s.position..]).length
  {
    NextIsStep(s);
  }

  /**
   * A step from a position where pending text runs up to `q`, the next start of a control function or the end
   * of the input, hands out that text as one token and stops at `q`.
   */
  lemma StepAtText(s: TokenStream, q: nat)
    requires s.position < q <= |s.value| && PlainBetween(s.value, s.position, q)
    requires q < |s.value| ==> StartsFunction(s.value, q)
    ensures Next(s).0 == Some(Text(s.value[s.position..q]))
    ensures Next(s).1 == s.(position := q)
  {
    NextIsStep(s);
    assert !StartsFunction(s.value, s.position);
  }

  /** No text token is empty. */
  predicate TextsNonEmpty(tokens: seq<Token>) {
    forall i :: 0 <= i < |tokens| && tokens[i].Text? ==> |tokens[i].text| > 0
  }

  /** A text token is followed by a control function, never directly by more text. */
  predicate TextsSeparated(tokens: seq<Token>) {
    forall i :: 0 <= i < |tokens| - 1 && tokens[i].Text? ==> tokens[i + 1].Function?
  }

  /** Text tokens are never empty, and a text token is followed by a function, never by more text. */
  lemma {:induction false} CollectTexts(s: TokenStream)
    requires s.position <= |s.value|
    ensures TextsNonEmpty(Collect(s)) && TextsSeparated(Collect(s))
    decreases |s.value| - s.position
  {
    if s.position == |s.value| {
      CollectAtEnd(s);
    } else {
      NextIsStep(s);
      CollectCons(s);
      var (token, s') := Next(s);
      CollectTexts(s');
      var tokens := Collect(s);
      var rest := Collect(s');
      if token.value.Text? {
        if s'.position < |s.value| {
          StepAtFunction(s');
          CollectCons(s');
          assert rest[0].Function?;
        } else {
          CollectAtEnd(s');
        }
      }
      forall i | 0 <= i < |tokens| && tokens[i].Text?
        ensures |tokens[i].text| > 0
      {
        if i > 0 {
          assert tokens[i] == rest[i - 1];
        }
      }
      forall i | 0 <= i < |tokens| - 1 && tokens[i].Text?
        ensures tokens[i + 1].Function?
      {
        if i > 0 {
          assert tokens[i] == rest[i - 1] && tokens[i + 1] == rest[i];
        }
      }
    }
  }

  /** The token lists of `TokenStream::from(value)`: text tokens are non-empty and never adjacent. */
  lemma TokenizeTexts(value: string)
    ensures TextsNonEmpty(Tokenize(value)) && TextsSeparated(Tokenize(value))
  {
    CollectTexts(From(value));
  }

  /** With only pending text left, the stream hands it out as one token and stops. */
  lemma CollectPlainRest(s: TokenStream)
    requires s.position <= |s.value| && PlainBetween(s.value, s.position, |s.value|)
    ensures Collect(s) == if s.position < |s.value| then [Text(s.value[s.position..])] else []
  {
    if s.position < |s.value| {
      StepAtText(s, |s.value|);
      CollectCons(s);
      var s' := Next(s).1;
      CollectAtEnd(s');
      assert s.value[s.position..|s.value|] == s.value[s.position..];
      assert Collect(s) == [Text(s.value[s.position..])] + [];
    } else {
      CollectAtEnd(s);
    }
  }

  /** From where a control function starts, the stream hands out that function and goes on right after it. */
  lemma CollectFunction(s: TokenStream, f: ControlFunction, n: nat)
    requires s.position < |s.value| && Recognize(s.value[s.position..]) == Found(f, n)
    ensures Collect(s) == [Function(f)] + Collect(s.(position := s.position + n))
  {
    StepAtFunction(s);
    CollectCons(s);
    assert Next(s).1 == s.(position := s.position + n);
  }

  /** Pending text up to the start of a control function is handed out as one token, and the stream goes on from there. */
  lemma CollectText(s: TokenStream, q: nat)
    requires s.position < q < |s.value| && PlainBetween(s.value, s.position, q) && StartsFunction(s.value, q)
    ensures Collect(s) == [Text(s.value[s.position..q])] + Collect(s.(position := q))
  {
    StepAtText(s, q);
    CollectCons(s);
  }

  /** Text without C0 codes comes out as a single text token, and the empty text as no token at all. */
  lemma TokenizePlainText(value: string)
    requires forall i :: 0 <= i < |value| ==> value[i] as int >= 0x20
    ensures Tokenize(value) == if |value| == 0 then [] else [Text(value)]
  {
    forall j | 0 <= j < |value|
      ensures !StartsFunction(value, j)
    {
      RecognizeText(value[j..]);
    }
    CollectPlainRest(From(value));
    assert value[0..] == value;
  }
}
