/** Where terminal output can be cut so that a fresh terminal can pick it up:
    between escape sequences (ECMA-48 sections 5.4 and 5.6, and xterm's BEL
    terminator) and between characters (RFC 3629 section 3). */
module SequenceBoundary {
  import opened Sequences

  type Byte = b: int | 0 <= b < 256

  const CAN: Byte := 0x18
  const SUB: Byte := 0x1a
  const ESC: Byte := 0x1b
  const BEL: Byte := 0x07

  datatype Phase = Ground | Escape | Csi | String | StringEscape

  // `owed` counts the continuation bytes a character's lead byte announced.
  datatype Parser = Parser(phase: Phase, owed: nat) {
    predicate Between() {
      phase == Ground && owed == 0
    }
  }

  const FRESH := Parser(Ground, 0)

  predicate IsContinuation(b: Byte) {
    0x80 <= b <= 0xbf
  }

  // Bytes that open a control string: DCS, SOS, OSC, PM, and APC.
  predicate OpensString(b: Byte) {
    b in [0x5d, 0x50, 0x58, 0x5e, 0x5f]
  }

  predicate IsIntermediate(b: Byte) {
    0x20 <= b <= 0x2f
  }

  function LeadOwes(b: Byte): nat {
    if 0xc0 <= b <= 0xdf then 1
    else if 0xe0 <= b <= 0xef then 2
    else if 0xf0 <= b <= 0xf7 then 3
    else 0
  }

  function AfterEscape(p: Parser, b: Byte): Parser {
    if b == 0x5b then p.(phase := Csi)
    else if OpensString(b) then p.(phase := String)
    else if b == ESC || IsIntermediate(b) then p.(phase := Escape)
    else p.(phase := Ground)
  }

  function Step(p: Parser, b: Byte): Parser {
    if b == CAN || b == SUB then FRESH
    else
      match p.phase
      case Ground =>
        if p.owed > 0 && IsContinuation(b) then p.(owed := p.owed - 1)
        else Parser(if b == ESC then Escape else Ground, LeadOwes(b))
      case Escape => AfterEscape(p, b)
      case Csi =>
        if b == ESC then p.(phase := Escape)
        else if 0x40 <= b <= 0x7e then p.(phase := Ground)
        else p
      case String =>
        if b == BEL then p.(phase := Ground)
        else if b == ESC then p.(phase := StringEscape)
        else p
      case StringEscape =>
        if b == 0x5c then p.(phase := Ground) else AfterEscape(p, b)
  }

  function Run(p: Parser, output: seq<Byte>): Parser {
    if output == [] then p else Step(Run(p, output[..|output| - 1]), output[|output| - 1])
  }

  // The last point of `output` a fresh terminal can pick it up from.
  function LastBoundary(output: seq<Byte>): (point: nat)
    ensures point <= |output|
  {
    if output == [] || Run(FRESH, output).Between() then |output|
    else LastBoundary(output[..|output| - 1])
  }

  class Boundary {
    var state: Phase
    var utf8: nat
    var boundary: nat
    ghost var output: seq<Byte>   // every byte taken so far

    ghost predicate Valid()
      reads this
    {
      Parser(state, utf8) == Run(FRESH, output) && boundary == LastBoundary(output)
    }

    constructor ()
      ensures Valid() && output == []
    {
      state, utf8, boundary, output := Ground, 0, 0, [];
    }

    // Takes in the output from `start` on, and answers where a fresh terminal
    // could begin so far.
    method Advance(chunk: seq<Byte>, start: nat) returns (point: nat)
      requires Valid() && start == |output|
      modifies this
      ensures Valid() && output == old(output) + chunk
      ensures point == LastBoundary(output)
    {
      for index := 0 to |chunk|
        invariant Valid() && output == old(output) + chunk[..index]
      {
        StepByte(chunk[index]);
        if state == Ground && utf8 == 0 { boundary := start + index + 1; }
        ghost var before := output;
        output := output + [chunk[index]];
        assert output[..|output| - 1] == before;
        assert chunk[..index + 1] == chunk[..index] + [chunk[index]];
      }
      assert chunk[..|chunk|] == chunk;
      point := boundary;
    }

    method StepByte(b: Byte)
      modifies this`state, this`utf8
      ensures Parser(state, utf8) == Step(old(Parser(state, utf8)), b)
      decreases state == StringEscape
    {
      // Either byte gives up whatever was open.
      if b == CAN || b == SUB {
        state, utf8 := Ground, 0;
        return;
      }
      match state
      case Ground =>
        if utf8 > 0 && IsContinuation(b) {
          utf8 := utf8 - 1;
          return;
        }
        utf8 := 0;
        if b == ESC { state := Escape; }
        else if 0xc0 <= b <= 0xdf { utf8 := 1; }
        else if 0xe0 <= b <= 0xef { utf8 := 2; }
        else if 0xf0 <= b <= 0xf7 { utf8 := 3; }
      case Escape =>
        if b == 0x5b { state := Csi; }
        else if b in [0x5d, 0x50, 0x58, 0x5e, 0x5f] { state := String; }
        else if b == ESC || IsIntermediate(b) { return; }
        else { state := Ground; }
      case Csi =>
        if b == ESC { state := Escape; }
        else if 0x40 <= b <= 0x7e { state := Ground; }
      case String =>
        if b == BEL { state := Ground; }
        else if b == ESC { state := StringEscape; }
      case StringEscape =>
        // A backslash completes ST; any other byte follows an ESC of its own.
        if b == 0x5c {
          state := Ground;
        } else {
          state := Escape;
          StepByte(b);
        }
    }
  }

  // However the output is cut into chunks, the automaton ends in one state.
  lemma {:induction false} RunConcat(p: Parser, first: seq<Byte>, second: seq<Byte>)
    ensures Run(p, first + second) == Run(Run(p, first), second)
  {
    if second == [] {
      assert first + second == first;
    } else {
      var whole := first + second;
      assert whole[..|whole| - 1] == first + second[..|second| - 1];
      RunConcat(p, first, second[..|second| - 1]);
    }
  }

  lemma {:induction false} BoundaryIsGreatest(output: seq<Byte>, point: nat)
    requires point <= |output|
    ensures point == LastBoundary(output) <==>
            && Run(FRESH, output[..point]).Between()
            && forall k | point < k <= |output| :: !Run(FRESH, output[..k]).Between()
  {
    assert output[..|output|] == output;
    if output != [] && !Run(FRESH, output).Between() {
      var shorter := output[..|output| - 1];
      assert forall k | 0 <= k <= |shorter| :: shorter[..k] == output[..k];
      if point < |output| {
        BoundaryIsGreatest(shorter, point);
      }
    }
  }

  // A terminal that starts fresh at the last boundary is, from there on, in
  // the state of one that saw everything, and finds the same boundaries.
  lemma {:induction false} FreshFromBoundary(output: seq<Byte>, more: seq<Byte>)
    ensures var point, whole := LastBoundary(output), output + more;
            && Run(FRESH, whole[point..]) == Run(FRESH, whole)
            && LastBoundary(whole) == point + LastBoundary(whole[point..])
  {
    var point, whole := LastBoundary(output), output + more;
    BoundaryIsGreatest(output, point);
    assert whole[..point] == output[..point];
    forall k | point <= k <= |whole|
      ensures Run(FRESH, whole[point..][..k - point]) == Run(FRESH, whole[..k])
    {
      assert whole[..k] == whole[..point] + whole[point..][..k - point];
      RunConcat(FRESH, whole[..point], whole[point..][..k - point]);
    }
    assert whole[..|whole|] == whole && whole[point..][..|whole| - point] == whole[point..];
    var rest := LastBoundary(whole[point..]);
    BoundaryIsGreatest(whole[point..], rest);
    forall k | point + rest < k <= |whole| ensures !Run(FRESH, whole[..k]).Between() {
      assert whole[point..][..k - point] == whole[point..][..k - point];
    }
    BoundaryIsGreatest(whole, point + rest);
  }

  // What the standards say output is made of.
  datatype Unit =
    | Single(b: Byte)
    | Character(lead: Byte, rest: seq<Byte>)
    | EscapeSequence(intermediates: seq<Byte>, final: Byte)
    | ControlSequence(parameters: seq<Byte>, intermediates: seq<Byte>, final: Byte)
    | ControlString(opener: Byte, body: seq<Byte>, bell: bool)
  {
    predicate WellFormed() {
      match this
      case Single(b) => b < 0x80 && b != ESC
      case Character(lead, rest) =>
        && 0xc2 <= lead <= 0xf4 && |rest| == LeadOwes(lead)
        && forall b | b in rest :: IsContinuation(b)
      case EscapeSequence(intermediates, final) =>
        && (forall b | b in intermediates :: IsIntermediate(b))
        && 0x30 <= final <= 0x7e && final != 0x5b && !OpensString(final)
      case ControlSequence(parameters, intermediates, final) =>
        && (forall b | b in parameters :: 0x30 <= b <= 0x3f)
        && (forall b | b in intermediates :: IsIntermediate(b))
        && 0x40 <= final <= 0x7e
      case ControlString(opener, body, bell) =>
        && OpensString(opener)
        && forall b | b in body :: b != BEL && b != ESC && b != CAN && b != SUB
    }

    // The unit as its opening, what it holds, and what closes it.
    function Opening(): seq<Byte> {
      match this
      case Single(b) => []
      case Character(lead, _) => [lead]
      case EscapeSequence(_, _) => [ESC]
      case ControlSequence(_, _, _) => [ESC, 0x5b]
      case ControlString(opener, _, _) => [ESC, opener]
    }

    function Body(): seq<Byte> {
      match this
      case Single(b) => []
      case Character(_, rest) => if rest == [] then [] else rest[..|rest| - 1]
      case EscapeSequence(intermediates, _) => intermediates
      case ControlSequence(parameters, intermediates, _) => parameters + intermediates
      case ControlString(_, body, _) => body
    }

    function Closing(): seq<Byte> {
      match this
      case Single(b) => [b]
      case Character(_, rest) => if rest == [] then [] else [rest[|rest| - 1]]
      case EscapeSequence(_, final) => [final]
      case ControlSequence(_, _, final) => [final]
      case ControlString(_, _, bell) => if bell then [BEL] else [ESC, 0x5c]
    }

    function Bytes(): seq<Byte> {
      Opening() + Body() + Closing()
    }
  }

  // The state after a unit's opening and `n` bytes of its body.
  function Inside(u: Unit, n: nat): Parser {
    match u
    case Single(_) => FRESH
    case Character(lead, rest) => Parser(Ground, if n <= |rest| then |rest| - n else 0)
    case EscapeSequence(_, _) => Parser(Escape, 0)
    case ControlSequence(_, _, _) => Parser(Csi, 0)
    case ControlString(_, _, _) => Parser(String, 0)
  }

  lemma Opened(u: Unit)
    requires u.WellFormed()
    ensures Run(FRESH, u.Opening()) == Inside(u, 0)
    ensures |u.Opening()| == 2 ==> Run(FRESH, u.Opening()[..1]) == Parser(Escape, 0)
  {
    var opening := u.Opening();
    if |opening| == 2 {
      assert opening[..1] == [ESC] && opening[..1][..0] == [];
      assert Run(FRESH, opening[..1]) == Step(FRESH, ESC);
    } else if |opening| == 1 {
      assert opening[..0] == [];
    }
  }

  lemma {:induction false} Held(u: Unit, n: nat)
    requires u.WellFormed() && n <= |u.Body()|
    ensures Run(Inside(u, 0), u.Body()[..n]) == Inside(u, n)
  {
    if n > 0 {
      var body := u.Body();
      assert body[..n][..n - 1] == body[..n - 1];
      assert body[n - 1] in body;
      Held(u, n - 1);
    }
  }

  lemma Reached(u: Unit, n: nat)
    requires u.WellFormed() && n <= |u.Body()|
    ensures Run(FRESH, u.Opening() + u.Body()[..n]) == Inside(u, n)
  {
    Opened(u);
    Held(u, n);
    RunConcat(FRESH, u.Opening(), u.Body()[..n]);
  }

  lemma Closed(u: Unit, n: nat)
    requires u.WellFormed() && 0 < n <= |u.Closing()|
    ensures Run(Inside(u, |u.Body()|), u.Closing()[..n]).Between() <==> n == |u.Closing()|
  {
    var closing, p := u.Closing(), Inside(u, |u.Body()|);
    assert closing[..1][..0] == [];
    assert Run(p, closing[..1]) == Step(p, closing[0]);
    if n == 2 { assert closing[..2][..1] == closing[..1]; }
  }

  lemma NotInOpening(u: Unit, n: nat)
    requires u.WellFormed() && 0 < n <= |u.Opening()|
    ensures !Run(FRESH, u.Opening()[..n]).Between()
  {
    Opened(u);
    WholeSlice(u.Opening());
    if u.Character? {
      assert n == 1 && Inside(u, 0).owed == LeadOwes(u.lead) > 0;
    }
  }

  lemma NotInBody(u: Unit, n: nat)
    requires u.WellFormed() && 0 < n <= |u.Body()|
    ensures !Run(FRESH, u.Opening() + u.Body()[..n]).Between()
  {
    Reached(u, n);
  }

  lemma OnlyAtClose(u: Unit, n: nat)
    requires u.WellFormed() && 0 < n <= |u.Closing()|
    ensures Run(FRESH, u.Opening() + u.Body() + u.Closing()[..n]).Between() <==> n == |u.Closing()|
  {
    Reached(u, |u.Body()|);
    assert u.Body()[..|u.Body()|] == u.Body();
    Closed(u, n);
    RunConcat(FRESH, u.Opening() + u.Body(), u.Closing()[..n]);
  }

  // The automaton is between sequences and characters exactly at the two ends
  // of each unit, never inside one.
  lemma {:induction false} BetweenOnlyAtEnds(u: Unit, n: nat)
    requires u.WellFormed() && n <= |u.Bytes()|
    ensures Run(FRESH, u.Bytes()[..n]).Between() <==> n == 0 || n == |u.Bytes()|
  {
    var a, b := |u.Opening()|, |u.Body()|;
    Slices(u.Opening(), u.Body(), u.Closing(), n);
    assert u.Closing() != [];
    if n == 0 {
    } else if n <= a {
      NotInOpening(u, n);
    } else if n <= a + b {
      NotInBody(u, n - a);
    } else {
      OnlyAtClose(u, n - a - b);
    }
  }

  lemma Slices(a: seq<Byte>, b: seq<Byte>, c: seq<Byte>, n: nat)
    requires n <= |a + b + c|
    ensures n <= |a| ==> (a + b + c)[..n] == a[..n]
    ensures |a| < n <= |a| + |b| ==> (a + b + c)[..n] == a + b[..n - |a|]
    ensures |a| + |b| < n ==> (a + b + c)[..n] == a + b + c[..n - |a| - |b|]
  {
  }

  function Concat(units: seq<Unit>): seq<Byte> {
    if units == [] then [] else Concat(units[..|units| - 1]) + units[|units| - 1].Bytes()
  }

  lemma {:induction false} UnitsEndBetween(units: seq<Unit>)
    requires forall u | u in units :: u.WellFormed()
    ensures Run(FRESH, Concat(units)) == FRESH
  {
    if units != [] {
      var last := units[|units| - 1];
      UnitsEndBetween(units[..|units| - 1]);
      RunConcat(FRESH, Concat(units[..|units| - 1]), last.Bytes());
      BetweenOnlyAtEnds(last, |last.Bytes()|);
      assert last.Bytes()[..|last.Bytes()|] == last.Bytes();
    }
  }

  // Output that stops inside a unit resumes from that unit's start, so the
  // unit reaches a new page whole.
  lemma {:induction false} ResumesAtUnit(units: seq<Unit>, open: Unit, n: nat)
    requires open.WellFormed() && forall u | u in units :: u.WellFormed()
    requires n < |open.Bytes()|
    ensures LastBoundary(Concat(units) + open.Bytes()[..n]) == |Concat(units)|
  {
    UnitsEndBetween(units);
    forall k | 0 < k <= n ensures !Run(FRESH, open.Bytes()[..n][..k]).Between() {
      BetweenOnlyAtEnds(open, k);
      assert open.Bytes()[..n][..k] == open.Bytes()[..k];
    }
    EndsHere(Concat(units), open.Bytes()[..n]);
  }

  lemma {:induction false} EndsHere(whole: seq<Byte>, part: seq<Byte>)
    requires Run(FRESH, whole) == FRESH
    requires forall k | 0 < k <= |part| :: !Run(FRESH, part[..k]).Between()
    ensures LastBoundary(whole + part) == |whole|
  {
    var output := whole + part;
    assert output[..|whole|] == whole;
    forall k | |whole| < k <= |output| ensures !Run(FRESH, output[..k]).Between() {
      assert output[..k] == whole + part[..k - |whole|];
      RunConcat(FRESH, whole, part[..k - |whole|]);
    }
    BoundaryIsGreatest(output, |whole|);
  }
}
