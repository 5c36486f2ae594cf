/** The receiving side of the serial console broker: line labels, and the
    bounded buffer that holds output while the terminal is paused. */
module Console {
  import opened Normalize

  function Concat(parts: seq<string>): string {
    if parts == [] then "" else Concat(parts[..|parts| - 1]) + parts[|parts| - 1]
  }

  // ---- Cutting text into lines ----

  /** The length of the line ending at `i`, 0 if there is none. */
  function EolLength(s: string, i: nat, mode: LineEnding): (n: nat)
    requires i < |s|
    ensures i + n <= |s|
  {
    var two := i + 1 < |s|;
    match mode
    case LF => if s[i] == '\n' then 1 else 0
    case CR => if s[i] == '\r' then 1 else 0
    case CRLF => if two && s[i] == '\r' && s[i + 1] == '\n' then 2 else 0
    case LFCR => if two && s[i] == '\n' && s[i + 1] == '\r' then 2 else 0
    case AsIs =>
      if two && ((s[i] == '\r' && s[i + 1] == '\n') || (s[i] == '\n' && s[i + 1] == '\r')) then 2
      else if s[i] == '\r' || s[i] == '\n' then 1
      else 0
  }

  /** Just after the first line ending from `i` on, or the end of the text. */
  function LineEnd(s: string, i: nat, mode: LineEnding): (e: nat)
    requires i <= |s|
    ensures i <= e <= |s| && (i < |s| ==> i < e)
    decreases |s| - i
  {
    if i == |s| then i
    else if EolLength(s, i, mode) > 0 then i + EolLength(s, i, mode)
    else LineEnd(s, i + 1, mode)
  }

  /** The lines of a text, each with its line ending. */
  function Lines(s: string, mode: LineEnding): seq<string>
    decreases |s|
  {
    if s == "" then [] else [s[..LineEnd(s, 0, mode)]] + Lines(s[LineEnd(s, 0, mode)..], mode)
  }

  predicate HasSuffix(s: string, t: string) {
    |t| <= |s| && s[|s| - |t|..] == t
  }

  predicate EndsWithEol(s: string, mode: LineEnding) {
    match mode
    case CRLF => HasSuffix(s, "\r\n")
    case LFCR => HasSuffix(s, "\n\r")
    case LF => HasSuffix(s, "\n")
    case CR => HasSuffix(s, "\r")
    case AsIs => HasSuffix(s, "\r\n") || HasSuffix(s, "\n\r") || HasSuffix(s, "\n") || HasSuffix(s, "\r")
  }

  /** No line ending starts before the last one or two bytes. */
  ghost predicate IsLine(s: string, mode: LineEnding) {
    s != "" && LineEnd(s, 0, mode) == |s|
  }

  lemma {:induction false} LineEndShift(s: string, i: nat, j: nat, mode: LineEnding)
    requires i <= j <= |s|
    ensures LineEnd(s[i..], j - i, mode) + i == LineEnd(s, j, mode)
    decreases |s| - j
  {
    if j < |s| {
      assert EolLength(s[i..], j - i, mode) == EolLength(s, j, mode);
      LineEndShift(s, i, j + 1, mode);
    }
  }

  /** Cutting at the first line ending leaves a single line. */
  lemma {:induction false} LineEndCut(s: string, i: nat, mode: LineEnding)
    requires i <= |s|
    ensures LineEnd(s[..LineEnd(s, i, mode)], i, mode) == LineEnd(s, i, mode)
    decreases |s| - i
  {
    var e := LineEnd(s, i, mode);
    var cut := s[..e];
    if i < |s| {
      var n := EolLength(s, i, mode);
      if n > 0 {
        assert EolLength(cut, i, mode) == n;
      } else {
        LineEndCut(s, i + 1, mode);
        assert i + 1 < e ==> cut[i + 1] == s[i + 1];
        if EolLength(cut, i, mode) > 0 {
          assert false;
        }
      }
    }
  }

  /** A line that stops before the end of the text stops at a line ending. */
  lemma {:induction false} LineEndIsEol(s: string, i: nat, mode: LineEnding)
    requires i < |s| && LineEnd(s, i, mode) < |s|
    ensures EndsWithEol(s[..LineEnd(s, i, mode)], mode)
    decreases |s| - i
  {
    hide EolLength, EndsWithEol;
    if EolLength(s, i, mode) > 0 {
      EolIsSuffix(s, i, mode);
    } else {
      LineEndIsEol(s, i + 1, mode);
    }
  }

  lemma EolIsSuffix(s: string, i: nat, mode: LineEnding)
    requires i < |s| && EolLength(s, i, mode) > 0
    ensures EndsWithEol(s[..i + EolLength(s, i, mode)], mode)
  {
    var n := EolLength(s, i, mode);
    var cut := s[..i + n];
    assert n == 2 ==> cut[|cut| - 2..] == [s[i], s[i + 1]];
    assert n == 1 ==> cut[|cut| - 1..] == [s[i]];
  }

  /** Nothing is lost, every piece is one line, and all but the last end in a
      line ending. */
  lemma {:induction false} LinesAreLines(s: string, mode: LineEnding)
    ensures Concat(Lines(s, mode)) == s
    ensures forall i :: 0 <= i < |Lines(s, mode)| ==> IsLine(Lines(s, mode)[i], mode)
    ensures forall i :: 0 <= i < |Lines(s, mode)| - 1 ==> EndsWithEol(Lines(s, mode)[i], mode)
    decreases |s|
  {
    hide LineEnd, EndsWithEol, Concat;
    EmptyConcat();
    if s != "" {
      var e := LineEnd(s, 0, mode);
      var first, rest := s[..e], s[e..];
      LinesAreLines(rest, mode);
      LineEndCut(s, 0, mode);
      if e < |s| {
        LineEndIsEol(s, 0, mode);
      }
      ConcatCons(first, Lines(rest, mode));
      assert first + rest == s;
      assert rest == "" ==> Lines(rest, mode) == [];
    }
  }

  lemma EmptyConcat()
    ensures Concat([]) == ""
  {
  }

  lemma {:induction false} ConcatCons(first: string, rest: seq<string>)
    ensures Concat([first] + rest) == first + Concat(rest)
  {
    if rest != [] {
      var init, last := rest[..|rest| - 1], rest[|rest| - 1];
      ConcatCons(first, init);
      assert ([first] + rest)[..|rest|] == [first] + init;
      assert first + (Concat(init) + last) == first + Concat(init) + last;
    } else {
      assert ([first] + rest)[..0] == [];
    }
  }

  lemma {:induction false} ConcatAppend(a: seq<string>, b: seq<string>)
    ensures Concat(a + b) == Concat(a) + Concat(b)
  {
    if b == [] {
      assert a + b == a;
    } else {
      var init, last := b[..|b| - 1], b[|b| - 1];
      ConcatAppend(a, init);
      assert (a + b)[..|a + b| - 1] == a + init;
      assert Concat(a) + (Concat(init) + last) == Concat(a) + Concat(init) + last;
    }
  }

  /** The scan of the source. In the modes with one line ending the source
      asks the library to split, which may add an empty last piece; the caller
      skips it. */
  method SplitAfterAnyEol(s: string, mode: LineEnding) returns (parts: seq<string>)
    ensures parts == Lines(s, mode)
  {
    hide Lines, LineEnd;
    parts := [];
    var start := 0;
    var i := 0;
    assert s[0..] == s;
    LinesStep(s, 0, mode);
    while i < |s|
      invariant 0 <= start <= i <= |s| && (start == |s| ==> i == |s|)
      invariant parts + Lines(s[start..], mode) == Lines(s, mode)
      invariant LineEnd(s, start, mode) == LineEnd(s, i, mode)
    {
      var n := EolLength(s, i, mode);
      LineEndStep(s, i, mode);
      if n > 0 {
        var j := i + n;
        LinesStep(s, start, mode);
        parts := parts + [s[start..j]];
        start := j;
        i := j;
      } else {
        i := i + 1;
      }
    }
    LineEndStep(s, |s|, mode);
    LinesStep(s, start, mode);
    if start < |s| {
      parts := parts + [s[start..]];
      assert s[start..|s|] == s[start..] && s[|s|..] == "";
      LinesStep(s, |s|, mode);
    }
  }

  lemma LineEndStep(s: string, i: nat, mode: LineEnding)
    requires i <= |s|
    ensures LineEnd(s, i, mode) ==
            if i == |s| then i
            else if EolLength(s, i, mode) > 0 then i + EolLength(s, i, mode)
            else LineEnd(s, i + 1, mode)
  {
  }

  lemma LinesStep(s: string, i: nat, mode: LineEnding)
    requires i <= |s|
    ensures i == |s| ==> Lines(s[i..], mode) == []
    ensures i < |s| ==>
      var e := LineEnd(s, i, mode);
      i < e <= |s| && Lines(s[i..], mode) == [s[i..e]] + Lines(s[e..], mode)
  {
    hide Lines, LineEnd;
    LinesUnfold(s[i..], mode);
    if i < |s| {
      LineEndShift(s, i, i, mode);
      var e := LineEnd(s, i, mode);
      assert s[i..][..e - i] == s[i..e] && s[i..][e - i..] == s[e..];
    }
  }

  lemma LinesUnfold(s: string, mode: LineEnding)
    ensures Lines(s, mode) ==
            if s == "" then [] else [s[..LineEnd(s, 0, mode)]] + Lines(s[LineEnd(s, 0, mode)..], mode)
  {
  }

  // ---- Labelling received lines ----

  const LABEL := "RX: "

  /** A piece of output, with the label before it or not. */
  datatype Piece = Piece(labelled: bool, text: string)

  function Shown(p: Piece): string {
    if p.labelled then LABEL + p.text else p.text
  }

  function Texts(ps: seq<Piece>): (r: seq<string>)
    ensures |r| == |ps| && forall i :: 0 <= i < |ps| ==> r[i] == ps[i].text
  {
    seq(|ps|, i requires 0 <= i < |ps| => ps[i].text)
  }

  function AllShown(ps: seq<Piece>): (r: seq<string>)
    ensures |r| == |ps| && forall i :: 0 <= i < |ps| ==> r[i] == Shown(ps[i])
  {
    seq(|ps|, i requires 0 <= i < |ps| => Shown(ps[i]))
  }

  /** The pieces of some lines, given whether output is at a line start. */
  function Labelled(lines: seq<string>, atLineEnd: bool, mode: LineEnding): (r: seq<Piece>)
    ensures |r| == |lines|
  {
    if lines == [] then []
    else
      var r := Labelled(lines[..|lines| - 1], atLineEnd, mode);
      r + [Piece(AtLineEnd(r, atLineEnd, mode), lines[|lines| - 1])]
  }

  predicate AtLineEnd(ps: seq<Piece>, initially: bool, mode: LineEnding) {
    if ps == [] then initially else EndsWithEol(ps[|ps| - 1].text, mode)
  }

  /** The pieces for a run of received chunks from a fresh broker. */
  function Received(chunks: seq<string>, norm: Options): seq<Piece> {
    if chunks == [] then []
    else
      var r, last := Received(chunks[..|chunks| - 1], norm), chunks[|chunks| - 1];
      r + Labelled(Lines(Normal(last, norm), norm.lineEnding), AtLineEnd(r, true, norm.lineEnding), norm.lineEnding)
  }

  /** The concatenated normalised chunks. */
  function AllNormal(chunks: seq<string>, norm: Options): string {
    if chunks == [] then "" else AllNormal(chunks[..|chunks| - 1], norm) + Normal(chunks[|chunks| - 1], norm)
  }

  /** Labels stand at the start and after each piece that ends a line. */
  ghost predicate WellLabelled(ps: seq<Piece>, initially: bool, mode: LineEnding) {
    forall i :: 0 <= i < |ps| ==> ps[i].labelled == AtLineEnd(ps[..i], initially, mode)
  }

  lemma {:induction false} LabelledIs(lines: seq<string>, atLineEnd: bool, mode: LineEnding)
    ensures Texts(Labelled(lines, atLineEnd, mode)) == lines
    ensures WellLabelled(Labelled(lines, atLineEnd, mode), atLineEnd, mode)
  {
    hide EndsWithEol;
    if lines != [] {
      var init := lines[..|lines| - 1];
      LabelledIs(init, atLineEnd, mode);
      var r := Labelled(init, atLineEnd, mode);
      var piece := Piece(AtLineEnd(r, atLineEnd, mode), lines[|lines| - 1]);
      hide WellLabelled, AtLineEnd;
      OneLabelled(r, piece, atLineEnd, mode);
      WellLabelledAppend(r, [piece], atLineEnd, mode);
      TextsAppend(r, [piece]);
      assert Texts([piece]) == [piece.text];
      assert init + [piece.text] == lines;
    }
  }

  lemma OneLabelled(r: seq<Piece>, piece: Piece, initially: bool, mode: LineEnding)
    requires piece.labelled == AtLineEnd(r, initially, mode)
    ensures WellLabelled([piece], AtLineEnd(r, initially, mode), mode)
  {
  }

  lemma TextsAppend(a: seq<Piece>, b: seq<Piece>)
    ensures Texts(a + b) == Texts(a) + Texts(b)
  {
  }

  lemma WellLabelledAppend(a: seq<Piece>, b: seq<Piece>, initially: bool, mode: LineEnding)
    requires WellLabelled(a, initially, mode) && WellLabelled(b, AtLineEnd(a, initially, mode), mode)
    ensures WellLabelled(a + b, initially, mode)
  {
    hide EndsWithEol;
    forall i | 0 <= i < |a + b|
      ensures (a + b)[i].labelled == AtLineEnd((a + b)[..i], initially, mode)
    {
      if i < |a| {
        assert (a + b)[..i] == a[..i];
      } else {
        var j := i - |a|;
        assert (a + b)[..i] == a + b[..j] && (a + b)[i] == b[j];
        assert j > 0 ==> (a + b[..j])[i - 1] == b[..j][j - 1];
        assert b[j].labelled == AtLineEnd(b[..j], AtLineEnd(a, initially, mode), mode);
      }
    }
  }

  lemma NothingReceived(norm: Options)
    ensures Received([], norm) == []
    ensures Concat(Texts(Received([], norm))) == AllNormal([], norm)
    ensures WellLabelled(Received([], norm), true, norm.lineEnding)
  {
  }

  /** For every run of chunks: without its labels the output is the normalised
      input, labels stand exactly at the start and after each piece that ends
      a line, and no piece is longer than a line. */
  lemma {:induction false} ReceivedIsLabelledInput(chunks: seq<string>, norm: Options)
    ensures Concat(Texts(Received(chunks, norm))) == AllNormal(chunks, norm)
    ensures WellLabelled(Received(chunks, norm), true, norm.lineEnding)
    ensures forall i :: 0 <= i < |Received(chunks, norm)| ==> IsLine(Received(chunks, norm)[i].text, norm.lineEnding)
  {
    hide EndsWithEol, Normal, Lines, IsLine, Concat, WellLabelled, AtLineEnd, Labelled, Texts;
    NothingReceived(norm);
    if chunks != [] {
      var init, last := chunks[..|chunks| - 1], chunks[|chunks| - 1];
      ReceivedIsLabelledInput(init, norm);
      var mode := norm.lineEnding;
      var r := Received(init, norm);
      var lines := Lines(Normal(last, norm), mode);
      var more := Labelled(lines, AtLineEnd(r, true, mode), mode);
      LinesAreLines(Normal(last, norm), mode);
      LabelledIs(lines, AtLineEnd(r, true, mode), mode);
      WellLabelledAppend(r, more, true, mode);
      ConcatAppend(Texts(r), lines);
      TextsAppend(r, more);
      assert forall i :: 0 <= i < |more| ==> more[i].text == lines[i];
    }
  }

  // ---- The pause buffer ----

  datatype Limits = Limits(lines: nat, bytes: nat)

  function Bytes(buf: seq<string>): (n: nat)
  {
    if buf == [] then 0 else |buf[0]| + Bytes(buf[1..])
  }

  predicate Fits(buf: seq<string>, limits: Limits) {
    Bytes(buf) <= limits.bytes && |buf| <= limits.lines
  }

  /** Dropping the oldest pieces until the rest fits. */
  function Trimmed(buf: seq<string>, limits: Limits): seq<string> {
    if Fits(buf, limits) then buf else Trimmed(buf[1..], limits)
  }

  lemma {:induction false} BytesAppend(a: seq<string>, b: seq<string>)
    ensures Bytes(a + b) == Bytes(a) + Bytes(b)
  {
    if a == [] {
      assert a + b == b;
    } else {
      BytesAppend(a[1..], b);
      assert (a + b)[1..] == a[1..] + b;
    }
  }

  /** What is left is the longest suffix that fits. */
  lemma {:induction false} TrimmedIsLongest(h: seq<string>, k: nat, limits: Limits)
    requires k <= |h| && Fits(h[k..], limits)
    ensures |h| - k <= |Trimmed(h, limits)|
  {
    hide Bytes;
    assert k == 0 ==> h[k..] == h;
    if !Fits(h, limits) {
      assert h[1..][k - 1..] == h[k..];
      TrimmedIsLongest(h[1..], k - 1, limits);
    }
  }

  lemma {:induction false} TrimmedIsSuffix(h: seq<string>, limits: Limits)
    ensures var r := Trimmed(h, limits);
            |r| <= |h| && r == h[|h| - |r|..] && Fits(r, limits)
  {
    if Fits(h, limits) {
      assert h[0..] == h;
    } else {
      TrimmedIsSuffix(h[1..], limits);
      var r := Trimmed(h[1..], limits);
      assert h[1..][|h| - 1 - |r|..] == h[|h| - |r|..];
    }
  }

  lemma TrimStep(h: seq<string>, limits: Limits)
    ensures Trimmed(h, limits) == if Fits(h, limits) then h else Trimmed(h[1..], limits)
  {
  }

  lemma EmptyFits(limits: Limits)
    ensures Fits([], limits)
  {
  }

  lemma PrefixFits(a: seq<string>, b: seq<string>, limits: Limits)
    requires Fits(a + b, limits)
    ensures Fits(a, limits)
  {
    BytesAppend(a, b);
  }

  /** Trimming after every piece keeps what trimming once at the end would. */
  lemma {:induction false} TrimAsYouGo(h: seq<string>, s: string, limits: Limits)
    ensures Trimmed(Trimmed(h, limits) + [s], limits) == Trimmed(h + [s], limits)
  {
    EmptyFits(limits);
    hide Trimmed, Fits;
    TrimStep(h, limits);
    TrimStep(h + [s], limits);
    if !Fits(h, limits) {
      TrimAsYouGo(h[1..], s, limits);
      if Fits(h + [s], limits) {
        PrefixFits(h, [s], limits);
      }
      assert (h + [s])[1..] == h[1..] + [s];
    }
  }

  // ---- Pausing and resuming ----

  datatype Event = Emit(text: string) | Pause(on: bool)

  /** `sent` is everything the sink was given. */
  datatype Terminal = Terminal(paused: bool, buf: seq<string>, sent: seq<string>)

  function Next(t: Terminal, e: Event, limits: Limits): Terminal {
    match e
    case Emit(s) =>
      if s == "" then t
      else if t.paused then t.(buf := Trimmed(t.buf + [s], limits))
      else t.(sent := t.sent + [s])
    case Pause(on) =>
      if t.paused && !on then Terminal(false, [], t.sent + t.buf) else t.(paused := on)
  }

  function Run(es: seq<Event>, limits: Limits): Terminal {
    if es == [] then Terminal(false, [], []) else Next(Run(es[..|es| - 1], limits), es[|es| - 1], limits)
  }

  predicate IsPaused(es: seq<Event>) {
    es != [] && if es[|es| - 1].Pause? then es[|es| - 1].on else IsPaused(es[..|es| - 1])
  }

  /** The pieces emitted since the terminal was paused. */
  function Held(es: seq<Event>): seq<string> {
    if es == [] || !IsPaused(es) then []
    else
      var held, last := Held(es[..|es| - 1]), es[|es| - 1];
      if last.Emit? && last.text != "" then held + [last.text] else held
  }

  /** What the sink should get: everything emitted unpaused and, at each
      resumption, what is left of the pieces held back. */
  function Deliverable(es: seq<Event>, limits: Limits): seq<string> {
    if es == [] then []
    else
      var init, last := es[..|es| - 1], es[|es| - 1];
      Deliverable(init, limits) +
      match last
      case Emit(s) => if s != "" && !IsPaused(init) then [s] else []
      case Pause(on) => if IsPaused(init) && !on then Trimmed(Held(init), limits) else []
  }

  /** While paused the buffer is the longest suffix of the held pieces within
      both limits; resuming delivers exactly that suffix, in order. */
  lemma {:induction false} BufferIsLongestSuffix(es: seq<Event>, limits: Limits)
    ensures var t := Run(es, limits);
            && t.paused == IsPaused(es)
            && t.buf == Trimmed(Held(es), limits)
            && t.sent == Deliverable(es, limits)
  {
    EmptyFits(limits);
    if es != [] {
      var init, last := es[..|es| - 1], es[|es| - 1];
      BufferIsLongestSuffix(init, limits);
      if last.Emit? {
        TrimAsYouGo(Held(init), last.text, limits);
      }
      HeldUnpaused(init);
    }
  }

  lemma HeldUnpaused(es: seq<Event>)
    ensures !IsPaused(es) ==> Held(es) == []
  {
  }

  // ---- The broker ----

  class ConsoleBroker {
    var hasSink: bool
    /** Everything handed to the sink. */
    var sent: seq<string>
    var terminalPaused: bool
    var bufLines: seq<string>
    var bufBytes: int
    const limits: Limits
    var rxAtLineEnd: bool
    var norm: Options

    ghost predicate Valid()
      reads this
    {
      bufBytes == Bytes(bufLines)
    }

    ghost function View(): Terminal
      reads this
    {
      Terminal(terminalPaused, bufLines, sent)
    }

    constructor (norm: Options, limits: Limits)
      ensures Valid() && hasSink && rxAtLineEnd && this.norm == norm && this.limits == limits
      ensures View() == Terminal(false, [], [])
    {
      hasSink, rxAtLineEnd, terminalPaused := true, true, false;
      sent, bufLines, bufBytes := [], [], 0;
      this.norm, this.limits := norm, limits;
    }

    method EnqueueBuffered(s: string)
      requires Valid()
      modifies this`bufLines, this`bufBytes
      ensures Valid() && bufLines == Trimmed(old(bufLines) + [s], limits)
    {
      hide Trimmed;
      BytesAppend(bufLines, [s]);
      assert Bytes([s]) == |s|;
      bufLines := bufLines + [s];
      bufBytes := bufBytes + |s|;
      while bufBytes > limits.bytes || |bufLines| > limits.lines
        invariant bufBytes == Bytes(bufLines)
        invariant Trimmed(bufLines, limits) == Trimmed(old(bufLines) + [s], limits)
        decreases |bufLines|
      {
        TrimStep(bufLines, limits);
        if |bufLines| == 0 {
          break;
        }
        bufBytes := bufBytes - |bufLines[0]|;
        bufLines := bufLines[1..];
      }
      TrimStep(bufLines, limits);
    }

    method FlushBuffer()
      requires Valid()
      modifies this`bufLines, this`bufBytes, this`sent
      ensures Valid() && bufLines == []
      ensures sent == if hasSink then old(sent) + old(bufLines) else old(sent)
    {
      if !hasSink || |bufLines| == 0 {
        bufLines, bufBytes := [], 0;
        return;
      }
      for i := 0 to |bufLines|
        invariant bufLines == old(bufLines)
        invariant sent == old(sent) + bufLines[..i]
      {
        sent := sent + [bufLines[i]];
      }
      bufLines, bufBytes := [], 0;
    }

    /** What the broker loop does with a pause request. */
    method SetTerminalPaused(v: bool)
      requires Valid()
      modifies this
      ensures Valid() && hasSink == old(hasSink) && rxAtLineEnd == old(rxAtLineEnd) && norm == old(norm)
      ensures hasSink ==> View() == Next(old(View()), Pause(v), limits)
      ensures !hasSink ==> View() == Next(old(View()), Pause(v), limits).(sent := old(sent))
    {
      var wasPaused := terminalPaused;
      terminalPaused := v;
      if wasPaused && !v {
        FlushBuffer();
      }
    }

    method EmitToTerminal(s: string)
      requires Valid()
      modifies this`bufLines, this`bufBytes, this`sent
      ensures Valid()
      ensures View() == if hasSink then Next(old(View()), Emit(s), limits) else old(View())
    {
      if !hasSink || s == "" {
        return;
      }
      if terminalPaused {
        EnqueueBuffered(s);
        return;
      }
      sent := sent + [s];
    }

    /** A received chunk, with nothing being echoed: its lines go out labelled. */
    method HandleRX(data: string)
      requires Valid()
      modifies this`bufLines, this`bufBytes, this`sent, this`rxAtLineEnd
      ensures Valid()
      ensures !hasSink ==> View() == old(View()) && rxAtLineEnd == old(rxAtLineEnd)
      ensures hasSink ==>
        var pieces := Labelled(Lines(Normal(data, norm), norm.lineEnding), old(rxAtLineEnd), norm.lineEnding);
        && View() == EmitAll(old(View()), AllShown(pieces), limits)
        && rxAtLineEnd == AtLineEnd(pieces, old(rxAtLineEnd), norm.lineEnding)
    {
      hide Normal, Lines, EmitAll, Labelled, AllShown, AtLineEnd;
      if !hasSink || data == "" {
        NothingToShow(norm, rxAtLineEnd, View(), limits);
        return;
      }
      var text := NormalizeText(data, norm);
      if text == "" {
        NothingToShow(norm, rxAtLineEnd, View(), limits);
        return;
      }
      var lines := SplitAfterAnyEol(text, norm.lineEnding);
      rxAtLineEnd := EmitLines(lines, rxAtLineEnd);
    }

    method EmitLines(lines: seq<string>, start: bool) returns (atLineEnd: bool)
      requires Valid() && hasSink
      modifies this`bufLines, this`bufBytes, this`sent
      ensures Valid()
      ensures var pieces := Labelled(lines, start, norm.lineEnding);
              && View() == EmitAll(old(View()), AllShown(pieces), limits)
              && atLineEnd == AtLineEnd(pieces, start, norm.lineEnding)
    {
      hide EmitAll, Labelled, AllShown, AtLineEnd, Next, EndsWithEol;
      NothingToShow(norm, start, View(), limits);
      atLineEnd := start;
      ghost var pieces: seq<Piece> := [];
      assert lines[..0] == [];
      for i := 0 to |lines|
        invariant Valid() && pieces == Labelled(lines[..i], start, norm.lineEnding)
        invariant atLineEnd == AtLineEnd(pieces, start, norm.lineEnding)
        invariant View() == EmitAll(old(View()), AllShown(pieces), limits)
      {
        var line := lines[i];
        ghost var piece := Piece(atLineEnd, line);
        LabelMore(lines, i, start, norm.lineEnding);
        ShowMore(pieces, piece);
        EmitMore(old(View()), AllShown(pieces), Shown(piece), limits);
        if atLineEnd {
          EmitToTerminal(LABEL + line);
        } else {
          EmitToTerminal(line);
        }
        pieces := pieces + [piece];
        atLineEnd := EndsWithEol(line, norm.lineEnding);
      }
      assert lines[..|lines|] == lines;
    }
  }

  lemma LabelMore(lines: seq<string>, i: nat, start: bool, mode: LineEnding)
    requires i < |lines|
    ensures var r := Labelled(lines[..i], start, mode);
            && Labelled(lines[..i + 1], start, mode) == r + [Piece(AtLineEnd(r, start, mode), lines[i])]
            && AtLineEnd(Labelled(lines[..i + 1], start, mode), start, mode) == EndsWithEol(lines[i], mode)
  {
    hide EndsWithEol;
    assert lines[..i + 1][..i] == lines[..i];
  }

  lemma ShowMore(ps: seq<Piece>, p: Piece)
    ensures AllShown(ps + [p]) == AllShown(ps) + [Shown(p)]
  {
  }

  function EmitAll(t: Terminal, texts: seq<string>, limits: Limits): Terminal {
    if texts == [] then t else Next(EmitAll(t, texts[..|texts| - 1], limits), Emit(texts[|texts| - 1]), limits)
  }

  lemma EmitMore(t: Terminal, texts: seq<string>, s: string, limits: Limits)
    ensures EmitAll(t, texts + [s], limits) == Next(EmitAll(t, texts, limits), Emit(s), limits)
  {
    assert (texts + [s])[..|texts|] == texts;
  }

  lemma NothingToShow(norm: Options, atLineEnd: bool, t: Terminal, limits: Limits)
    ensures Normal("", norm) == "" && Lines("", norm.lineEnding) == []
    ensures Labelled([], atLineEnd, norm.lineEnding) == [] && EmitAll(t, AllShown([]), limits) == t
    ensures AtLineEnd([], atLineEnd, norm.lineEnding) == atLineEnd
  {
  }

  /** Unpaused, emitted text reaches the sink as it is. */
  lemma {:induction false} UnpausedPassesThrough(t: Terminal, texts: seq<string>, limits: Limits)
    requires !t.paused && forall i :: 0 <= i < |texts| ==> texts[i] != ""
    ensures EmitAll(t, texts, limits) == t.(sent := t.sent + texts)
  {
    if texts != [] {
      var init, last := texts[..|texts| - 1], texts[|texts| - 1];
      UnpausedPassesThrough(t, init, limits);
      assert t.sent + init + [last] == t.sent + texts;
    }
  }

  // ---- The broker's loop ----

  /** What the loop of the broker waits for. */
  datatype Input = Rx(data: string) | SetPaused(on: bool)

  function Chunks(ins: seq<Input>): seq<string> {
    if ins == [] then []
    else
      var last := ins[|ins| - 1];
      Chunks(ins[..|ins| - 1]) + if last.Rx? then [last.data] else []
  }

  function Emits(texts: seq<string>): (r: seq<Event>)
    ensures |r| == |texts| && forall i :: 0 <= i < |texts| ==> r[i] == Emit(texts[i])
  {
    seq(|texts|, i requires 0 <= i < |texts| => Emit(texts[i]))
  }

  /** The pieces of one chunk, given the pieces before it. */
  function PiecesOf(data: string, before: seq<Piece>, norm: Options): seq<Piece> {
    Labelled(Lines(Normal(data, norm), norm.lineEnding), AtLineEnd(before, true, norm.lineEnding), norm.lineEnding)
  }

  /** The terminal's events for a run of the loop. */
  function TerminalEvents(ins: seq<Input>, norm: Options): seq<Event> {
    if ins == [] then []
    else
      var init := ins[..|ins| - 1];
      TerminalEvents(init, norm) +
      match ins[|ins| - 1]
      case Rx(data) => Emits(AllShown(PiecesOf(data, Received(Chunks(init), norm), norm)))
      case SetPaused(on) => [Pause(on)]
  }

  lemma {:induction false} RunEmits(es: seq<Event>, texts: seq<string>, limits: Limits)
    ensures Run(es + Emits(texts), limits) == EmitAll(Run(es, limits), texts, limits)
  {
    hide Next;
    if texts == [] {
      assert es + Emits(texts) == es;
    } else {
      var init := texts[..|texts| - 1];
      RunEmits(es, init, limits);
      assert (es + Emits(texts))[..|es| + |texts| - 1] == es + Emits(init);
    }
  }

  lemma RunPause(es: seq<Event>, on: bool, limits: Limits)
    ensures Run(es + [Pause(on)], limits) == Next(Run(es, limits), Pause(on), limits)
  {
    assert (es + [Pause(on)])[..|es|] == es;
  }

  lemma AtLineEndAppend(a: seq<Piece>, b: seq<Piece>, initially: bool, mode: LineEnding)
    ensures AtLineEnd(a + b, initially, mode) == AtLineEnd(b, AtLineEnd(a, initially, mode), mode)
  {
    hide EndsWithEol;
    if b == [] {
      assert a + b == a;
    }
  }

  lemma ReceiveMore(chunks: seq<string>, data: string, norm: Options)
    ensures Received(chunks + [data], norm) == Received(chunks, norm) + PiecesOf(data, Received(chunks, norm), norm)
  {
    hide Labelled, AtLineEnd, Lines, Normal;
    assert (chunks + [data])[..|chunks|] == chunks;
  }

  /** The loop, from a fresh broker with a sink: the terminal gets exactly the
      labelled lines of the chunks received, through the pause buffer. */
  method Serve(b: ConsoleBroker, ins: seq<Input>)
    requires b.Valid() && b.hasSink && b.rxAtLineEnd && b.View() == Terminal(false, [], [])
    modifies b
    ensures b.Valid() && b.norm == old(b.norm)
    ensures b.View() == Run(TerminalEvents(ins, b.norm), b.limits)
  {
    hide Labelled, AtLineEnd, Lines, Normal, EmitAll, AllShown, Next, Run, Received;
    StartServing(b.norm, b.limits);
    for i := 0 to |ins|
      invariant b.Valid() && b.hasSink && b.norm == old(b.norm)
      invariant b.View() == Run(TerminalEvents(ins[..i], b.norm), b.limits)
      invariant b.rxAtLineEnd == AtLineEnd(Received(Chunks(ins[..i]), b.norm), true, b.norm.lineEnding)
    {
      assert ins[..i + 1][..i] == ins[..i];
      ghost var es, before := TerminalEvents(ins[..i], b.norm), Received(Chunks(ins[..i]), b.norm);
      match ins[i] {
        case Rx(data) =>
          RunEmits(es, AllShown(PiecesOf(data, before, b.norm)), b.limits);
          ReceiveMore(Chunks(ins[..i]), data, b.norm);
          AtLineEndAppend(before, PiecesOf(data, before, b.norm), true, b.norm.lineEnding);
          b.HandleRX(data);
        case SetPaused(on) =>
          RunPause(es, on, b.limits);
          assert Chunks(ins[..i]) + [] == Chunks(ins[..i]);
          b.SetTerminalPaused(on);
      }
    }
    assert ins[..|ins|] == ins;
  }

  lemma StartServing(norm: Options, limits: Limits)
    ensures Run(TerminalEvents([], norm), limits) == Terminal(false, [], [])
    ensures AtLineEnd(Received(Chunks([]), norm), true, norm.lineEnding)
  {
  }

  lemma PiecesAreShown(data: string, before: seq<Piece>, norm: Options, i: nat)
    requires i < |PiecesOf(data, before, norm)|
    ensures AllShown(PiecesOf(data, before, norm))[i] != ""
  {
    var mode := norm.lineEnding;
    var lines := Lines(Normal(data, norm), mode);
    LinesAreLines(Normal(data, norm), mode);
    LabelledIs(lines, AtLineEnd(before, true, mode), mode);
    hide Labelled, AtLineEnd, Lines, Normal, AllShown;
    assert IsLine(lines[i], mode);
    assert Texts(PiecesOf(data, before, norm))[i] == lines[i];
  }

  lemma AllShownAppend(a: seq<Piece>, b: seq<Piece>)
    ensures AllShown(a + b) == AllShown(a) + AllShown(b)
  {
  }

  lemma UnpausedChunk(t: Terminal, before: seq<Piece>, data: string, norm: Options, limits: Limits)
    requires t == Terminal(false, [], AllShown(before))
    ensures var pieces := PiecesOf(data, before, norm);
            EmitAll(t, AllShown(pieces), limits) == Terminal(false, [], AllShown(before + pieces))
  {
    hide AllShown, EmitAll;
    var pieces := PiecesOf(data, before, norm);
    forall i | 0 <= i < |pieces|
      ensures AllShown(pieces)[i] != ""
    {
      PiecesAreShown(data, before, norm, i);
    }
    hide PiecesOf;
    UnpausedPassesThrough(t, AllShown(pieces), limits);
    AllShownAppend(before, pieces);
  }

  /** As long as the terminal is never paused the sink gets every piece. */
  lemma {:induction false} UnpausedServesAll(ins: seq<Input>, norm: Options, limits: Limits)
    requires forall i :: 0 <= i < |ins| ==> ins[i] != SetPaused(true)
    ensures Run(TerminalEvents(ins, norm), limits) == Terminal(false, [], AllShown(Received(Chunks(ins), norm)))
  {
    hide PiecesOf, EmitAll, Run, Received, AllShown;
    if ins == [] {
      StartServing(norm, limits);
      NothingReceived(norm);
    } else {
      var init := ins[..|ins| - 1];
      UnpausedServesAll(init, norm, limits);
      var es, before := TerminalEvents(init, norm), Received(Chunks(init), norm);
      match ins[|ins| - 1]
      case Rx(data) =>
        RunEmits(es, AllShown(PiecesOf(data, before, norm)), limits);
        ReceiveMore(Chunks(init), data, norm);
        UnpausedChunk(Run(es, limits), before, data, norm, limits);
      case SetPaused(on) =>
        RunPause(es, on, limits);
        assert Chunks(init) + [] == Chunks(init);
    }
  }

  // ---- Lines in terms of the text ----

  predicate IsEolByte(c: char) {
    c == '\r' || c == '\n'
  }

  predicate AreOther(c: char, d: char) {
    (c == '\r' && d == '\n') || (c == '\n' && d == '\r')
  }

  /** No line ending of the mode stands before the end of the text. */
  predicate HasNoInnerEol(s: string, mode: LineEnding) {
    match mode
    case LF => forall i :: 0 <= i < |s| - 1 ==> s[i] != '\n'
    case CR => forall i :: 0 <= i < |s| - 1 ==> s[i] != '\r'
    case CRLF => forall i :: 0 <= i < |s| - 2 ==> !(s[i] == '\r' && s[i + 1] == '\n')
    case LFCR => forall i :: 0 <= i < |s| - 2 ==> !(s[i] == '\n' && s[i + 1] == '\r')
    case AsIs =>
      forall i :: 0 <= i < |s| && IsEolByte(s[i]) ==>
        i == |s| - 1 || (i == |s| - 2 && AreOther(s[i], s[i + 1]))
  }

  lemma {:induction false} NoEolBefore(s: string, i: nat, j: nat, mode: LineEnding)
    requires i <= j < |s| && LineEnd(s, i, mode) == |s| && EolLength(s, j, mode) > 0
    ensures j + EolLength(s, j, mode) == |s|
    decreases j - i
  {
    hide EolLength;
    if EolLength(s, i, mode) == 0 {
      assert i != j;
      NoEolBefore(s, i + 1, j, mode);
    } else if i < j {
      EolIsShort(s, i, mode);
    }
  }

  lemma EolIsShort(s: string, i: nat, mode: LineEnding)
    requires i < |s|
    ensures EolLength(s, i, mode) <= 2
  {
  }

  lemma LineHasNoInnerEol(s: string, mode: LineEnding)
    requires IsLine(s, mode)
    ensures HasNoInnerEol(s, mode)
  {
    hide LineEnd;
    forall j | 0 <= j < |s| && EolLength(s, j, mode) > 0
      ensures j + EolLength(s, j, mode) == |s|
    {
      NoEolBefore(s, 0, j, mode);
    }
    match mode
    case LF => assert forall i :: 0 <= i < |s| - 1 && s[i] == '\n' ==> EolLength(s, i, mode) == 1;
    case CR => assert forall i :: 0 <= i < |s| - 1 && s[i] == '\r' ==> EolLength(s, i, mode) == 1;
    case CRLF => assert forall i :: 0 <= i < |s| - 2 && s[i] == '\r' && s[i + 1] == '\n' ==> EolLength(s, i, mode) == 2;
    case LFCR => assert forall i :: 0 <= i < |s| - 2 && s[i] == '\n' && s[i + 1] == '\r' ==> EolLength(s, i, mode) == 2;
    case AsIs => assert forall i :: 0 <= i < |s| && IsEolByte(s[i]) ==> EolLength(s, i, mode) > 0;
  }

  /** The pieces put together give the text, each but the last ends in a line
      ending of the mode, and none has one before its end. */
  lemma LinesAreCut(s: string, mode: LineEnding)
    ensures Concat(Lines(s, mode)) == s
    ensures forall i :: 0 <= i < |Lines(s, mode)| ==> Lines(s, mode)[i] != "" && HasNoInnerEol(Lines(s, mode)[i], mode)
    ensures forall i :: 0 <= i < |Lines(s, mode)| - 1 ==> EndsWithEol(Lines(s, mode)[i], mode)
  {
    LinesAreLines(s, mode);
    hide Lines, HasNoInnerEol, EndsWithEol, Concat;
    forall i | 0 <= i < |Lines(s, mode)|
      ensures Lines(s, mode)[i] != "" && HasNoInnerEol(Lines(s, mode)[i], mode)
    {
      LineHasNoInnerEol(Lines(s, mode)[i], mode);
    }
  }

  /** A line ending is taken with its other half if that follows. */
  predicate IsWholeEol(a: string, b: string) {
    a == "" || b == "" || (|a| >= 2 && AreOther(a[|a| - 2], a[|a| - 1])) || !AreOther(a[|a| - 1], b[0])
  }

  lemma {:induction false} LineEndIsWhole(s: string, i: nat)
    requires i < |s|
    ensures var e := LineEnd(s, i, AsIs);
            e < |s| ==> (e - 2 >= i && AreOther(s[e - 2], s[e - 1])) || !AreOther(s[e - 1], s[e])
    decreases |s| - i
  {
    if EolLength(s, i, AsIs) == 0 && i + 1 < |s| {
      LineEndIsWhole(s, i + 1);
    }
  }

  /** In the mode that keeps line endings no pair is ever torn apart. */
  lemma {:induction false} PairsStayTogether(s: string, i: nat)
    requires i + 1 < |Lines(s, AsIs)|
    ensures IsWholeEol(Lines(s, AsIs)[i], Lines(s, AsIs)[i + 1])
    decreases |s|
  {
    hide LineEnd, EolLength;
    var e := LineEnd(s, 0, AsIs);
    var first, rest := s[..e], s[e..];
    assert Lines(s, AsIs) == [first] + Lines(rest, AsIs);
    if i == 0 {
      LineEndIsWhole(s, 0);
      FirstOfLines(rest, AsIs);
    } else {
      PairsStayTogether(rest, i - 1);
    }
  }

  lemma FirstOfLines(s: string, mode: LineEnding)
    requires s != ""
    ensures Lines(s, mode) != [] && Lines(s, mode)[0] != "" && Lines(s, mode)[0][0] == s[0]
  {
    hide LineEnd;
  }

  /** Within a chunk every piece but the first has a label, for it follows a
      line ending; the first has one exactly when output was at a line start. */
  lemma LabelsInChunk(text: string, before: bool, mode: LineEnding, i: nat)
    requires i < |Lines(text, mode)|
    ensures Labelled(Lines(text, mode), before, mode)[i] == Piece(i > 0 || before, Lines(text, mode)[i])
  {
    var lines := Lines(text, mode);
    LinesAreLines(text, mode);
    LabelledIs(lines, before, mode);
    hide Lines, Labelled, EndsWithEol, IsLine;
    var ps := Labelled(lines, before, mode);
    assert Texts(ps)[i] == lines[i] && ps[i].labelled == AtLineEnd(ps[..i], before, mode);
    if i > 0 {
      assert Texts(ps)[i - 1] == lines[i - 1] && ps[..i][i - 1] == ps[i - 1];
    }
  }

  /** What is shown for a chunk of normalised text: its lines, each after a
      label, save that the first has none when it goes on with a line. */
  lemma ShownChunk(text: string, before: bool, mode: LineEnding, i: nat)
    requires i < |Lines(text, mode)|
    ensures AllShown(Labelled(Lines(text, mode), before, mode))[i] ==
            (if i > 0 || before then "RX: " else "") + Lines(text, mode)[i]
  {
    LabelsInChunk(text, before, mode, i);
    hide Lines, Labelled;
  }

  /** The normaliser writes line endings that the splitter of the same mode
      recognises, and nothing else ends a line there. */
  lemma WrittenEolEndsLine(s: string, opt: Options)
    requires IsNewline(s)
    ensures EndsWithEol(EndOfLine(s, opt), opt.lineEnding) && HasNoInnerEol(EndOfLine(s, opt), opt.lineEnding)
    ensures opt.lineEnding.AsIs? ==> EndOfLine(s, opt) == s[..if IsPair(s) then 2 else 1]
  {
    assert s[..1][0..] == s[..1] && [s[0]] == s[..1];
    if IsPair(s) {
      assert s[..2][0..] == s[..2] && [s[0], s[1]] == s[..2];
    }
  }

  /** The byte count of the buffer is the length of its text. */
  lemma {:induction false} BytesAreLength(buf: seq<string>)
    ensures Bytes(buf) == |Concat(buf)|
  {
    if buf != [] {
      BytesAreLength(buf[1..]);
      hide Concat;
      ConcatCons(buf[0], buf[1..]);
      assert buf == [buf[0]] + buf[1..];
    } else {
      EmptyConcat();
    }
  }

  // ---- Normalising, byte by byte ----

  /** How many bytes the line ending at the start of `s` has. */
  function EolBytes(s: string): nat
    requires s != ""
  {
    if |s| > 1 && AreOther(s[0], s[1]) then 2 else 1
  }

  /** A line ending, pairs of both kinds counted as one, becomes the one of the
      mode, after a tag if there are to be tags. */
  lemma LineEndingBecomes(s: string, opt: Options)
    requires s != "" && IsEolByte(s[0])
    ensures IsNewline(s)
    ensures Normal(s, opt) ==
            (if opt.showNLTag then Tag(s) else "")
            + (match opt.lineEnding
               case AsIs => s[..EolBytes(s)]
               case LF => "\n"
               case CR => "\r"
               case CRLF => "\r\n"
               case LFCR => "\n\r")
            + Normal(s[EolBytes(s)..], opt)
  {
    NormalStep(s, opt);
    NewlineToken(s, opt);
    hide Normal, Tag;
  }

  /** Without an escape sequence at its start, any other byte becomes a tab
      text, a visible control byte, or stays. */
  lemma ByteBecomes(s: string, opt: Options)
    requires s != "" && !IsEolByte(s[0])
    requires opt.preserveAnsi && |s| > 1 && s[0] as int == 0x1B ==> s[1] != '[' && s[1] != ']'
    ensures var b := s[0] as int;
            Normal(s, opt) ==
            (if b == 0x09 then (if opt.tabRender == "" then "\t" else opt.tabRender)
             else if b < 0x20 || b == 0x7F then Visible(s[0], opt.mode)
             else [s[0]])
            + Normal(s[1..], opt)
  {
    NormalStep(s, opt);
    hide Normal, Visible;
  }

  /** A preserved escape sequence is copied up to its end. */
  lemma SequenceBecomes(s: string, opt: Options)
    requires opt.preserveAnsi && |s| > 1 && s[0] as int == 0x1B && (s[1] == '[' || s[1] == ']')
    ensures var e := if s[1] == '[' then CsiEnd(s, 2) else OscEnd(s, 2); Normal(s, opt) == s[..e] + Normal(s[e..], opt)
  {
    NormalStep(s, opt);
    hide Normal, CsiEnd, OscEnd;
  }
}
