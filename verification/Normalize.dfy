/** Making serial console bytes printable. Text is a string whose characters
    stand for bytes. */
module Normalize {

  datatype Mode = Caret | Names | Hex

  datatype LineEnding = AsIs | LF | CR | CRLF | LFCR

  datatype Options = Options(
    mode: Mode, lineEnding: LineEnding, tabRender: string, preserveAnsi: bool, showNLTag: bool)

  const ESC: char := '\U{1B}'
  const BEL: char := '\U{07}'
  const DEL: char := '\U{7F}'

  predicate IsControl(b: char) {
    b < ' ' || b == DEL
  }

  predicate IsPrintable(s: string) {
    forall i :: 0 <= i < |s| ==> !IsControl(s[i])
  }

  // ---- One token ----

  /** Where the escape sequence ends: just after a final byte, or at the end. */
  function CsiEnd(s: string, j: nat): (e: nat)
    requires j <= |s|
    ensures j <= e <= |s|
    decreases |s| - j
  {
    if j == |s| then j else if '@' <= s[j] <= '~' then j + 1 else CsiEnd(s, j + 1)
  }

  /** Just after BEL or ESC backslash, or at the end. */
  function OscEnd(s: string, j: nat): (e: nat)
    requires j <= |s|
    ensures j <= e <= |s|
    decreases |s| - j
  {
    if j == |s| then j
    else if s[j] == BEL then j + 1
    else if j + 1 < |s| && s[j] == ESC && s[j + 1] == '\\' then j + 2
    else OscEnd(s, j + 1)
  }

  predicate IsCsi(s: string, opt: Options) {
    opt.preserveAnsi && |s| > 1 && s[0] == ESC && s[1] == '['
  }

  predicate IsOsc(s: string, opt: Options) {
    opt.preserveAnsi && |s| > 1 && s[0] == ESC && s[1] == ']'
  }

  predicate IsNewline(s: string) {
    s != "" && (s[0] == '\r' || s[0] == '\n')
  }

  predicate IsPair(s: string) {
    |s| > 1 && ((s[0] == '\r' && s[1] == '\n') || (s[0] == '\n' && s[1] == '\r'))
  }

  function Digit(n: int): char
    requires 0 <= n < 16
  {
    "0123456789ABCDEF"[n]
  }

  function NameOf(b: char): string
    requires IsControl(b)
  {
    if b == DEL then "DEL"
    else ["NUL", "SOH", "STX", "ETX", "EOT", "ENQ", "ACK", "BEL",
          "BS", "TAB", "LF", "VT", "FF", "CR", "SO", "SI",
          "DLE", "DC1", "DC2", "DC3", "DC4", "NAK", "SYN", "ETB",
          "CAN", "EM", "SUB", "ESC", "FS", "GS", "RS", "US"][b as int]
  }

  function Visible(b: char, mode: Mode): (r: string)
    requires IsControl(b)
    ensures r != ""
  {
    match mode
    case Caret => if b == DEL then "^?" else ['^', ('@' as int + b as int) as char]
    case Names => "<" + NameOf(b) + ">"
    case Hex => ['\\', 'x', Digit(b as int / 16), Digit(b as int % 16)]
  }

  function Tag(s: string): string
    requires IsNewline(s)
  {
    if IsPair(s) then (if s[0] == '\r' then "<CRLF>" else "<LFCR>")
    else if s[0] == '\r' then "<CR>" else "<LF>"
  }

  function EndOfLine(s: string, opt: Options): (r: string)
    requires IsNewline(s)
    ensures r != ""
  {
    match opt.lineEnding
    case AsIs => if IsPair(s) then s[..2] else s[..1]
    case LF => "\n"
    case CR => "\r"
    case CRLF => "\r\n"
    case LFCR => "\n\r"
  }

  /** How much of the input the next token takes. */
  function TokenLength(s: string, opt: Options): (n: nat)
    requires s != ""
    ensures 1 <= n <= |s|
  {
    if IsCsi(s, opt) then CsiEnd(s, 2)
    else if IsOsc(s, opt) then OscEnd(s, 2)
    else if IsNewline(s) && IsPair(s) then 2
    else 1
  }

  /** What the next token becomes. */
  function TokenText(s: string, opt: Options): (r: string)
    requires s != ""
    ensures r != ""
  {
    if IsCsi(s, opt) || IsOsc(s, opt) then s[..TokenLength(s, opt)]
    else if IsNewline(s) then (if opt.showNLTag then Tag(s) else "") + EndOfLine(s, opt)
    else if s[0] == '\t' then (if opt.tabRender != "" then opt.tabRender else "\t")
    else if IsControl(s[0]) then Visible(s[0], opt.mode)
    else [s[0]]
  }

  function Normal(s: string, opt: Options): string
    decreases |s|
  {
    if s == "" then "" else TokenText(s, opt) + Normal(s[TokenLength(s, opt)..], opt)
  }

  // ---- The scanning loop ----

  lemma {:induction false} CsiEndShift(s: string, i: nat, j: nat)
    requires i <= j <= |s|
    ensures CsiEnd(s[i..], j - i) + i == CsiEnd(s, j)
    decreases |s| - j
  {
    if j < |s| {
      CsiEndShift(s, i, j + 1);
    }
  }

  lemma {:induction false} OscEndShift(s: string, i: nat, j: nat)
    requires i <= j <= |s|
    ensures OscEnd(s[i..], j - i) + i == OscEnd(s, j)
    decreases |s| - j
  {
    if j < |s| {
      OscEndShift(s, i, j + 1);
    }
  }

  method ScanCsi(s: string, i: nat) returns (j: nat)
    requires i + 1 < |s|
    ensures i + 2 <= j <= |s| && j == i + CsiEnd(s[i..], 2)
  {
    j := i + 2;
    while j < |s|
      invariant i + 2 <= j <= |s| && CsiEnd(s, i + 2) == CsiEnd(s, j)
    {
      var c := s[j];
      if '@' <= c <= '~' {
        j := j + 1;
        CsiEndShift(s, i, i + 2);
        return;
      }
      j := j + 1;
    }
    CsiEndShift(s, i, i + 2);
  }

  method ScanOsc(s: string, i: nat) returns (j: nat)
    requires i + 1 < |s|
    ensures i + 2 <= j <= |s| && j == i + OscEnd(s[i..], 2)
  {
    j := i + 2;
    while j < |s|
      invariant i + 2 <= j <= |s| && OscEnd(s, i + 2) == OscEnd(s, j)
    {
      if s[j] == BEL {
        j := j + 1;
        OscEndShift(s, i, i + 2);
        return;
      }
      if j + 1 < |s| && s[j] == ESC && s[j + 1] == '\\' {
        j := j + 2;
        OscEndShift(s, i, i + 2);
        return;
      }
      j := j + 1;
    }
    OscEndShift(s, i, i + 2);
  }

  method NextToken(s: string, i: nat, opt: Options) returns (text: string, j: nat)
    requires i < |s|
    ensures text == TokenText(s[i..], opt) && j == i + TokenLength(s[i..], opt)
  {
    hide Visible, Tag, CsiEnd, OscEnd;
    var b := s[i];
    if opt.preserveAnsi && b == ESC && i + 1 < |s| {
      if s[i + 1] == '[' {
        j := ScanCsi(s, i);
        text := s[i..j];
        assert text == s[i..][..j - i];
        return;
      } else if s[i + 1] == ']' {
        j := ScanOsc(s, i);
        text := s[i..j];
        assert text == s[i..][..j - i];
        return;
      }
    }
    if b == '\r' || b == '\n' {
      var isPair := i + 1 < |s| && ((b == '\r' && s[i + 1] == '\n') || (b == '\n' && s[i + 1] == '\r'));
      text := NewlineText(s, i, isPair, opt);
      j := if isPair then i + 2 else i + 1;
    } else if b == '\t' {
      text := if opt.tabRender != "" then opt.tabRender else "\t";
      j := i + 1;
    } else if b < ' ' || b == DEL {
      text := Visible(b, opt.mode);
      j := i + 1;
    } else {
      text := [b];
      j := i + 1;
    }
  }

  /** The index loop of the source. */
  method NormalizeText(s: string, opt: Options) returns (out: string)
    ensures out == Normal(s, opt)
  {
    hide TokenText, TokenLength;
    out := "";
    var i := 0;
    assert s[0..] == s;
    while i < |s|
      invariant 0 <= i <= |s| && out + Normal(s[i..], opt) == Normal(s, opt)
    {
      var text, j := NextToken(s, i, opt);
      assert s[j..] == s[i..][TokenLength(s[i..], opt)..];
      assert out + Normal(s[i..], opt) == (out + text) + Normal(s[j..], opt);
      out := out + text;
      i := j;
    }
    assert Normal(s[|s|..], opt) == "";
  }

  method NewlineText(s: string, i: nat, isPair: bool, opt: Options) returns (r: string)
    requires i < |s| && IsNewline(s[i..]) && isPair == IsPair(s[i..])
    ensures r == (if opt.showNLTag then Tag(s[i..]) else "") + EndOfLine(s[i..], opt)
  {
    r := "";
    if opt.showNLTag {
      if isPair {
        r := if s[i] == '\r' then "<CRLF>" else "<LFCR>";
      } else {
        r := if s[i] == '\r' then "<CR>" else "<LF>";
      }
    }
    match opt.lineEnding {
      case AsIs =>
        if isPair {
          r := r + [s[i], s[i + 1]];
          assert s[i..][..2] == [s[i], s[i + 1]];
        } else {
          r := r + [s[i]];
          assert s[i..][..1] == [s[i]];
        }
      case LF => r := r + "\n";
      case CR => r := r + "\r";
      case CRLF => r := r + "\r\n";
      case LFCR => r := r + "\n\r";
    }
  }

  // ---- Tokens and their texts ----

  lemma NormalStep(s: string, opt: Options)
    requires s != ""
    ensures Normal(s, opt) == TokenText(s, opt) + Normal(s[TokenLength(s, opt)..], opt)
  {
  }

  lemma VisibleIsPrintable(b: char, mode: Mode)
    requires IsControl(b)
    ensures IsPrintable(Visible(b, mode)) && |Visible(b, mode)| >= 2
  {
    if mode.Names? {
      NameIsPrintable(b);
    }
  }

  lemma NameIsPrintable(b: char)
    requires IsControl(b)
    ensures IsPrintable(NameOf(b))
  {
  }

  lemma PlainToken(s: string, opt: Options)
    requires s != "" && !IsControl(s[0])
    ensures TokenLength(s, opt) == 1 && TokenText(s, opt) == [s[0]]
  {
  }

  lemma TagIsPrintable(s: string)
    requires IsNewline(s)
    ensures IsPrintable(Tag(s)) && Tag(s) != ""
  {
  }

  lemma NewlineToken(s: string, opt: Options)
    requires IsNewline(s)
    ensures TokenText(s, opt) == if opt.showNLTag then Tag(s) + EndOfLine(s, opt) else EndOfLine(s, opt)
  {
  }

  /** Printable text is copied, whatever follows it. */
  lemma {:induction false} PrintablePrefix(o: string, r: string, opt: Options)
    requires IsPrintable(o)
    ensures Normal(o + r, opt) == o + Normal(r, opt)
  {
    hide TokenText, TokenLength, IsControl;
    if o == "" {
      assert o + r == r;
    } else {
      PrintablePrefix(o[1..], r, opt);
      assert !IsControl(o[0]) && (o + r)[1..] == o[1..] + r;
      PlainToken(o + r, opt);
      assert o == [o[0]] + o[1..];
    }
  }

  /** Kept line endings without tags are copied byte by byte, however they are
      paired. */
  lemma {:induction false} NewlineByte(b: char, r: string, opt: Options)
    requires (b == '\r' || b == '\n') && opt.lineEnding.AsIs? && !opt.showNLTag
    ensures Normal([b] + r, opt) == [b] + Normal(r, opt)
    decreases |r|
  {
    hide Normal, TokenText;
    var s := [b] + r;
    NormalStep(s, opt);
    NewlineToken(s, opt);
    if IsPair(s) {
      NewlineByte(r[0], r[1..], opt);
      PairIsCopied(b, r, opt);
    } else {
      assert s[1..] == r && s[..1] == [b];
    }
  }

  lemma PairIsCopied(b: char, r: string, opt: Options)
    requires IsNewline([b] + r) && IsPair([b] + r) && opt.lineEnding.AsIs? && !opt.showNLTag
    requires Normal([r[0]] + r[1..], opt) == [r[0]] + Normal(r[1..], opt)
    ensures Normal([b] + r, opt) == [b] + Normal(r, opt)
  {
    hide Normal, TokenText, TokenLength;
    var s := [b] + r;
    NormalStep(s, opt);
    PairToken(b, r, opt);
    assert r == [r[0]] + r[1..] && s[2..] == r[1..];
    assert [b, r[0]] + Normal(r[1..], opt) == [b] + ([r[0]] + Normal(r[1..], opt));
  }

  lemma PairToken(b: char, r: string, opt: Options)
    requires IsNewline([b] + r) && IsPair([b] + r) && opt.lineEnding.AsIs? && !opt.showNLTag
    ensures TokenLength([b] + r, opt) == 2 && TokenText([b] + r, opt) == [b, r[0]]
  {
    NewlineToken([b] + r, opt);
    assert ([b] + r)[..2] == [b, r[0]];
  }

  // An escape sequence that ends by itself ends at the same place whatever
  // follows; one that does not takes the rest of the input.

  predicate CsiStops(s: string, j: nat)
    requires j <= |s|
    decreases |s| - j
  {
    j < |s| && ('@' <= s[j] <= '~' || CsiStops(s, j + 1))
  }

  predicate OscStops(s: string, j: nat)
    requires j <= |s|
    decreases |s| - j
  {
    j < |s| && (s[j] == BEL || (j + 1 < |s| && s[j] == ESC && s[j + 1] == '\\') || OscStops(s, j + 1))
  }

  /** `s` starts with an escape sequence that does not end. */
  predicate IsOpen(s: string, opt: Options) {
    (IsCsi(s, opt) && !CsiStops(s, 2)) || (IsOsc(s, opt) && !OscStops(s, 2))
  }

  lemma {:induction false} CsiKeeps(s: string, r: string, j: nat)
    requires j <= |s| && (CsiStops(s, j) || r == "")
    ensures CsiEnd(s[..CsiEnd(s, j)] + r, j) == CsiEnd(s, j)
    decreases |s| - j
  {
    var n := CsiEnd(s, j);
    if j < |s| && !('@' <= s[j] <= '~') {
      CsiKeeps(s, r, j + 1);
      assert (s[..n] + r)[j] == s[j];
    } else if j < |s| {
      assert (s[..n] + r)[j] == s[j];
    } else {
      assert s[..n] + r == s;
    }
  }

  lemma {:induction false} CsiOpen(s: string, j: nat)
    requires j <= |s| && !CsiStops(s, j)
    ensures CsiEnd(s, j) == |s|
    decreases |s| - j
  {
    if j < |s| {
      CsiOpen(s, j + 1);
    }
  }

  lemma {:induction false} OscOpen(s: string, j: nat)
    requires j <= |s| && !OscStops(s, j)
    ensures OscEnd(s, j) == |s|
    decreases |s| - j
  {
    if j < |s| {
      OscOpen(s, j + 1);
    }
  }

  lemma {:induction false} OscKeeps(s: string, r: string, j: nat)
    requires j <= |s| && (OscStops(s, j) || r == "")
    ensures OscEnd(s[..OscEnd(s, j)] + r, j) == OscEnd(s, j)
    decreases |s| - j
  {
    var n := OscEnd(s, j);
    if j == |s| {
      assert s[..n] + r == s;
    } else {
      assert (s[..n] + r)[j] == s[j];
      if s[j] != BEL && !(j + 1 < |s| && s[j] == ESC && s[j + 1] == '\\') {
        OscKeeps(s, r, j + 1);
        OscLeaves(s, j + 1);
        assert j + 1 < n ==> (s[..n] + r)[j + 1] == s[j + 1];
        assert j + 1 == n ==> n == |s| && r == "";
      }
    }
  }

  lemma OscLeaves(s: string, j: nat)
    requires j <= |s|
    ensures OscEnd(s, j) == j ==> j == |s|
  {
  }

  lemma OpenTakesAll(s: string, opt: Options)
    requires IsOpen(s, opt)
    ensures TokenLength(s, opt) == |s|
  {
    if IsCsi(s, opt) {
      CsiOpen(s, 2);
    } else {
      OscOpen(s, 2);
    }
  }

  /** An escape sequence that ends is a token again and stays as it is. */
  lemma AnsiStays(s: string, r: string, opt: Options)
    requires IsCsi(s, opt) || IsOsc(s, opt)
    requires IsOpen(s, opt) ==> r == ""
    ensures Normal(TokenText(s, opt) + r, opt) == TokenText(s, opt) + Normal(r, opt)
  {
    var n, o := TokenLength(s, opt), TokenText(s, opt);
    var t := o + r;
    assert t[0] == s[0] && t[1] == s[1];
    if IsCsi(s, opt) {
      CsiKeeps(s, r, 2);
    } else {
      OscKeeps(s, r, 2);
    }
    assert t[..n] == o && t[n..] == r;
  }

  // ---- Text that stays as it is ----

  /** Each token of `s` is its own text. */
  predicate IsFixed(s: string, opt: Options)
    decreases |s|
  {
    s == "" ||
    var n := TokenLength(s, opt);
    TokenText(s, opt) == s[..n] && IsFixed(s[n..], opt)
  }

  /** The last token of `s` is an escape sequence that does not end. */
  predicate EndsOpen(s: string, opt: Options)
    decreases |s|
  {
    s != "" && (IsOpen(s, opt) || EndsOpen(s[TokenLength(s, opt)..], opt))
  }

  /** Tabs stay, or become text that is kept as it is, whatever follows. */
  predicate TabsSettle(opt: Options) {
    Normal(opt.tabRender, opt) == opt.tabRender && !EndsOpen(opt.tabRender, opt)
  }

  /** `s` does not start with the byte that would make a pair with a written
      line ending before it. */
  predicate StartsApart(s: string, opt: Options) {
    s == "" ||
    match opt.lineEnding
    case AsIs => opt.showNLTag ==> s[0] != '\r' && s[0] != '\n'
    case LF => s[0] != '\r'
    case CR => s[0] != '\n'
    case _ => true
  }

  /** Tokens never start like that, if tabs do not. */
  lemma TokenStartsApart(s: string, opt: Options)
    requires s != "" && StartsApart(opt.tabRender, opt)
    ensures StartsApart(TokenText(s, opt), opt)
  {
    if IsNewline(s) {
      TagIsPrintable(s);
      NewlineToken(s, opt);
    } else if IsControl(s[0]) && s[0] != '\t' {
      VisibleIsPrintable(s[0], opt.mode);
    }
  }

  lemma NormalStartsApart(s: string, opt: Options)
    requires StartsApart(opt.tabRender, opt)
    ensures StartsApart(Normal(s, opt), opt) && (Normal(s, opt) == "" ==> s == "")
  {
    hide TokenText, TokenLength;
    if s != "" {
      TokenStartsApart(s, opt);
      NormalStep(s, opt);
    }
  }

  lemma TabStartsApart(opt: Options)
    requires Normal(opt.tabRender, opt) == opt.tabRender
    ensures StartsApart(opt.tabRender, opt)
  {
    var t := opt.tabRender;
    if t != "" && IsNewline(t) {
      NormalStep(t, opt);
      NewlineToken(t, opt);
      TagIsPrintable(t);
    }
  }

  /** What the first token of a text with `Normal(s) == s` looks like. */
  lemma FixedToken(s: string, opt: Options)
    requires s != "" && Normal(s, opt) == s && StartsApart(opt.tabRender, opt)
    requires opt.tabRender != "" ==> |s| <= |opt.tabRender|
    ensures var n := TokenLength(s, opt); TokenText(s, opt) == s[..n] && Normal(s[n..], opt) == s[n..]
  {
    var n, o := TokenLength(s, opt), TokenText(s, opt);
    var r := Normal(s[n..], opt);
    NormalStep(s, opt);
    NormalStartsApart(s[n..], opt);
    assert o == s[..|o|] && r == s[|o|..];
    hide Normal;
    if IsCsi(s, opt) || IsOsc(s, opt) {
    } else if IsNewline(s) {
      TagIsPrintable(s);
      NewlineToken(s, opt);
      FixedNewline(s, r, opt);
    } else if s[0] == '\t' {
      if opt.tabRender != "" {
        assert r == "" && s[n..] == "";
      }
    } else if IsControl(s[0]) {
      VisibleIsPrintable(s[0], opt.mode);
    }
  }

  lemma FixedNewline(s: string, r: string, opt: Options)
    requires IsNewline(s) && !opt.showNLTag && StartsApart(r, opt) && s == EndOfLine(s, opt) + r
    ensures EndOfLine(s, opt) == s[..TokenLength(s, opt)]
  {
    var o := EndOfLine(s, opt);
    assert s[..|o|] == o && s[|o|..] == r;
    assert |s| > 1 && |o| == 1 ==> s[1] == r[0];
  }

  lemma {:induction false} NormalIsFixed(s: string, opt: Options)
    requires Normal(s, opt) == s && StartsApart(opt.tabRender, opt)
    requires opt.tabRender != "" ==> |s| <= |opt.tabRender|
    ensures IsFixed(s, opt)
    decreases |s|
  {
    if s != "" {
      FixedToken(s, opt);
      hide TokenText, TokenLength;
      NormalIsFixed(s[TokenLength(s, opt)..], opt);
    }
  }

  /** A token that is its own text stays one, whatever follows. */
  lemma FixedTokenStays(s: string, r: string, opt: Options)
    requires s != "" && TokenText(s, opt) == s[..TokenLength(s, opt)] && !IsOpen(s, opt) && StartsApart(r, opt)
    ensures var n := TokenLength(s, opt); Normal(s + r, opt) == s[..n] + Normal(s[n..] + r, opt)
  {
    var n := TokenLength(s, opt);
    if IsCsi(s, opt) || IsOsc(s, opt) {
      hide Normal, TokenText, TokenLength;
      assert s + r == s[..n] + (s[n..] + r);
      AnsiStays(s, s[n..] + r, opt);
    } else if IsNewline(s) {
      NewlineTokenStays(s, r, opt);
    } else {
      OtherToken(s, r, opt);
    }
  }

  lemma NewlineTokenStays(s: string, r: string, opt: Options)
    requires IsNewline(s) && TokenText(s, opt) == s[..TokenLength(s, opt)] && StartsApart(r, opt)
    ensures var n := TokenLength(s, opt); Normal(s + r, opt) == s[..n] + Normal(s[n..] + r, opt)
  {
    hide Normal;
    var n := TokenLength(s, opt);
    TagIsPrintable(s);
    NewlineToken(s, opt);
    assert !opt.showNLTag;
    if opt.lineEnding.AsIs? {
      CopiedNewline(s, r, opt);
    } else {
      assert EndOfLine(s + r, opt) == s[..n] && TokenLength(s + r, opt) == n;
      NewlineToken(s + r, opt);
      NormalStep(s + r, opt);
      assert (s + r)[n..] == s[n..] + r;
    }
  }

  lemma CopiedNewline(s: string, r: string, opt: Options)
    requires IsNewline(s) && opt.lineEnding.AsIs? && !opt.showNLTag
    ensures var n := TokenLength(s, opt); Normal(s + r, opt) == s[..n] + Normal(s[n..] + r, opt)
  {
    hide Normal;
    var n := TokenLength(s, opt);
    var rest := s[n..] + r;
    NewlineByte(s[n - 1], rest, opt);
    if n == 2 {
      NewlineByte(s[0], [s[1]] + rest, opt);
      assert s + r == [s[0]] + ([s[1]] + rest) && s[..2] == [s[0]] + [s[1]];
    } else {
      assert s + r == [s[0]] + rest && s[..1] == [s[0]];
    }
  }

  lemma OtherToken(s: string, r: string, opt: Options)
    requires s != "" && !IsCsi(s, opt) && !IsOsc(s, opt) && !IsNewline(s) && TokenText(s, opt) == s[..1]
    ensures Normal(s + r, opt) == s[..1] + Normal(s[1..] + r, opt)
  {
    if IsControl(s[0]) && s[0] != '\t' {
      VisibleIsPrintable(s[0], opt.mode);
    } else {
      assert TokenText(s + r, opt) == s[..1] && TokenLength(s + r, opt) == 1;
      NormalStep(s + r, opt);
      assert (s + r)[1..] == s[1..] + r;
    }
  }

  /** Fixed text that ends by itself is copied, whatever follows it. */
  lemma {:induction false} FixedPrefix(o: string, r: string, opt: Options)
    requires IsFixed(o, opt) && !EndsOpen(o, opt) && StartsApart(r, opt)
    ensures Normal(o + r, opt) == o + Normal(r, opt)
    decreases |o|
  {
    hide TokenText, TokenLength, IsOpen;
    if o == "" {
      assert o + r == r;
    } else {
      var n := TokenLength(o, opt);
      FixedTokenStays(o, r, opt);
      FixedPrefix(o[n..], r, opt);
      assert o == o[..n] + o[n..];
    }
  }

  // ---- Idempotence ----

  /** Some line ending outside of a preserved escape sequence. */
  predicate HasNewline(s: string, opt: Options)
    decreases |s|
  {
    s != "" && (IsNewline(s) || HasNewline(s[TokenLength(s, opt)..], opt))
  }

  /** A written line ending is read back as itself. */
  lemma NewlineStays(s: string, opt: Options)
    requires IsNewline(s) && StartsApart(opt.tabRender, opt)
    ensures var r := Normal(s[TokenLength(s, opt)..], opt);
            var t := EndOfLine(s, opt) + r;
            && IsNewline(t)
            && Normal(t, opt) == (if opt.showNLTag then Tag(t) + EndOfLine(s, opt) else EndOfLine(s, opt)) + Normal(r, opt)
  {
    var o, r := EndOfLine(s, opt), Normal(s[TokenLength(s, opt)..], opt);
    NormalStartsApart(s[TokenLength(s, opt)..], opt);
    hide Normal, Tag;
    if opt.lineEnding.AsIs? && !opt.showNLTag {
      assert TokenLength(o, opt) == |o| && o[|o|..] == "" && "" + r == r && o[..|o|] == o;
      CopiedNewline(o, r, opt);
    } else {
      EolReadsBack(s, r, opt);
      NormalStep(o + r, opt);
      NewlineToken(o + r, opt);
    }
  }

  lemma EolReadsBack(s: string, r: string, opt: Options)
    requires IsNewline(s) && StartsApart(r, opt) && (opt.lineEnding.AsIs? ==> opt.showNLTag)
    ensures var o := EndOfLine(s, opt);
            && IsNewline(o + r) && TokenLength(o + r, opt) == |o|
            && EndOfLine(o + r, opt) == o && (o + r)[|o|..] == r
  {
  }

  /** Any other token stays as it is. */
  lemma TokenStays(s: string, opt: Options)
    requires s != "" && TabsSettle(opt) && !IsNewline(s)
    ensures var r := Normal(s[TokenLength(s, opt)..], opt);
            Normal(TokenText(s, opt) + r, opt) == TokenText(s, opt) + Normal(r, opt)
  {
    hide CsiEnd, OscEnd, Visible;
    var o, r := TokenText(s, opt), Normal(s[TokenLength(s, opt)..], opt);
    TabStartsApart(opt);
    NormalStartsApart(s[TokenLength(s, opt)..], opt);
    if IsCsi(s, opt) || IsOsc(s, opt) {
      if IsOpen(s, opt) {
        OpenTakesAll(s, opt);
        assert Normal("", opt) == "";
      }
      AnsiStays(s, r, opt);
    } else if s[0] == '\t' && opt.tabRender == "" {
      assert (o + r)[1..] == r;
      NormalStep(o + r, opt);
    } else if s[0] == '\t' {
      NormalIsFixed(o, opt);
      FixedPrefix(o, r, opt);
    } else {
      if IsControl(s[0]) {
        VisibleIsPrintable(s[0], opt.mode);
      }
      PrintablePrefix(o, r, opt);
    }
  }

  lemma NewlineTwice(s: string, opt: Options)
    requires IsNewline(s) && StartsApart(opt.tabRender, opt)
    ensures var r := Normal(s[TokenLength(s, opt)..], opt);
            var once := Normal(s, opt);
            var twice := Normal(once, opt);
            if opt.showNLTag then |twice| - |once| > |Normal(r, opt)| - |r|
            else once == EndOfLine(s, opt) + r && twice == EndOfLine(s, opt) + Normal(r, opt)
  {
    hide Normal, EndOfLine, TokenLength, TokenText, Tag, StartsApart, IsPrintable;
    var o, r := EndOfLine(s, opt), Normal(s[TokenLength(s, opt)..], opt);
    NormalStep(s, opt);
    NewlineToken(s, opt);
    NewlineStays(s, opt);
    if opt.showNLTag {
      TagIsPrintable(s);
      TagIsPrintable(o + r);
      PrintablePrefix(Tag(s), o + r, opt);
      assert Tag(s) + o + r == Tag(s) + (o + r);
    }
  }

  /** A second pass changes nothing unless line endings are tagged; then every
      line ending gets one more tag. */
  lemma {:induction false} SecondPass(s: string, opt: Options)
    requires TabsSettle(opt)
    ensures var once := Normal(s, opt);
            var twice := Normal(once, opt);
            if opt.showNLTag && HasNewline(s, opt) then |twice| > |once| else twice == once
    decreases |s|
  {
    if s != "" {
      hide TokenText, TokenLength, EndOfLine, TabsSettle;
      var rest := s[TokenLength(s, opt)..];
      SecondPass(rest, opt);
      NormalStep(s, opt);
      if IsNewline(s) {
        TabsStartApart(opt);
        NewlineTwice(s, opt);
      } else {
        TokenStays(s, opt);
      }
    }
  }

  lemma TabsStartApart(opt: Options)
    requires TabsSettle(opt)
    ensures StartsApart(opt.tabRender, opt)
  {
    TabStartsApart(opt);
  }

  /** With tabs that settle, normalising is idempotent on an input exactly when
      no line ending of it is tagged: for every mode and line ending, with or
      without ANSI preservation. */
  lemma NormalIsIdempotent(s: string, opt: Options)
    requires TabsSettle(opt)
    ensures Normal(Normal(s, opt), opt) == Normal(s, opt) <==> !(opt.showNLTag && HasNewline(s, opt))
  {
    SecondPass(s, opt);
  }

  /** Tabs that stay, or become printable text, settle. */
  lemma PlainTabsSettle(opt: Options)
    requires IsPrintable(opt.tabRender)
    ensures TabsSettle(opt)
  {
    var t := opt.tabRender;
    PrintablePrefix(t, "", opt);
    assert t + "" == t && Normal("", opt) == "";
    PrintableEndsClosed(t, opt);
  }

  lemma {:induction false} PrintableEndsClosed(s: string, opt: Options)
    requires IsPrintable(s)
    ensures !EndsOpen(s, opt)
  {
    if s != "" {
      assert !IsControl(s[0]);
      PlainToken(s, opt);
      PrintableEndsClosed(s[1..], opt);
    }
  }

  // ---- Idempotence on all inputs ----

  ghost predicate IsIdempotent(opt: Options) {
    forall s: string :: Normal(Normal(s, opt), opt) == Normal(s, opt)
  }

  /** A control sequence with control bytes in it, which is kept as it is. */
  const PROBE: string := [ESC, '[', BEL, '\U{01}', 'm']

  lemma ProbeIsKept(opt: Options)
    requires opt.preserveAnsi
    ensures Normal(PROBE, opt) == PROBE
  {
    assert CsiEnd(PROBE, 4) == 5 && CsiEnd(PROBE, 3) == 5;
    assert CsiEnd(PROBE, 2) == 5;
    assert PROBE[..5] == PROBE && PROBE[5..] == "";
    NormalStep(PROBE, opt);
    assert Normal("", opt) == "";
  }

  /** Behind an open sequence its control bytes are no longer protected. */
  lemma ControlsGrow(opt: Options)
    ensures |Normal(PROBE[2..], opt)| > 3 && |Normal(PROBE[3..], opt)| > 2
  {
    hide Visible;
    assert Normal("", opt) == "";
    VisibleIsPrintable(BEL, opt.mode);
    VisibleIsPrintable('\U{01}', opt.mode);
    var a, b, c := PROBE[2..], PROBE[3..], PROBE[4..];
    assert a[1..] == b && b[1..] == c && c[1..] == "";
    NormalStep(a, opt);
    NormalStep(b, opt);
    NormalStep(c, opt);
  }

  lemma {:induction false} CsiRunsOn(s: string, j: nat)
    requires 2 <= j <= |s| && !CsiStops(s, j)
    ensures CsiEnd(s + PROBE, j) == |s| + 2
    decreases |s| - j
  {
    var t := s + PROBE;
    if j < |s| {
      assert t[j] == s[j];
      CsiRunsOn(s, j + 1);
    } else {
      assert t[j] == ESC && t[j + 1] == '[';
      assert CsiEnd(t, j + 1) == j + 2;
    }
  }

  lemma {:induction false} OscRunsOn(s: string, j: nat)
    requires 2 <= j <= |s| && !OscStops(s, j)
    ensures OscEnd(s + PROBE, j) == |s| + 3
    decreases |s| - j
  {
    var t := s + PROBE;
    if j < |s| {
      assert t[j] == s[j] && t[j + 1] == if j + 1 < |s| then s[j + 1] else ESC;
      OscRunsOn(s, j + 1);
    } else {
      assert t[j] == ESC && t[j + 1] == '[' && t[j + 2] == BEL;
      assert OscEnd(t, j + 2) == j + 3;
      assert OscEnd(t, j + 1) == j + 3;
    }
  }

  lemma OpenGrows(s: string, opt: Options)
    requires IsOpen(s, opt)
    ensures |Normal(s + PROBE, opt)| > |s + PROBE|
  {
    var t := s + PROBE;
    assert t[0] == s[0] && t[1] == s[1];
    ControlsGrow(opt);
    if IsCsi(s, opt) {
      CsiRunsOn(s, 2);
      assert t[|s| + 2..] == PROBE[2..];
    } else {
      OscRunsOn(s, 2);
      assert t[|s| + 3..] == PROBE[3..];
    }
    NormalStep(t, opt);
  }

  lemma {:induction false} EndsOpenGrows(s: string, opt: Options)
    requires IsFixed(s, opt) && EndsOpen(s, opt)
    ensures |Normal(s + PROBE, opt)| > |s + PROBE|
    decreases |s|
  {
    if IsOpen(s, opt) {
      OpenGrows(s, opt);
    } else {
      hide TokenText, TokenLength, IsOpen;
      FixedTokenStays(s, PROBE, opt);
      EndsOpenGrows(s[TokenLength(s, opt)..], opt);
    }
  }

  lemma {:induction false} EndsOpenPreserves(s: string, opt: Options)
    requires EndsOpen(s, opt)
    ensures opt.preserveAnsi
    decreases |s|
  {
    if !IsOpen(s, opt) {
      EndsOpenPreserves(s[TokenLength(s, opt)..], opt);
    }
  }

  lemma TabBecomes(r: string, opt: Options)
    requires opt.tabRender != ""
    ensures Normal("\t" + r, opt) == opt.tabRender + Normal(r, opt)
  {
    assert ("\t" + r)[1..] == r;
    NormalStep("\t" + r, opt);
  }

  /** Tabs that do not settle show on a tab alone, or on a tab and the probe. */
  lemma UnsettledShows(opt: Options)
    requires !TabsSettle(opt)
    ensures exists s: string :: Normal(Normal(s, opt), opt) != Normal(s, opt)
  {
    var t := opt.tabRender;
    assert Normal("", opt) == "";
    assert t != "";
    TabBecomes("", opt);
    assert "\t" + "" == "\t" && t + "" == t;
    if Normal(t, opt) != t {
      assert Normal(Normal("\t", opt), opt) != Normal("\t", opt);
    } else {
      TabStartsApart(opt);
      NormalIsFixed(t, opt);
      EndsOpenGrows(t, opt);
      EndsOpenPreserves(t, opt);
      ProbeIsKept(opt);
      TabBecomes(PROBE, opt);
      assert Normal(Normal("\t" + PROBE, opt), opt) != Normal("\t" + PROBE, opt);
    }
  }

  lemma TaggedShows(opt: Options)
    requires opt.showNLTag && TabsSettle(opt)
    ensures exists s: string :: Normal(Normal(s, opt), opt) != Normal(s, opt)
  {
    assert HasNewline("\n", opt);
    SecondPass("\n", opt);
  }

  /** Normalising is idempotent on all inputs exactly when line endings are not
      tagged and the text shown for a tab is kept as it is and leaves no escape
      sequence open. */
  lemma IdempotentExactlyWhen(opt: Options)
    ensures IsIdempotent(opt) <==> !opt.showNLTag && TabsSettle(opt)
  {
    if !TabsSettle(opt) {
      UnsettledShows(opt);
    } else if opt.showNLTag {
      TaggedShows(opt);
    } else {
      forall s: string
        ensures Normal(Normal(s, opt), opt) == Normal(s, opt)
      {
        NormalIsIdempotent(s, opt);
      }
    }
  }

  // ---- Cutting the input ----

  /** The last token of a text, and what the tokens before it become. */
  function LastToken(s: string, opt: Options): (t: string)
    requires s != ""
    ensures t != "" && TokenLength(t, opt) == |t|
    decreases |s|
  {
    var n := TokenLength(s, opt);
    if n == |s| then s else LastToken(s[n..], opt)
  }

  function TextBefore(s: string, opt: Options): string
    requires s != ""
    decreases |s|
  {
    var n := TokenLength(s, opt);
    if n == |s| then "" else TokenText(s, opt) + TextBefore(s[n..], opt)
  }

  lemma {:induction false} CsiSame(a: string, b: string, j: nat)
    requires j <= |a| && CsiStops(a, j)
    ensures CsiEnd(a + b, j) == CsiEnd(a, j)
    decreases |a| - j
  {
    assert (a + b)[j] == a[j];
    if !('@' <= a[j] <= '~') {
      CsiSame(a, b, j + 1);
    }
  }

  lemma {:induction false} OscSame(a: string, b: string, j: nat)
    requires j <= |a| && OscStops(a, j)
    ensures OscEnd(a + b, j) == OscEnd(a, j)
    decreases |a| - j
  {
    assert (a + b)[j] == a[j] && (j + 1 < |a| ==> (a + b)[j + 1] == a[j + 1]);
    if a[j] != BEL && !(j + 1 < |a| && a[j] == ESC && a[j + 1] == '\\') {
      OscSame(a, b, j + 1);
    }
  }

  /** A token that is not the last one does not depend on what follows. */
  lemma InnerToken(a: string, b: string, opt: Options)
    requires a != "" && TokenLength(a, opt) < |a|
    ensures TokenLength(a + b, opt) == TokenLength(a, opt) && TokenText(a + b, opt) == TokenText(a, opt)
  {
    var n := TokenLength(a, opt);
    assert (a + b)[0] == a[0] && (a + b)[1] == a[1];
    if IsCsi(a, opt) || IsOsc(a, opt) {
      if IsOpen(a, opt) {
        OpenTakesAll(a, opt);
      } else if IsCsi(a, opt) {
        CsiSame(a, b, 2);
      } else {
        OscSame(a, b, 2);
      }
      assert (a + b)[..n] == a[..n];
    } else if IsNewline(a) {
      NewlineToken(a, opt);
      NewlineToken(a + b, opt);
      assert (a + b)[..2] == a[..2] && (a + b)[..1] == a[..1];
    }
  }

  lemma {:induction false} OnlyLastMatters(a: string, b: string, opt: Options)
    requires a != ""
    ensures Normal(a + b, opt) == TextBefore(a, opt) + Normal(LastToken(a, opt) + b, opt)
    decreases |a|
  {
    hide TokenText, TokenLength, Normal;
    var n := TokenLength(a, opt);
    if n < |a| {
      OnlyLastMatters(a[n..], b, opt);
      InnerToken(a, b, opt);
      NormalStep(a + b, opt);
      assert (a + b)[n..] == a[n..] + b;
      var text, before, rest := TokenText(a, opt), TextBefore(a[n..], opt), Normal(LastToken(a[n..], opt) + b, opt);
      assert text + (before + rest) == text + before + rest;
    }
  }

  /** How many line ending bytes in turn, CR after LF and LF after CR, `s`
      starts with. */
  function RunLength(s: string): nat {
    if !IsNewline(s) then 0 else if IsPair(s) then 1 + RunLength(s[1..]) else 1
  }

  /** How much of `b` belongs to the escape sequence that `t` leaves open. */
  function Taken(t: string, b: string, opt: Options): (k: nat)
    ensures k <= |b|
  {
    if t == "" || TokenLength(t + b, opt) < |t| then 0 else TokenLength(t + b, opt) - |t|
  }

  /** A cut after the token `t` does not show: `b` does not go on with an open
      escape sequence, unless it keeps that part anyway; it does not turn an ESC
      into one; and it does not complete a pair of line endings, unless kept
      line endings are copied or an even number of bytes in turn makes up. */
  predicate JoinsCleanly(t: string, b: string, opt: Options)
    requires b != ""
  {
    if IsOpen(t, opt) then
      var k := Taken(t, b, opt);
      b[..k] + Normal(b[k..], opt) == Normal(b, opt)
    else if t == [ESC] && opt.preserveAnsi && (b[0] == '[' || b[0] == ']') then false
    else if |t| == 1 && IsNewline(t) && IsPair(t + b) then
      !opt.showNLTag && (opt.lineEnding.AsIs? || RunLength(b) % 2 == 0)
    else true
  }

  lemma SingleText(t: string, opt: Options)
    requires t != "" && TokenLength(t, opt) == |t|
    ensures Normal(t, opt) == TokenText(t, opt)
  {
    assert t[|t|..] == "";
    NormalStep(t, opt);
  }

  lemma {:induction false} CsiReaches(t: string, b: string, j: nat)
    requires j <= |t| && !CsiStops(t, j)
    ensures CsiEnd(t + b, j) >= |t|
    decreases |t| - j
  {
    if j < |t| {
      assert (t + b)[j] == t[j];
      CsiReaches(t, b, j + 1);
    }
  }

  lemma {:induction false} OscReaches(t: string, b: string, j: nat)
    requires j <= |t| && !OscStops(t, j)
    ensures OscEnd(t + b, j) >= |t|
    decreases |t| - j
  {
    if j < |t| {
      assert (t + b)[j] == t[j] && (j + 1 < |t| ==> (t + b)[j + 1] == t[j + 1]);
      OscReaches(t, b, j + 1);
    }
  }

  lemma OpenReaches(t: string, b: string, opt: Options)
    requires IsOpen(t, opt)
    ensures var n := TokenLength(t + b, opt); |t| <= n && TokenText(t + b, opt) == (t + b)[..n]
    ensures TokenText(t, opt) == t
  {
    assert (t + b)[0] == t[0] && (t + b)[1] == t[1];
    OpenTakesAll(t, opt);
    assert t[..|t|] == t;
    if IsCsi(t, opt) {
      CsiReaches(t, b, 2);
    } else {
      OscReaches(t, b, 2);
    }
  }

  /** An open sequence goes on into what follows. */
  lemma OpenGoesOn(t: string, b: string, opt: Options)
    requires IsOpen(t, opt)
    ensures Normal(t + b, opt) == t + b[..Taken(t, b, opt)] + Normal(b[Taken(t, b, opt)..], opt)
    ensures Normal(t, opt) == t
  {
    hide Normal, TokenText, TokenLength;
    OpenReaches(t, b, opt);
    OpenTakesAll(t, opt);
    SingleText(t, opt);
    NormalStep(t + b, opt);
    var n := TokenLength(t + b, opt);
    assert (t + b)[..n] == t + b[..n - |t|] && (t + b)[n..] == b[n - |t|..];
  }

  lemma OpenJoins(t: string, b: string, opt: Options)
    requires IsOpen(t, opt)
    ensures var k := Taken(t, b, opt);
            Normal(t + b, opt) == Normal(t, opt) + Normal(b, opt) <==> b[..k] + Normal(b[k..], opt) == Normal(b, opt)
  {
    hide Normal, IsOpen, Taken;
    OpenGoesOn(t, b, opt);
    var k := Taken(t, b, opt);
    var rest := b[..k] + Normal(b[k..], opt);
    assert Normal(t + b, opt) == t + rest;
    SameAfter(t, rest, Normal(b, opt));
  }

  /** An ESC that turns out to start a sequence is not made visible. */
  lemma EscapeShows(b: string, opt: Options)
    requires opt.preserveAnsi && b != "" && (b[0] == '[' || b[0] == ']')
    ensures Normal([ESC] + b, opt) != Normal([ESC], opt) + Normal(b, opt)
  {
    var s := [ESC] + b;
    assert s[0] == ESC && s[1] == b[0];
    NormalStep(s, opt);
    assert Normal(s, opt)[0] == ESC;
    SingleText([ESC], opt);
    VisibleIsPrintable(ESC, opt.mode);
  }

  /** Shifting the pairing of a run of line endings by one byte. */
  lemma {:induction false} ShiftedRun(s: string, opt: Options)
    requires IsNewline(s) && !opt.showNLTag && !opt.lineEnding.AsIs?
    ensures Normal(s, opt) == Normal(s[1..], opt) <==> RunLength(s) % 2 == 0
    decreases |s|
  {
    hide Normal, TokenText;
    NormalStep(s, opt);
    NewlineToken(s, opt);
    var e := EndOfLine(s, opt);
    if IsPair(s) {
      var rest := s[1..];
      NormalStep(rest, opt);
      NewlineToken(rest, opt);
      assert e == EndOfLine(rest, opt) && rest[1..] == s[2..];
      if IsPair(rest) {
        assert IsNewline(s[2..]) && rest[2..] == s[2..][1..];
        ShiftedRun(s[2..], opt);
        SameAfter(e, Normal(s[2..], opt), Normal(rest[2..], opt));
      }
    }
  }

  lemma SameAfter(e: string, x: string, y: string)
    ensures e + x == e + y <==> x == y
  {
    assert (e + x)[|e|..] == x && (e + y)[|e|..] == y;
  }

  lemma TaggedPairShows(t: string, b: string, opt: Options)
    requires |t| == 1 && IsNewline(t) && IsPair(t + b) && opt.showNLTag
    ensures Normal(t + b, opt) != Normal(t, opt) + Normal(b, opt)
  {
    hide Normal, TokenText;
    NormalStep(t + b, opt);
    NewlineToken(t + b, opt);
    NewlineToken(t, opt);
    SingleText(t, opt);
    assert (t + b)[0] == t[0];
    assert |Tag(t)| == 4 && Tag(t)[3] == '>' && Tag(t + b)[3] != '>';
    assert Normal(t + b, opt)[3] == Tag(t + b)[3];
    assert (Normal(t, opt) + Normal(b, opt))[3] == '>';
  }

  lemma PairJoins(t: string, b: string, opt: Options)
    requires |t| == 1 && IsNewline(t) && IsPair(t + b)
    ensures Normal(t + b, opt) == Normal(t, opt) + Normal(b, opt)
            <==> !opt.showNLTag && (opt.lineEnding.AsIs? || RunLength(b) % 2 == 0)
  {
    hide Normal, TokenText, RunLength;
    if opt.showNLTag {
      TaggedPairShows(t, b, opt);
    } else if opt.lineEnding.AsIs? {
      SingleText(t, opt);
      NewlineToken(t, opt);
      assert t == [t[0]] && t[..1] == t;
      NewlineByte(t[0], b, opt);
    } else {
      RewrittenPair(t, b, opt);
      ShiftedRun(b, opt);
      SameAfter(EndOfLine(t, opt), Normal(b, opt), Normal(b[1..], opt));
    }
  }

  lemma RewrittenPair(t: string, b: string, opt: Options)
    requires |t| == 1 && IsNewline(t) && IsPair(t + b) && !opt.showNLTag && !opt.lineEnding.AsIs?
    ensures b != "" && IsNewline(b)
    ensures Normal(t, opt) == EndOfLine(t, opt) && Normal(t + b, opt) == EndOfLine(t, opt) + Normal(b[1..], opt)
  {
    hide Normal, TokenText;
    SingleText(t, opt);
    NewlineToken(t, opt);
    NormalStep(t + b, opt);
    NewlineToken(t + b, opt);
    assert (t + b)[1] == b[0] && (t + b)[0] == t[0] && (t + b)[2..] == b[1..];
  }

  /** Any other single token stays what it is. */
  lemma OthersJoin(t: string, b: string, opt: Options)
    requires t != "" && TokenLength(t, opt) == |t| && b != "" && !IsOpen(t, opt)
    requires !(t == [ESC] && opt.preserveAnsi && (b[0] == '[' || b[0] == ']'))
    requires !(|t| == 1 && IsNewline(t) && IsPair(t + b))
    ensures Normal(t + b, opt) == Normal(t, opt) + Normal(b, opt)
  {
    SingleText(t, opt);
    if IsCsi(t, opt) || IsOsc(t, opt) {
      assert TokenText(t, opt) == t;
      AnsiStays(t, b, opt);
    } else {
      OtherTokenSame(t, b, opt);
      hide Normal, TokenText, TokenLength;
      NormalStep(t + b, opt);
      assert (t + b)[|t|..] == b;
    }
  }

  lemma OtherTokenSame(t: string, b: string, opt: Options)
    requires t != "" && TokenLength(t, opt) == |t| && b != "" && !IsCsi(t, opt) && !IsOsc(t, opt)
    requires !(t == [ESC] && opt.preserveAnsi && (b[0] == '[' || b[0] == ']'))
    requires !(|t| == 1 && IsNewline(t) && IsPair(t + b))
    ensures TokenLength(t + b, opt) == |t| && TokenText(t + b, opt) == TokenText(t, opt)
  {
    hide CsiEnd, OscEnd, Visible;
    var s := t + b;
    assert s[0] == t[0] && s[1] == if |t| > 1 then t[1] else b[0];
    assert !IsCsi(s, opt) && !IsOsc(s, opt);
    if IsNewline(t) {
      NewlineToken(t, opt);
      NewlineToken(s, opt);
      assert s[..|t|] == t == t[..|t|];
    }
  }

  lemma TokenJoins(t: string, b: string, opt: Options)
    requires t != "" && TokenLength(t, opt) == |t| && b != ""
    ensures Normal(t + b, opt) == Normal(t, opt) + Normal(b, opt) <==> JoinsCleanly(t, b, opt)
  {
    hide Normal, TokenLength, TokenText, IsOpen, Taken, RunLength;
    if IsOpen(t, opt) {
      OpenJoins(t, b, opt);
    } else if t == [ESC] && opt.preserveAnsi && (b[0] == '[' || b[0] == ']') {
      EscapeShows(b, opt);
    } else if |t| == 1 && IsNewline(t) && IsPair(t + b) {
      PairJoins(t, b, opt);
    } else {
      OthersJoin(t, b, opt);
    }
  }

  lemma ChunksJoin(a: string, b: string, opt: Options)
    requires a != "" && b != ""
    ensures Normal(a + b, opt) == Normal(a, opt) + Normal(b, opt) <==> JoinsCleanly(LastToken(a, opt), b, opt)
  {
    hide Normal, TokenLength, TokenText, JoinsCleanly, LastToken, TextBefore;
    var t, before := LastToken(a, opt), TextBefore(a, opt);
    OnlyLastMatters(a, b, opt);
    OnlyLastMatters(a, "", opt);
    assert a + "" == a && t + "" == t;
    var x, y := Normal(t, opt), Normal(b, opt);
    assert before + x + y == before + (x + y);
    SameAfter(before, Normal(t + b, opt), x + y);
    TokenJoins(t, b, opt);
  }

  /** Normalising two chunks by themselves gives what normalising them together
      would, exactly when the last token of the first one joins cleanly. */
  lemma ChunksJoinExactlyWhen(a: string, b: string, opt: Options)
    ensures Normal(a + b, opt) == Normal(a, opt) + Normal(b, opt)
            <==> a == "" || b == "" || JoinsCleanly(LastToken(a, opt), b, opt)
  {
    if a != "" && b != "" {
      ChunksJoin(a, b, opt);
    } else {
      assert Normal("", opt) == "" && a + b == if a == "" then b else a;
    }
  }

  // ---- What comes out ----

  /** Printable bytes, line endings and tabs. */
  predicate IsClean(s: string) {
    forall i :: 0 <= i < |s| ==>
      var b := s[i] as int;
      (b >= 0x20 && b != 0x7F) || b == 0x0D || b == 0x0A || b == 0x09
  }

  lemma TokenIsClean(s: string, opt: Options)
    requires s != "" && !opt.preserveAnsi && IsPrintable(opt.tabRender)
    ensures IsClean(TokenText(s, opt))
  {
    if IsNewline(s) {
      TagIsPrintable(s);
    } else if IsControl(s[0]) {
      VisibleIsPrintable(s[0], opt.mode);
    }
    hide Visible, Tag;
  }

  /** Unless escape sequences are preserved, no control byte but line endings
      and tabs gets through. */
  lemma {:induction false} NormalIsClean(s: string, opt: Options)
    requires !opt.preserveAnsi && IsPrintable(opt.tabRender)
    ensures IsClean(Normal(s, opt))
    decreases |s|
  {
    if s != "" {
      NormalIsClean(s[TokenLength(s, opt)..], opt);
      TokenIsClean(s, opt);
      hide TokenText, TokenLength;
      assert IsClean(TokenText(s, opt));
    }
  }

  // ---- Escape sequences ----

  predicate IsFinal(c: char) {
    0x40 <= c as int <= 0x7E
  }

  /** A control sequence goes up to its first final byte, or takes everything. */
  lemma {:induction false} CsiEndIs(s: string, j: nat)
    requires j <= |s|
    ensures var e := CsiEnd(s, j);
            && j <= e <= |s|
            && (forall i :: j <= i < e - 1 ==> !IsFinal(s[i]))
            && (e < |s| ==> j < e && IsFinal(s[e - 1]))
    decreases |s| - j
  {
    if j < |s| && !IsFinal(s[j]) {
      CsiEndIs(s, j + 1);
    }
  }

  /** BEL or ESC backslash ends at `i`. */
  predicate StopsAt(s: string, j: nat, i: int) {
    j < i <= |s| && (s[i - 1] as int == 0x07 || (j + 1 < i && s[i - 2] as int == 0x1B && s[i - 1] == '\\'))
  }

  /** A command goes up to the first BEL or ESC backslash, or takes everything. */
  lemma {:induction false} OscEndIs(s: string, j: nat)
    requires j <= |s|
    ensures var e := OscEnd(s, j);
            && j <= e <= |s|
            && (forall i :: j < i < e ==> !StopsAt(s, j, i))
            && (e < |s| ==> StopsAt(s, j, e))
    decreases |s| - j
  {
    if j < |s| && s[j] != BEL && !(j + 1 < |s| && s[j] == ESC && s[j + 1] == '\\') {
      OscEndIs(s, j + 1);
      var e := OscEnd(s, j + 1);
      forall i | j < i < e
        ensures !StopsAt(s, j, i)
      {
        if j + 1 < i {
          assert !StopsAt(s, j + 1, i);
        }
      }
    }
  }

  // ---- Control bytes can be read back ----

  function DigitValue(c: char): int {
    if '0' <= c <= '9' then c as int - '0' as int else c as int - 'A' as int + 10
  }

  lemma DigitReadsBack(n: int)
    requires 0 <= n < 16
    ensures DigitValue(Digit(n)) == n
  {
  }

  /** Hex notation gives the two digits of the byte, high digit first, and
      caret notation the character 64 places away. */
  lemma VisibleReadsBack(b: char)
    requires IsControl(b)
    ensures var r := Visible(b, Hex);
            |r| == 4 && r[..2] == "\\x" && 16 * DigitValue(r[2]) + DigitValue(r[3]) == b as int
    ensures var r := Visible(b, Caret); |r| == 2 && r[0] == '^' && r[1] as int == (b as int + 64) % 128
  {
    DigitReadsBack(b as int / 16);
    DigitReadsBack(b as int % 16);
  }

  /** Different control bytes have different names. */
  lemma NamesDiffer(b: char, c: char)
    requires IsControl(b) && IsControl(c) && b != c
    ensures NameOf(b) != NameOf(c)
  {
    NameCode(b);
    NameCode(c);
  }

  /** The code of a control character in ASCII, read off the letters that tell
      its name from the others. */
  function CodeOf(name: string): int {
    if |name| == 2 then
      match name[0]
      case 'B' => 8
      case 'L' => 10
      case 'V' => 11
      case 'F' => if name[1] == 'F' then 12 else 28
      case 'C' => 13
      case 'S' => if name[1] == 'O' then 14 else 15
      case 'E' => 25
      case 'G' => 29
      case 'R' => 30
      case _ => 31
    else if |name| == 3 then
      match name[0]
      case 'N' => if name[1] == 'U' then 0 else 21
      case 'S' => if name[1] == 'O' then 1 else if name[1] == 'T' then 2 else if name[1] == 'Y' then 22 else 26
      case 'E' => if name[2] == 'X' then 3 else if name[2] == 'T' then 4 else if name[2] == 'Q' then 5 else if name[2] == 'B' then 23 else 27
      case 'A' => 6
      case 'B' => 7
      case 'T' => 9
      case 'D' => if name[2] == 'E' then 16 else if name[2] == '1' then 17 else if name[2] == '2' then 18 else if name[2] == '3' then 19 else if name[2] == '4' then 20 else 127
      case _ => 24
    else -1
  }

  /** The name of a control byte is its name in ASCII. */
  lemma NameCode(b: char)
    requires IsControl(b)
    ensures CodeOf(NameOf(b)) == b as int
  {
  }

  /** Line endings are tagged by the names of their bytes. */
  lemma TagsAreNames(s: string)
    requires IsNewline(s)
    ensures Tag(s) == "<" + NameOf(s[0]) + (if IsPair(s) then NameOf(s[1]) else "") + ">"
  {
  }
}
