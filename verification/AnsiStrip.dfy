/** internal/logging/strip.go: removing CSI escape sequences, from a whole text and from a chunked stream. */
module AnsiStrip {
  import opened Basics

  const ESC: byte := 0x1b
  const BRACKET: byte := 0x5b

  /** How much of an unfinished sequence is held back at most. */
  const MAX_PENDING := 64

  /** The byte that ends a CSI sequence. */
  predicate IsFinal(b: byte) {
    0x40 <= b <= 0x7E
  }

  /** A parameter or intermediate byte of a CSI sequence. */
  predicate IsParameter(b: byte) {
    0x20 <= b <= 0x3F
  }

  // ---------------------------------------------------------------------
  // The whole text
  // ---------------------------------------------------------------------

  /** What follows the first final byte. */
  function AfterFinal(data: seq<byte>): (rest: seq<byte>)
    ensures |rest| <= |data|
  {
    if data == [] then [] else if IsFinal(data[0]) then data[1..] else AfterFinal(data[1..])
  }

  /** StripANSI as a function. */
  function Stripped(data: seq<byte>): seq<byte>
    decreases |data|
  {
    if data == [] then []
    else if data[0] == ESC && |data| > 1 && data[1] == BRACKET then Stripped(AfterFinal(data[2..]))
    else [data[0]] + Stripped(data[1..])
  }

  method StripANSI(data: seq<byte>) returns (result: seq<byte>)
    ensures result == Stripped(data)
  {
    result := [];
    var i := 0;
    while i < |data|
      invariant 0 <= i <= |data|
      invariant result + Stripped(data[i..]) == Stripped(data)
    {
      if data[i] == ESC && i + 1 < |data| && data[i + 1] == BRACKET {
        ghost var after := AfterFinal(data[i..][2..]);
        assert data[i..][2..] == data[i + 2..];
        i := i + 2;
        var done := false;
        while i < |data| && !done
          invariant 0 <= i <= |data|
          invariant after == if done then data[i..] else AfterFinal(data[i..])
          decreases |data| - i
        {
          var b := data[i];
          assert data[i..][0] == b && data[i..][1..] == data[i + 1..];
          i := i + 1;
          done := IsFinal(b);
        }
        assert after == data[i..];
      } else {
        assert data[i..][1..] == data[i + 1..];
        assert (result + [data[i]]) + Stripped(data[i + 1..]) == result + ([data[i]] + Stripped(data[i + 1..]));
        result := result + [data[i]];
        i := i + 1;
      }
    }
  }

  lemma {:induction false} FinalEnds(params: seq<byte>, final: byte, text: seq<byte>)
    requires (forall i :: 0 <= i < |params| ==> 0x20 <= params[i] <= 0x3F) && 0x40 <= final <= 0x7E
    ensures AfterFinal(params + [final] + text) == text
  {
    var data := params + [final] + text;
    if params == [] {
      assert data[0] == final && data[1..] == text;
    } else {
      assert data[0] == params[0] && data[1..] == params[1..] + [final] + text;
      FinalEnds(params[1..], final, text);
    }
  }

  /** ESC, [, parameter and intermediate bytes and a final byte in front of a text are removed. */
  lemma SequenceIsRemoved(params: seq<byte>, final: byte, text: seq<byte>)
    requires (forall i :: 0 <= i < |params| ==> 0x20 <= params[i] <= 0x3F) && 0x40 <= final <= 0x7E
    ensures Stripped([0x1b, 0x5b] + (params + [final] + text)) == Stripped(text)
  {
    FinalEnds(params, final, text);
    assert ([0x1b, 0x5b] + (params + [final] + text))[2..] == params + [final] + text;
  }

  /** Every byte that begins no sequence is kept. */
  lemma OtherBytesAreKept(b: byte, text: seq<byte>)
    requires b != 0x1b || text == [] || text[0] != 0x5b
    ensures Stripped([b] + text) == [b] + Stripped(text)
  {
    assert ([b] + text)[1..] == text;
  }

  // ---------------------------------------------------------------------
  // Unfinished sequences
  // ---------------------------------------------------------------------

  /** At `i` starts an escape sequence that the data ends before completing. */
  predicate UnfinishedAt(data: seq<byte>, i: int) {
    && 0 <= i < |data|
    && data[i] == ESC
    && (i + 1 < |data| ==> data[i + 1] == BRACKET)
    && forall j :: i + 2 <= j < |data| ==> IsParameter(data[j])
  }

  lemma UnfinishedIsUnique(data: seq<byte>, i: int, j: int)
    requires UnfinishedAt(data, i) && UnfinishedAt(data, j)
    ensures i == j
  {}

  /** unfinishedEscape: it looks at the last MAX_PENDING + 1 bytes. */
  method UnfinishedEscape(data: seq<byte>) returns (cut: nat)
    ensures cut <= |data|
    ensures cut < |data| ==> UnfinishedAt(data, cut) && |data| - cut <= MAX_PENDING + 1
    ensures cut == |data| ==> forall i :: |data| - i <= MAX_PENDING + 1 ==> !UnfinishedAt(data, i)
  {
    var i := |data| - 1;
    while i >= 0 && |data| - i <= MAX_PENDING + 1
      invariant -1 <= i < |data|
      invariant forall j :: i + 1 < j < |data| ==> IsParameter(data[j])
      invariant i + 1 < |data| ==> IsParameter(data[i + 1]) || (data[i + 1] == BRACKET && i >= 0 && data[i] == ESC)
    {
      var b := data[i];
      if b == ESC {
        if i == |data| - 1 || data[i + 1] == BRACKET {
          return i;
        }
        return |data|;
      }
      if b == BRACKET && i > 0 && data[i - 1] == ESC {
        i := i - 1;
        continue;
      }
      if b < 0x20 || b > 0x3F {
        return |data|;
      }
      i := i - 1;
    }
    return |data|;
  }

  // ---------------------------------------------------------------------
  // A stream in chunks
  // ---------------------------------------------------------------------

  /** Where Strip cuts `data`: the start of its unfinished sequence if that is short enough to be found. */
  ghost function Cut(data: seq<byte>): (cut: nat)
    ensures cut <= |data|
    ensures cut < |data| ==> UnfinishedAt(data, cut) && |data| - cut <= MAX_PENDING + 1
  {
    if exists i :: UnfinishedAt(data, i) && |data| - i <= MAX_PENDING + 1 then
      var i :| UnfinishedAt(data, i) && |data| - i <= MAX_PENDING + 1; i
    else |data|
  }

  lemma CutFinds(data: seq<byte>, i: int)
    requires UnfinishedAt(data, i) && |data| - i <= MAX_PENDING + 1
    ensures Cut(data) == i
  {
    UnfinishedIsUnique(data, i, Cut(data));
  }

  /** What one call of Strip returns, and what it holds back. */
  ghost function StripChunk(pending: seq<byte>, chunk: seq<byte>): (seq<byte>, seq<byte>) {
    var data := pending + chunk;
    var cut := Cut(data);
    (Stripped(data[..cut]), if |data| - cut <= MAX_PENDING then data[cut..] else [])
  }

  /** A sequence that the chunk cuts off is held back, as long as it has at most 64 bytes. */
  lemma UnfinishedIsHeldBack(pending: seq<byte>, chunk: seq<byte>, text: seq<byte>, params: seq<byte>)
    requires forall i :: 0 <= i < |params| ==> 0x20 <= params[i] <= 0x3F
    requires pending + chunk == text + ([0x1b, 0x5b] + params)
    ensures StripChunk(pending, chunk) ==
      if |params| <= 62 then (Stripped(text), [0x1b, 0x5b] + params)
      else if |params| == 63 then (Stripped(text), [])
      else (Stripped(pending + chunk), [])
  {
    hide Stripped;
    var data := text + ([0x1b, 0x5b] + params);
    CutOfUnfinished(text, params);
    hide Cut, UnfinishedAt;
    assert data[..|text|] == text && data[|text|..] == [0x1b, 0x5b] + params && data[..|data|] == data;
    assert StripChunk(pending, chunk) ==
      (Stripped(data[..Cut(data)]), if |data| - Cut(data) <= 64 then data[Cut(data)..] else []);
    if |params| > 63 { assert data[|data|..] == []; }
  }

  lemma CutOfUnfinished(text: seq<byte>, params: seq<byte>)
    requires forall i :: 0 <= i < |params| ==> 0x20 <= params[i] <= 0x3F
    ensures var data := text + ([0x1b, 0x5b] + params);
      Cut(data) == if |params| <= 63 then |text| else |data|
  {
    var data := text + ([0x1b, 0x5b] + params);
    assert UnfinishedAt(data, |text|) by {
      assert forall j :: |text| + 2 <= j < |data| ==> data[j] == params[j - |text| - 2];
    }
    hide UnfinishedAt;
    if |params| <= 63 {
      CutFinds(data, |text|);
    } else if Cut(data) < |data| {
      UnfinishedIsUnique(data, Cut(data), |text|);
    }
  }

  class ANSIStripper {
    var pending: seq<byte>

    constructor ()
      ensures pending == []
    {
      pending := [];
    }

    method Strip(chunk: seq<byte>) returns (out: seq<byte>)
      modifies this
      ensures (out, pending) == StripChunk(old(pending), chunk)
    {
      var data := chunk;
      if |pending| > 0 {
        data := pending + data;
        pending := [];
      }
      ghost var whole := data;
      assert whole == old(pending) + chunk;
      var cut := UnfinishedEscape(data);
      if cut < |whole| { CutFinds(whole, cut); }
      assert cut == Cut(whole);
      if cut < |data| {
        if |data| - cut <= MAX_PENDING {
          pending := data[cut..];
        }
        data := data[..cut];
      }
      assert data == whole[..cut];
      assert pending == if |whole| - cut <= MAX_PENDING then whole[cut..] else [];
      out := StripANSI(data);
    }
  }

  /** Everything Strip returns over a sequence of chunks, joined, and what it holds at the end. */
  ghost function StripAll(pending: seq<byte>, chunks: seq<seq<byte>>): (seq<byte>, seq<byte>)
    decreases chunks
  {
    if chunks == [] then ([], pending)
    else
      var (out, held) := StripChunk(pending, chunks[0]);
      var (rest, last) := StripAll(held, chunks[1..]);
      (out + rest, last)
  }

  // ---------------------------------------------------------------------
  // A byte-by-byte reference: text, a lone ESC, or `held` bytes of a CSI sequence
  // ---------------------------------------------------------------------

  datatype Scan = Text | Escape | Csi(held: nat)

  function Next(st: Scan, b: byte): Scan {
    match st
    case Text => if b == ESC then Escape else Text
    case Escape => if b == BRACKET then Csi(2) else if b == ESC then Escape else Text
    case Csi(held) => if IsFinal(b) then Text else Csi(held + 1)
  }

  function Emit(st: Scan, b: byte): seq<byte> {
    match st
    case Text => if b == ESC then [] else [b]
    case Escape => if b == BRACKET then [] else if b == ESC then [ESC] else [ESC, b]
    case Csi(_) => []
  }

  /**
    A byte the grammar of control sequences (section 5.4 of ECMA-48) allows
    next, in a sequence whose unfinished part stays within MAX_PENDING.
   */
  predicate Lawful(st: Scan, b: byte) {
    st.Csi? ==> IsFinal(b) || (IsParameter(b) && st.held < MAX_PENDING)
  }

  function After(st: Scan, data: seq<byte>): Scan
    decreases data
  {
    if data == [] then st else After(Next(st, data[0]), data[1..])
  }

  function Output(st: Scan, data: seq<byte>): seq<byte>
    decreases data
  {
    if data == [] then [] else Emit(st, data[0]) + Output(Next(st, data[0]), data[1..])
  }

  predicate WellFormed(st: Scan, data: seq<byte>)
    decreases data
  {
    data == [] || (Lawful(st, data[0]) && WellFormed(Next(st, data[0]), data[1..]))
  }

  /** At the end of a text a lone ESC is kept and an unfinished sequence is dropped. */
  function Flush(st: Scan): seq<byte> {
    if st.Escape? then [ESC] else []
  }

  lemma {:induction false} ScanAppend(st: Scan, a: seq<byte>, b: seq<byte>)
    ensures After(st, a + b) == After(After(st, a), b)
    ensures Output(st, a + b) == Output(st, a) + Output(After(st, a), b)
    ensures WellFormed(st, a + b) <==> WellFormed(st, a) && WellFormed(After(st, a), b)
    decreases a
  {
    hide Next, Emit, Lawful;
    if a == [] {
      assert a + b == b;
    } else {
      assert (a + b)[1..] == a[1..] + b;
      ScanAppend(Next(st, a[0]), a[1..], b);
    }
  }

  /** Inside a sequence nothing is output up to and including the final byte. */
  lemma {:induction false} ScanCsi(held: nat, data: seq<byte>)
    ensures Output(Csi(held), data) == Output(Text, AfterFinal(data))
    ensures After(Csi(held), data) == After(Text, AfterFinal(data)) ||
      (After(Csi(held), data).Csi? && AfterFinal(data) == [])
    decreases data
  {
    if data != [] && !IsFinal(data[0]) {
      ScanCsi(held + 1, data[1..]);
    }
  }

  /** StripANSI is the reference scanner, flushed at the end, on every text, well formed or not. */
  lemma {:induction false} StrippedIsScan(data: seq<byte>)
    ensures Stripped(data) == Output(Text, data) + Flush(After(Text, data))
    decreases |data|
  {
    if data == [] {
    } else if data[0] == ESC && |data| > 1 && data[1] == BRACKET {
      StrippedIsScan(AfterFinal(data[2..]));
      ScanOfSequence(data);
    } else {
      StrippedIsScan(data[1..]);
      if data[0] == ESC && |data| > 1 {
        ScanTextAfterEscape(data[1..]);
      }
    }
  }

  lemma {:induction false} ScanOfSequence(data: seq<byte>)
    requires |data| > 1 && data[0] == ESC && data[1] == BRACKET
    ensures var rest := AfterFinal(data[2..]);
      Output(Text, data) + Flush(After(Text, data)) == Output(Text, rest) + Flush(After(Text, rest))
  {
    var rest := data[2..];
    assert data == [ESC, BRACKET] + rest;
    ScanAppend(Text, [ESC, BRACKET], rest);
    ScanEscBracket();
    ScanCsi(2, rest);
  }

  lemma ScanEscBracket()
    ensures After(Text, [ESC, BRACKET]) == Csi(2)
    ensures Output(Text, [ESC, BRACKET]) == []
  {
    var data := [ESC, BRACKET];
    assert data[1..] == [BRACKET];
    assert After(Text, data) == After(Escape, data[1..]);
    assert Output(Text, data) == Output(Escape, data[1..]);
  }

  /** After an ESC that starts no sequence the scan goes on as in text, with the ESC put out. */
  lemma {:induction false} ScanTextAfterEscape(data: seq<byte>)
    requires data != [] && data[0] != BRACKET
    ensures After(Escape, data) == After(Text, data)
    ensures Output(Escape, data) == [ESC] + Output(Text, data)
  {}

  // ---------------------------------------------------------------------
  // Chunks against the reference
  // ---------------------------------------------------------------------

  lemma {:induction false} ScanParameters(held: nat, data: seq<byte>)
    requires forall i :: 0 <= i < |data| ==> IsParameter(data[i])
    ensures After(Csi(held), data) == Csi(held + |data|) && Output(Csi(held), data) == []
    decreases data
  {
    if data != [] {
      ScanParameters(held + 1, data[1..]);
    }
  }

  lemma {:induction false} ScanUnfinished(tail: seq<byte>)
    requires UnfinishedAt(tail, 0)
    ensures After(Text, tail) == if |tail| == 1 then Escape else Csi(|tail|)
    ensures Output(Text, tail) == []
  {
    if |tail| > 1 {
      assert tail == [ESC, BRACKET] + tail[2..];
      ScanAppend(Text, [ESC, BRACKET], tail[2..]);
      ScanEscBracket();
      ScanParameters(2, tail[2..]);
    }
  }

  /** What the scan looks like when the data ends in an unfinished sequence. */
  lemma {:induction false} UnfinishedMeansHeld(data: seq<byte>, i: int)
    requires WellFormed(Text, data) && UnfinishedAt(data, i)
    ensures After(Text, data) == After(Text, data[i..]) == if i == |data| - 1 then Escape else Csi(|data| - i)
    ensures Output(Text, data) == Stripped(data[..i])
    ensures Output(Text, data[i..]) == []
  {
    var before, tail := data[..i], data[i..];
    var st := After(Text, before);
    assert data == before + tail;
    ScanAppend(Text, before, tail);
    assert UnfinishedAt(tail, 0);
    ScanUnfinished(tail);
    StrippedIsScan(before);
    assert Lawful(st, tail[0]);
    assert Next(st, ESC) == Next(Text, ESC);
    assert Output(st, tail) == Flush(st) + Output(Text, tail);
  }

  /** Conversely, a scan that stops outside text stops in an unfinished sequence, and a short one. */
  lemma {:induction false} HeldMeansUnfinished(data: seq<byte>) returns (i: int)
    requires WellFormed(Text, data) && After(Text, data) != Text
    ensures UnfinishedAt(data, i) && |data| - i <= MAX_PENDING
  {
    var before, b := data[..|data| - 1], data[|data| - 1];
    assert data == before + [b];
    ScanAppend(Text, before, [b]);
    var st := After(Text, before);
    assert After(st, [b]) == Next(st, b);
    assert Lawful(st, b);
    if b == ESC {
      i := |data| - 1;
    } else {
      i := HeldMeansUnfinished(before);
      UnfinishedMeansHeld(before, i);
    }
  }

  /** One call of Strip does what the scanner does on the bytes it consumes. */
  lemma ChunkIsScan(pending: seq<byte>, chunk: seq<byte>)
    requires Output(Text, pending) == [] && WellFormed(Text, pending + chunk)
    ensures var (out, held) := StripChunk(pending, chunk);
      && out == Output(After(Text, pending), chunk)
      && held == (pending + chunk)[Cut(pending + chunk)..] && IsSuffix(held, pending + chunk)
      && Output(Text, held) == [] && After(Text, held) == After(Text, pending + chunk)
      && (held != [] ==> UnfinishedAt(held, 0) && |held| <= MAX_PENDING)
  {
    hide UnfinishedAt, Stripped, Next, Emit, Lawful;
    var data := pending + chunk;
    ScanAppend(Text, pending, chunk);
    if After(Text, data) == Text {
      CutOfText(data);
      assert data[..|data|] == data;
    } else {
      CutOfHeld(data);
    }
    assert IsSuffix(data[Cut(data)..], data);
  }

  /** A scan that ends in text leaves nothing to hold back. */
  lemma CutOfText(data: seq<byte>)
    requires WellFormed(Text, data) && After(Text, data) == Text
    ensures Cut(data) == |data| && Stripped(data) == Output(Text, data)
    ensures Output(Text, []) == [] && After(Text, []) == Text
  {
    hide UnfinishedAt, Stripped, Next, Emit, Lawful;
    if Cut(data) < |data| {
      UnfinishedMeansHeld(data, Cut(data));
    }
    StrippedIsScan(data);
  }

  lemma CutOfHeld(data: seq<byte>)
    requires WellFormed(Text, data) && After(Text, data) != Text
    ensures var cut := Cut(data);
      && |data| - cut <= MAX_PENDING && UnfinishedAt(data[cut..], 0)
      && Stripped(data[..cut]) == Output(Text, data)
      && Output(Text, data[cut..]) == [] && After(Text, data[cut..]) == After(Text, data)
  {
    hide Stripped, Next, Emit, Lawful, WellFormed, After, Output;
    var i := HeldMeansUnfinished(data);
    UnfinishedMeansHeld(data, i);
    CutFinds(data, i);
  }

  lemma {:induction false} StreamIsScan(pending: seq<byte>, chunks: seq<seq<byte>>)
    requires Output(Text, pending) == [] && WellFormed(Text, pending + Flatten(chunks))
    requires pending != [] ==> UnfinishedAt(pending, 0) && |pending| <= MAX_PENDING
    ensures var (out, held) := StripAll(pending, chunks);
      && out == Output(After(Text, pending), Flatten(chunks))
      && IsSuffix(held, pending + Flatten(chunks))
      && After(Text, held) == After(Text, pending + Flatten(chunks))
      && (held != [] ==> UnfinishedAt(held, 0) && |held| <= MAX_PENDING)
    decreases chunks
  {
    hide Stripped, Cut, UnfinishedAt, Next, Emit, Lawful, IsSuffix, StripChunk;
    if chunks == [] {
      assert pending + Flatten(chunks) == pending;
      SuffixOfSelf(pending);
    } else {
      var chunk, rest := chunks[0], Flatten(chunks[1..]);
      var data := pending + chunk;
      assert pending + Flatten(chunks) == data + rest;
      ScanAppend(Text, data, rest);
      ScanAppend(Text, pending, chunk);
      ScanAppend(After(Text, pending), chunk, rest);
      ChunkIsScan(pending, chunk);
      var held := StripChunk(pending, chunk).1;
      ScanAppend(Text, held, rest);
      WellFormedHeld(held);
      StreamIsScan(held, chunks[1..]);
      SuffixChain(StripAll(held, chunks[1..]).1, held, data, rest);
    }
  }

  lemma SuffixOfSelf(a: seq<byte>)
    ensures IsSuffix(a, a)
  {}

  lemma SuffixChain(tail: seq<byte>, held: seq<byte>, data: seq<byte>, rest: seq<byte>)
    requires IsSuffix(tail, held + rest) && IsSuffix(held, data)
    ensures IsSuffix(tail, data + rest)
  {
    assert data + rest == data[..|data| - |held|] + (held + rest);
  }

  lemma WellFormedHeld(held: seq<byte>)
    requires held != [] ==> UnfinishedAt(held, 0) && |held| <= MAX_PENDING
    ensures WellFormed(Text, held)
  {
    if |held| > 1 {
      assert held == [ESC, BRACKET] + held[2..];
      ScanAppend(Text, [ESC, BRACKET], held[2..]);
      ScanEscBracket();
      assert [ESC, BRACKET][1..] == [BRACKET];
      WellFormedParameters(2, held[2..]);
    }
  }

  lemma {:induction false} WellFormedParameters(held: nat, data: seq<byte>)
    requires forall i :: 0 <= i < |data| ==> IsParameter(data[i])
    requires held + |data| <= MAX_PENDING
    ensures WellFormed(Csi(held), data)
    decreases data
  {
    if data != [] {
      WellFormedParameters(held + 1, data[1..]);
    }
  }

  lemma TailOfStream(stream: seq<byte>, held: seq<byte>)
    requires IsSuffix(held, stream) && held != [] && UnfinishedAt(held, 0)
    ensures UnfinishedAt(stream, |stream| - |held|)
  {
    var i := |stream| - |held|;
    forall j | i <= j < |stream| ensures stream[j] == held[j - i] {
      assert stream[i..][j - i] == held[j - i];
    }
  }

  /**
    For every stream of well-formed control sequences and every way of cutting
    it into chunks: what Strip returns, joined, is StripANSI of the stream
    without its held-back tail, and the tail is what the stripper holds.
   */
  lemma ChunkingDoesNotMatter(chunks: seq<seq<byte>>)
    requires WellFormed(Text, Flatten(chunks))
    ensures var stream := Flatten(chunks);
      StripAll([], chunks) == (Stripped(stream[..Cut(stream)]), stream[Cut(stream)..])
  {
    hide Stripped, StripAll, Next, Emit, Lawful, UnfinishedAt, WellFormed, Flatten, IsSuffix;
    var stream := Flatten(chunks);
    assert [] + stream == stream;
    StreamIsScan([], chunks);
    ChunkIsScan([], stream);
    var held := StripAll([], chunks).1;
    if held != [] {
      TailOfStream(stream, held);
      CutFinds(stream, |stream| - |held|);
      SuffixIs(stream, held);
    } else {
      CutOfText(stream);
    }
  }

  lemma SuffixIs(stream: seq<byte>, held: seq<byte>)
    requires IsSuffix(held, stream)
    ensures |held| <= |stream| && stream[|stream| - |held|..] == held
  {}

  // ---------------------------------------------------------------------
  // When the cutting shows
  // ---------------------------------------------------------------------

  /** A final byte that starts no sequence after an ESC brings every scan back to text. */
  predicate Settles(x: byte) {
    IsFinal(x) && x != BRACKET
  }

  lemma {:induction false} SettledIsText(st: Scan, data: seq<byte>, x: byte)
    requires Settles(x)
    ensures After(st, data + [x]) == Text
    ensures WellFormed(st, data) ==> WellFormed(st, data + [x])
  {
    ScanAppend(st, data, [x]);
    var last := After(st, data);
    assert [x][1..] == [];
    assert After(last, [x]) == Next(last, x);
    assert WellFormed(last, [x]) <==> Lawful(last, x);
  }

  /** Data that ends so is not cut, whatever it holds. */
  lemma {:induction false} SettledIsNotCut(data: seq<byte>, x: byte)
    requires Settles(x)
    ensures StripChunk([], data + [x]) == (Output(Text, data + [x]), [])
  {
    var all := data + [x];
    assert all[|all| - 1] == x;
    assert forall i :: !UnfinishedAt(all, i);
    assert [] + all == all && all[..|all|] == all && all[|all|..] == [];
    assert Cut(all) == |all|;
    StrippedIsScan(all);
    SettledIsText(Text, data, x);
    assert Output(Text, all) + [] == Output(Text, all);
  }

  /** The number of final bytes. */
  function Finals(data: seq<byte>): nat {
    if data == [] then 0 else (if IsFinal(data[0]) then 1 else 0) + Finals(data[1..])
  }

  lemma {:induction false} FinalsConcat(a: seq<byte>, b: seq<byte>)
    ensures Finals(a + b) == Finals(a) + Finals(b)
    decreases |a|
  {
    if a == [] {
      assert a + b == b;
    } else {
      assert (a + b)[1..] == a[1..] + b;
      FinalsConcat(a[1..], b);
    }
  }

  /**
    One step of two scans of which exactly one is inside a sequence: they stay
    so, or meet and only one puts out a final byte.
   */
  lemma {:induction false} OpposedStep(st: Scan, other: Scan, b: byte)
    requires st.Csi? && !other.Csi?
    ensures Emit(st, b) == []
    ensures if IsFinal(b) && (b != BRACKET || other.Text?)
      then Next(st, b) == Next(other, b) == Text && Finals(Emit(other, b)) == 1
      else Next(st, b).Csi? != Next(other, b).Csi? && Finals(Emit(other, b)) == 0
  {
    assert forall c: byte :: [c][1..] == [];
    assert Finals([b]) == if IsFinal(b) then 1 else 0;
    assert Finals([ESC]) == 0;
    assert [ESC, b][1..] == [b];
    assert Finals([ESC, b]) == Finals([b]);
  }

  /** So their outputs differ, once they have met. */
  lemma {:induction false} OpposedScansDiffer(st: Scan, other: Scan, data: seq<byte>, x: byte)
    requires st.Csi? && !other.Csi? && Settles(x)
    ensures Finals(Output(st, data + [x])) != Finals(Output(other, data + [x]))
    decreases |data|
  {
    hide Next, Emit, Finals;
    var all := data + [x];
    var b, rest := all[0], all[1..];
    OpposedStep(st, other, b);
    FinalsConcat(Emit(st, b), Output(Next(st, b), rest));
    FinalsConcat(Emit(other, b), Output(Next(other, b), rest));
    FinalsNone();
    if data != [] {
      assert rest == data[1..] + [x];
      if Next(st, b).Csi? && !Next(other, b).Csi? {
        OpposedScansDiffer(Next(st, b), Next(other, b), data[1..], x);
      } else if !Next(st, b).Csi? && Next(other, b).Csi? {
        OpposedScansDiffer(Next(other, b), Next(st, b), data[1..], x);
      }
    }
  }

  lemma FinalsNone()
    ensures Finals([]) == 0
  {}

  /** The first byte that is not lawful where it stands. */
  lemma {:induction false} FirstUnlawful(st: Scan, data: seq<byte>) returns (j: nat)
    requires !WellFormed(st, data)
    ensures j < |data| && WellFormed(st, data[..j]) && !Lawful(After(st, data[..j]), data[j])
    decreases |data|
  {
    hide Next, Lawful;
    if !Lawful(st, data[0]) {
      j := 0;
    } else {
      var i := FirstUnlawful(Next(st, data[0]), data[1..]);
      j := i + 1;
      assert data[..j] == [data[0]] + data[1..][..i];
      ScanAppend(st, [data[0]], data[1..][..i]);
      assert [data[0]][1..] == [];
    }
  }

  /** What the stripper makes of the bytes up to and including an unlawful one: it forgets the sequence. */
  lemma {:induction false} UnlawfulChunk(before: seq<byte>, b: byte)
    requires WellFormed(Text, before) && !Lawful(After(Text, before), b)
    ensures StripChunk([], before + [b]) == (Output(Text, before), if b == ESC then [ESC] else [])
  {
    hide StripChunk, WellFormed, Output, After;
    if b == ESC {
      UnlawfulEscape(before);
    } else if IsParameter(b) {
      UnlawfulLength(before, b);
    } else {
      UnlawfulByte(before, b);
    }
  }

  lemma {:induction false} UnlawfulEscape(before: seq<byte>)
    requires After(Text, before).Csi?
    ensures StripChunk([], before + [ESC]) == (Output(Text, before), [ESC])
  {
    hide Stripped, Output, After, Cut;
    var data := before + [ESC];
    assert [] + data == data && data[..|before|] == before && data[|before|..] == [ESC];
    CutFinds(data, |before|);
    StrippedIsScan(before);
    assert Output(Text, before) + [] == Output(Text, before);
  }

  lemma {:induction false} UnlawfulLength(before: seq<byte>, b: byte)
    requires WellFormed(Text, before) && !Lawful(After(Text, before), b) && IsParameter(b)
    ensures StripChunk([], before + [b]) == (Output(Text, before), [])
  {
    hide Stripped, WellFormed, Output, After, Cut;
    var data := before + [b];
    assert [] + data == data;
    var i := HeldMeansUnfinished(before);
    UnfinishedMeansHeld(before, i);
    assert forall j :: i + 2 <= j < |data| ==> IsParameter(data[j]);
    CutFinds(data, i);
    assert data[..i] == before[..i];
  }

  lemma {:induction false} UnlawfulByte(before: seq<byte>, b: byte)
    requires After(Text, before).Csi? && !IsFinal(b) && !IsParameter(b) && b != ESC
    ensures StripChunk([], before + [b]) == (Output(Text, before), [])
  {
    hide Stripped, Output, After;
    var data := before + [b];
    assert [] + data == data && data[..|data|] == data && data[|data|..] == [];
    assert data[|data| - 1] == b;
    assert forall i :: !UnfinishedAt(data, i);
    assert Cut(data) == |data|;
    ForgottenByte(before, b);
  }

  lemma {:induction false} ForgottenByte(before: seq<byte>, b: byte)
    requires After(Text, before).Csi? && !IsFinal(b)
    ensures Stripped(before + [b]) == Output(Text, before)
  {
    StrippedIsScan(before + [b]);
    ScanAppend(Text, before, [b]);
    assert [b][1..] == [];
    var st := After(Text, before);
    assert Output(st, [b]) == Emit(st, b) + [] && After(st, [b]) == Next(st, b);
  }

  /** Cutting the stream right after its first unlawful byte shows. */
  lemma {:induction false} UnlawfulByteShows(stream: seq<byte>, x: byte) returns (chunks: seq<seq<byte>>)
    requires !WellFormed(Text, stream) && Settles(x)
    ensures Flatten(chunks) == stream + [x]
    ensures StripAll([], chunks).0 != Stripped(stream + [x])
  {
    hide Stripped, WellFormed, Output, Cut, Next, Emit, StripChunk, Lawful, After;
    var j := FirstUnlawful(Text, stream);
    var before, b, rest := stream[..j], stream[j], stream[j + 1..];
    var st := After(Text, before);
    chunks := [before + [b], rest + [x]];
    assert stream + [x] == before + [b] + (rest + [x]);
    TwoChunks(before + [b], rest + [x]);
    UnlawfulChunk(before, b);
    var held := if b == ESC then [ESC] else [];
    SettledAfterHeld(held, rest, x);
    WholeOfUnlawful(before, b, rest, x);
    var other := if b == ESC then Escape else Text;
    UnlawfulIsCsi(st, b);
    OpposedScansDiffer(Csi(st.held + 1), other, rest, x);
    if Output(Text, before) + Output(Csi(st.held + 1), rest + [x]) == Output(Text, before) + Output(other, rest + [x]) {
      SameRest(Output(Text, before), Output(Csi(st.held + 1), rest + [x]), Output(other, rest + [x]));
      assert false;
    }
  }

  lemma UnlawfulIsCsi(st: Scan, b: byte)
    requires !Lawful(st, b)
    ensures st.Csi? && !IsFinal(b) && Next(st, b) == Csi(st.held + 1)
  {}

  lemma SameRest(a: seq<byte>, b: seq<byte>, c: seq<byte>)
    requires a + b == a + c
    ensures b == c
  {
    assert b == (a + b)[|a|..] && c == (a + c)[|a|..];
  }

  lemma TwoChunks(first: seq<byte>, second: seq<byte>)
    ensures Flatten([first, second]) == first + second
    ensures var (out, held) := StripChunk([], first);
      StripAll([], [first, second]).0 == out + StripChunk(held, second).0
  {
    assert [first, second][1..] == [second] && [second][1..] == [];
    var held := StripChunk([], first).1;
    assert Flatten([second]) == second + Flatten<byte>([]);
    assert StripAll(held, [second]) == (StripChunk(held, second).0 + [], StripChunk(held, second).1);
  }

  lemma {:induction false} SettledAfterHeld(held: seq<byte>, rest: seq<byte>, x: byte)
    requires held == [] || held == [ESC]
    requires Settles(x)
    ensures StripChunk(held, rest + [x]).0 == Output(if held == [] then Text else Escape, rest + [x])
  {
    hide Stripped, Cut;
    assert held + (rest + [x]) == held + rest + [x] == [] + (held + rest + [x]);
    SettledIsNotCut(held + rest, x);
    ScanAppend(Text, held, rest + [x]);
    if held == [ESC] { assert held[1..] == []; }
  }

  lemma {:induction false} WholeOfUnlawful(before: seq<byte>, b: byte, rest: seq<byte>, x: byte)
    requires !Lawful(After(Text, before), b) && Settles(x)
    ensures var st := After(Text, before);
      st.Csi? && Stripped(before + [b] + (rest + [x])) == Output(Text, before) + Output(Csi(st.held + 1), rest + [x])
  {
    hide Stripped, WellFormed, After, Output;
    var all, st := before + [b] + (rest + [x]), After(Text, before);
    assert all == before + [b] + rest + [x];
    StrippedIsScan(all);
    SettledIsText(Text, before + [b] + rest, x);
    ScanAppend(Text, before + [b], rest + [x]);
    ScanAppend(Text, before, [b]);
    ScanOne(st, b);
  }

  lemma ScanOne(st: Scan, b: byte)
    ensures After(st, [b]) == Next(st, b) && Output(st, [b]) == Emit(st, b)
  {
    assert [b][1..] == [];
    assert Output(st, [b]) == Emit(st, b) + [];
  }

  /** Every way of cutting the stream gives the output of stripping it whole. */
  ghost predicate CuttingNeverShows(stream: seq<byte>) {
    forall chunks: seq<seq<byte>> :: Flatten(chunks) == stream ==> StripAll([], chunks).0 == Stripped(stream)
  }

  /**
    The exact condition, for any stream followed by a final byte that settles
    every scan: the way it is cut never shows exactly if its control sequences
    are well formed and no unfinished part of one exceeds MAX_PENDING.
   */
  lemma {:induction false} CuttingNeverShowsIff(stream: seq<byte>, x: byte)
    requires Settles(x)
    ensures CuttingNeverShows(stream + [x]) <==> WellFormed(Text, stream)
  {
    hide Stripped, WellFormed, StripAll, Output, Cut, After, Flatten;
    if WellFormed(Text, stream) {
      SettledIsText(Text, stream, x);
      CutOfText(stream + [x]);
      forall chunks: seq<seq<byte>> | Flatten(chunks) == stream + [x]
        ensures StripAll([], chunks).0 == Stripped(stream + [x])
      {
        ChunkingDoesNotMatter(chunks);
        assert (stream + [x])[..|stream + [x]|] == stream + [x];
      }
    } else {
      var chunks := UnlawfulByteShows(stream, x);
    }
  }
}
