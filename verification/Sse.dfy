/** The server-sent event writer of internal/api/api.go and the reader of internal/ctl/ctl.go. */
module Sse {
  // ---------------------------------------------------------------------
  // Lines
  // ---------------------------------------------------------------------

  /** sseLineEnds: CRLF and CR become LF. */
  function Normalize(s: string): string {
    if s == "" then ""
    else if s[0] == '\r' then
      ['\n'] + if |s| > 1 && s[1] == '\n' then Normalize(s[2..]) else Normalize(s[1..])
    else [s[0]] + Normalize(s[1..])
  }

  /** strings.Split at LF; `line` is what has been read of the current piece. */
  function Split(s: string, line: string): (pieces: seq<string>)
    ensures |pieces| > 0
    decreases s
  {
    if s == "" then [line]
    else if s[0] == '\n' then [line] + Split(s[1..], "")
    else Split(s[1..], line + [s[0]])
  }

  /** The lines of `s` that end in LF, without it. */
  function Lines(s: string, line: string): seq<string>
    decreases s
  {
    if s == "" then []
    else if s[0] == '\n' then [line] + Lines(s[1..], "")
    else Lines(s[1..], line + [s[0]])
  }

  /** strings.Join with LF. */
  function Join(lines: seq<string>): string
    requires |lines| > 0
  {
    if |lines| == 1 then lines[0] else lines[0] + "\n" + Join(lines[1..])
  }

  predicate Has(s: string, c: char) {
    exists i :: 0 <= i < |s| && s[i] == c
  }

  // ---------------------------------------------------------------------
  // The writer
  // ---------------------------------------------------------------------

  const DATA := "data: "

  /** One "data:" line for each piece. */
  function DataLines(pieces: seq<string>): string {
    if pieces == [] then "" else DATA + pieces[0] + "\n" + DataLines(pieces[1..])
  }

  /** What writeSSEData writes for one chunk of output. */
  function Encoded(chunk: string): string {
    DataLines(Split(Normalize(chunk), "")) + "\n"
  }

  class Response {
    var body: string

    constructor ()
      ensures body == ""
    {
      body := "";
    }

    method WriteSSEData(data: string)
      modifies this
      ensures body == old(body) + Encoded(data)
    {
      var lines := Split(Normalize(data), "");
      for i := 0 to |lines|
        invariant body + DataLines(lines[i..]) == old(body) + DataLines(lines)
      {
        assert lines[i..][1..] == lines[i + 1..];
        ghost var before := body;
        body := body + (DATA + lines[i] + "\n");
        assert body + DataLines(lines[i + 1..]) == before + DataLines(lines[i..]);
      }
      assert body + DataLines([]) == body;
      body := body + "\n";
    }
  }

  // ---------------------------------------------------------------------
  // The reader
  // ---------------------------------------------------------------------

  /** The data collected after one more line (none while nil) and what is written out, if anything. */
  function Take(data: seq<string>, line: string): (seq<string>, seq<string>) {
    if line == "" then ([], if data == [] then [] else [Join(data)])
    else if |line| >= |DATA| && line[..|DATA|] == DATA then (data + [line[|DATA|..]], [])
    else if line == "data:" then (data + [""], [])
    else (data, [])
  }

  /** The writes copySSEData makes for a sequence of complete lines. */
  function Events(data: seq<string>, lines: seq<string>): seq<string>
    decreases lines
  {
    if lines == [] then []
    else
      var (data', out) := Take(data, lines[0]);
      out + Events(data', lines[1..])
  }

  /** The switch of copySSEData for one complete line. */
  method TakeLine(data: seq<string>, line: string) returns (data': seq<string>, out: seq<string>)
    ensures (data', out) == Take(data, line)
  {
    data', out := data, [];
    if line == "" {
      if data != [] {
        out := [Join(data)];
        data' := [];
      }
    } else if |line| >= |DATA| && line[..|DATA|] == DATA {
      data' := data + [line[|DATA|..]];
    } else if line == "data:" {
      data' := data + [""];
    }
  }

  /** copySSEData up to the end of the stream: its writes, in order. An unfinished last line is ignored. */
  method CopySSEData(body: string) returns (writes: seq<string>)
    ensures writes == Events([], Lines(body, ""))
  {
    hide Take;
    var data: seq<string> := [];
    writes := [];
    var line := "";
    var i := 0;
    while i < |body|
      invariant 0 <= i <= |body|
      invariant writes + Events(data, Lines(body[i..], line)) == Events([], Lines(body, ""))
    {
      assert body[i..][0] == body[i] && body[i..][1..] == body[i + 1..];
      if body[i] == '\n' {
        EventsCons(data, line, Lines(body[i + 1..], ""));
        var out;
        data, out := TakeLine(data, line);
        writes := writes + out;
        line := "";
      } else {
        line := line + [body[i]];
      }
      i := i + 1;
    }
    assert writes + [] == writes;
  }

  // ---------------------------------------------------------------------
  // The round trip
  // ---------------------------------------------------------------------

  lemma {:induction false} JoinSplit(s: string, line: string)
    ensures Join(Split(s, line)) == line + s
    decreases s
  {
    if s == "" {
    } else if s[0] == '\n' {
      JoinSplit(s[1..], "");
      assert line + s == line + "\n" + s[1..];
    } else {
      JoinSplit(s[1..], line + [s[0]]);
      assert line + s == line + [s[0]] + s[1..];
    }
  }

  lemma {:induction false} PiecesAreLines(s: string, line: string, c: char)
    requires !Has(line, c) && (c == '\n' || !Has(s, c))
    ensures forall i :: 0 <= i < |Split(s, line)| ==> !Has(Split(s, line)[i], c)
    decreases s
  {
    if s != "" {
      assert forall i :: 0 <= i < |s[1..]| ==> s[1..][i] == s[i + 1];
      PiecesAreLines(s[1..], if s[0] == '\n' then "" else line + [s[0]], c);
    }
  }

  /** The line ends of a text, from left to right; CR before LF is one with it. */
  function Ends(s: string): seq<string>
    decreases |s|
  {
    if s == "" then []
    else if s[0] == '\r' then
      if |s| > 1 && s[1] == '\n' then ["\r\n"] + Ends(s[2..]) else ["\r"] + Ends(s[1..])
    else if s[0] == '\n' then ["\n"] + Ends(s[1..])
    else Ends(s[1..])
  }

  function Interleaved(pieces: seq<string>, ends: seq<string>): string
    requires |pieces| == |ends| + 1
  {
    if ends == [] then pieces[0] else pieces[0] + ends[0] + Interleaved(pieces[1..], ends[1..])
  }

  /** Every end is CRLF, CR or LF, and a CR is never parted from the LF that follows it. */
  predicate LineEnds(pieces: seq<string>, ends: seq<string>)
    requires |pieces| == |ends| + 1
  {
    ends == [] || (IsEnd(ends[0], Interleaved(pieces[1..], ends[1..])) && LineEnds(pieces[1..], ends[1..]))
  }

  /**
    The pieces a chunk is written as are what stands between its line ends,
    be they CRLF, CR or LF: with those put back between them they are the
    chunk, and none contains a CR or an LF.
   */
  lemma PiecesOfChunk(s: string)
    ensures var pieces := Split(Normalize(s), "");
      && |pieces| == |Ends(s)| + 1
      && Interleaved(pieces, Ends(s)) == s && LineEnds(pieces, Ends(s))
      && forall i :: 0 <= i < |pieces| ==> !Has(pieces[i], '\r') && !Has(pieces[i], '\n')
  {
    PiecesBetweenEnds(s, "");
    NormalizedHasNoCr(s);
    PiecesAreLines(Normalize(s), "", '\r');
    PiecesAreLines(Normalize(s), "", '\n');
    assert "" + s == s;
  }

  predicate IsEnd(end: string, rest: string) {
    end == "\r\n" || end == "\n" || (end == "\r" && (rest == "" || rest[0] != '\n'))
  }

  /** The line end a text begins with. */
  function FirstEnd(s: string): (end: string)
    requires s != "" && (s[0] == '\r' || s[0] == '\n')
    ensures end != "" && end <= s && IsEnd(end, s[|end|..])
  {
    if s[0] == '\r' && |s| > 1 && s[1] == '\n' then
      assert s[..2] == "\r\n";
      "\r\n"
    else
      assert s[..1] == [s[0]];
      [s[0]]
  }

  /** The text up to the first line end, that end, and the pieces after it. */
  lemma EndSplits(s: string, line: string)
    requires s != "" && (s[0] == '\r' || s[0] == '\n')
    ensures var end := FirstEnd(s);
      var rest := s[|end|..];
      && Ends(s) == [end] + Ends(rest)
      && Split(Normalize(s), line) == [line] + Split(Normalize(rest), "")
  {
    assert Normalize(s)[1..] == Normalize(s[|FirstEnd(s)|..]);
  }

  lemma Prepended(line: string, end: string, rest: string, pieces: seq<string>, ends: seq<string>)
    requires |pieces| == |ends| + 1 && IsEnd(end, rest)
    requires Interleaved(pieces, ends) == "" + rest && LineEnds(pieces, ends)
    ensures Interleaved([line] + pieces, [end] + ends) == line + (end + rest)
    ensures LineEnds([line] + pieces, [end] + ends)
  {
    assert "" + rest == rest;
    assert ([line] + pieces)[1..] == pieces && ([end] + ends)[1..] == ends;
  }

  lemma NoEndSplits(s: string, line: string)
    requires s != "" && s[0] != '\r' && s[0] != '\n'
    ensures Ends(s) == Ends(s[1..]) && Split(Normalize(s), line) == Split(Normalize(s[1..]), line + [s[0]])
  {
    assert Normalize(s) == [s[0]] + Normalize(s[1..]) && ([s[0]] + Normalize(s[1..]))[1..] == Normalize(s[1..]);
  }

  lemma {:induction false} PiecesBetweenEnds(s: string, line: string)
    ensures var pieces := Split(Normalize(s), line);
      && |pieces| == |Ends(s)| + 1
      && Interleaved(pieces, Ends(s)) == line + s && LineEnds(pieces, Ends(s))
    decreases |s|
  {
    hide Interleaved, LineEnds, Normalize, Split, Ends, FirstEnd, IsEnd;
    if s == "" {
      NoEnds(line);
    } else if s[0] == '\r' || s[0] == '\n' {
      var end := FirstEnd(s);
      var rest := s[|end|..];
      EndSplits(s, line);
      PiecesBetweenEnds(rest, "");
      Prepended(line, end, rest, Split(Normalize(rest), ""), Ends(rest));
      assert end + rest == s;
    } else {
      NoEndSplits(s, line);
      PiecesBetweenEnds(s[1..], line + [s[0]]);
      assert line + [s[0]] + s[1..] == line + s;
    }
  }

  lemma NoEnds(line: string)
    ensures Split(Normalize(""), line) == [line] && Ends("") == []
    ensures Interleaved([line], []) == line + "" && LineEnds([line], [])
  {}

  /** A line that has no LF in it is read back whole. */
  lemma {:induction false} ReadLine(text: string, rest: string, line: string)
    requires !Has(text, '\n')
    ensures Lines(text + "\n" + rest, line) == [line + text] + Lines(rest, "")
    decreases text
  {
    var s := text + "\n" + rest;
    if text == "" {
      assert s[0] == '\n' && s[1..] == rest;
      assert line + text == line;
    } else {
      assert s[0] == text[0] && s[1..] == text[1..] + "\n" + rest;
      assert forall i :: 0 <= i < |text[1..]| ==> text[1..][i] == text[i + 1];
      ReadLine(text[1..], rest, line + [text[0]]);
      assert line + [text[0]] + text[1..] == line + text;
    }
  }

  lemma NotInConcat(a: string, b: string, c: char)
    requires !Has(a, c) && !Has(b, c)
    ensures !Has(a + b, c)
  {}

  lemma DataHasNo(c: char)
    requires c == '\n' || c == '\r'
    ensures !Has(DATA, c)
  {}

  lemma TakeData(data: seq<string>, piece: string)
    ensures Take(data, DATA + piece) == (data + [piece], [])
  {
    assert (DATA + piece)[..|DATA|] == DATA && (DATA + piece)[|DATA|..] == piece;
  }

  lemma EventsCons(data: seq<string>, line: string, rest: seq<string>)
    ensures Events(data, [line] + rest) == Take(data, line).1 + Events(Take(data, line).0, rest)
  {
    assert ([line] + rest)[1..] == rest;
  }

  /** The lines a piece list is written as are read back one by one. */
  lemma {:induction false} DataLinesAreRead(pieces: seq<string>, rest: string)
    requires forall i :: 0 <= i < |pieces| ==> !Has(pieces[i], '\n')
    ensures Lines(DataLines(pieces) + rest, "") == Prefixed(pieces) + Lines(rest, "")
    decreases pieces
  {
    hide Lines, Has;
    if pieces == [] {
      assert "" + rest == rest;
    } else {
      var text := DATA + pieces[0];
      var more := DataLines(pieces[1..]) + rest;
      Regroup(text, "\n", DataLines(pieces[1..]), rest);
      DataHasNo('\n');
      NotInConcat(DATA, pieces[0], '\n');
      ReadLine(text, more, "");
      assert "" + text == text;
      DataLinesAreRead(pieces[1..], rest);
      Regroup([], [text], Prefixed(pieces[1..]), Lines(rest, ""));
    }
  }

  lemma Regroup<T>(a: seq<T>, b: seq<T>, c: seq<T>, d: seq<T>)
    ensures a + b + c + d == a + b + (c + d)
    ensures [] + b + c == b + c && [] + b == b
  {}

  function Prefixed(pieces: seq<string>): seq<string> {
    if pieces == [] then [] else [DATA + pieces[0]] + Prefixed(pieces[1..])
  }

  /** Prefixed lines add their pieces to the data collected so far. */
  lemma {:induction false} TakePrefixed(data: seq<string>, pieces: seq<string>, rest: seq<string>)
    ensures Events(data, Prefixed(pieces) + rest) == Events(data + pieces, rest)
    decreases pieces
  {
    hide Take, Events;
    if pieces == [] {
      assert [] + rest == rest && data + [] == data;
    } else {
      var line := DATA + pieces[0];
      var more := Prefixed(pieces[1..]) + rest;
      assert Prefixed(pieces) + rest == [line] + more;
      EventsCons(data, line, more);
      TakeData(data, pieces[0]);
      TakePrefixed(data + [pieces[0]], pieces[1..], rest);
      assert data + [pieces[0]] + pieces[1..] == data + pieces;
    }
  }

  /** The lines written for one chunk: its pieces, prefixed, and an empty line. */
  lemma EncodedLines(chunk: string, rest: string)
    ensures Lines(Encoded(chunk) + rest, "") == Prefixed(Split(Normalize(chunk), "")) + ([""] + Lines(rest, ""))
  {
    var text := Normalize(chunk);
    var pieces := Split(text, "");
    PiecesAreLines(text, "", '\n');
    assert Encoded(chunk) + rest == DataLines(pieces) + ("\n" + rest);
    DataLinesAreRead(pieces, "\n" + rest);
    assert "" + "\n" + rest == "\n" + rest;
    ReadLine("", rest, "");
  }

  /** Reading what was written for one chunk gives exactly one event, the chunk with its line ends normalized. */
  lemma ReadEncoded(chunk: string, rest: string)
    ensures Events([], Lines(Encoded(chunk) + rest, "")) == [Normalize(chunk)] + Events([], Lines(rest, ""))
  {
    var text := Normalize(chunk);
    var pieces := Split(text, "");
    EncodedLines(chunk, rest);
    TakePrefixed([], pieces, [""] + Lines(rest, ""));
    assert [] + pieces == pieces;
    EventsCons(pieces, "", Lines(rest, ""));
    JoinSplit(text, "");
    assert "" + text == text;
    assert Take(pieces, "") == ([], [text]);
  }

  function EncodedAll(chunks: seq<string>): string {
    if chunks == [] then "" else Encoded(chunks[0]) + EncodedAll(chunks[1..])
  }

  function NormalizedAll(chunks: seq<string>): (r: seq<string>)
    ensures |r| == |chunks|
  {
    if chunks == [] then [] else [Normalize(chunks[0])] + NormalizedAll(chunks[1..])
  }

  /**
    Reading back any chunks written as events gives one event for each, in
    order, with exactly its content: nothing in a chunk can end its event,
    start another, or join it to a neighbour.
   */
  lemma {:induction false} RoundTrip(chunks: seq<string>)
    ensures Events([], Lines(EncodedAll(chunks), "")) == NormalizedAll(chunks)
  {
    if chunks != [] {
      RoundTrip(chunks[1..]);
      ReadEncoded(chunks[0], EncodedAll(chunks[1..]));
    }
  }

  /** A stream that ends after any of its lines gives the first of its events, whole. */
  lemma {:induction false} FewerLines(data: seq<string>, lines: seq<string>, k: nat)
    requires k <= |lines|
    ensures Events(data, lines[..k]) <= Events(data, lines)
    decreases k
  {
    if k > 0 {
      assert lines[..k][1..] == lines[1..][..k - 1];
      FewerLines(Take(data, lines[0]).0, lines[1..], k - 1);
    }
  }

  /** Cutting a text at any character cuts its complete lines at a line. */
  lemma {:induction false} LinesOfPrefix(s: string, line: string, k: nat)
    requires k <= |s|
    ensures Lines(s[..k], line) <= Lines(s, line)
    decreases k
  {
    if k > 0 {
      assert s[..k][1..] == s[1..][..k - 1];
      LinesOfPrefix(s[1..], if s[0] == '\n' then "" else line + [s[0]], k - 1);
    }
  }

  /** A stream cut off at any character gives the first of its events, whole, and nothing else. */
  lemma TruncatedStream(body: string, k: nat)
    requires k <= |body|
    ensures Events([], Lines(body[..k], "")) <= Events([], Lines(body, ""))
  {
    LinesOfPrefix(body, "", k);
    var some, all := Lines(body[..k], ""), Lines(body, "");
    FewerLines([], all, |some|);
    assert all[..|some|] == some;
  }

  // ---------------------------------------------------------------------
  // The event stream format of section 9.2.6 of the HTML Standard
  // ---------------------------------------------------------------------

  /** Lines end at CRLF, LF or CR. */
  function StandardLines(s: string, line: string): seq<string>
    decreases |s|
  {
    if s == "" then []
    else if s[0] == '\r' then [line] + StandardLines(if |s| > 1 && s[1] == '\n' then s[2..] else s[1..], "")
    else if s[0] == '\n' then [line] + StandardLines(s[1..], "")
    else StandardLines(s[1..], line + [s[0]])
  }

  /** The field name of a line and its value, split at the first colon. */
  function Field(line: string, name: string): (string, string)
    decreases line
  {
    if line == "" then (name, "")
    else if line[0] == ':' then
      (name, if |line| > 1 && line[1] == ' ' then line[2..] else line[1..])
    else Field(line[1..], name + [line[0]])
  }

  /** The data buffer after a line, and the data of the event it dispatches, if any. */
  function StandardTake(buffer: string, line: string): (string, seq<string>) {
    if line == "" then ("", if buffer == "" then [] else [buffer[..|buffer| - 1]])
    else
      var (name, value) := Field(line, "");
      if name == "data" then (buffer + value + "\n", []) else (buffer, [])
  }

  function StandardEvents(buffer: string, lines: seq<string>): seq<string>
    decreases lines
  {
    if lines == [] then []
    else
      var (buffer', out) := StandardTake(buffer, lines[0]);
      out + StandardEvents(buffer', lines[1..])
  }

  /** The lines the writer produces. */
  ghost predicate Written(line: string) {
    line == "" || exists piece :: line == DATA + piece
  }

  /** The line does to the reader's pieces what it does to the buffer of the standard. */
  ghost predicate ReadAlike(line: string) {
    forall data :: StandardTake(Buffer(data), line) == (Buffer(Take(data, line).0), Take(data, line).1)
  }

  /** The data buffer of the standard for the pieces the reader has collected. */
  function Buffer(data: seq<string>): string {
    if data == [] then "" else Join(data) + "\n"
  }

  /** A line is split at its first colon; without one it is all name. */
  lemma {:induction false} FieldAt(line: string, name: string, k: nat)
    requires k <= |line| && (k < |line| ==> line[k] == ':') && forall i :: 0 <= i < k ==> line[i] != ':'
    ensures Field(line, name) == (name + line[..k],
      if k == |line| then "" else if k + 1 < |line| && line[k + 1] == ' ' then line[k + 2..] else line[k + 1..])
    decreases line
  {
    if k == 0 {
      assert name + line[..0] == name;
    } else {
      FieldAt(line[1..], name + [line[0]], k - 1);
      assert name + [line[0]] + line[1..][..k - 1] == name + line[..k];
      assert k < |line| ==> line[1..][k..] == line[k + 1..];
      assert k + 1 < |line| ==> line[1..][k + 1..] == line[k + 2..];
    }
  }

  /** The data field; one space after the colon is not part of the value. */
  lemma FieldOfData(rest: string)
    ensures Field("data:" + rest, "") == ("data", if rest != "" && rest[0] == ' ' then rest[1..] else rest)
  {
    var line := "data:" + rest;
    FieldAt(line, "", 4);
    assert line[..4] == "data" && "" + "data" == "data" && line[5..] == rest;
    assert rest != "" ==> line[5] == rest[0] && line[6..] == rest[1..];
  }

  /** A field name is what comes before the first colon, or the whole line. */
  lemma {:induction false} FieldName(line: string, name: string) returns (k: nat)
    ensures k <= |line| && Field(line, name).0 == name + line[..k] && (k < |line| ==> line[k] == ':')
    decreases line
  {
    if line == "" || line[0] == ':' {
      k := 0;
      assert name + line[..0] == name;
    } else {
      k := FieldName(line[1..], name + [line[0]]);
      k := k + 1;
      assert name + [line[0]] + line[1..][..k - 1] == name + line[..k];
    }
  }

  predicate IsDataField(line: string) {
    line == "data" || (|line| >= 5 && line[..5] == "data:")
  }

  lemma OtherFieldsAreIgnored(line: string)
    requires line != "" && !IsDataField(line)
    ensures Field(line, "").0 != "data"
    ensures forall data :: Take(data, line) == (data, [])
  {
    var k := FieldName(line, "");
    assert "" + line[..k] == line[..k];
    assert |line| > 4 ==> line[..5] == line[..4] + [line[4]];
    assert k == |line| ==> line[..k] == line;
    assert |line| >= 6 ==> line[..6][..5] == line[..5] && DATA[..5] == "data:";
  }

  /** A data field the reader passes over: one without a colon, or with a value right after it. */
  predicate PassedOver(line: string) {
    line == "data" || (|line| > 5 && line[..5] == "data:" && line[5] != ' ')
  }

  /** Reader and standard agree on every line that is no such field, and on no other. */
  lemma ReadAlikeIff(line: string)
    ensures ReadAlike(line) <==> !PassedOver(line)
  {
    hide Field;
    if line == "" {
      forall data ensures StandardTake(Buffer(data), line) == (Buffer(Take(data, line).0), Take(data, line).1) {
        if data != [] { assert Buffer(data)[..|Buffer(data)| - 1] == Join(data); }
      }
    } else if !IsDataField(line) {
      OtherFieldsAreIgnored(line);
    } else if line == "data" {
      BareData();
      assert StandardTake(Buffer([]), line) != (Buffer(Take([], line).0), Take([], line).1);
    } else {
      DataFieldAlikeIff(line);
    }
  }

  lemma BareData()
    ensures Field("data", "") == ("data", "") && Take([], "data") == ([], [])
  {
    FieldAt("data", "", 4);
    assert "data"[..4] == "data" && "" + "data" == "data";
  }

  lemma DataFieldAlikeIff(line: string)
    requires |line| >= 5 && line[..5] == "data:"
    ensures ReadAlike(line) <==> !PassedOver(line)
  {
    hide Field;
    var rest := line[5..];
    assert line == "data:" + rest;
    FieldOfData(rest);
    if PassedOver(line) {
      assert Take([], line) == ([], []) by { assert |line| >= 6 ==> line[..6][5] == line[5] && DATA[5] == ' '; }
      assert StandardTake(Buffer([]), line) != (Buffer(Take([], line).0), Take([], line).1);
    } else {
      var piece := if rest == "" then "" else rest[1..];
      forall data ensures StandardTake(Buffer(data), line) == (Buffer(Take(data, line).0), Take(data, line).1) {
        if rest == "" {
          assert line == "data:";
        } else {
          assert line == DATA + piece;
          TakeData(data, piece);
        }
        assert Take(data, line) == (data + [piece], []);
        BufferSnoc(data, piece);
      }
    }
  }

  lemma BufferSnoc(data: seq<string>, piece: string)
    ensures Buffer(data) + piece + "\n" == Buffer(data + [piece])
  {
    if data == [] { assert data + [piece] == [piece]; } else { JoinSnoc(data, piece); }
  }

  lemma {:induction false} JoinSnoc(data: seq<string>, piece: string)
    requires data != []
    ensures Join(data + [piece]) == Join(data) + "\n" + piece
  {
    if |data| == 1 {
      assert (data + [piece])[1..] == [piece];
    } else {
      assert (data + [piece])[1..] == data[1..] + [piece];
      JoinSnoc(data[1..], piece);
    }
  }

  /** On lines they read alike the reader and the standard see the same events. */
  lemma {:induction false} AgreesWithStandard(data: seq<string>, lines: seq<string>)
    requires forall i :: 0 <= i < |lines| ==> ReadAlike(lines[i])
    ensures StandardEvents(Buffer(data), lines) == Events(data, lines)
    decreases lines
  {
    hide Take, StandardTake;
    if lines != [] {
      assert ReadAlike(lines[0]);
      AgreesWithStandard(Take(data, lines[0]).0, lines[1..]);
    }
  }

  lemma WrittenIsReadAlike(line: string)
    requires Written(line)
    ensures ReadAlike(line)
  {
    ReadAlikeIff(line);
    if line != "" {
      var piece :| line == DATA + piece;
      assert line[5] == DATA[5];
    }
  }

  lemma {:induction false} NoCrLines(s: string, line: string)
    requires !Has(s, '\r')
    ensures StandardLines(s, line) == Lines(s, line)
    decreases s
  {
    if s != "" {
      assert forall i :: 0 <= i < |s[1..]| ==> s[1..][i] == s[i + 1];
      NoCrLines(s[1..], if s[0] == '\n' then "" else line + [s[0]]);
    }
  }

  lemma {:induction false} NormalizedHasNoCr(s: string)
    ensures !Has(Normalize(s), '\r')
  {
    if s != "" {
      NormalizedHasNoCr(s[1..]);
      if |s| > 1 {
        NormalizedHasNoCr(s[2..]);
      }
    }
  }

  lemma {:induction false} DataLinesHaveNoCr(pieces: seq<string>)
    requires forall i :: 0 <= i < |pieces| ==> !Has(pieces[i], '\r')
    ensures !Has(DataLines(pieces), '\r')
  {
    if pieces != [] {
      DataLinesHaveNoCr(pieces[1..]);
      DataHasNo('\r');
      NotInConcat(DATA, pieces[0], '\r');
      NotInConcat(DATA + pieces[0], "\n", '\r');
      NotInConcat(DATA + pieces[0] + "\n", DataLines(pieces[1..]), '\r');
    }
  }

  lemma {:induction false} PrefixedAreWritten(pieces: seq<string>)
    ensures forall i :: 0 <= i < |Prefixed(pieces)| ==> Written(Prefixed(pieces)[i])
  {
    if pieces != [] {
      PrefixedAreWritten(pieces[1..]);
    }
  }

  lemma {:induction false} StreamIsPlain(chunks: seq<string>)
    ensures !Has(EncodedAll(chunks), '\r')
    ensures var lines := Lines(EncodedAll(chunks), "");
      forall i :: 0 <= i < |lines| ==> Written(lines[i])
  {
    if chunks != [] {
      var rest := EncodedAll(chunks[1..]);
      StreamIsPlain(chunks[1..]);
      var text := Normalize(chunks[0]);
      NormalizedHasNoCr(chunks[0]);
      PiecesAreLines(text, "", '\r');
      DataLinesHaveNoCr(Split(text, ""));
      NotInConcat(DataLines(Split(text, "")), "\n", '\r');
      NotInConcat(Encoded(chunks[0]), rest, '\r');
      EncodedLines(chunks[0], rest);
      PrefixedAreWritten(Split(text, ""));
    }
  }

  /** Any conforming event source sees the same events as copySSEData. */
  lemma StandardRoundTrip(chunks: seq<string>)
    ensures StandardEvents("", StandardLines(EncodedAll(chunks), "")) == NormalizedAll(chunks)
  {
    StreamIsPlain(chunks);
    NoCrLines(EncodedAll(chunks), "");
    var lines := Lines(EncodedAll(chunks), "");
    forall i | 0 <= i < |lines| ensures ReadAlike(lines[i]) { WrittenIsReadAlike(lines[i]); }
    AgreesWithStandard([], lines);
    RoundTrip(chunks);
  }
}
