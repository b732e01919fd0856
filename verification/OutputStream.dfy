/** OutputEncoder over a writer that may write short, fail, or misreport. */
module OutputStream {
  import opened Prelude
  import opened JcsUtf8

  const LF: Byte := 0x0A
  const MAX_RECORDS: nat := 33
  const MAX_STDOUT_BYTES: nat := 2097152
  const MAX_RECORD_BYTES: nat := 65536

  /** What one Write call of the underlying stream reports. */
  datatype Report = Report(written: int, failed: bool)

  datatype StreamError = EncoderFailed | StreamIO | Schema | ByteLimit | RecordLimit | RecordByteLimit

  /** accepted is what the stream has taken; script is how it will answer. */
  datatype Stream = Stream(accepted: Bytes, script: seq<Report>)

  /**
   lines and partial are history: the complete records written, each with its line feed, and the
   part of a record that a failing stream took.
   */
  datatype Encoder = Encoder(stream: Option<Stream>, records: nat, bytes: nat, failed: bool,
                             lines: seq<Bytes>, partial: Bytes)

  function NewEncoder(stream: Option<Stream>): Encoder {
    Encoder(stream, 0, 0, false, [], [])
  }

  /** The write loop: how much of the document goes out, and whether all of it did. */
  function Pump(stream: Stream, document: Bytes): (Stream, nat, bool)
    decreases |stream.script|
  {
    if document == [] then (stream, 0, true)
    else if stream.script == [] then (stream, 0, false)
    else
      var (report, script) := (stream.script[0], stream.script[1..]);
      if report.written < 0 || report.written > |document| then (stream.(script := script), 0, false)
      else
        var n: nat := report.written;
        var next := Stream(stream.accepted + document[..n], script);
        if report.failed || n == 0 then (next, n, false)
        else
          var (last, more, ok) := Pump(next, document[n..]);
          (last, n + more, ok)
  }

  /** Write, given what marshalOutputRecord made of the record. */
  function EncodeRecord(e: Encoder, marshalled: Option<Bytes>): (Encoder, Option<StreamError>) {
    if e.failed then (e, Some(EncoderFailed))
    else if e.stream.None? then (e.(failed := true), Some(StreamIO))
    else if marshalled.None? then (e.(failed := true), Some(Schema))
    else
      var document := marshalled.value;
      if e.bytes + |document| + 1 > MAX_STDOUT_BYTES then (e.(failed := true), Some(ByteLimit))
      else if e.records >= MAX_RECORDS then (e.(failed := true), Some(RecordLimit))
      else if |document| > MAX_RECORD_BYTES then (e.(failed := true), Some(RecordByteLimit))
      else
        var line := document + [LF];
        var (stream, n, ok) := Pump(e.stream.value, line);
        if ok then
          (e.(stream := Some(stream), bytes := e.bytes + n, records := e.records + 1, lines := e.lines + [line]), None)
        else
          (e.(stream := Some(stream), bytes := e.bytes + n, failed := true,
              partial := if n <= |line| then line[..n] else line), Some(StreamIO))
  }

  function Concat(lines: seq<Bytes>): Bytes {
    if lines == [] then [] else Concat(lines[..|lines| - 1]) + lines[|lines| - 1]
  }

  /** The stream holds the complete records and at most one partial record; the counters are exact. */
  predicate Exact(e: Encoder) {
    && (e.stream.Some? ==> e.stream.value.accepted == Concat(e.lines) + e.partial)
    && (e.stream.None? ==> e.lines == [] && e.partial == [])
    && (!e.failed ==> e.partial == [])
    && e.bytes == |Concat(e.lines) + e.partial| && e.bytes <= MAX_STDOUT_BYTES
    && e.records == |e.lines| && e.records <= MAX_RECORDS
    && forall i :: 0 <= i < |e.lines| ==> e.lines[i] != [] && |e.lines[i]| <= MAX_RECORD_BYTES + 1 && e.lines[i][|e.lines[i]| - 1] == LF
  }

  /** However it is chopped up, what the loop puts out is the head of the document, and all of it on success. */
  lemma {:induction false} PumpWritesHead(stream: Stream, document: Bytes)
    ensures var (last, n, ok) := Pump(stream, document);
      && n <= |document| && last.accepted == stream.accepted + document[..n]
      && (ok <==> n == |document| && (document != [] ==> Finishes(stream.script, document)))
    decreases |stream.script|
  {
    if document != [] && stream.script != [] {
      var (report, script) := (stream.script[0], stream.script[1..]);
      if 0 <= report.written <= |document| {
        var n: nat := report.written;
        var next := Stream(stream.accepted + document[..n], script);
        if !report.failed && n > 0 {
          PumpWritesHead(next, document[n..]);
          var (last, more, ok) := Pump(next, document[n..]);
          assert document[..n] + document[n..][..more] == document[..n + more];
        }
      }
    }
  }

  /** The stream's answers take the whole document in positive, in-range, error-free steps. */
  predicate Finishes(script: seq<Report>, document: Bytes)
    decreases |script|
  {
    script != [] && 0 < script[0].written <= |document| && !script[0].failed &&
    (script[0].written == |document| || Finishes(script[1..], document[script[0].written..]))
  }

  lemma ConcatGrows(lines: seq<Bytes>, line: Bytes)
    ensures Concat(lines + [line]) == Concat(lines) + line
  {
    assert (lines + [line])[..|lines|] == lines;
  }

  lemma WholeLineKeepsExact(e: Encoder, t: Encoder, line: Bytes)
    requires Exact(e) && !e.failed && e.stream.Some? && t.stream.Some?
    requires t.stream.value.accepted == e.stream.value.accepted + line
    requires t == e.(stream := t.stream, bytes := e.bytes + |line|, records := e.records + 1, lines := e.lines + [line])
    requires line != [] && line[|line| - 1] == LF && |line| <= MAX_RECORD_BYTES + 1
    requires e.bytes + |line| <= MAX_STDOUT_BYTES && e.records < MAX_RECORDS
    ensures Exact(t)
  {
    ConcatGrows(e.lines, line);
    assert Concat(e.lines) + e.partial == Concat(e.lines);
  }

  lemma TornLineKeepsExact(e: Encoder, t: Encoder, part: Bytes)
    requires Exact(e) && !e.failed && e.stream.Some? && t.stream.Some?
    requires t.stream.value.accepted == e.stream.value.accepted + part
    requires t == e.(stream := t.stream, bytes := e.bytes + |part|, failed := true, partial := part)
    requires e.bytes + |part| <= MAX_STDOUT_BYTES
    ensures Exact(t)
  {
    assert Concat(e.lines) + e.partial == Concat(e.lines);
  }

  lemma WriteKeepsExact(e: Encoder, marshalled: Option<Bytes>)
    requires Exact(e)
    ensures Exact(EncodeRecord(e, marshalled).0)
  {
    if !e.failed && e.stream.Some? && marshalled.Some? {
      var line := marshalled.value + [LF];
      PumpWritesHead(e.stream.value, line);
      var (t, error) := EncodeRecord(e, marshalled);
      if error.None? {
        assert line[..|line|] == line;
        WholeLineKeepsExact(e, t, line);
      } else if error == Some(StreamIO) {
        TornLineKeepsExact(e, t, t.partial);
      }
    }
  }

  /** A record that fails leaves the encoder failed, and a failed encoder writes nothing more. */
  lemma FailureLatches(e: Encoder, marshalled: Option<Bytes>)
    ensures var (t, error) := EncodeRecord(e, marshalled);
      && (error.Some? <==> t.failed)
      && (e.failed ==> t == e && error == Some(EncoderFailed))
      && (error.None? ==> t.lines == e.lines + [marshalled.value + [LF]])
      && (error.Some? ==> t.lines == e.lines)
  {
  }

  /**
   A record is taken exactly when nothing has failed, it and its line feed fit the 2 MiB, it is one of the first 33 and
   at most 64 KiB long, and the stream takes all of it; the stream then holds it, with its line feed, behind what it held.
   */
  lemma TakenIff(e: Encoder, document: Bytes)
    ensures var (t, error) := EncodeRecord(e, Some(document));
      && (error.None? <==>
            && !e.failed && e.stream.Some? && e.bytes + |document| + 1 <= 2_097_152 && e.records < 33 && |document| <= 65_536
            && Finishes(e.stream.value.script, document + [LF]))
      && (error.None? ==> t.stream.Some? && t.stream.value.accepted == e.stream.value.accepted + document + [0x0A])
  {
    if e.stream.Some? { LineIsTaken(e.stream.value, document); }
  }

  lemma LineIsTaken(stream: Stream, document: Bytes)
    ensures var (t, _, ok) := Pump(stream, document + [LF]);
      && (ok <==> Finishes(stream.script, document + [LF])) && (ok ==> t.accepted == stream.accepted + document + [0x0A])
  {
    var line := document + [LF];
    PumpWritesHead(stream, line);
    if Finishes(stream.script, line) { FinishedIsPumped(stream, line); }
    WholeLine(stream.accepted, document);
  }

  lemma WholeLine(accepted: Bytes, document: Bytes)
    ensures var line := document + [LF]; accepted + line[..|line|] == accepted + document + [0x0A]
  {
  }

  lemma {:induction false} FinishedIsPumped(stream: Stream, document: Bytes)
    requires document != [] && Finishes(stream.script, document)
    ensures Pump(stream, document).2
    decreases |stream.script|
  {
    var (report, script) := (stream.script[0], stream.script[1..]);
    var next := Stream(stream.accepted + document[..report.written], script);
    if report.written == |document| {
      assert document[report.written..] == [];
    } else {
      FinishedIsPumped(next, document[report.written..]);
    }
  }

  /** Any sequence of records over any stream. */
  function WriteAll(e: Encoder, records: seq<Option<Bytes>>): Encoder
    decreases |records|
  {
    if records == [] then e else WriteAll(EncodeRecord(e, records[0]).0, records[1..])
  }

  lemma {:induction false} WriteAllIsExact(e: Encoder, records: seq<Option<Bytes>>)
    requires Exact(e)
    ensures Exact(WriteAll(e, records))
    ensures e.failed ==> WriteAll(e, records) == e
    decreases |records|
  {
    if records != [] {
      WriteKeepsExact(e, records[0]);
      FailureLatches(e, records[0]);
      WriteAllIsExact(EncodeRecord(e, records[0]).0, records[1..]);
    }
  }

  /** From a fresh encoder: whole records, then at most one partial one, and nothing after it. */
  lemma StreamHoldsWholeRecords(stream: Stream, records: seq<Option<Bytes>>)
    requires stream.accepted == []
    ensures var e := WriteAll(NewEncoder(Some(stream)), records);
      && e.stream.Some?
      && e.stream.value.accepted == Concat(e.lines) + e.partial
      && e.bytes == |e.stream.value.accepted| <= MAX_STDOUT_BYTES
      && e.records == |e.lines| <= MAX_RECORDS
      && (e.partial != [] ==> e.failed)
  {
    var e := NewEncoder(Some(stream));
    assert Concat(e.lines) + e.partial == stream.accepted;
    WriteAllIsExact(e, records);
    StreamStays(e, records);
  }

  lemma {:induction false} StreamStays(e: Encoder, records: seq<Option<Bytes>>)
    ensures e.stream.Some? ==> WriteAll(e, records).stream.Some?
    decreases |records|
  {
    if records != [] { StreamStays(EncodeRecord(e, records[0]).0, records[1..]); }
  }

  // ----- the objects -----

  class Writer {
    var accepted: Bytes
    var script: seq<Report>

    constructor (answers: seq<Report>)
      ensures accepted == [] && script == answers
    {
      accepted, script := [], answers;
    }

    function View(): Stream
      reads this
    {
      Stream(accepted, script)
    }

    /** Takes what it reports, when the report is in range. */
    method Write(document: Bytes) returns (report: Report)
      modifies this
      ensures old(script) == [] ==> report == Report(0, true) && accepted == old(accepted) && script == []
      ensures old(script) != [] ==> report == old(script)[0] && script == old(script)[1..]
      ensures old(script) != [] && 0 <= report.written <= |document| ==> accepted == old(accepted) + document[..report.written]
      ensures old(script) != [] && !(0 <= report.written <= |document|) ==> accepted == old(accepted)
    {
      if script == [] { return Report(0, true); }
      report := script[0];
      script := script[1..];
      if 0 <= report.written <= |document| { accepted := accepted + document[..report.written]; }
    }
  }

  class OutputEncoder {
    const writer: Writer?
    var records: nat
    var bytes: nat
    var failed: bool
    ghost var lines: seq<Bytes>
    ghost var partial: Bytes

    constructor (target: Writer?)
      ensures writer == target && records == 0 && bytes == 0 && !failed && lines == [] && partial == []
    {
      writer, records, bytes, failed, lines, partial := target, 0, 0, false, [], [];
    }

    ghost function View(): Encoder
      reads this, writer
    {
      Encoder(if writer == null then None else Some(writer.View()), records, bytes, failed, lines, partial)
    }

    method Write(marshalled: Option<Bytes>) returns (error: Option<StreamError>)
      modifies this, writer
      ensures (View(), error) == EncodeRecord(old(View()), marshalled)
    {
      if failed { return Some(EncoderFailed); }
      if writer == null {
        failed := true;
        return Some(StreamIO);
      }
      if marshalled.None? {
        failed := true;
        return Some(Schema);
      }
      if bytes + |marshalled.value| + 1 > MAX_STDOUT_BYTES {
        failed := true;
        return Some(ByteLimit);
      }
      if records >= MAX_RECORDS {
        failed := true;
        return Some(RecordLimit);
      }
      if |marshalled.value| > MAX_RECORD_BYTES {
        failed := true;
        return Some(RecordByteLimit);
      }
      error := WriteLine(marshalled.value + [LF]);
    }

    /** The partial-write loop. */
    method WriteLine(line: Bytes) returns (error: Option<StreamError>)
      requires !failed && writer != null && line != []
      modifies this, writer
      ensures var (stream, n, ok) := Pump(old(writer.View()), line);
        && writer.View() == stream && bytes == old(bytes) + n
        && failed == !ok && error == (if ok then None else Some(StreamIO))
        && records == old(records) + (if ok then 1 else 0)
        && lines == (if ok then old(lines) + [line] else old(lines))
        && partial == (if ok then old(partial) else if n <= |line| then line[..n] else line)
    {
      var document := line;
      ghost var sent: nat := 0;
      ghost var (last, total, fine) := Pump(writer.View(), line);
      PumpWritesHead(writer.View(), line);
      while document != []
        invariant sent <= |line| && document == line[sent..]
        invariant bytes == old(bytes) + sent && !failed
        invariant records == old(records) && lines == old(lines) && partial == old(partial)
        invariant Pump(writer.View(), document) == (last, total - sent, fine) && sent <= total <= |line|
        decreases |document|
      {
        var report := writer.Write(document);
        if report.written < 0 || report.written > |document| {
          failed, partial := true, line[..sent];
          return Some(StreamIO);
        }
        if report.written > 0 {
          bytes := bytes + report.written;
          sent := sent + report.written;
          document := document[report.written..];
        }
        if report.failed || report.written == 0 {
          failed, partial := true, line[..sent];
          return Some(StreamIO);
        }
      }
      records := records + 1;
      lines := lines + [line];
      error := None;
    }
  }
}
