/** LF-framed records over streams that write short and read in fragments. */
module Framing {
  import opened Prelude
  import opened JcsUtf8
  import opened OutputStream

  const CR: Byte := 0x0D

  /** One Read call of the source: how many bytes it would give, and whether it reports an error. */
  datatype Chunk = Chunk(count: nat, failed: bool)

  /** A buffered reader: its unread buffer, a remembered error, how many empty reads in a row it bears, and the stream behind it. */
  datatype Reader = Reader(buffer: Bytes, capacity: nat, patience: nat, error: bool, data: Bytes, script: seq<Chunk>)

  /** Everything not yet handed out. */
  function Rest(r: Reader): Bytes { r.buffer + r.data }

  datatype Slice = Found | Full | Broken

  /** Reads into the free space until something arrives, an error does, or nothing has too often. */
  function Fetch(r: Reader, tries: nat): Reader
    decreases tries
  {
    if tries == 0 || r.script == [] then r.(error := true)
    else
      var s := Pull(r);
      if s.error || |s.data| < |r.data| then s else Fetch(s, tries - 1)
  }

  /** One Read call into the free space. */
  function Pull(r: Reader): Reader
    requires r.script != []
  {
    var chunk := r.script[0];
    var room := if |r.buffer| < r.capacity then r.capacity - |r.buffer| else 0;
    var offered := if chunk.count <= |r.data| then chunk.count else |r.data|;
    var n := if offered <= room then offered else room;
    r.(buffer := r.buffer + r.data[..n], data := r.data[n..], script := r.script[1..], error := chunk.failed)
  }

  /** Position of the first line feed, or the length. */
  function FindLF(b: Bytes): (i: nat)
    ensures i <= |b| && LF !in b[..i] && (i < |b| ==> b[i] == LF)
  {
    if b == [] || b[0] == LF then 0
    else
      var i := FindLF(b[1..]);
      assert b[..i + 1] == [b[0]] + b[1..][..i];
      i + 1
  }

  lemma FetchConsumes(r: Reader, tries: nat)
    ensures Fetch(r, tries).error || |Fetch(r, tries).script| < |r.script|
    ensures |Fetch(r, tries).script| <= |r.script|
    ensures Fetch(r, tries).capacity == r.capacity
    decreases tries
  {
  }

  /** ReadSlice('\n') of a buffered reader. */
  function ReadSlice(r: Reader): (Reader, Bytes, Slice)
    decreases if r.error then 0 else |r.script| + 1
  {
    var i := FindLF(r.buffer);
    if i < |r.buffer| then (r.(buffer := r.buffer[i + 1..]), r.buffer[..i + 1], Found)
    else if r.error then (r.(buffer := [], error := false), r.buffer, Broken)
    else if |r.buffer| >= r.capacity then (r.(buffer := []), r.buffer, Full)
    else
      FetchConsumes(r, r.patience);
      ReadSlice(Fetch(r, r.patience))
  }

  /** readBoundedRecord, and readLine when carriage returns are refused; document is what it has so far. */
  function ReadRecord(r: Reader, limit: nat, document: Bytes, refuseCR: bool): (Reader, Option<Bytes>)
    requires r.capacity > 0 && |document| <= limit
    decreases limit - |document|
  {
    SliceSplits(r);
    var (s, fragment, how) := ReadSlice(r);
    if |document| + |fragment| > limit then (s, None)
    else
      var longer := document + fragment;
      match how
      case Found =>
        if |longer| < 2 || (refuseCR && CR in longer) then (s, None) else (s, Some(longer[..|longer| - 1]))
      case Full => ReadRecord(s, limit, longer, refuseCR)
      case Broken => (s, None)
  }

  /** encodeLine and writeLine on a marshalled record. */
  function EncodeLine(stream: Stream, document: Bytes, limit: nat): (Stream, bool) {
    if |document| + 1 > limit then (stream, false)
    else
      var (last, _, ok) := Pump(stream, document + [LF]);
      (last, ok)
  }

  lemma FetchOnce(r: Reader, tries: nat)
    requires tries > 0 && r.script != []
    ensures var s := Pull(r); Fetch(r, tries) == if s.error || |s.data| < |r.data| then s else Fetch(s, tries - 1)
  {
  }

  // ----- what one slice takes -----

  lemma {:induction false} FetchKeepsRest(r: Reader, tries: nat)
    ensures Rest(Fetch(r, tries)) == Rest(r)
    decreases tries
  {
    if tries > 0 && r.script != [] {
      PullKeepsRest(r);
      var s := Pull(r);
      if !s.error && |s.data| == |r.data| { FetchKeepsRest(s, tries - 1); }
    }
  }

  lemma PullKeepsRest(r: Reader)
    requires r.script != []
    ensures Rest(Pull(r)) == Rest(r) && |Pull(r).data| <= |r.data|
  {
    var n := |r.data| - |Pull(r).data|;
    assert Pull(r).buffer == r.buffer + r.data[..n] && Pull(r).data == r.data[n..];
    Split(r.buffer, r.data, n);
  }

  lemma Split(a: Bytes, b: Bytes, n: nat)
    requires n <= |b|
    ensures (a + b[..n]) + b[n..] == a + b
  {
  }

  lemma BufferSplits(buffer: Bytes, data: Bytes)
    ensures var i := FindLF(buffer);
      if i < |buffer| then
        var head := buffer[..i + 1];
        head[|head| - 1] == LF && LF !in head[..|head| - 1] && buffer + data == head + (buffer[i + 1..] + data)
      else LF !in buffer && buffer + data == buffer + ([] + data)
  {
    var i := FindLF(buffer);
    assert buffer[..|buffer|] == buffer;
    if i < |buffer| {
      var (head, tail) := (buffer[..i + 1], buffer[i + 1..]);
      assert head[..i] == buffer[..i];
      assert head + tail == buffer;
      assert head + (tail + data) == head + tail + data;
    } else {
      assert [] + data == data;
    }
  }

  /** A slice is the head of what was left: up to a line feed, or without one. */
  lemma {:induction false} SliceSplits(r: Reader)
    ensures var (s, fragment, how) := ReadSlice(r); Splits(r, s, fragment, how)
    decreases if r.error then 0 else |r.script| + 1
  {
    if FindLF(r.buffer) == |r.buffer| && !r.error && |r.buffer| < r.capacity {
      var t := Fetch(r, r.patience);
      FetchConsumes(r, r.patience);
      FetchKeepsRest(r, r.patience);
      SliceSplits(t);
      var (s, fragment, how) := ReadSlice(t);
      assert Splits(r, s, fragment, how);
    } else {
      FirstSliceSplits(r);
    }
  }

  predicate Splits(r: Reader, s: Reader, fragment: Bytes, how: Slice) {
    && Rest(r) == fragment + Rest(s) && s.capacity == r.capacity
    && (how == Found ==> fragment != [] && fragment[|fragment| - 1] == LF && LF !in fragment[..|fragment| - 1])
    && (how == Full ==> |fragment| >= r.capacity && LF !in fragment)
    && (how == Broken ==> LF !in fragment)
  }

  lemma FirstSliceSplits(r: Reader)
    requires FindLF(r.buffer) < |r.buffer| || r.error || |r.buffer| >= r.capacity
    ensures var (s, fragment, how) := ReadSlice(r); Splits(r, s, fragment, how)
  {
    BufferSplits(r.buffer, r.data);
  }

  // ----- soundness: nothing invented, nothing over the limit -----

  /** record, which document begins, is the rest of the next line of r, and s is what follows it. */
  predicate NextLine(r: Reader, document: Bytes, record: Bytes, s: Reader, limit: nat, refuseCR: bool) {
    && document <= record && record != [] && |record| + 1 <= limit && LF !in record
    && Rest(r) == record[|document|..] + [LF] + Rest(s)
    && (refuseCR ==> CR !in record)
  }

  lemma LastIsNextLine(r: Reader, s: Reader, limit: nat, document: Bytes, fragment: Bytes, refuseCR: bool)
    requires LF !in document && Splits(r, s, fragment, Found) && 2 <= |document + fragment| <= limit
    requires refuseCR ==> CR !in document + fragment
    ensures NextLine(r, document, (document + fragment)[..|document + fragment| - 1], s, limit, refuseCR)
  {
    LastFragment(document, fragment);
  }

  lemma LongerIsNextLine(r: Reader, s: Reader, t: Reader, limit: nat, document: Bytes, fragment: Bytes, record: Bytes, refuseCR: bool)
    requires Splits(r, s, fragment, Full) && NextLine(s, document + fragment, record, t, limit, refuseCR)
    ensures NextLine(r, document, record, t, limit, refuseCR)
  {
    JoinFragments(document, fragment, record, Rest(t));
  }

  lemma NoLF(document: Bytes, fragment: Bytes)
    requires LF !in document && LF !in fragment
    ensures LF !in document + fragment
  {
  }

  /** What is claimed of a read: a record it returns is the next line. */
  predicate SoundRead(r: Reader, document: Bytes, s: Reader, record: Option<Bytes>, limit: nat, refuseCR: bool) {
    record.Some? ==> NextLine(r, document, record.value, s, limit, refuseCR)
  }

  lemma FoundIsSound(r: Reader, limit: nat, document: Bytes, refuseCR: bool, s: Reader, fragment: Bytes)
    requires r.capacity > 0 && |document| <= limit && LF !in document && ReadSlice(r) == (s, fragment, Found)
    requires |document + fragment| <= limit && Splits(r, s, fragment, Found)
    ensures var (t, record) := ReadRecord(r, limit, document, refuseCR); SoundRead(r, document, t, record, limit, refuseCR)
  {
    var longer := document + fragment;
    if |longer| >= 2 && !(refuseCR && CR in longer) { LastIsNextLine(r, s, limit, document, fragment, refuseCR); }
  }

  lemma FullIsSound(r: Reader, limit: nat, document: Bytes, refuseCR: bool, s: Reader, fragment: Bytes)
    requires r.capacity > 0 && |document| <= limit && ReadSlice(r) == (s, fragment, Full)
    requires |document + fragment| <= limit && Splits(r, s, fragment, Full)
    requires var (t, record) := ReadRecord(s, limit, document + fragment, refuseCR);
      SoundRead(s, document + fragment, t, record, limit, refuseCR)
    ensures var (t, record) := ReadRecord(r, limit, document, refuseCR); SoundRead(r, document, t, record, limit, refuseCR)
  {
    var (t, record) := ReadRecord(s, limit, document + fragment, refuseCR);
    if record.Some? { LongerIsNextLine(r, s, t, limit, document, fragment, record.value, refuseCR); }
  }

  /**
   Whatever the fragmentation and the errors, a record that is returned is what the stream held up
   to its next line feed, it fits the limit with that line feed, and just that much is consumed.
   */
  lemma {:induction false} RecordIsNextLine(r: Reader, limit: nat, document: Bytes, refuseCR: bool)
    requires r.capacity > 0 && |document| <= limit && LF !in document
    ensures var (s, record) := ReadRecord(r, limit, document, refuseCR); SoundRead(r, document, s, record, limit, refuseCR)
    decreases limit - |document|
  {
    SliceSplits(r);
    var (s, fragment, how) := ReadSlice(r);
    if |document + fragment| <= limit {
      if how == Found {
        FoundIsSound(r, limit, document, refuseCR, s, fragment);
      } else if how == Full {
        NoLF(document, fragment);
        RecordIsNextLine(s, limit, document + fragment, refuseCR);
        FullIsSound(r, limit, document, refuseCR, s, fragment);
      }
    }
  }

  lemma LastFragment(document: Bytes, fragment: Bytes)
    requires fragment != [] && fragment[|fragment| - 1] == LF && LF !in document && LF !in fragment[..|fragment| - 1]
    ensures var record := (document + fragment)[..|document + fragment| - 1];
      document <= record && LF !in record && fragment == record[|document|..] + [LF]
  {
    var body := fragment[..|fragment| - 1];
    var record := (document + fragment)[..|document + fragment| - 1];
    assert record == document + body;
  }

  lemma JoinFragments(document: Bytes, fragment: Bytes, record: Bytes, rest: Bytes)
    requires document + fragment <= record
    ensures document <= record
    ensures fragment + (record[|document + fragment|..] + [LF] + rest) == record[|document|..] + [LF] + rest
  {
    var longer := document + fragment;
    assert record == longer + record[|longer|..];
    assert record[..|document|] == longer[..|document|] == document;
    assert record[|document|..] == fragment + record[|longer|..];
  }

  // ----- completeness: any healthy fragmentation gives the records -----

  /**
   The next reads give data need times over, with no error, and none of the gaps between is longer
   than a reader bears: spare more reads in this one, patience in the next.
   */
  predicate Supplies(script: seq<Chunk>, need: nat, spare: nat, patience: nat)
    decreases |script|
  {
    need == 0 ||
    (&& script != [] && spare > 0 && !script[0].failed
     && if script[0].count > 0 then Supplies(script[1..], need - 1, patience, patience)
        else Supplies(script[1..], need, spare - 1, patience))
  }

  lemma {:induction false} SuppliesLess(script: seq<Chunk>, need: nat, less: nat, spare: nat, patience: nat)
    requires Supplies(script, need, spare, patience) && less <= need
    ensures Supplies(script, less, spare, patience)
    decreases |script|
  {
    if less > 0 {
      if script[0].count > 0 {
        SuppliesLess(script[1..], need - 1, less - 1, patience, patience);
      } else {
        SuppliesLess(script[1..], need, less, spare - 1, patience);
      }
    }
  }

  /** The source reports no error and, while it has data, gives some before the reader's patience ends. */
  predicate Healthy(r: Reader) {
    !r.error && Supplies(r.script, |r.data|, r.patience, r.patience)
  }

  /** One read of a healthy source: some data, or one empty read fewer to spare. */
  lemma PullStaysHealthy(r: Reader, tries: nat)
    requires !r.error && Supplies(r.script, |r.data|, tries, r.patience) && r.data != [] && |r.buffer| < r.capacity
    ensures r.script != [] && tries > 0
    ensures var s := Pull(r);
      && !s.error && s.capacity == r.capacity && s.patience == r.patience
      && (if r.script[0].count > 0 then |s.data| < |r.data| && Healthy(s)
          else s.data == r.data && s.buffer == r.buffer && Supplies(s.script, |s.data|, tries - 1, s.patience))
  {
    if r.script[0].count > 0 {
      SuppliesLess(r.script[1..], |r.data| - 1, |Pull(r).data|, r.patience, r.patience);
    }
  }

  lemma {:induction false} FetchStaysHealthy(r: Reader, tries: nat)
    requires !r.error && Supplies(r.script, |r.data|, tries, r.patience) && r.data != [] && |r.buffer| < r.capacity
    ensures Fetched(r, Fetch(r, tries))
    decreases tries
  {
    PullStaysHealthy(r, tries);
    FetchOnce(r, tries);
    var s := Pull(r);
    if r.script[0].count == 0 {
      FetchStaysHealthy(s, tries - 1);
      FetchedLater(r, s, Fetch(s, tries - 1));
    }
  }

  /** Still healthy, and with fewer bytes to come. */
  predicate Fetched(r: Reader, s: Reader) {
    Healthy(s) && |s.data| < |r.data| && s.capacity == r.capacity
  }

  lemma FetchedLater(r: Reader, s: Reader, t: Reader)
    requires s.data == r.data && s.capacity == r.capacity && Fetched(s, t)
    ensures Fetched(r, t)
  {
  }

  lemma {:induction false} HealthySlice(r: Reader)
    requires Healthy(r) && LF in Rest(r)
    ensures var (s, fragment, how) := ReadSlice(r); Healthy(s) && how != Broken
    decreases |r.data|
  {
    var i := FindLF(r.buffer);
    assert r.buffer[..|r.buffer|] == r.buffer;
    if i == |r.buffer| && |r.buffer| < r.capacity {
      assert LF !in r.buffer;
      assert LF in r.data;
      FetchStaysHealthy(r, r.patience);
      FetchKeepsRest(r, r.patience);
      HealthySlice(Fetch(r, r.patience));
    }
  }

  /** A fragment without a line feed is part of the line, and one with it is all the rest of the line. */
  lemma FragmentOfLine(line: Bytes, tail: Bytes, fragment: Bytes, rest: Bytes)
    requires LF !in line && line + [LF] + tail == fragment + rest
    ensures LF !in fragment ==> |fragment| <= |line| && line == fragment + line[|fragment|..] && rest == line[|fragment|..] + [LF] + tail
    ensures fragment != [] && fragment[|fragment| - 1] == LF && LF !in fragment[..|fragment| - 1] ==> fragment == line + [LF] && rest == tail
  {
    var whole := line + [LF] + tail;
    assert whole[|line|] == LF;
    assert forall i :: 0 <= i < |line| ==> whole[i] == line[i];
    assert forall i :: 0 <= i < |fragment| ==> whole[i] == fragment[i];
    assert rest == whole[|fragment|..];
    if LF !in fragment {
      assert |fragment| <= |line|;
      assert fragment == line[..|fragment|];
    } else if fragment[|fragment| - 1] == LF && LF !in fragment[..|fragment| - 1] {
      assert |fragment| > |line|;
      assert |fragment| == |line| + 1;
      assert fragment == whole[..|fragment|];
    }
  }

  lemma Closes(document: Bytes, line: Bytes)
    ensures var longer := document + (line + [LF]); longer[..|longer| - 1] == document + line
  {
  }

  lemma Continues(document: Bytes, fragment: Bytes, line: Bytes)
    requires |fragment| <= |line| && line == fragment + line[|fragment|..]
    ensures document + line == document + fragment + line[|fragment|..]
  {
  }

  /** However a healthy source chops it up, a line within the limit is read back as it is. */
  lemma {:induction false} LineIsRead(r: Reader, limit: nat, document: Bytes, refuseCR: bool, line: Bytes, tail: Bytes)
    requires r.capacity > 0 && Healthy(r) && Rest(r) == line + [LF] + tail
    requires LF !in line && |document| + |line| + 1 <= limit && document + line != []
    requires refuseCR ==> CR !in document && CR !in line
    ensures var (s, record) := ReadRecord(r, limit, document, refuseCR);
      record == Some(document + line) && Rest(s) == tail && Healthy(s) && s.capacity == r.capacity
    decreases limit - |document|
  {
    assert Rest(r)[|line|] == LF;
    SliceSplits(r);
    HealthySlice(r);
    var (s, fragment, how) := ReadSlice(r);
    FragmentOfLine(line, tail, fragment, Rest(s));
    var longer := document + fragment;
    if how == Found {
      Closes(document, line);
    } else {
      Continues(document, fragment, line);
      LineIsRead(s, limit, longer, refuseCR, line[|fragment|..], tail);
    }
  }

  // ----- whole conversations -----

  predicate Sendable(record: Bytes, limit: nat, refuseCR: bool) {
    record != [] && |record| + 1 <= limit && LF !in record && (refuseCR ==> CR !in record)
  }

  function Lines(records: seq<Bytes>): Bytes {
    if records == [] then [] else records[0] + [LF] + Lines(records[1..])
  }

  function SendAll(stream: Stream, records: seq<Bytes>, limit: nat): (Stream, bool)
    decreases |records|
  {
    if records == [] then (stream, true)
    else
      var (next, ok) := EncodeLine(stream, records[0], limit);
      if ok then SendAll(next, records[1..], limit) else (next, false)
  }

  /** n records read in a row. */
  function ReceiveAll(r: Reader, limit: nat, refuseCR: bool, n: nat): (Reader, Option<seq<Bytes>>)
    requires r.capacity > 0
    decreases n
  {
    if n == 0 then (r, Some([]))
    else
      var (s, record) := ReadRecord(r, limit, [], refuseCR);
      if record.None? || s.capacity == 0 then (s, None)
      else
        var (t, more) := ReceiveAll(s, limit, refuseCR, n - 1);
        (t, if more.None? then None else Some([record.value] + more.value))
  }

  /** A record goes out exactly when it fits the limit with its line feed and the stream takes all of that. */
  lemma LineGoesOutIff(stream: Stream, record: Bytes, limit: nat)
    ensures var (last, ok) := EncodeLine(stream, record, limit);
      && (ok <==> |record| < limit && Finishes(stream.script, record + [LF]))
      && (ok ==> last.accepted == stream.accepted + record + [0x0A])
  {
    LineIsTaken(stream, record);
  }

  /** What goes out is exactly the lines, when every write call makes progress. */
  lemma {:induction false} SentAreLines(stream: Stream, records: seq<Bytes>, limit: nat)
    ensures var (last, ok) := SendAll(stream, records, limit);
      ok ==> last.accepted == stream.accepted + Lines(records)
    decreases |records|
  {
    if records != [] {
      var line := records[0] + [LF];
      PumpWritesHead(stream, line);
      var (next, ok) := EncodeLine(stream, records[0], limit);
      if ok {
        assert line[..|line|] == line;
        SentAreLines(next, records[1..], limit);
        assert stream.accepted + line + Lines(records[1..]) == stream.accepted + (line + Lines(records[1..]));
      }
    }
  }

  lemma FirstLine(records: seq<Bytes>, tail: Bytes)
    requires records != []
    ensures Lines(records) + tail == records[0] + [LF] + (Lines(records[1..]) + tail)
  {
  }

  lemma WholeLineIsRead(r: Reader, limit: nat, refuseCR: bool, line: Bytes, tail: Bytes)
    requires r.capacity > 0 && Healthy(r) && Rest(r) == line + [LF] + tail && Sendable(line, limit, refuseCR)
    ensures var (s, record) := ReadRecord(r, limit, [], refuseCR);
      record == Some(line) && Rest(s) == tail && Healthy(s) && s.capacity == r.capacity
  {
    assert [] + line == line;
    LineIsRead(r, limit, [], refuseCR, line, tail);
  }

  lemma {:induction false} LinesAreReceived(r: Reader, records: seq<Bytes>, limit: nat, refuseCR: bool, tail: Bytes)
    requires r.capacity > 0 && Healthy(r) && Rest(r) == Lines(records) + tail
    requires forall i :: 0 <= i < |records| ==> Sendable(records[i], limit, refuseCR)
    ensures var (s, got) := ReceiveAll(r, limit, refuseCR, |records|); got == Some(records) && Rest(s) == tail
    decreases |records|
  {
    if records != [] {
      var rest := Lines(records[1..]) + tail;
      FirstLine(records, tail);
      WholeLineIsRead(r, limit, refuseCR, records[0], rest);
      var (s, record) := ReadRecord(r, limit, [], refuseCR);
      LinesAreReceived(s, records[1..], limit, refuseCR, tail);
      assert [records[0]] + records[1..] == records;
    }
  }

  /**
   Records sent through short writes and read back through any healthy fragmentation and buffer
   size come out as they went in, in order, with nothing left over.
   */
  lemma SentRecordsAreReceived(stream: Stream, r: Reader, records: seq<Bytes>, limit: nat, refuseCR: bool)
    requires stream.accepted == [] && SendAll(stream, records, limit).1
    requires r.buffer == [] && r.data == SendAll(stream, records, limit).0.accepted && r.capacity > 0 && Healthy(r)
    requires forall i :: 0 <= i < |records| ==> Sendable(records[i], limit, refuseCR)
    ensures var (s, got) := ReceiveAll(r, limit, refuseCR, |records|); got == Some(records) && Rest(s) == []
  {
    SentAreLines(stream, records, limit);
    assert [] + Lines(records) == Lines(records);
    assert Rest(r) == Lines(records) + [];
    LinesAreReceived(r, records, limit, refuseCR, []);
  }

  // ----- the objects -----

  /** The read loop on its own. */
  method FetchByReads(r: Reader) returns (next: Reader)
    ensures next == Fetch(r, r.patience)
    ensures next.capacity == r.capacity && next.patience == r.patience
  {
    next := r;
    var tries: nat := r.patience;
    while tries > 0 && next.script != []
      invariant Fetch(next, tries) == Fetch(r, r.patience)
      invariant next.capacity == r.capacity && next.patience == r.patience
    {
      FetchOnce(next, tries);
      var before := |next.data|;
      next := Pull(next);
      if next.error || |next.data| < before { return; }
      tries := tries - 1;
    }
    next := next.(error := true);
  }

  /** A buffered reader over a stream. */
  class BufferedReader {
    var buffer: Bytes
    const capacity: nat
    const patience: nat
    var error: bool
    var data: Bytes
    var script: seq<Chunk>

    constructor (size: nat, contents: Bytes, answers: seq<Chunk>)
      ensures View() == Reader([], size, 100, false, contents, answers)
    {
      buffer, capacity, patience, error, data, script := [], size, 100, false, contents, answers;
    }

    function View(): Reader
      reads this
    {
      Reader(buffer, capacity, patience, error, data, script)
    }

    /** Reads until something arrives, an error does, or patience runs out. */
    method Fill()
      modifies this
      ensures View() == Fetch(old(View()), patience)
    {
      var next := FetchByReads(View());
      buffer, error, data, script := next.buffer, next.error, next.data, next.script;
    }

    method TakeSlice() returns (fragment: Bytes, how: Slice)
      modifies this
      ensures (View(), fragment, how) == ReadSlice(old(View()))
    {
      ghost var start := View();
      while true
        invariant ReadSlice(View()) == ReadSlice(start)
        decreases if error then 0 else |script| + 1
      {
        var i := FindLF(buffer);
        if i < |buffer| {
          fragment, how := buffer[..i + 1], Found;
          buffer := buffer[i + 1..];
          return;
        }
        if error {
          fragment, how := buffer, Broken;
          buffer, error := [], false;
          return;
        }
        if |buffer| >= capacity {
          fragment, how := buffer, Full;
          buffer := [];
          return;
        }
        FetchConsumes(View(), patience);
        Fill();
      }
    }

    /** readBoundedRecord; with refuseCR, readLine. It never holds more than the limit. */
    method ReadBoundedRecord(limit: nat, refuseCR: bool) returns (record: Option<Bytes>)
      requires capacity > 0
      modifies this
      ensures (View(), record) == ReadRecord(old(View()), limit, [], refuseCR)
    {
      ghost var start := View();
      var document: Bytes := [];
      while true
        invariant |document| <= limit
        invariant ReadRecord(View(), limit, document, refuseCR) == ReadRecord(start, limit, [], refuseCR)
        decreases limit - |document|
      {
        SliceSplits(View());
        var fragment, how := TakeSlice();
        if |document| + |fragment| > limit { return None; }
        document := document + fragment;
        match how {
          case Found =>
            if |document| < 2 || (refuseCR && CR in document) { return None; }
            return Some(document[..|document| - 1]);
          case Full =>
          case Broken => return None;
        }
      }
    }
  }

  /** The write loop of encodeLine and writeLine. */
  method WriteRecord(writer: Writer, record: Bytes, limit: nat) returns (ok: bool)
    modifies writer
    ensures (writer.View(), ok) == EncodeLine(old(writer.View()), record, limit)
  {
    if |record| + 1 > limit { return false; }
    var document := record + [LF];
    ghost var start := writer.View();
    while document != []
      invariant Pump(writer.View(), document).0 == Pump(start, record + [LF]).0
      invariant Pump(writer.View(), document).2 == Pump(start, record + [LF]).2
      decreases |document|
    {
      var report := writer.Write(document);
      if report.failed || report.written <= 0 || report.written > |document| { return false; }
      document := document[report.written..];
    }
    ok := true;
  }
}
