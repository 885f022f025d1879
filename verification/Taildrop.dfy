/** Receiving the files of a Taildrop transfer from a stream of client messages. */
module Taildrop {
  import opened Dns

  /** The bytes received between two acknowledgements: 1 MiB. */
  const ACK_INTERVAL: nat := 1_048_576

  datatype ClientMessage = Chunk(data: seq<byte>) | FileDone | Unexpected

  /** How a read or a file ends. */
  datatype Status = Ok | EOF | StreamClosed | InvalidMessage | FileChanged | SendFailed

  // ---------------------------------------------------------------- what the stream holds

  /** A file on the stream: its bytes and the position behind its FileDone. */
  datatype FileAt = FileAt(bytes: seq<byte>, end: nat)

  function Prepend(bytes: seq<byte>, file: Option<FileAt>): Option<FileAt> {
    if file.None? then None else Some(FileAt(bytes + file.value.bytes, file.value.end))
  }

  /** The file whose messages start at a position, if the stream completes it. */
  function File(stream: seq<ClientMessage>, start: nat): Option<FileAt>
    decreases |stream| - start
  {
    if start >= |stream| then None
    else
      match stream[start]
      case Chunk(data) => Prepend(data, File(stream, start + 1))
      case FileDone => Some(FileAt([], start + 1))
      case Unexpected => None
  }

  /** The contents of the first files of a stream. */
  function Files(stream: seq<ClientMessage>, start: nat, count: nat): Option<seq<seq<byte>>>
    decreases count
  {
    if count == 0 then Some([])
    else
      var file := File(stream, start);
      if file.None? then None
      else
        var rest := Files(stream, file.value.end, count - 1);
        if rest.None? then None else Some([file.value.bytes] + rest.value)
  }

  /** The messages up to `end` are chunks and a FileDone behind them. */
  ghost predicate Complete(stream: seq<ClientMessage>, start: nat, end: nat) {
    && start < end <= |stream|
    && stream[end - 1] == FileDone
    && forall i :: start <= i < end - 1 ==> stream[i].Chunk?
  }

  /** The data of the chunks in a range, one after the other. */
  function Joined(stream: seq<ClientMessage>, start: nat, end: nat): seq<byte>
    requires end <= |stream| && forall i :: start <= i < end ==> stream[i].Chunk?
    decreases end - start
  {
    if start >= end then [] else stream[start].data + Joined(stream, start + 1, end)
  }

  /** The stream holds a file exactly when chunks and a FileDone follow, and its bytes are those of the chunks, joined. */
  lemma {:induction false} FileExactly(stream: seq<ClientMessage>, start: nat)
    ensures var file := File(stream, start);
            if file.Some? then Complete(stream, start, file.value.end) && file.value.bytes == Joined(stream, start, file.value.end - 1)
            else forall end :: !Complete(stream, start, end)
    decreases |stream| - start
  {
    if start < |stream| {
      FileExactly(stream, start + 1);
      if stream[start].Chunk? && File(stream, start + 1).None? {
        forall end | Complete(stream, start, end)
          ensures Complete(stream, start + 1, end)
        {
        }
      }
    }
  }

  lemma {:induction false} PrependTwice(a: seq<byte>, b: seq<byte>, file: Option<FileAt>)
    ensures Prepend(a, Prepend(b, file)) == Prepend(a + b, file)
  {
    if file.Some? {
      assert a + (b + file.value.bytes) == (a + b) + file.value.bytes;
    }
  }

  /** The last report, 0 before the first. */
  function Last(reports: seq<nat>): nat {
    if reports == [] then 0 else reports[|reports| - 1]
  }

  /** Each report covers at least one interval more than the one before. */
  ghost predicate Spaced(reports: seq<nat>) {
    reports == [] ||
    (Spaced(reports[..|reports| - 1]) && Last(reports[..|reports| - 1]) + ACK_INTERVAL <= Last(reports))
  }

  lemma {:induction false} SpacedMore(reports: seq<nat>, next: nat)
    requires Spaced(reports) && Last(reports) + ACK_INTERVAL <= next
    ensures Spaced(reports + [next])
  {
    assert (reports + [next])[..|reports|] == reports;
  }

  // ---------------------------------------------------------------- the reader

  class ChunkReader {
    const stream: seq<ClientMessage>
    var position: nat
    var buffer: seq<byte>
    var fileDone: bool
    var fileReceived: nat
    var received: nat
    var acknowledged: nat
    var reports: seq<nat>            // what has been acknowledged to the sender, in order
    ghost var start: nat             // where the current file starts
    ghost var delivered: seq<byte>   // what has been read of it

    constructor (stream: seq<ClientMessage>)
      ensures Valid() && this.stream == stream && position == 0 && Between()
    {
      this.stream := stream;
      position, buffer, fileDone, fileReceived, received, acknowledged, reports := 0, [], false, 0, 0, 0, [];
      start, delivered := 0, [];
      new;
      EmptyPrefix(File(stream, 0));
    }

    /** No byte of the current file is lost or repeated on its way to the reader. */
    ghost predicate Exact()
      reads this
    {
      if fileDone then buffer == [] && File(stream, start) == Some(FileAt(delivered, position))
      else File(stream, start) == Prepend(delivered + buffer, File(stream, position))
    }

    /** Acknowledgements follow the bytes received at less than the interval. */
    ghost predicate Acknowledging()
      reads this
    {
      && acknowledged <= received < acknowledged + ACK_INTERVAL
      && acknowledged == Last(reports)
      && Spaced(reports)
    }

    ghost predicate Valid()
      reads this
    {
      position <= |stream| && fileReceived == |delivered| && Exact() && Acknowledging()
    }

    /** Nothing received is waiting to be read. */
    predicate Between()
      reads this
    {
      buffer == []
    }

    method BeginFile()
      requires Valid() && Between()
      modifies this
      ensures Valid() && Between()
      ensures start == old(position) && position == old(position) && delivered == [] && received == old(received)
    {
      fileDone := false;
      fileReceived := 0;
      start, delivered := position, [];
      EmptyPrefix(File(stream, position));
    }

    /** Takes the next message of the stream into the buffer. */
    method Receive() returns (status: Status)
      requires Valid() && buffer == [] && !fileDone
      modifies this`position, this`buffer, this`fileDone
      ensures Valid() && position <= old(position) + 1
      ensures status == Ok || status == StreamClosed || status == InvalidMessage
      ensures status == Ok ==> position == old(position) + 1
      ensures status != Ok ==> File(stream, start).None? && buffer == []
    {
      if position >= |stream| {
        return StreamClosed;
      }
      match stream[position] {
        case Chunk(data) =>
          buffer := data;
          PrependTwice(delivered, data, File(stream, position + 1));
          assert delivered + [] == delivered;
        case FileDone =>
          fileDone := true;
          assert delivered + [] == delivered && delivered + [] + [] == delivered;
        case Unexpected =>
          return InvalidMessage;
      }
      position := position + 1;
      status := Ok;
    }

    /** Receives until a byte is there, or the file ends, or an error. */
    method Fill() returns (status: Status)
      requires Valid()
      modifies this`position, this`buffer, this`fileDone
      ensures Valid()
      ensures status == Ok ==> buffer != []
      ensures status == EOF ==> buffer == [] && fileDone
      ensures status in {Ok, EOF, StreamClosed, InvalidMessage}
      ensures status == StreamClosed || status == InvalidMessage ==> File(stream, start).None?
    {
      while |buffer| == 0
        invariant Valid()
        decreases |stream| - position, !fileDone
      {
        if fileDone {
          return EOF;
        }
        status := Receive();
        if status != Ok {
          return;
        }
      }
      status := Ok;
    }

    /** Counts bytes handed over, and acknowledges once an interval is full. */
    method Account(n: nat)
      requires Acknowledging()
      modifies this`received, this`acknowledged, this`reports
      ensures Acknowledging() && received == old(received) + n
    {
      hide Spaced;
      received := received + n;
      if received - acknowledged >= ACK_INTERVAL {
        SpacedMore(reports, received);
        acknowledged := received;
        reports := reports + [received];
      }
    }

    /**
     Reads into the destination: at least one byte unless it is empty, or the end of the
     file, or an error. What is read continues what was read of the file before.
     */
    method Read(destination: array<byte>) returns (n: nat, status: Status)
      requires Valid()
      modifies this, destination
      ensures Valid() && start == old(start) && n <= destination.Length
      ensures status in {Ok, EOF, StreamClosed, InvalidMessage}
      ensures delivered == old(delivered) + destination[..n] && received == old(received) + n
      ensures status == Ok ==> n > 0 || destination.Length == 0
      ensures status == EOF ==> n == 0 && fileDone
      ensures status == StreamClosed || status == InvalidMessage ==> n == 0 && File(stream, start).None?
    {
      hide Spaced;
      status := Fill();
      if status != Ok {
        assert destination[..0] == [];
        return 0, status;
      }
      n := if destination.Length < |buffer| then destination.Length else |buffer|;
      forall i | 0 <= i < n {
        destination[i] := buffer[i];
      }
      assert destination[..n] == buffer[..n];
      assert delivered + buffer == delivered + buffer[..n] + buffer[n..];
      delivered := delivered + buffer[..n];
      buffer := buffer[n..];
      fileReceived := fileReceived + n;
      Account(n);
    }

    /** Accepts the file if the stream has ended it, all of it was read, and its size is the declared one. */
    method FinishFile(declared: int) returns (status: Status)
      requires Valid()
      modifies this
      ensures Valid() && start == old(start) && delivered == old(delivered) && received == old(received)
      ensures status == Ok <==> File(stream, start).Some? && delivered == File(stream, start).value.bytes && (declared >= 0 ==> |delivered| == declared)
      ensures status == Ok ==> Between() && fileDone && File(stream, start) == Some(FileAt(delivered, position))
    {
      while !fileDone
        invariant Valid() && start == old(start) && delivered == old(delivered) && received == old(received)
        decreases |stream| - position, !fileDone
      {
        if |buffer| > 0 {
          return FileChanged;
        }
        status := Receive();
        if status != Ok {
          return;
        }
      }
      if |buffer| > 0 {
        return FileChanged;
      }
      if declared >= 0 && fileReceived != declared {
        return FileChanged;
      }
      return Ok;
    }
  }

  lemma {:induction false} EmptyPrefix(file: Option<FileAt>)
    ensures file == Prepend([] + [], file)
  {
    if file.Some? {
      assert [] + [] + file.value.bytes == file.value.bytes;
    }
  }

  // ---------------------------------------------------------------- a transfer

  /** A file announced by the sender, and how the peer connection goes about reading it: buffer sizes, and whether it fails. */
  datatype Announced = Announced(declared: int, buffers: seq<nat>, fails: bool)

  /** Lets the peer connection read the current file until its end, an error or its own decision to stop; `bytes` is what it got. */
  method SendFile(reader: ChunkReader, file: Announced) returns (status: Status, bytes: seq<byte>)
    requires reader.Valid() && reader.delivered == []
    modifies reader
    ensures reader.Valid() && reader.start == old(reader.start) && bytes == reader.delivered
    ensures status == Ok || status == StreamClosed || status == InvalidMessage || status == SendFailed
  {
    bytes := [];
    for i := 0 to |file.buffers|
      invariant reader.Valid() && reader.start == old(reader.start) && bytes == reader.delivered
    {
      var destination := new byte[file.buffers[i]];
      var n;
      n, status := reader.Read(destination);
      bytes := bytes + destination[..n];
      if status == EOF {
        break;
      }
      if status != Ok {
        return;
      }
    }
    status := if file.fails then SendFailed else Ok;
  }

  /** One file: if it goes through, the peer was given what the stream holds from here to its FileDone. */
  method TransferFile(reader: ChunkReader, file: Announced) returns (status: Status, bytes: seq<byte>)
    requires reader.Valid() && reader.Between()
    modifies reader
    ensures reader.Valid()
    ensures status == Ok ==> reader.Between() && File(reader.stream, old(reader.position)) == Some(FileAt(bytes, reader.position))
    ensures status == Ok ==> Sized(file, bytes)
  {
    reader.BeginFile();
    status, bytes := SendFile(reader, file);
    if status == Ok {
      status := reader.FinishFile(file.declared);
    }
  }

  ghost predicate Sized(file: Announced, bytes: seq<byte>) {
    file.declared >= 0 ==> |bytes| == file.declared
  }

  /**
   If every file goes through, the peer has been given exactly the files of the stream, one
   after the other, each of its declared size.
   */
  method SendTaildropFiles(reader: ChunkReader, files: seq<Announced>) returns (status: Status, sent: seq<seq<byte>>)
    requires reader.Valid() && reader.Between() && reader.position == 0
    modifies reader
    ensures reader.Valid()
    ensures status == Ok ==> Files(reader.stream, 0, |files|) == Some(sent) && |sent| == |files|
    ensures status == Ok ==> forall i :: 0 <= i < |files| ==> Sized(files[i], sent[i])
  {
    sent := [];
    assert Files(reader.stream, 0, 0) == Some(sent) && End(reader.stream, 0, 0) == 0;
    hide File, Files, End, Sized;
    for i := 0 to |files|
      invariant reader.Valid() && reader.Between() && |sent| == i
      invariant Files(reader.stream, 0, i) == Some(sent) && End(reader.stream, 0, i) == reader.position
      invariant forall j :: 0 <= j < i ==> Sized(files[j], sent[j])
    {
      var bytes;
      status, bytes := TransferFile(reader, files[i]);
      if status != Ok {
        return;
      }
      OneMore(reader.stream, 0, i);
      sent := sent + [bytes];
    }
    status := Ok;
  }

  /** The position behind the first files of a stream. */
  function End(stream: seq<ClientMessage>, start: nat, count: nat): nat
    decreases count
  {
    if count == 0 then start
    else
      var file := File(stream, start);
      if file.None? then start else End(stream, file.value.end, count - 1)
  }

  lemma {:induction false} OneMore(stream: seq<ClientMessage>, start: nat, count: nat)
    requires Files(stream, start, count).Some? && File(stream, End(stream, start, count)).Some?
    ensures
      var file := File(stream, End(stream, start, count)).value;
      Files(stream, start, count + 1) == Some(Files(stream, start, count).value + [file.bytes]) && End(stream, start, count + 1) == file.end
    decreases count
  {
    if count == 0 {
      assert [File(stream, start).value.bytes] + [] == [] + [File(stream, start).value.bytes];
    } else {
      var first, end := File(stream, start).value.bytes, File(stream, start).value.end;
      OneMore(stream, end, count - 1);
      var rest, last := Files(stream, end, count - 1).value, File(stream, End(stream, start, count)).value.bytes;
      assert [first] + (rest + [last]) == ([first] + rest) + [last];
    }
  }
}
