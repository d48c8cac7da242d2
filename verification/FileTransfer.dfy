/** The double-buffered file transfer: a client loop, a server loop, and the file that comes out. */
module FileTransfer {

  newtype Byte = x: int | 0 <= x < 256

  type Bytes = seq<Byte>

  const CHUNK_SIZE: nat := 5

  /** A `SendFileRequest` on the wire. */
  datatype Chunk = Chunk(content: Bytes, finish: bool)

  /** A `SendFileRequest` buffer, reused from message to message. */
  class Message {
    var content: Bytes
    var finish: bool

    constructor ()
      ensures content == [] && !finish
    {
      content, finish := [], false;
    }

    /** `std::string::resize`: keeps a prefix, or pads with zeros. */
    method Resize(n: nat)
      modifies this`content
      ensures |content| == n
      ensures n <= |old(content)| ==> content == old(content)[..n]
    {
      content := if n <= |content| then content[..n] else content + seq(n - |content|, _ => 0);
    }
  }

  // ---- the client ----------------------------------------------------------------------

  /** The number of bytes the `k`-th read returns with `rest` bytes to go: any number from one to
      the buffer size; `short` decides. */
  function ReadSize(short: nat -> nat, k: nat, rest: nat): (n: nat)
    requires rest > 0
    ensures 1 <= n <= rest && n <= CHUNK_SIZE
  {
    var most := if rest < CHUNK_SIZE then rest else CHUNK_SIZE;
    if short(k) < 1 then 1 else if short(k) > most then most else short(k)
  }

  /** The messages of a transfer: the file cut where the reads fell short, then an empty one with
      the finish mark. */
  function Messages(data: Bytes, short: nat -> nat, k: nat): (r: seq<Chunk>)
    ensures r != []
    decreases |data|
  {
    if data == [] then [Chunk([], true)]
    else
      var n := ReadSize(short, k, |data|);
      [Chunk(data[..n], false)] + Messages(data[n..], short, k + 1)
  }

  class SourceFile {
    const data: Bytes
    var pos: nat
    var readCount: nat

    constructor (data: Bytes)
      ensures this.data == data && pos == 0 && readCount == 0
    {
      this.data := data;
      pos, readCount := 0, 0;
    }

    /** `async_read_some` into a buffer of chunk size: overwrites the first `n` bytes and leaves the
        others as they were; at the end of the file, no bytes and the eof error. */
    method ReadSome(buffer: Message, short: nat -> nat) returns (eof: bool, n: nat)
      requires pos <= |data| && |buffer.content| == CHUNK_SIZE
      modifies this`pos, this`readCount, buffer`content
      ensures readCount == old(readCount) + 1 && |buffer.content| == CHUNK_SIZE
      ensures eof <==> old(pos) == |data|
      ensures n == if eof then 0 else ReadSize(short, old(readCount), |data| - old(pos))
      ensures pos == old(pos) + n && pos <= |data| && n <= CHUNK_SIZE
      ensures buffer.content[..n] == data[old(pos)..pos]
    {
      eof := pos == |data|;
      n := 0;
      if !eof {
        n := ReadSize(short, readCount, |data| - pos);
        buffer.content := data[pos..pos + n] + buffer.content[n..];
        pos := pos + n;
      }
      readCount := readCount + 1;
    }
  }

  datatype ClientOutcome = ReadThrew | LostConnection | Finished(lastDelivered: bool)

  /** The write side: `survives` is the number of messages the connection survives. */
  class Writer {
    const survives: nat
    var sent: seq<Chunk>

    constructor (survives: nat)
      ensures this.survives == survives && sent == []
    {
      this.survives := survives;
      sent := [];
    }

    method Write(m: Message) returns (ok: bool)
      modifies this
      ensures ok == (|old(sent)| < survives)
      ensures sent == if ok then old(sent) + [Chunk(m.content, m.finish)] else old(sent)
    {
      ok := |sent| < survives;
      if ok {
        sent := sent + [Chunk(m.content, m.finish)];
      }
    }
  }

  /** One round: send the bytes in `current` while reading on into `next`. `readFirst` says which of
      the two overlapping operations happens first; they touch different buffers. */
  method Round(file: SourceFile, writer: Writer, current: Message, next: Message, bytesRead: nat,
               short: nat -> nat, readFirst: bool)
    returns (ok: bool, eof: bool, n: nat)
    requires current != next && file.pos <= |file.data| && bytesRead <= |current.content|
    modifies file, writer, current`content, next`content
    ensures ok == (|old(writer.sent)| < writer.survives)
    ensures writer.sent ==
      if ok then old(writer.sent) + [Chunk(old(current.content)[..bytesRead], current.finish)] else old(writer.sent)
    ensures file.readCount == old(file.readCount) + 1
    ensures eof <==> old(file.pos) == |file.data|
    ensures n == if eof then 0 else ReadSize(short, old(file.readCount), |file.data| - old(file.pos))
    ensures file.pos == old(file.pos) + n && file.pos <= |file.data|
    ensures n <= |next.content| && next.content[..n] == file.data[old(file.pos)..file.pos]
  {
    current.Resize(bytesRead);
    next.Resize(CHUNK_SIZE);
    if readFirst {
      eof, n := file.ReadSome(next, short);
      ok := writer.Write(current);
    } else {
      ok := writer.Write(current);
      eof, n := file.ReadSome(next, short);
    }
  }

  /** Reading `n` bytes at `from` produces the first of the remaining messages. */
  lemma NextMessage(data: Bytes, short: nat -> nat, k: nat, from: nat, n: nat)
    requires from < |data| && n == ReadSize(short, k, |data| - from)
    ensures Messages(data[from..], short, k)
         == [Chunk(data[from..from + n], false)] + Messages(data[from + n..], short, k + 1)
  {
    assert data[from..][..n] == data[from..from + n] && data[from..][n..] == data[from + n..];
  }

  /** What was sent, followed by the messages of the rest of the file, is the whole transfer. */
  ghost predicate Progress(data: Bytes, short: nat -> nat, sent: seq<Chunk>, from: nat, k: nat) {
    from <= |data| && sent + Messages(data[from..], short, k) == Messages(data, short, 0)
  }

  /** In addition, `n` bytes at `from` were read, by read number `k`. */
  ghost predicate Sending(data: Bytes, short: nat -> nat, sent: seq<Chunk>, from: nat, k: nat, n: nat, eof: bool) {
    && Progress(data, short, sent, from, k)
    && (eof <==> from == |data|)
    && n == if eof then 0 else ReadSize(short, k, |data| - from)
  }

  lemma SendingStep(data: Bytes, short: nat -> nat, sent: seq<Chunk>, from: nat, k: nat, n: nat)
    requires Sending(data, short, sent, from, k, n, false)
    ensures from + n <= |data|
    ensures Progress(data, short, sent + [Chunk(data[from..from + n], false)], from + n, k + 1)
    ensures |sent| + 2 <= |Messages(data, short, 0)| && sent == Messages(data, short, 0)[..|sent|]
  {
    NextMessage(data, short, k, from, n);
    var m, rest := Chunk(data[from..from + n], false), Messages(data[from + n..], short, k + 1);
    assert sent + ([m] + rest) == sent + [m] + rest;
  }

  lemma SendingEnd(data: Bytes, short: nat -> nat, sent: seq<Chunk>, from: nat, k: nat, n: nat)
    requires Sending(data, short, sent, from, k, n, true)
    ensures Messages(data, short, 0) == sent + [Chunk([], true)]
  {
    assert data[|data|..] == [];
  }

  ghost predicate Loaded(m: Message, bytes: Bytes)
    reads m
  {
    |bytes| <= |m.content| && m.content[..|bytes|] == bytes && !m.finish
  }

  /** One round in terms of the transfer: if the write fails, what was sent is what the connection
      survives, and at least two messages are missing. */
  method NextRound(file: SourceFile, writer: Writer, current: Message, next: Message, bytesRead: nat,
                   short: nat -> nat, readFirst: bool, ghost from: nat)
    returns (ok: bool, eof: bool, n: nat)
    requires current != next && !next.finish && file.readCount > 0 && |writer.sent| <= writer.survives
    requires Sending(file.data, short, writer.sent, from, file.readCount - 1, bytesRead, false)
    requires file.pos == from + bytesRead && Loaded(current, file.data[from..file.pos])
    modifies file, writer, current`content, next`content
    ensures ok ==>
      && file.readCount == old(file.readCount) + 1 && |writer.sent| <= writer.survives
      && Sending(file.data, short, writer.sent, from + bytesRead, file.readCount - 1, n, eof)
      && file.pos == from + bytesRead + n && Loaded(next, file.data[from + bytesRead..file.pos])
    ensures !ok ==>
      && writer.survives + 1 < |Messages(file.data, short, 0)|
      && writer.sent == Messages(file.data, short, 0)[..writer.survives]
  {
    SendingStep(file.data, short, writer.sent, from, file.readCount - 1, bytesRead);
    ok, eof, n := Round(file, writer, current, next, bytesRead, short, readFirst);
  }

  /** The loop: every chunk but the final one, or as many as the connection survives. */
  method SendChunks(file: SourceFile, writer: Writer, first: Message, second: Message, size: nat,
                    short: nat -> nat, order: nat -> bool)
    returns (ok: bool, current: Message)
    requires first != second && !second.finish
    requires file.readCount == 1 && file.pos == size && writer.sent == []
    requires Sending(file.data, short, [], 0, 0, size, false) && Loaded(first, file.data[0..size])
    modifies file, writer, first`content, second`content
    ensures current == first || current == second
    ensures ok ==> Messages(file.data, short, 0) == writer.sent + [Chunk([], true)] && |writer.sent| <= writer.survives
    ensures !ok ==>
      && writer.survives + 1 < |Messages(file.data, short, 0)|
      && writer.sent == Messages(file.data, short, 0)[..writer.survives]
  {
    var next;
    current, next := first, second;
    var isEof: bool, bytesRead: nat := false, size;
    ghost var from: nat := 0;
    while !isEof
      invariant (current == first && next == second) || (current == second && next == first)
      invariant file.readCount > 0 && |writer.sent| <= writer.survives
      invariant Sending(file.data, short, writer.sent, from, file.readCount - 1, bytesRead, isEof)
      invariant file.pos == from + bytesRead && Loaded(current, file.data[from..file.pos])
      decreases |file.data| - from
    {
      var eof, n;
      ok, eof, n := NextRound(file, writer, current, next, bytesRead, short, order(file.readCount), from);
      if !ok {
        return;
      }
      from := from + bytesRead;
      isEof, bytesRead := eof, n;
      current, next := next, current;
    }
    SendingEnd(file.data, short, writer.sent, from, file.readCount - 1, bytesRead);
    ok := true;
  }

  /** `make_double_buffered_send_file_request` after the call is set up. `order(k)` says which of the
      overlapping read and write comes first after the `k`-th read. The messages delivered are those
      of the transfer, as far as the connection lasts; an empty file throws at its first read. */
  method SendFile(file: SourceFile, writer: Writer, short: nat -> nat, order: nat -> bool)
    returns (outcome: ClientOutcome)
    requires file.pos == 0 && file.readCount == 0 && writer.sent == []
    modifies file, writer
    ensures file.data == [] ==> outcome == ReadThrew && writer.sent == []
    ensures file.data != [] ==>
      var all := Messages(file.data, short, 0);
      && writer.sent == (if |all| <= writer.survives then all else all[..writer.survives])
      && outcome == (if |all| <= writer.survives then Finished(true)
                     else if |all| == writer.survives + 1 then Finished(false)
                     else LostConnection)
  {
    var first := new Message();
    first.Resize(CHUNK_SIZE);
    var isEof, bytesRead := file.ReadSome(first, short);
    if isEof {
      return ReadThrew;
    }
    var second := new Message();
    assert file.data[0..] == file.data && [] + Messages(file.data, short, 0) == Messages(file.data, short, 0);
    var ok, current := SendChunks(file, writer, first, second, bytesRead, short, order);
    if !ok {
      return LostConnection;
    }
    current.Resize(0);
    current.finish := true;
    ok := writer.Write(current);
    outcome := Finished(ok);
  }

  // ---- properties of the messages ------------------------------------------------------

  function Contents(chunks: seq<Chunk>): Bytes {
    if chunks == [] then [] else chunks[0].content + Contents(chunks[1..])
  }

  lemma {:induction false} ContentsOfMessages(data: Bytes, short: nat -> nat, k: nat)
    ensures Contents(Messages(data, short, k)) == data
    decreases |data|
  {
    if data == [] {
      assert Contents([Chunk([], true)]) == [] + Contents([]);
    } else {
      var n := ReadSize(short, k, |data|);
      var rest := Messages(data[n..], short, k + 1);
      ContentsOfMessages(data[n..], short, k + 1);
      assert ([Chunk(data[..n], false)] + rest)[1..] == rest;
      assert data == data[..n] + data[n..];
    }
  }

  lemma {:induction false} MarksOfMessages(data: Bytes, short: nat -> nat, k: nat, i: nat)
    requires i < |Messages(data, short, k)|
    ensures var all := Messages(data, short, k);
      && (all[i].finish <==> i == |all| - 1)
      && (i < |all| - 1 ==> 1 <= |all[i].content| <= CHUNK_SIZE)
    decreases |data|
  {
    if data != [] && i > 0 {
      MarksOfMessages(data[ReadSize(short, k, |data|)..], short, k + 1, i - 1);
    }
  }

  /** For every file and every schedule of short reads: the chunks are the file, each is as large as
      a read can be, and exactly the last carries the finish mark. */
  lemma MessagesAreTheFile(data: Bytes, short: nat -> nat)
    ensures var all := Messages(data, short, 0);
      && Contents(all) == data
      && (forall i :: 0 <= i < |all| ==> (all[i].finish <==> i == |all| - 1))
      && (forall i :: 0 <= i < |all| - 1 ==> 1 <= |all[i].content| <= CHUNK_SIZE)
  {
    ContentsOfMessages(data, short, 0);
    forall i | 0 <= i < |Messages(data, short, 0)|
      ensures var all := Messages(data, short, 0);
        (all[i].finish <==> i == |all| - 1) && (i < |all| - 1 ==> 1 <= |all[i].content| <= CHUNK_SIZE)
    {
      MarksOfMessages(data, short, 0, i);
    }
  }
}
