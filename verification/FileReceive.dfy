/** The server side of the file transfer, and the transfer from end to end. */
module FileReceive {
  import opened FileTransfer

  datatype Stored = Absent | Present(bytes: Bytes)

  /** The output path. Opening creates the file if needed but does not truncate it. */
  class Disk {
    var file: Stored
    var cursor: nat

    constructor (file: Stored)
      ensures this.file == file && cursor == 0
    {
      this.file, cursor := file, 0;
    }

    method Open()
      modifies this
      ensures file == (if old(file).Absent? then Present([]) else old(file)) && cursor == 0
    {
      if file.Absent? {
        file := Present([]);
      }
      cursor := 0;
    }

    /** `async_write` with `transfer_all`: overwrites from the cursor on. */
    method Write(bytes: Bytes)
      requires file.Present? && cursor <= |file.bytes|
      modifies this
      ensures file.Present? && cursor == old(cursor) + |bytes| && cursor <= |file.bytes|
      ensures file.bytes == old(file.bytes[..cursor]) + bytes
        + if cursor <= |old(file.bytes)| then old(file.bytes)[cursor..] else []
    {
      var end := cursor + |bytes|;
      file := Present(file.bytes[..cursor] + bytes + if end <= |file.bytes| then file.bytes[end..] else []);
      cursor := end;
    }

    method Remove()
      modifies this`file
      ensures file == Absent
    {
      file := Absent;
    }
  }

  /** What is in a file of old content `was` after writing `bytes` from its beginning. */
  function Overlay(was: Bytes, bytes: Bytes): Bytes {
    bytes + if |bytes| <= |was| then was[|bytes|..] else []
  }

  /** The read side: the delivered messages in order, then failure. A failed read leaves the message
      buffer as it was. */
  class Reader {
    const incoming: seq<Chunk>
    var taken: nat

    constructor (incoming: seq<Chunk>)
      ensures this.incoming == incoming && taken == 0
    {
      this.incoming := incoming;
      taken := 0;
    }

    method Read(m: Message) returns (ok: bool)
      requires taken <= |incoming|
      modifies this`taken, m
      ensures ok == (old(taken) < |incoming|)
      ensures taken == old(taken) + if ok then 1 else 0
      ensures ok ==> m.content == incoming[old(taken)].content && m.finish == incoming[old(taken)].finish
      ensures !ok ==> m.content == old(m.content) && m.finish == old(m.finish)
    {
      ok := taken < |incoming|;
      if ok {
        m.content, m.finish := incoming[taken].content, incoming[taken].finish;
        taken := taken + 1;
      }
    }
  }

  /** The lambda `write_and_read`: write one message's content, if any, while reading the next one,
      unless the finish mark was already received; `readFirst` orders the two. */
  method WriteAndRead(disk: Disk, reader: Reader, toWrite: Message, toRead: Message, finishWrite: bool, readFirst: bool)
    returns (ok: bool)
    requires toWrite != toRead && reader.taken <= |reader.incoming|
    requires disk.file.Present? && disk.cursor <= |disk.file.bytes|
    modifies disk, reader`taken, toRead
    ensures disk.file.Present? && disk.cursor == old(disk.cursor) + |toWrite.content| && disk.cursor <= |disk.file.bytes|
    ensures disk.file.bytes == old(disk.file.bytes[..disk.cursor]) + toWrite.content
      + if disk.cursor <= |old(disk.file.bytes)| then old(disk.file.bytes)[disk.cursor..] else []
    ensures finishWrite ==> ok && reader.taken == old(reader.taken)
    ensures !finishWrite ==>
      && ok == (old(reader.taken) < |reader.incoming|)
      && reader.taken == old(reader.taken) + (if ok then 1 else 0)
      && (ok ==> Chunk(toRead.content, toRead.finish) == reader.incoming[old(reader.taken)])
  {
    ok := true;
    if readFirst && !finishWrite {
      ok := reader.Read(toRead);
    }
    if toWrite.content != [] {
      disk.Write(toWrite.content);
    }
    if !readFirst && !finishWrite {
      ok := reader.Read(toRead);
    }
  }

  /** The messages up to and including the first finish mark. */
  function UpToMark(incoming: seq<Chunk>): (r: seq<Chunk>)
    ensures r <= incoming
  {
    if incoming == [] then []
    else if incoming[0].finish then [incoming[0]]
    else [incoming[0]] + UpToMark(incoming[1..])
  }

  predicate Marked(incoming: seq<Chunk>) {
    exists i :: 0 <= i < |incoming| && incoming[i].finish
  }

  /** The output after a session: untouched if nothing arrived, removed if the mark never came, and
      otherwise everything received up to the mark. */
  function Received(incoming: seq<Chunk>, was: Stored): Stored {
    if incoming == [] then was
    else if Marked(incoming) then Present(Overlay(if was.Present? then was.bytes else [], Contents(UpToMark(incoming))))
    else Absent
  }

  lemma {:induction false} ContentsSnoc(chunks: seq<Chunk>, m: Chunk)
    ensures Contents(chunks + [m]) == Contents(chunks) + m.content
  {
    if chunks == [] {
      assert [] + [m] == [m];
      assert Contents([m]) == m.content + Contents([]);
    } else {
      assert (chunks + [m])[1..] == chunks[1..] + [m];
      ContentsSnoc(chunks[1..], m);
    }
  }

  lemma {:induction false} UpToMarkAt(incoming: seq<Chunk>, n: nat)
    requires 0 < n <= |incoming| && incoming[n - 1].finish
    requires forall i :: 0 <= i < n - 1 ==> !incoming[i].finish
    ensures UpToMark(incoming) == incoming[..n]
  {
    if n > 1 {
      UpToMarkAt(incoming[1..], n - 1);
      assert incoming[..n] == [incoming[0]] + incoming[1..][..n - 1];
    }
  }

  /** The first `n` messages are in the file, over its old content. */
  ghost predicate Written(disk: Disk, was: Bytes, incoming: seq<Chunk>, n: nat)
    reads disk
  {
    && n <= |incoming| && disk.file.Present?
    && disk.cursor == |Contents(incoming[..n])|
    && disk.file.bytes == Overlay(was, Contents(incoming[..n]))
  }

  /** Writing the next message's content extends what is written. */
  lemma WrittenNext(was: Bytes, incoming: seq<Chunk>, n: nat, bytes: Bytes, bytes': Bytes)
    requires n < |incoming| && bytes == Overlay(was, Contents(incoming[..n]))
    requires var c := |Contents(incoming[..n])|; var m := incoming[n].content;
      bytes' == bytes[..c] + m + if c + |m| <= |bytes| then bytes[c + |m|..] else []
    ensures bytes' == Overlay(was, Contents(incoming[..n + 1]))
    ensures |Contents(incoming[..n + 1])| == |Contents(incoming[..n])| + |incoming[n].content|
  {
    assert incoming[..n + 1] == incoming[..n] + [incoming[n]];
    ContentsSnoc(incoming[..n], incoming[n]);
  }

  /** What the flags say after `n` messages were written: none before the last of them was marked,
      and an unmarked one has a successor exactly if the last read was ok. */
  ghost predicate Flags(incoming: seq<Chunk>, n: nat, ok: bool, finishWrite: bool) {
    && 0 < n <= |incoming|
    && (forall i :: 0 <= i < n - 1 ==> !incoming[i].finish)
    && finishWrite == incoming[n - 1].finish
    && ok == (finishWrite || n < |incoming|)
  }

  /** The loop of `handle_send_file_request`: every message is written while the next one is read,
      until the finish mark or a failed read. */
  method ReceiveRest(disk: Disk, reader: Reader, first: Message, second: Message, ok: bool, finishWrite: bool,
                     order: nat -> bool, ghost was: Bytes)
    returns (ok': bool, finishWrite': bool, ghost n: nat)
    requires first != second && reader.taken <= |reader.incoming|
    requires Flags(reader.incoming, 1, ok, finishWrite) && Written(disk, was, reader.incoming, 1)
    requires ok && !finishWrite ==>
      reader.taken == 2 && Chunk(second.content, second.finish) == reader.incoming[1]
    modifies disk, reader`taken, first, second
    ensures Flags(reader.incoming, n, ok', finishWrite') && Written(disk, was, reader.incoming, n)
    ensures finishWrite' || !ok'
  {
    var current, next := second, first;
    ok', finishWrite', n := ok, finishWrite, 1;
    while ok' && !finishWrite'
      invariant (current == first && next == second) || (current == second && next == first)
      invariant Written(disk, was, reader.incoming, n)
      invariant Flags(reader.incoming, n, ok', finishWrite')
      invariant ok' && !finishWrite' ==>
        reader.taken == n + 1 && Chunk(current.content, current.finish) == reader.incoming[n]
      decreases |reader.incoming| - n
    {
      finishWrite' := current.finish;
      ok' := Next(disk, reader, current, next, finishWrite', order(reader.taken), was, n);
      current, next := next, current;
      n := n + 1;
    }
  }

  /** The messages counted by the flags decide the session's result. */
  lemma FlagsDecide(incoming: seq<Chunk>, n: nat, ok: bool, finishWrite: bool)
    requires Flags(incoming, n, ok, finishWrite) && (finishWrite || !ok)
    ensures finishWrite <==> Marked(incoming)
    ensures finishWrite ==> ok && UpToMark(incoming) == incoming[..n]
  {
    if finishWrite {
      UpToMarkAt(incoming, n);
    }
  }

  /** What a session must leave: the file untouched if nothing arrived; otherwise a file exactly if
      the finish mark was received, holding at each position the byte received there, and past the end
      of what was received the bytes of the old file. */
  ghost predicate RightOutput(incoming: seq<Chunk>, was: Stored, now: Stored) {
    && (incoming == [] ==> now == was)
    && (incoming != [] ==> (now.Present? <==> Marked(incoming)))
    && (Marked(incoming) ==>
          var received := Contents(UpToMark(incoming));
          var before := if was.Present? then was.bytes else [];
          && now.Present? && |now.bytes| == (if |before| < |received| then |received| else |before|)
          && (forall i :: 0 <= i < |received| ==> now.bytes[i] == received[i])
          && (forall i :: |received| <= i < |before| ==> now.bytes[i] == before[i]))
  }

  lemma ReceivedIsRight(incoming: seq<Chunk>, was: Stored)
    ensures RightOutput(incoming, was, Received(incoming, was))
  {
    if Marked(incoming) {
      assert incoming != [];
    }
  }

  /** `handle_send_file_request` once the call has arrived. All or nothing: once a
      message arrived, the output survives exactly when the finish mark was received. `finished` says
      whether the final `finish` was reached. */
  method ReceiveFile(disk: Disk, reader: Reader, order: nat -> bool) returns (finished: bool)
    requires reader.taken == 0
    modifies disk, reader
    ensures disk.file == Received(reader.incoming, old(disk.file))
    ensures RightOutput(reader.incoming, old(disk.file), disk.file)
    ensures finished <==> reader.incoming != []
  {
    ghost var was := if disk.file.Present? then disk.file.bytes else [];
    var first := new Message();
    var ok := reader.Read(first);
    var finishWrite := first.finish;
    if !ok && !finishWrite {
      ReceivedIsRight(reader.incoming, old(disk.file));
      return false;
    }
    var second := new Message();
    disk.Open();
    assert reader.incoming[..0] == [] && Overlay(was, []) == was;
    ok := Next(disk, reader, first, second, finishWrite, order(0), was, 0);
    ghost var n;
    ok, finishWrite, n := ReceiveRest(disk, reader, first, second, ok, finishWrite, order, was);
    FlagsDecide(reader.incoming, n, ok, finishWrite);
    if !ok && !finishWrite {
      disk.Remove();
    }
    ReceivedIsRight(reader.incoming, old(disk.file));
    return true;
  }

  /** One round of `write_and_read`, in terms of the messages. */
  method Next(disk: Disk, reader: Reader, toWrite: Message, toRead: Message, finishWrite: bool, readFirst: bool,
              ghost was: Bytes, ghost n: nat)
    returns (ok: bool)
    requires toWrite != toRead && n < |reader.incoming| && reader.taken == n + 1
    requires Chunk(toWrite.content, finishWrite) == reader.incoming[n]
    requires Written(disk, was, reader.incoming, n)
    modifies disk, reader`taken, toRead
    ensures Written(disk, was, reader.incoming, n + 1) && reader.taken <= |reader.incoming|
    ensures finishWrite ==> ok
    ensures !finishWrite ==> ok == (n + 1 < |reader.incoming|)
    ensures !finishWrite && ok ==>
      reader.taken == n + 2 && Chunk(toRead.content, toRead.finish) == reader.incoming[n + 1]
  {
    ghost var bytes := disk.file.bytes;
    ok := WriteAndRead(disk, reader, toWrite, toRead, finishWrite, readFirst);
    WrittenNext(was, reader.incoming, n, bytes, disk.file.bytes);
  }

  // ---- end to end ----------------------------------------------------------------------

  /** On a path that did exist, the output is what was received exactly when the old file was no
      longer than that: opening does not truncate. */
  lemma StaleTail(incoming: seq<Chunk>, was: Bytes)
    requires Marked(incoming)
    ensures Received(incoming, Present(was)) == Present(Contents(UpToMark(incoming)))
      <==> |was| <= |Contents(UpToMark(incoming))|
  {
    var bytes := Contents(UpToMark(incoming));
    if |bytes| < |was| {
      assert |Overlay(was, bytes)| == |was|;
    } else {
      assert Overlay(was, bytes) == bytes;
    }
  }

  /** A stale tail, concretely: one byte received over a file of two. */
  lemma StaleTailExample()
    ensures var incoming := [Chunk([7], true)];
      && Marked(incoming) && Contents(UpToMark(incoming)) == [7]
      && Received(incoming, Present([1, 2])) == Present([7, 2])
  {
    var incoming := [Chunk([7], true)];
    assert incoming[0].finish;
    UpToMarkAt(incoming, 1);
    assert incoming[..1] == incoming && Contents(incoming[1..]) == [];
    assert Contents(incoming) == [7];
    assert Overlay([1, 2], [7]) == [7, 2];
  }

  /** Round trip: for every non-empty file, every schedule of short reads and every point at which
      the connection may break, the output is the whole file if all messages were delivered, and no
      file at all otherwise. */
  lemma RoundTrip(data: Bytes, short: nat -> nat, delivered: nat)
    requires data != [] && delivered <= |Messages(data, short, 0)|
    ensures Received(Messages(data, short, 0)[..delivered], Absent)
         == if delivered == |Messages(data, short, 0)| then Present(data) else Absent
  {
    var all := Messages(data, short, 0);
    MessagesAreTheFile(data, short);
    if delivered == |all| {
      assert all[..delivered] == all;
      assert all[|all| - 1].finish;
      UpToMarkAt(all, |all|);
    } else {
      assert forall i :: 0 <= i < delivered ==> !all[..delivered][i].finish;
    }
  }

  /** The two programs joined: what the client's writes deliver is what the server reads. */
  method Transfer(data: Bytes, short: nat -> nat, sendOrder: nat -> bool, receiveOrder: nat -> bool, survives: nat)
    returns (outcome: ClientOutcome, output: Stored)
    requires data != []
    ensures outcome == Finished(true) <==> output == Present(data)
    ensures outcome != Finished(true) <==> output == Absent
    ensures outcome != ReadThrew
  {
    var file := new SourceFile(data);
    var writer := new Writer(survives);
    outcome := SendFile(file, writer, short, sendOrder);
    var disk := new Disk(Absent);
    var reader := new Reader(writer.sent);
    var _ := ReceiveFile(disk, reader, receiveOrder);
    output := disk.file;
    ghost var all := Messages(data, short, 0);
    assert all[..|all|] == all;
    RoundTrip(data, short, if |all| <= survives then |all| else survives);
  }
}
