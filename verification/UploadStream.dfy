/** Framing an upload: chunks are cut from one reused buffer and the operation identity travels on the first. */
module UploadStream {
  import opened Options

  newtype byte = x: int | 0 <= x < 256

  const CHUNK_SIZE := 1024 * 1024

  // What one Read gives: some bytes, and whether it reported end of input or an error with them.
  datatype End = More | Eof | Broken
  datatype Reading = Reading(data: seq<byte>, end: End)

  // The fields of a chunk other than its data; a chunk after the first leaves them blank.
  datatype Header = Header(format: string, preset: Option<string>, requestId: string, retain: bool)
  const BLANK := Header("", None, "", false)
  datatype Chunk = Chunk(data: seq<byte>, header: Header)

  // What a caller that reads until the end gets; a reader with nothing more to say is at its end.
  function AllBytes(script: seq<Reading>): seq<byte> {
    if script == [] then []
    else script[0].data + (if script[0].end == More then AllBytes(script[1..]) else [])
  }

  function Ending(script: seq<Reading>): End {
    if script == [] then Eof else if script[0].end == More then Ending(script[1..]) else script[0].end
  }

  function Payload(chunks: seq<Chunk>): seq<byte> {
    if chunks == [] then [] else Payload(chunks[..|chunks| - 1]) + chunks[|chunks| - 1].data
  }

  predicate Fits(script: seq<Reading>) {
    forall k | 0 <= k < |script| :: |script[k].data| <= CHUNK_SIZE
  }

  class Reader {
    var script: seq<Reading>

    constructor (script: seq<Reading>)
      ensures this.script == script
    {
      this.script := script;
    }

    // Overwrites the front of the buffer.
    method Read(buf: array<byte>) returns (n: nat, end: End)
      requires Fits(script) && buf.Length == CHUNK_SIZE
      modifies this, buf
      ensures Fits(script) && n <= buf.Length
      ensures old(script) == [] ==> n == 0 && end == Eof && script == []
      ensures old(script) != [] ==> buf[..n] == old(script)[0].data && end == old(script)[0].end && script == old(script)[1..]
    {
      if script == [] {
        return 0, Eof;
      }
      var data := script[0].data;
      n, end := |data|, script[0].end;
      assert |script[0].data| <= CHUNK_SIZE;
      forall i | 0 <= i < n {
        buf[i] := data[i];
      }
      assert buf[..n] == data;
      script := script[1..];
    }
  }

  class Stream {
    var sent: seq<Chunk>
    // How many more sends succeed.
    var budget: nat

    constructor (budget: nat)
      ensures sent == [] && this.budget == budget
    {
      this.sent, this.budget := [], budget;
    }

    // Serialises the bytes the buffer holds now; later reads do not change them.
    method Send(buf: array<byte>, n: nat, header: Header) returns (ok: bool)
      requires n <= buf.Length
      modifies this
      ensures ok == (old(budget) > 0) && budget == old(budget) - if ok then 1 else 0
      ensures sent == if ok then old(sent) + [Chunk(old(buf[..n]), header)] else old(sent)
    {
      ok := budget > 0;
      if ok {
        sent, budget := sent + [Chunk(buf[..n], header)], budget - 1;
      }
    }
  }

  datatype Outcome = Done | SendFailed | ReadFailed

  // Every chunk fits, the first carries the header and the others carry none.
  predicate Framed(chunks: seq<Chunk>, header: Header) {
    forall k | 0 <= k < |chunks| ::
      |chunks[k].data| <= 1_048_576 && chunks[k].header == (if k == 0 then header else BLANK)
  }

  predicate Solid(chunks: seq<Chunk>) {
    forall k | 0 <= k < |chunks| :: chunks[k].data != []
  }

  lemma PayloadSnoc(chunks: seq<Chunk>, c: Chunk)
    ensures Payload(chunks + [c]) == Payload(chunks) + c.data
  {
    assert (chunks + [c])[..|chunks|] == chunks;
  }

  // The chunks sent hold what was read of the whole, and the rest of the script holds what is still to come.
  ghost predicate Underway(whole: seq<Reading>, rest: seq<Reading>, chunks: seq<Chunk>) {
    && Payload(chunks) + AllBytes(rest) == AllBytes(whole)
    && Ending(rest) == Ending(whole)
  }

  // What is known once the first reading of the rest is sent as well.
  ghost predicate Sent(whole: seq<Reading>, rest: seq<Reading>, chunks: seq<Chunk>) {
    && Payload(chunks) <= AllBytes(whole)
    && if rest != [] && rest[0].end == More then Underway(whole, rest[1..], chunks)
       else Payload(chunks) == AllBytes(whole) && Ending(whole) == if rest == [] then Eof else rest[0].end
  }

  lemma SendOne(whole: seq<Reading>, rest: seq<Reading>, chunks: seq<Chunk>, c: Chunk)
    requires Underway(whole, rest, chunks) && c.data == (if rest == [] then [] else rest[0].data)
    ensures Payload(chunks) <= AllBytes(whole)
    ensures Sent(whole, rest, chunks + [c])
    ensures c.data == [] ==> Sent(whole, rest, chunks)
  {
    PayloadSnoc(chunks, c);
    hide Payload;
    if rest != [] {
      var tail := if rest[0].end == More then AllBytes(rest[1..]) else [];
      assert AllBytes(rest) == c.data + tail;
      assert Payload(chunks) + (c.data + tail) == (Payload(chunks) + c.data) + tail;
      if c.data == [] {
        assert Payload(chunks) + c.data == Payload(chunks);
      }
      if tail == [] {
        assert (Payload(chunks) + c.data) + tail == Payload(chunks) + c.data;
      }
    } else {
      assert Payload(chunks) + [] == Payload(chunks);
    }
  }

  lemma StartUnderway(whole: seq<Reading>, header: Header)
    ensures Underway(whole, whole, []) && Framed([], header) && Solid([])
  {
    assert Payload([]) + AllBytes(whole) == AllBytes(whole);
  }

  lemma FrameOne(chunks: seq<Chunk>, c: Chunk, header: Header)
    requires Framed(chunks, header) && Solid(chunks)
    requires |c.data| <= CHUNK_SIZE && c.header == if chunks == [] then header else BLANK
    ensures Framed(chunks + [c], header)
    ensures c.data != [] ==> Solid(chunks + [c])
  {
  }

  /** What was sent when an upload ends: a prefix of what was read, cut into chunks that fit, the header on the first and
      on no other; all of it unless a send failed. An identified upload sends its identity even when it is empty. */
  ghost predicate Uploaded(whole: seq<Reading>, header: Header, chunks: seq<Chunk>, outcome: Outcome) {
    && Framed(chunks, header)
    && Payload(chunks) <= AllBytes(whole)
    && (outcome != SendFailed ==> Payload(chunks) == AllBytes(whole))
    && (outcome == Done ==> Ending(whole) == Eof)
    && (outcome == ReadFailed ==> Ending(whole) == Broken)
    && (Solid(chunks) || (header.requestId != "" && chunks == [Chunk([], header)]))
    && (outcome == Done ==> (chunks == [] <==> header.requestId == "" && AllBytes(whole) == []))
  }

  lemma CutShort(whole: seq<Reading>, rest: seq<Reading>, chunks: seq<Chunk>, c: Chunk, header: Header)
    requires Underway(whole, rest, chunks) && Framed(chunks, header) && Solid(chunks)
    requires c.data == if rest == [] then [] else rest[0].data
    ensures Uploaded(whole, header, chunks, SendFailed)
  {
    SendOne(whole, rest, chunks, c);
    hide Payload, AllBytes, Ending;
  }

  function EndOf(rest: seq<Reading>): End {
    if rest == [] then Eof else rest[0].end
  }

  lemma Continues(whole: seq<Reading>, rest: seq<Reading>, chunks: seq<Chunk>)
    requires Sent(whole, rest, chunks) && rest != [] && rest[0].end == More
    ensures Underway(whole, rest[1..], chunks)
  {
  }

  lemma Finishes(whole: seq<Reading>, rest: seq<Reading>, chunks: seq<Chunk>, header: Header)
    requires Sent(whole, rest, chunks) && Framed(chunks, header) && Solid(chunks) && EndOf(rest) != More
    ensures EndOf(rest) == Broken ==> Uploaded(whole, header, chunks, ReadFailed)
    ensures EndOf(rest) == Eof && (chunks != [] || header.requestId == "") ==> Uploaded(whole, header, chunks, Done)
  {
    NothingSent(chunks);
    hide Payload, AllBytes, Ending, Framed;
  }

  lemma NothingSent(chunks: seq<Chunk>)
    requires Solid(chunks)
    ensures Payload(chunks) == [] <==> chunks == []
  {
    if chunks != [] {
      assert chunks[|chunks| - 1].data != [];
    }
  }

  // The end of an empty upload that has an identity.
  lemma SendsIdentity(whole: seq<Reading>, rest: seq<Reading>, header: Header)
    requires Sent(whole, rest, []) && EndOf(rest) == Eof && header.requestId != ""
    ensures Uploaded(whole, header, [Chunk([], header)], Done) && Uploaded(whole, header, [], SendFailed)
  {
    var c := Chunk([], header);
    assert [c] == [] + [c];
    PayloadSnoc([], c);
    assert Payload([]) + c.data == [];
    hide Payload, AllBytes, Ending;
  }

  /** sendChunksWithIdentity: whatever the reader does and whichever send fails. */
  method SendChunks(stream: Stream, r: Reader, header: Header) returns (outcome: Outcome)
    requires Fits(r.script) && stream.sent == []
    modifies stream, r
    ensures Uploaded(old(r.script), header, stream.sent, outcome)
    ensures old(stream.budget) > |old(r.script)| ==> outcome != SendFailed
  {
    var buf := new byte[CHUNK_SIZE];
    ghost var whole := r.script;
    var first := true;
    StartUnderway(whole, header);
    hide *;
    while true
      invariant fresh(buf) && buf.Length == CHUNK_SIZE && Fits(r.script)
      invariant first <==> stream.sent == []
      invariant Framed(stream.sent, header) && Solid(stream.sent)
      invariant Underway(whole, r.script, stream.sent)
      invariant old(stream.budget) > |whole| ==> stream.budget > |r.script|
      decreases |r.script|
    {
      ghost var rest, chunks := r.script, stream.sent;
      var n, end := r.Read(buf);
      ghost var chunk := Chunk(buf[..n], if first then header else BLANK);
      SendOne(whole, rest, chunks, chunk);
      FrameOne(chunks, chunk, header);
      CutShort(whole, rest, chunks, chunk, header);
      if n > 0 {
        var ok := stream.Send(buf, n, if first then header else BLANK);
        first := false;
        if !ok {
          return SendFailed;
        }
      }
      EndIs(rest, end);
      if end == Eof {
        if first && header.requestId != "" {
          SendsIdentity(whole, rest, header);
          var ok := stream.Send(buf, 0, header);
          return if ok then Done else SendFailed;
        }
        Finishes(whole, rest, stream.sent, header);
        return Done;
      }
      if end == Broken {
        Finishes(whole, rest, stream.sent, header);
        return ReadFailed;
      }
      Continues(whole, rest, stream.sent);
    }
  }

  lemma EndIs(rest: seq<Reading>, end: End)
    requires if rest == [] then end == Eof else end == rest[0].end
    ensures EndOf(rest) == end
  {
  }
}
