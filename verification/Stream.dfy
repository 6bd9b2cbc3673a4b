/** How `send` cuts its input stream into Data payloads. */
module Stream {
  import opened Packets

  /** The payloads that the read loop makes of what is left of the stream. */
  function ChunksOf(rest: Bytes): seq<Bytes> {
    if |rest| < MAX_PAYLOAD_SIZE then [rest]
    else [rest[..MAX_PAYLOAD_SIZE]] + ChunksOf(rest[MAX_PAYLOAD_SIZE..])
  }

  function Join(chunks: seq<Bytes>): Bytes {
    if |chunks| == 0 then [] else chunks[0] + Join(chunks[1..])
  }

  /** `while (is)`: a read that comes up short, even by everything, ends the stream after its packet. */
  method CutStream(file: Bytes) returns (chunks: seq<Bytes>)
    ensures chunks == ChunksOf(file)
  {
    chunks := [];
    var position := 0;
    var good := true;
    while good
      invariant position <= |file|
      invariant ChunksOf(file) == chunks + if good then ChunksOf(file[position..]) else []
      decreases good, |file| - position
    {
      var left := |file| - position;
      var count := if left < MAX_PAYLOAD_SIZE then left else MAX_PAYLOAD_SIZE;
      var payload := file[position..position + count];
      OneRead(file, position, count);
      position := position + count;
      good := count == MAX_PAYLOAD_SIZE;
      chunks := chunks + [payload];
    }
  }

  lemma OneRead(file: Bytes, position: nat, count: nat)
    requires position + count <= |file|
    requires count == MAX_PAYLOAD_SIZE || (count < MAX_PAYLOAD_SIZE && position + count == |file|)
    ensures ChunksOf(file[position..]) ==
      [file[position..position + count]] + if count == MAX_PAYLOAD_SIZE then ChunksOf(file[position + count..]) else []
  {
    var rest := file[position..];
    assert rest[..count] == file[position..position + count];
    assert rest[count..] == file[position + count..];
    if count < MAX_PAYLOAD_SIZE {
      assert rest == file[position..position + count];
    }
  }

  /** The chunks are the stream: n bytes make n / 8178 + 1 chunks, every one but the last is full. */
  lemma {:induction false} ChunksAreTheStream(file: Bytes)
    ensures Join(ChunksOf(file)) == file
    ensures |ChunksOf(file)| == |file| / 8178 + 1
    ensures forall i :: 0 <= i < |ChunksOf(file)| - 1 ==> |ChunksOf(file)[i]| == 8178
    ensures |ChunksOf(file)[|ChunksOf(file)| - 1]| == |file| % 8178
  {
    if |file| >= MAX_PAYLOAD_SIZE {
      var rest := file[MAX_PAYLOAD_SIZE..];
      ChunksAreTheStream(rest);
      assert ChunksOf(file)[1..] == ChunksOf(rest);
      assert |rest| == |file| - MAX_PAYLOAD_SIZE;
    } else {
      assert ChunksOf(file)[1..] == [];
    }
  }
}
