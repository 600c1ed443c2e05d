/** Splitting in writeStreamData and reassembly in Read. */
module Chunks {
  import opened Bytes
  import opened Frame
  import opened MuxCore
  import MuxInvariant

  /** The chunks of writeStreamData: all of the maximal size but the last. */
  function Split(data: Bytes): (chunks: seq<Bytes>)
    decreases |data|
  {
    if data == [] then []
    else var n := Min(|data|, MAX_PAYLOAD); [data[..n]] + Split(data[n..])
  }

  function DataFrames(id: uint32, chunks: seq<Bytes>): (fs: seq<Frame>)
    ensures |fs| == |chunks|
  {
    seq(|chunks|, k requires 0 <= k < |chunks| => Frame(DATA, id, chunks[k]))
  }

  /** The chunks are the data, none is empty or too long, and only the last is not full. */
  lemma {:induction false} SplitSound(data: Bytes)
    ensures Concat(Split(data)) == data
    ensures forall k :: 0 <= k < |Split(data)| ==> 0 < |Split(data)[k]| <= 32768
    ensures forall k :: 0 <= k < |Split(data)| - 1 ==> |Split(data)[k]| == 32768
    decreases |data|
  {
    if data != [] {
      var n := Min(|data|, MAX_PAYLOAD);
      SplitSound(data[n..]);
      ConcatHead(Split(data));
      assert Split(data)[1..] == Split(data[n..]);
      assert data == data[..n] + data[n..];
      if |data| > MAX_PAYLOAD {
        assert forall k :: 1 <= k < |Split(data)| ==> Split(data)[k] == Split(data[n..])[k - 1];
      } else {
        assert data[n..] == [];
      }
    }
  }

  /** One more turn of the loop, at an offset that is a multiple of the chunk size. */
  lemma {:induction false} SplitSnoc(data: Bytes, chunk: Bytes)
    requires |data| % MAX_PAYLOAD == 0 && 0 < |chunk| <= MAX_PAYLOAD
    ensures Split(data + chunk) == Split(data) + [chunk]
    decreases |data|
  {
    if data == [] {
      assert data + chunk == chunk && chunk[..|chunk|] == chunk;
      assert Split(chunk[|chunk|..]) == [];
    } else {
      SplitSnoc(data[MAX_PAYLOAD..], chunk);
      assert (data + chunk)[..MAX_PAYLOAD] == data[..MAX_PAYLOAD];
      assert (data + chunk)[MAX_PAYLOAD..] == data[MAX_PAYLOAD..] + chunk;
    }
  }

  /** The receiver's view of the frames of one Write: exactly its bytes, on its ID and on no other. */
  lemma {:induction false} DataFramesCarry(id: uint32, chunks: seq<Bytes>)
    ensures MuxInvariant.DataOf(DataFrames(id, chunks), id) == Concat(chunks)
    ensures forall other: uint32 :: other != id ==> MuxInvariant.DataOf(DataFrames(id, chunks), other) == []
  {
    if chunks != [] {
      var k := |chunks| - 1;
      DataFramesCarry(id, chunks[..k]);
      assert DataFrames(id, chunks)[..k] == DataFrames(id, chunks[..k]);
      assert DataFrames(id, chunks) == DataFrames(id, chunks[..k]) + [Frame(DATA, id, chunks[k])];
    }
  }

  /** Reads with buffers of the given sizes, one after the other: the bytes they return, and the Stream after. */
  function ReadMany(s: Stream, sizes: seq<nat>): (Bytes, Stream)
    decreases |sizes|
  {
    if sizes == [] then ([], s)
    else
      var (b, s') := ReadMany(AfterRead(s, sizes[0]), sizes[1..]);
      ((if ReadResult(s, sizes[0]).Data? then ReadResult(s, sizes[0]).bytes else []) + b, s')
  }

  lemma {:induction false} ReadManyTakesFront(s: Stream, sizes: seq<nat>)
    ensures var (b, s') := ReadMany(s, sizes); b + Buffered(s') == Buffered(s)
    decreases |sizes|
  {
    hide AfterRead, ReadResult, Buffered;
    if sizes != [] {
      ReadTakesFront(s, sizes[0]);
      ReadManyTakesFront(AfterRead(s, sizes[0]), sizes[1..]);
      var (b, s') := ReadMany(AfterRead(s, sizes[0]), sizes[1..]);
      match ReadResult(s, sizes[0])
      case Data(a) => assert a + (b + Buffered(s')) == (a + b) + Buffered(s');
      case _ => assert [] + b == b;
    }
  }

  lemma ReadProgresses(s: Stream, n: nat)
    requires n > 0
    ensures var s' := AfterRead(s, n);
      && |Buffered(s')| <= |Buffered(s)| && |s'.chan| <= |s.chan|
      && (|Buffered(s)| + |s.chan| > 0 ==> |Buffered(s')| + |s'.chan| < |Buffered(s)| + |s.chan|)
      && (|Buffered(s)| + |s.chan| == 0 ==> s' == s)
  {
    hide AfterRead, ReadResult;
    ReadTakesFront(s, n);
  }

  /** Reads make progress: as many of them as there are bytes and chunks, whatever the sizes of their buffers, as long
      as none is zero, return all that is buffered, and leave nothing for a further Read but to wait or to say EOF. */
  lemma {:induction false} ReadsDrain(s: Stream, sizes: seq<nat>)
    requires (forall k :: 0 <= k < |sizes| ==> sizes[k] > 0) && |sizes| >= |Buffered(s)| + |s.chan|
    ensures var (b, s') := ReadMany(s, sizes);
      b == Buffered(s) && s'.readBuf == [] && s'.chan == [] && s'.chanOpen == s.chanOpen
    decreases |sizes|
  {
    hide AfterRead, ReadResult;
    if sizes == [] {
      assert Buffered(s) == [];
    } else {
      ReadTakesFront(s, sizes[0]);
      ReadProgresses(s, sizes[0]);
      ReadsDrain(AfterRead(s, sizes[0]), sizes[1..]);
    }
  }

  /** The chunks of one Write after the other. */
  function SplitAll(writes: seq<Bytes>): seq<Bytes> {
    if writes == [] then [] else SplitAll(writes[..|writes| - 1]) + Split(writes[|writes| - 1])
  }

  lemma {:induction false} SplitAllSound(writes: seq<Bytes>)
    ensures Concat(SplitAll(writes)) == Concat(writes)
  {
    hide Split;
    if writes != [] {
      var k := |writes| - 1;
      SplitAllSound(writes[..k]);
      ConcatAppend(SplitAll(writes[..k]), Split(writes[k]));
      SplitSound(writes[k]);
    }
  }

  /** Re-chunking is the identity on bytes: for any writes and any sizes of read buffers, zero included, what the
      reads return and what is still buffered make up exactly what an earlier read left over and the writes. */
  lemma Rechunking(s: Stream, writes: seq<Bytes>, sizes: seq<nat>)
    requires s.chan == SplitAll(writes)
    ensures var (b, s') := ReadMany(s, sizes); b + Buffered(s') == s.readBuf + Concat(writes)
  {
    hide SplitAll, ReadMany;
    SplitAllSound(writes);
    ReadManyTakesFront(s, sizes);
  }
}
