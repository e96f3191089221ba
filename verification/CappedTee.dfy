/** Decoding a response body with its head captured on the side
  (internal/client/client.go).

  The decoder reads from the body, or from a tee that copies what is read into a
  writer that keeps only the first `limit` bytes.  How many bytes a read gives,
  whether it also ends or fails, and how the decoder goes on are arbitrary. */
module CappedTee {
  import opened Models

  type Bytes = seq<bv8>

  const MAX_BODY_HEAD_BYTES: int := 2048

  /** The first `limit` bytes, or none if there is no room. */
  function Head(limit: int, s: Bytes): (r: Bytes)
    ensures r <= s && |r| == if limit < 0 then 0 else if limit < |s| then limit else |s|
  {
    if limit <= 0 then [] else if |s| <= limit then s else s[..limit]
  }

  lemma HeadOfConcat(limit: int, s: Bytes, p: Bytes)
    ensures var room := limit - |Head(limit, s)|;
            Head(limit, s + p) == if room <= 0 then Head(limit, s)
                                  else if |p| > room then Head(limit, s) + p[..room]
                                  else Head(limit, s) + p
  {}

  /** `written` is everything the writer has been given. */
  class CappedWriter {
    const limit: int
    var buf: Bytes
    ghost var written: Bytes

    ghost predicate Valid()
      reads this
    {
      buf == Head(limit, written)
    }

    constructor (limit: int)
      ensures Valid() && this.limit == limit && written == []
    {
      this.limit, buf, written := limit, [], [];
    }

    /** Reports a full write whatever it keeps. */
    method Write(p: Bytes) returns (n: nat)
      requires Valid()
      modifies this
      ensures Valid() && written == old(written) + p && n == |p|
    {
      HeadOfConcat(limit, written, p);
      var remaining := limit - |buf|;
      if remaining > 0 {
        if |p| > remaining {
          buf := buf + p[..remaining];
        } else {
          buf := buf + p;
        }
      }
      written := written + p;
      n := |p|;
    }
  }

  // ----------------------------------------------------------------- reading

  datatype ReadError = EndOfFile | Broken

  /** What one read gave: some bytes, and perhaps an end or a failure with them. */
  datatype Chunk = Chunk(bytes: Bytes, err: Option<ReadError>)

  /** What a body gives on its k-th read into a buffer of the given size. */
  type Feed = (nat, nat) -> Chunk

  datatype Decision<T> = ReadMore(size: nat) | Decoded(value: T) | Malformed(cause: string)

  /** A decoder decides by what it has read so far. */
  type Decoder<!T> = seq<Chunk> -> Decision<T>

  /** What the decoder has read straight from the body after at most `n` reads. */
  function ReadsOf<T>(feed: Feed, decoder: Decoder<T>, n: nat): seq<Chunk> {
    if n == 0 then []
    else
      var h := ReadsOf(feed, decoder, n - 1);
      match decoder(h)
      case ReadMore(size) => h + [feed(|h|, size)]
      case _ => h
  }

  /** A decoder that is done stays done. */
  lemma {:induction false} DoneStaysDone<T>(feed: Feed, decoder: Decoder<T>, n: nat, m: nat)
    requires n <= m && !decoder(ReadsOf(feed, decoder, n)).ReadMore?
    ensures ReadsOf(feed, decoder, m) == ReadsOf(feed, decoder, n)
  {
    if n < m { DoneStaysDone(feed, decoder, n, m - 1); }
  }

  function BytesOf(h: seq<Chunk>): Bytes {
    if h == [] then [] else BytesOf(h[..|h| - 1]) + h[|h| - 1].bytes
  }

  class Body {
    const feed: Feed
    var calls: nat

    constructor (feed: Feed)
      ensures this.feed == feed && calls == 0
    {
      this.feed, calls := feed, 0;
    }

    method Read(size: nat) returns (c: Chunk)
      modifies this
      ensures c == feed(old(calls), size) && calls == old(calls) + 1
    {
      c := feed(calls, size);
      calls := calls + 1;
    }
  }

  /** The tee's read: what the body gave, copied to the writer if it is not empty. */
  method TeeRead(body: Body, w: CappedWriter, size: nat) returns (c: Chunk)
    requires w.Valid()
    modifies body, w
    ensures c == body.feed(old(body.calls), size) && body.calls == old(body.calls) + 1
    ensures w.Valid() && w.written == old(w.written) + c.bytes
  {
    c := body.Read(size);
    if |c.bytes| > 0 {
      var n := w.Write(c.bytes);
    }
  }

  /** Decodes a body; with debug logging on, through the tee.  Whenever the decoder
      is done with this body at all, after some number of reads, it reads the same
      and decides the same either way, and the captured head is the first bytes of
      what it read. */
  method UnmarshalBody<T>(body: Body, debug: bool, decoder: Decoder<T>, ghost enough: nat)
    returns (result: Decision<T>, head: Bytes)
    requires body.calls == 0 && !decoder(ReadsOf(body.feed, decoder, enough)).ReadMore?
    modifies body
    ensures var h := ReadsOf(body.feed, decoder, enough);
            && result == decoder(h)
            && (debug ==> head <= BytesOf(h) && |head| == if |BytesOf(h)| < 2048 then |BytesOf(h)| else 2048)
            && (!debug ==> head == [])
            && body.calls == |h|
  {
    var w := new CappedWriter(MAX_BODY_HEAD_BYTES);
    var h: seq<Chunk> := [];
    result := decoder(h);
    while result.ReadMore?
      invariant result == decoder(h) && |h| == body.calls <= enough && w.Valid()
      invariant h == ReadsOf(body.feed, decoder, |h|)
      invariant w.written == if debug then BytesOf(h) else []
      decreases enough - |h|
    {
      assert |h| < enough;
      var c: Chunk;
      if debug {
        c := TeeRead(body, w, result.size);
      } else {
        c := body.Read(result.size);
      }
      assert (h + [c])[..|h|] == h;
      h := h + [c];
      result := decoder(h);
    }
    DoneStaysDone(body.feed, decoder, |h|, enough);
    head := w.buf;
  }
}
