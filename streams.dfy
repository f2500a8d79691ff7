/** Server-sent event streams. A connection is an opaque handle; writing a
    frame appends it to one log shared by all connections, and the frames a
    client receives are the entries of that log for its handle. */
module Streams {
  import opened Wrappers
  import opened PlaceQueries

  /** The reconnection delay announced on every new stream, in milliseconds. */
  const RETRY_MS: nat := 1000

  /** A response object, identified by reference. */
  datatype Conn = Conn(handle: nat)

  /** One `res.write`: the `retry:` line, or a `data:` line carrying a payload
      (JSON serialisation is left out). `MyPlacesData(None)` is `data: null`. */
  datatype Frame =
    | Retry(ms: nat)
    | MyPlacesData(places: Option<seq<UserPlace>>)
    | FreePlacesData(free: seq<FreePlace>)

  /** One frame written to one connection. */
  datatype Sent = Sent(conn: Conn, frame: Frame)

  /** The frames written to connection `c`, in order. */
  function FramesOf(ws: seq<Sent>, c: Conn): (fs: seq<Frame>)
    ensures |fs| <= |ws|
  {
    if ws == [] then []
    else FramesOf(ws[..|ws| - 1], c) + (if ws[|ws| - 1].conn == c then [ws[|ws| - 1].frame] else [])
  }

  lemma {:induction false} FramesOfAppend(a: seq<Sent>, b: seq<Sent>, c: Conn)
    ensures FramesOf(a + b, c) == FramesOf(a, c) + FramesOf(b, c)
    decreases |b|
  {
    if b == [] {
      assert a + b == a;
    } else {
      assert (a + b)[..|a + b| - 1] == a + b[..|b| - 1];
      FramesOfAppend(a, b[..|b| - 1], c);
    }
  }

  /** A write to another connection is invisible to `c`. */
  lemma FramesOfOther(ws: seq<Sent>, w: Sent, c: Conn)
    requires w.conn != c
    ensures FramesOf(ws + [w], c) == FramesOf(ws, c)
  {
    assert (ws + [w])[..|ws + [w]| - 1] == ws;
  }

  /** A single write is seen only by its own connection. */
  lemma FramesOfSingle(w: Sent, c: Conn)
    ensures FramesOf([w], c) == if w.conn == c then [w.frame] else []
  {
    assert [w][..0] == [];
  }

  class EventStreams {
    /** Every frame written so far, oldest first. */
    var written: seq<Sent>

    constructor ()
      ensures written == []
    {
      written := [];
    }

    /** `res.write(frame)`. */
    method Write(c: Conn, f: Frame)
      modifies this
      ensures written == old(written) + [Sent(c, f)]
      ensures FramesOf(written, c) == FramesOf(old(written), c) + [f]
    {
      written := written + [Sent(c, f)];
      assert written[..|written| - 1] == old(written);
    }
  }
}
