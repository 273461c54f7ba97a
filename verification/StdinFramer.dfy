/** Line framing of the login helper's standard input, with oversize lines discarded. */
module StdinFramer {
  import opened Common

  type Byte = bv8

  const NEWLINE: Byte := 10
  const MAX_COMMAND_BYTES := 8192

  /** What the session is handed: a line, or None for one that was too long. */
  type Delivery = Option<seq<Byte>>

  /** The position of the first newline, or the length when there is none. */
  function FindNewline(s: seq<Byte>): (i: nat)
    ensures i <= |s| && (i < |s| ==> s[i] == NEWLINE) && NEWLINE !in s[..i]
  {
    if s == [] then 0
    else if s[0] == NEWLINE then 0
    else
      var i := FindNewline(s[1..]);
      assert s[..i + 1] == [s[0]] + s[1..][..i];
      i + 1
  }

  // ---- reference meaning: a whole stream split at its newlines ----

  function Line(line: seq<Byte>): Delivery {
    if |line| > MAX_COMMAND_BYTES + 1 then None else Some(line)
  }

  /** The deliveries of a complete stream: every terminated line, then the tail if there is one. */
  function Frame(stream: seq<Byte>): seq<Delivery>
    decreases |stream|
  {
    var i := FindNewline(stream);
    if i < |stream| then [Line(stream[..i + 1])] + Frame(stream[i + 1..])
    else if stream == [] then []
    else if |stream| > MAX_COMMAND_BYTES then [None]
    else [Some(stream)]
  }

  /** The deliveries of a stream that begins inside a line already reported as too long. */
  function FrameDiscarding(stream: seq<Byte>): seq<Delivery> {
    var i := FindNewline(stream);
    if i < |stream| then Frame(stream[i + 1..]) else []
  }

  // ---- the reader's state ----

  datatype Reader = Reader(buf: seq<Byte>, discarding: bool, out: seq<Delivery>)

  const Initial := Reader([], false, [])

  /** Take every complete line off the buffer; give up on a partial line that is already too long. */
  function Drain(r: Reader): Reader
    decreases |r.buf|
  {
    var i := FindNewline(r.buf);
    if i == |r.buf| then
      if |r.buf| > MAX_COMMAND_BYTES then Reader([], true, if r.discarding then r.out else r.out + [None]) else r
    else
      var line, rest := r.buf[..i + 1], r.buf[i + 1..];
      Drain(Reader(rest, false, if r.discarding then r.out else r.out + [Line(line)]))
  }

  function Feed(r: Reader, chunk: seq<Byte>): Reader {
    Drain(r.(buf := r.buf + chunk))
  }

  function FeedAll(chunks: seq<seq<Byte>>): Reader {
    if chunks == [] then Initial else Feed(FeedAll(chunks[..|chunks| - 1]), chunks[|chunks| - 1])
  }

  /** At end of input an unterminated line that is not being discarded is delivered. */
  function Close(r: Reader): seq<Delivery> {
    if r.buf != [] && !r.discarding then r.out + [Some(r.buf)] else r.out
  }

  class StdinReader {
    var buf: seq<Byte>
    var discarding: bool
    var delivered: seq<Delivery>

    function State(): Reader
      reads this
    {
      Reader(buf, discarding, delivered)
    }

    constructor ()
      ensures State() == Initial
    {
      buf, discarding, delivered := [], false, [];
    }

    /** One non-empty read. */
    method Read(chunk: seq<Byte>)
      modifies this
      ensures State() == Feed(old(State()), chunk)
      ensures |buf| <= MAX_COMMAND_BYTES
    {
      buf := buf + chunk;
      ghost var target := Drain(State());
      while true
        invariant Drain(State()) == target
        decreases |buf|
      {
        var newline := FindNewline(buf);
        if newline == |buf| {
          if |buf| > MAX_COMMAND_BYTES {
            if !discarding {
              delivered := delivered + [None];
            }
            discarding := true;
            buf := [];
          }
          break;
        }
        var line := buf[..newline + 1];
        buf := buf[newline + 1..];
        if discarding {
          discarding := false;
          continue;
        }
        delivered := delivered + [if |line| > MAX_COMMAND_BYTES + 1 then None else Some(line)];
      }
    }

    /** End of input. */
    method EndOfInput()
      modifies this`delivered
      ensures delivered == Close(old(State()))
    {
      if buf != [] && !discarding {
        delivered := delivered + [Some(buf)];
      }
    }
  }

  // ---- independence of how the stream is cut into reads ----

  /** What is still to be delivered, if the rest of the stream arrived at once. */
  function Future(buf: seq<Byte>, discarding: bool, rest: seq<Byte>): seq<Delivery> {
    if discarding then FrameDiscarding(buf + rest) else Frame(buf + rest)
  }

  function Outlook(r: Reader, rest: seq<Byte>): seq<Delivery> {
    r.out + Future(r.buf, r.discarding, rest)
  }

  lemma NotBefore(s: seq<Byte>, n: nat)
    requires n <= |s| && NEWLINE !in s[..n]
    ensures forall k :: 0 <= k < n ==> s[k] != NEWLINE
  {
    forall k | 0 <= k < n ensures s[k] != NEWLINE {
      assert s[..n][k] in s[..n];
    }
  }

  lemma FindNewlineUnique(s: seq<Byte>, i: nat)
    requires i < |s| && s[i] == NEWLINE && NEWLINE !in s[..i]
    ensures FindNewline(s) == i
  {
    NotBefore(s, i);
    NotBefore(s, FindNewline(s));
  }

  /** A newline found in a prefix is the one found in the whole. */
  lemma FindNewlinePrefix(s: seq<Byte>, rest: seq<Byte>)
    ensures FindNewline(s) < |s| ==> FindNewline(s + rest) == FindNewline(s)
    ensures FindNewline(s) == |s| ==> FindNewline(s + rest) == |s| + FindNewline(rest)
  {
    var i := FindNewline(s);
    if i < |s| {
      assert (s + rest)[..i] == s[..i];
      FindNewlineUnique(s + rest, i);
    } else {
      var j := FindNewline(rest);
      assert (s + rest)[..|s| + j] == s + rest[..j];
      assert s == s[..i];
      if j < |rest| {
        FindNewlineUnique(s + rest, |s| + j);
      } else {
        NoNewline(s + rest);
      }
    }
  }

  lemma NoNewline(s: seq<Byte>)
    requires NEWLINE !in s
    ensures FindNewline(s) == |s|
  {
    assert s[..|s|] == s;
    NotBefore(s, |s|);
  }

  /** One complete line off the buffer. */
  function AfterLine(r: Reader): Reader
    requires FindNewline(r.buf) < |r.buf|
  {
    var i := FindNewline(r.buf);
    Reader(r.buf[i + 1..], false, if r.discarding then r.out else r.out + [Line(r.buf[..i + 1])])
  }

  lemma LineKeepsOutlook(r: Reader, rest: seq<Byte>)
    requires FindNewline(r.buf) < |r.buf|
    ensures Outlook(AfterLine(r), rest) == Outlook(r, rest)
  {
    hide Line;
    var i, whole := FindNewline(r.buf), r.buf + rest;
    FindNewlinePrefix(r.buf, rest);
    assert whole[..i + 1] == r.buf[..i + 1] && whole[i + 1..] == r.buf[i + 1..] + rest;
    var later := Frame(whole[i + 1..]);
    if !r.discarding {
      assert Frame(whole) == [Line(r.buf[..i + 1])] + later;
      assert (r.out + [Line(r.buf[..i + 1])]) + later == r.out + ([Line(r.buf[..i + 1])] + later);
    }
  }

  lemma FrameStep(stream: seq<Byte>)
    ensures var i := FindNewline(stream);
            i < |stream| ==> Frame(stream) == [Line(stream[..i + 1])] + Frame(stream[i + 1..])
    ensures FindNewline(stream) == |stream| > MAX_COMMAND_BYTES ==> Frame(stream) == [None]
  {
  }

  /** A partial line over the limit: its one None now is its one None at the newline or the end. */
  lemma OversizeFuture(buf: seq<Byte>, rest: seq<Byte>)
    requires FindNewline(buf) == |buf| > MAX_COMMAND_BYTES
    ensures Frame(buf + rest) == [None] + FrameDiscarding(rest)
    ensures FrameDiscarding(buf + rest) == FrameDiscarding(rest)
  {
    hide Frame, FindNewline;
    var whole, j := buf + rest, FindNewline(rest);
    FindNewlinePrefix(buf, rest);
    FrameStep(whole);
    if j < |rest| {
      assert whole[|buf| + j + 1..] == rest[j + 1..];
    }
  }

  /** Draining changes nothing about what the whole stream will deliver. */
  lemma {:induction false} DrainKeepsOutlook(r: Reader, rest: seq<Byte>)
    ensures Outlook(Drain(r), rest) == Outlook(r, rest)
    decreases |r.buf|
  {
    hide Frame, FrameDiscarding, Line;
    if FindNewline(r.buf) < |r.buf| {
      LineKeepsOutlook(r, rest);
      DrainKeepsOutlook(AfterLine(r), rest);
    } else if |r.buf| > MAX_COMMAND_BYTES {
      OversizeFuture(r.buf, rest);
      assert [] + rest == rest;
      assert r.out + ([None] + FrameDiscarding(rest)) == (r.out + [None]) + FrameDiscarding(rest);
    }
  }

  function Concat(chunks: seq<seq<Byte>>): seq<Byte> {
    if chunks == [] then [] else Concat(chunks[..|chunks| - 1]) + chunks[|chunks| - 1]
  }

  lemma {:induction false} FeedAllOutlook(chunks: seq<seq<Byte>>, rest: seq<Byte>)
    ensures Outlook(FeedAll(chunks), rest) == Frame(Concat(chunks) + rest)
  {
    hide Frame, FrameDiscarding, Drain;
    if chunks == [] {
      assert [] + rest == rest;
    } else {
      var init, last := chunks[..|chunks| - 1], chunks[|chunks| - 1];
      var before := FeedAll(init);
      FeedAllOutlook(init, last + rest);
      DrainKeepsOutlook(before.(buf := before.buf + last), rest);
      assert (before.buf + last) + rest == before.buf + (last + rest);
      assert (Concat(init) + last) + rest == Concat(init) + (last + rest);
    }
  }

  /** What the reader keeps between reads: never over the limit, never a newline. */
  lemma {:induction false} DrainBounds(r: Reader)
    ensures |Drain(r).buf| <= MAX_COMMAND_BYTES && NEWLINE !in Drain(r).buf
    decreases |r.buf|
  {
    var i := FindNewline(r.buf);
    if i < |r.buf| {
      DrainBounds(Reader(r.buf[i + 1..], false, if r.discarding then r.out else r.out + [Line(r.buf[..i + 1])]));
    } else {
      assert r.buf[..i] == r.buf;
    }
  }

  /** The memory kept between reads never exceeds the command limit. */
  lemma BufferBounded(chunks: seq<seq<Byte>>)
    ensures |FeedAll(chunks).buf| <= 8192 && NEWLINE !in FeedAll(chunks).buf
  {
    if chunks != [] {
      var before := FeedAll(chunks[..|chunks| - 1]);
      DrainBounds(before.(buf := before.buf + chunks[|chunks| - 1]));
    }
  }

  /**
   Framing does not depend on chunking: however a stream is cut into reads, the deliveries are those
   of splitting the whole stream, with one None per oversize line and the in-limit tail at the end.
   */
  lemma FramingIgnoresChunking(chunks: seq<seq<Byte>>)
    ensures Close(FeedAll(chunks)) == Frame(Concat(chunks))
  {
    var r := FeedAll(chunks);
    FeedAllOutlook(chunks, []);
    BufferBounded(chunks);
    NoNewline(r.buf);
    assert r.buf + [] == r.buf && Concat(chunks) + [] == Concat(chunks);
  }

  // ---- what the reference framing says ----

  /** A terminated line at the front is delivered whole, or as one None when it is too long. */
  lemma FrameFirstLine(body: seq<Byte>, rest: seq<Byte>)
    requires NEWLINE !in body
    ensures Frame(body + [NEWLINE] + rest)
         == [if |body| > 8192 then None else Some(body + [NEWLINE])] + Frame(rest)
  {
    var stream := body + [NEWLINE] + rest;
    assert stream[|body|] == NEWLINE && stream[..|body|] == body;
    FindNewlineUnique(stream, |body|);
    assert stream[..|body| + 1] == body + [NEWLINE] && stream[|body| + 1..] == rest;
  }
}
