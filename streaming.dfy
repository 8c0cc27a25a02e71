/**
 * Forwarding the generator's chunks into the response stream
 * (app/api/chat/route.js, lines 146-164).
 */
module Streaming {
  import opened Text

  /** What the generator emits once started: its chunks, and whether it then fails. */
  datatype Generation = Generation(chunks: seq<string>, failsAfter: bool)

  /** The chunks that pass the `if (content)` test: the non-empty ones, in order. */
  function Forwarded(chunks: seq<string>): (r: seq<string>)
    ensures |r| <= |chunks|
    ensures forall i :: 0 <= i < |r| ==> r[i] != ""
  {
    if chunks == [] then []
    else if chunks[0] != "" then [chunks[0]] + Forwarded(chunks[1..])
    else Forwarded(chunks[1..])
  }

  /** Filtering distributes over concatenation, so emission order is kept. */
  lemma {:induction false} ForwardedAppend(a: seq<string>, b: seq<string>)
    ensures Forwarded(a + b) == Forwarded(a) + Forwarded(b)
  {
    if a == [] {
      assert a + b == b;
    } else {
      assert (a + b)[1..] == a[1..] + b;
      ForwardedAppend(a[1..], b);
    }
  }

  /** What has been forwarded after any number of chunks is a prefix of the final output. */
  lemma {:induction false} ForwardedPrefix(chunks: seq<string>, n: nat)
    requires n <= |chunks|
    ensures Forwarded(chunks[..n]) <= Forwarded(chunks)
  {
    assert chunks == chunks[..n] + chunks[n..];
    ForwardedAppend(chunks[..n], chunks[n..]);
  }

  /** A chunk is forwarded exactly when it was emitted and is not empty (whitespace included). */
  lemma {:induction false} ForwardedMembers(chunks: seq<string>, c: string)
    ensures c in Forwarded(chunks) <==> c in chunks && c != ""
  {
    if chunks != [] {
      ForwardedMembers(chunks[1..], c);
      assert chunks == [chunks[0]] + chunks[1..];
    }
  }

  /** Dropping empty chunks never changes the joined text. */
  lemma {:induction false} ForwardedKeepsText(chunks: seq<string>)
    ensures Concat(Forwarded(chunks)) == Concat(chunks)
  {
    if chunks != [] {
      ForwardedKeepsText(chunks[1..]);
      if chunks[0] != "" {
        assert ([chunks[0]] + Forwarded(chunks[1..]))[1..] == Forwarded(chunks[1..]);
      }
    }
  }

  /** A stream without empty chunks is forwarded unchanged. */
  lemma {:induction false} ForwardedIdentity(chunks: seq<string>)
    requires forall i :: 0 <= i < |chunks| ==> chunks[i] != ""
    ensures Forwarded(chunks) == chunks
  {
    if chunks != [] {
      ForwardedIdentity(chunks[1..]);
    }
  }

  /** The life cycle of a readable stream, as seen through its controller. */
  datatype StreamState = Readable | Errored | Closed

  /** The controller of the response's readable stream: what was enqueued and how it ended. */
  class Controller {
    var queue: seq<string>
    var state: StreamState

    constructor ()
      ensures queue == [] && state == Readable
    {
      queue := [];
      state := Readable;
    }

    method Enqueue(chunk: string)
      requires state == Readable
      modifies this
      ensures queue == old(queue) + [chunk] && state == Readable
    {
      queue := queue + [chunk];
    }

    method Error()
      requires state == Readable
      modifies this
      ensures queue == old(queue) && state == Errored
    {
      state := Errored;
    }

    method Close()
      requires state == Readable
      modifies this
      ensures queue == old(queue) && state == Closed
    {
      state := Closed;
    }
  }

  /**
   * The stream's `start` callback: every non-empty chunk is enqueued in
   * emission order; a generator failure errors the stream, otherwise it is
   * closed.
   */
  method Start(controller: Controller, generation: Generation)
    requires controller.state == Readable
    modifies controller
    ensures controller.queue == old(controller.queue) + Forwarded(generation.chunks)
    ensures controller.state == if generation.failsAfter then Errored else Closed
  {
    var chunks := generation.chunks;
    for i := 0 to |chunks|
      invariant controller.state == Readable
      invariant controller.queue == old(controller.queue) + Forwarded(chunks[..i])
    {
      var content := chunks[i];
      ForwardedAppend(chunks[..i], [content]);
      assert chunks[..i + 1] == chunks[..i] + [content];
      if content != "" {
        controller.Enqueue(content);
      }
    }
    assert chunks[..|chunks|] == chunks;
    if generation.failsAfter {
      controller.Error();
    } else {
      controller.Close();
    }
  }
}
