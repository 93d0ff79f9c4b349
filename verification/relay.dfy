/**
 * relay_response (proxy.c:214-251, proxy-2.c:256-303). The origin socket is
 * the sequence of chunks Rio_readn hands back, each at most MAXLINE bytes;
 * what the client socket receives is returned as a string. The accumulation
 * buffer malloc'd with MAX_OBJECT_SIZE bytes is an array here.
 */
module Relay {
  import opened Options
  import opened Limits

  /** One successful Rio_readn into the MAXLINE-byte `buf`: at least one byte, at most MAXLINE. */
  type Chunk = c: string | 0 < |c| <= MaxLine witness "x"

  /** The chunks one after the other. */
  function Flatten(cs: seq<string>): string
  {
    if cs == [] then "" else Flatten(cs[..|cs| - 1]) + cs[|cs| - 1]
  }

  /**
   * The chunks the test `total_bytes + n <= MAX_OBJECT_SIZE` lets into the
   * buffer, in order: a chunk that does not fit is skipped, and a later,
   * smaller one may still fit.
   */
  function Accepted(cs: seq<Chunk>): (r: seq<Chunk>)
    ensures |Flatten(r)| <= MaxObjectSize
    ensures |r| <= |cs|
  {
    if cs == [] then []
    else
      var prev := Accepted(cs[..|cs| - 1]);
      var c := cs[|cs| - 1];
      if |Flatten(prev)| + |c| <= MaxObjectSize then
        assert (prev + [c])[..|prev + [c]| - 1] == prev;
        prev + [c]
      else prev
  }

  /**
   * The relay loop. Every chunk goes to the client unchanged and in order;
   * the buffer ends holding the accepted chunks. A buffer holding nothing
   * becomes no candidate at all (response_buffer stays NULL and
   * response_size 0).
   */
  method RelayResponse(chunks: seq<Chunk>) returns (toClient: string, candidate: Option<string>)
    ensures toClient == Flatten(chunks)
    ensures candidate == if Flatten(Accepted(chunks)) == "" then None else Some(Flatten(Accepted(chunks)))
  {
    var tmp := new char[MaxObjectSize];
    var total: nat := 0;
    toClient := "";
    ghost var kept: seq<Chunk> := [];
    var i := 0;
    while i < |chunks|
      invariant 0 <= i <= |chunks|
      invariant toClient == Flatten(chunks[..i])
      invariant kept == Accepted(chunks[..i])
      invariant total <= tmp.Length && tmp[..total] == Flatten(kept)
    {
      var n := chunks[i];
      AcceptedStep(chunks, i);
      if total + |n| <= MaxObjectSize {
        total := Append(tmp, total, n);
        FlattenSnoc(kept, n);
        kept := kept + [n];
      }
      toClient := toClient + n;
      i := i + 1;
    }
    assert chunks[..i] == chunks;
    assert kept == Accepted(chunks);
    if total > 0 {
      candidate := Some(tmp[..total]);
    } else {
      assert Flatten(kept) == "";
      candidate := None;
    }
  }

  /** memcpy(tmp + total, buf, n): the buffer's first `total` bytes followed by `c`. */
  method Append(buf: array<char>, total: nat, c: string) returns (total': nat)
    requires total + |c| <= buf.Length
    modifies buf
    ensures total' == total + |c|
    ensures buf[..total'] == old(buf[..total]) + c
    ensures buf[total'..] == old(buf[total'..])
  {
    CopyInto(buf, total, c);
    total' := total + |c|;
    assert buf[..total'] == buf[..total] + buf[total..total'];
  }

  /** One more chunk read: what the client has seen and what the buffer holds. */
  lemma AcceptedStep(cs: seq<Chunk>, i: nat)
    requires i < |cs|
    ensures Flatten(cs[..i + 1]) == Flatten(cs[..i]) + cs[i]
    ensures var prev := Accepted(cs[..i]);
      Accepted(cs[..i + 1]) == if |Flatten(prev)| + |cs[i]| <= MaxObjectSize then prev + [cs[i]] else prev
  {
    assert cs[..i + 1][..i] == cs[..i];
  }

  lemma FlattenSnoc(cs: seq<string>, c: string)
    ensures Flatten(cs + [c]) == Flatten(cs) + c
  {
    assert (cs + [c])[..|cs|] == cs;
  }

  /** memcpy(buf + at, c, |c|): `c` written over `buf` from `at` on, the rest untouched. */
  method CopyInto(buf: array<char>, at: nat, c: string)
    requires at + |c| <= buf.Length
    modifies buf
    ensures buf[..at] == old(buf[..at])
    ensures buf[at..at + |c|] == c
    ensures buf[at + |c|..] == old(buf[at + |c|..])
  {
    forall k | at <= k < at + |c| {
      buf[k] := c[k - at];
    }
  }

  /** The buffer is the whole response exactly when the response fits in MAX_OBJECT_SIZE. */
  lemma {:induction false} AcceptedAllIff(cs: seq<Chunk>)
    ensures Accepted(cs) == cs <==> |Flatten(cs)| <= MaxObjectSize
  {
    if |Flatten(cs)| <= MaxObjectSize {
      AcceptedAllWhenFits(cs);
    }
  }

  lemma {:induction false} AcceptedAllWhenFits(cs: seq<Chunk>)
    requires |Flatten(cs)| <= MaxObjectSize
    ensures Accepted(cs) == cs
  {
    if cs != [] {
      var init := cs[..|cs| - 1];
      assert |Flatten(init)| <= |Flatten(cs)|;
      AcceptedAllWhenFits(init);
      assert init + [cs[|cs| - 1]] == cs;
    }
  }

  /**
   * A chunk that does not fit is dropped while a later one that fits is kept,
   * so the buffer splices together bytes that were not adjacent in the response.
   */
  lemma Splices(prefix: seq<Chunk>, skipped: Chunk, later: Chunk)
    requires |Flatten(Accepted(prefix))| + |skipped| > MaxObjectSize
    requires |Flatten(Accepted(prefix))| + |later| <= MaxObjectSize
    ensures Accepted(prefix + [skipped, later]) == Accepted(prefix) + [later]
  {
    assert (prefix + [skipped, later])[..|prefix| + 1] == prefix + [skipped];
    assert (prefix + [skipped])[..|prefix|] == prefix;
  }

  /**
   * A response larger than MAX_OBJECT_SIZE still leaves a non-empty buffer
   * (its first chunk always fits, as MAXLINE is below MAX_OBJECT_SIZE), so a
   * truncated copy is offered for caching.
   */
  lemma {:induction false} OversizedStillOffered(cs: seq<Chunk>)
    requires |Flatten(cs)| > MaxObjectSize
    ensures 0 < |Flatten(Accepted(cs))| < |Flatten(cs)|
  {
    NonEmptyAccepted(cs);
  }

  lemma {:induction false} NonEmptyAccepted(cs: seq<Chunk>)
    requires cs != []
    ensures Flatten(Accepted(cs)) != ""
  {
    var init := cs[..|cs| - 1];
    if init != [] {
      NonEmptyAccepted(init);
      var prev := Accepted(init);
      if |Flatten(prev)| + |cs[|cs| - 1]| <= MaxObjectSize {
        assert (prev + [cs[|cs| - 1]])[..|prev|] == prev;
      }
    } else {
      assert [cs[0]][..0] == [];
    }
  }
}
