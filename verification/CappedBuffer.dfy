/** cappedBuffer: an io.Writer that keeps the first limit bytes it is given. Bytes are
    modelled as characters, and a child process as the chunks it writes. */
module CappedBuffers {

  /** The first limit bytes of data; a limit below zero keeps nothing. */
  function Kept(limit: int, data: string): (r: string)
    ensures r <= data
    ensures |r| == if limit <= 0 then 0 else if |data| <= limit then |data| else limit
  {
    if limit <= 0 then "" else if |data| <= limit then data else data[..limit]
  }

  predicate Overflows(limit: int, data: string) {
    |data| > if limit > 0 then limit else 0
  }

  /** Everything a sequence of writes wrote. */
  function Concat(chunks: seq<string>): string {
    if |chunks| == 0 then "" else Concat(chunks[..|chunks| - 1]) + chunks[|chunks| - 1]
  }

  class CappedBuffer {
    const limit: int
    var buf: string
    var overflow: bool
    ghost var written: string   // all bytes ever offered

    ghost predicate Valid()
      reads this
    {
      buf == Kept(limit, written) && overflow == Overflows(limit, written)
    }

    constructor (limit: int)
      ensures Valid() && written == "" && this.limit == limit
    {
      this.limit := limit;
      buf, overflow, written := "", false, "";
    }

    /** Never fails and always reports the whole of p as written. */
    method Write(p: string) returns (n: nat)
      requires Valid()
      modifies this
      ensures Valid() && written == old(written) + p
      ensures n == |p|
    {
      var remaining := limit - |buf|;
      if remaining > 0 {
        if |p| <= remaining {
          buf := buf + p;
        } else {
          buf := buf + p[..remaining];
          overflow := true;
        }
      } else if |p| > 0 {
        overflow := true;
      }
      written := written + p;
      n := |p|;
    }

    /** Collecting a child's output: what is kept does not depend on how it was chunked. */
    method Collect(chunks: seq<string>)
      requires Valid()
      modifies this
      ensures Valid() && written == old(written) + Concat(chunks)
    {
      for i := 0 to |chunks|
        invariant Valid() && written == old(written) + Concat(chunks[..i])
      {
        var n := Write(chunks[i]);
        assert chunks[..i + 1][..i] == chunks[..i];
      }
      assert chunks[..|chunks|] == chunks;
    }
  }

  lemma {:induction false} ConcatAppend(a: seq<string>, b: seq<string>)
    ensures Concat(a + b) == Concat(a) + Concat(b)
  {
    if |b| == 0 {
      assert a + b == a;
    } else {
      assert (a + b)[..|a + b| - 1] == a + b[..|b| - 1];
      ConcatAppend(a, b[..|b| - 1]);
    }
  }

  /** A child that writes a chunk in two parts writes the same bytes. */
  lemma SplittingAChunk(before: seq<string>, p: string, q: string, after: seq<string>)
    ensures Concat(before + [p, q] + after) == Concat(before + [p + q] + after)
  {
    hide Concat;
    ConcatAppend(before + [p, q], after);
    ConcatAppend(before + [p + q], after);
    ConcatAppend(before, [p, q]);
    ConcatAppend(before, [p + q]);
    ConcatPair(p, q);
  }

  lemma ConcatPair(p: string, q: string)
    ensures Concat([p, q]) == p + q == Concat([p + q])
  {
    ConcatOne(p);
    ConcatOne(p + q);
    assert [p, q][..1] == [p];
  }

  lemma ConcatOne(p: string)
    ensures Concat([p]) == p
  {
  }
}
