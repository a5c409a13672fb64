/** The results of the concurrent transfer workers of one test phase and
    their aggregation: bytes and durations of the successful workers are
    summed, and their count kept. */
module Chunks {
  import opened Wrappers

  /** A positive duration in nanoseconds: a transfer that completed took time. */
  type Elapsed = d: int | d >= 1 witness 1

  /** What one successful worker reports: the bytes moved and the time taken. */
  datatype Chunk = Chunk(bytes: nat, duration: Elapsed)

  /** The sum of `f` over the results. */
  function Sum(rs: seq<Option<Chunk>>, f: Option<Chunk> -> nat): nat {
    if rs == [] then 0 else Sum(rs[..|rs| - 1], f) + f(rs[|rs| - 1])
  }

  function Succeeded(r: Option<Chunk>): nat { if r.Some? then 1 else 0 }
  function BytesOf(r: Option<Chunk>): nat { if r.Some? then r.value.bytes else 0 }
  function TimeOf(r: Option<Chunk>): nat { if r.Some? then r.value.duration else 0 }

  function SuccessCount(rs: seq<Option<Chunk>>): nat { Sum(rs, Succeeded) }
  function TotalBytes(rs: seq<Option<Chunk>>): nat { Sum(rs, BytesOf) }
  function TotalTime(rs: seq<Option<Chunk>>): nat { Sum(rs, TimeOf) }

  lemma {:induction false} SumAppend(a: seq<Option<Chunk>>, b: seq<Option<Chunk>>, f: Option<Chunk> -> nat)
    ensures Sum(a + b, f) == Sum(a, f) + Sum(b, f)
    decreases |b|
  {
    if b == [] {
      assert a + b == a;
    } else {
      var ab := a + b;
      assert ab[..|ab| - 1] == a + b[..|b| - 1];
      SumAppend(a, b[..|b| - 1], f);
    }
  }

  /** The workers report in whatever order they finish; the sums do not depend
      on it. */
  lemma {:induction false} SumPermutation(a: seq<Option<Chunk>>, b: seq<Option<Chunk>>, f: Option<Chunk> -> nat)
    requires multiset(a) == multiset(b)
    ensures Sum(a, f) == Sum(b, f)
    decreases |a|
  {
    if a != [] {
      var n := |a| - 1;
      var x := a[n];
      assert a == a[..n] + [x];
      assert x in multiset(b) by {
        assert x in multiset(a);
      }
      var j :| 0 <= j < |b| && b[j] == x;
      var rest := b[..j] + b[j + 1..];
      RemoveOne(a[..n], b, x, j);
      SumPermutation(a[..n], rest, f);
      SumSplitAt(b, j, f);
    }
  }

  /** Removing the same element from two permutations of each other leaves
      permutations of each other. */
  lemma RemoveOne(a: seq<Option<Chunk>>, b: seq<Option<Chunk>>, x: Option<Chunk>, j: int)
    requires 0 <= j < |b| && b[j] == x && multiset(a + [x]) == multiset(b)
    ensures multiset(a) == multiset(b[..j] + b[j + 1..])
  {
    assert b == b[..j] + [x] + b[j + 1..];
    assert multiset(a + [x]) == multiset(a) + multiset{x};
    assert multiset(b) == multiset(b[..j]) + multiset{x} + multiset(b[j + 1..]);
    var rest := b[..j] + b[j + 1..];
    assert multiset(rest) == multiset(b[..j]) + multiset(b[j + 1..]);
    forall y
      ensures multiset(a)[y] == multiset(rest)[y]
    {
      assert multiset(a + [x])[y] == multiset(b)[y];
    }
  }

  /** The sum over `b` is the sum without `b[j]`, plus `f(b[j])`. */
  lemma SumSplitAt(b: seq<Option<Chunk>>, j: int, f: Option<Chunk> -> nat)
    requires 0 <= j < |b|
    ensures Sum(b, f) == Sum(b[..j] + b[j + 1..], f) + f(b[j])
  {
    var x := b[j];
    assert b == b[..j] + [x] + b[j + 1..];
    SumAppend(b[..j], [x], f);
    SumAppend(b[..j] + [x], b[j + 1..], f);
    SumAppend(b[..j], b[j + 1..], f);
    assert Sum([x], f) == f(x) by {
      assert [x][..0] == [];
    }
  }

  /** With no successful worker there is nothing to sum. */
  lemma {:induction false} NoSuccessNoTotals(rs: seq<Option<Chunk>>)
    requires SuccessCount(rs) == 0
    ensures TotalBytes(rs) == 0 && TotalTime(rs) == 0
    decreases |rs|
  {
    if rs != [] {
      NoSuccessNoTotals(rs[..|rs| - 1]);
    }
  }

  /** Every successful worker took at least `lo`, so the total time is at least
      count * lo. */
  lemma {:induction false} TotalTimeAtLeast(rs: seq<Option<Chunk>>, lo: int)
    requires forall i :: 0 <= i < |rs| && rs[i].Some? ==> lo <= rs[i].value.duration
    ensures SuccessCount(rs) * lo <= TotalTime(rs)
    decreases |rs|
  {
    if rs != [] {
      TotalTimeAtLeast(rs[..|rs| - 1], lo);
    }
  }

  /** Every successful worker took at most `hi`, so the total time is at most
      count * hi. */
  lemma {:induction false} TotalTimeAtMost(rs: seq<Option<Chunk>>, hi: int)
    requires forall i :: 0 <= i < |rs| && rs[i].Some? ==> rs[i].value.duration <= hi
    ensures TotalTime(rs) <= SuccessCount(rs) * hi
    decreases |rs|
  {
    if rs != [] {
      TotalTimeAtMost(rs[..|rs| - 1], hi);
    }
  }

  /** The mean duration Go computes (Duration division truncates; all values
      are non-negative here). */
  function MeanTime(rs: seq<Option<Chunk>>): nat
    requires SuccessCount(rs) > 0
  {
    TotalTime(rs) / SuccessCount(rs)
  }

  /** The mean is the whole part of the total time over the success count:
      count * mean <= total < count * (mean + 1). */
  lemma MeanTimeTruncates(rs: seq<Option<Chunk>>)
    requires SuccessCount(rs) > 0
    ensures MeanTime(rs) * SuccessCount(rs) <= TotalTime(rs) < (MeanTime(rs) + 1) * SuccessCount(rs)
  {
    var t, n := TotalTime(rs), SuccessCount(rs);
    assert t == (t / n) * n + t % n;
  }

  /** The mean of successful durations is at least one nanosecond. */
  lemma MeanTimePositive(rs: seq<Option<Chunk>>)
    requires SuccessCount(rs) > 0
    ensures MeanTime(rs) >= 1
  {
    TotalTimeAtLeast(rs, 1);
    DivAtLeast(TotalTime(rs), SuccessCount(rs), 1);
  }

  /** The mean lies between the shortest and the longest successful duration. */
  lemma MeanTimeBounds(rs: seq<Option<Chunk>>, lo: int, hi: int)
    requires SuccessCount(rs) > 0
    requires forall i :: 0 <= i < |rs| && rs[i].Some? ==> lo <= rs[i].value.duration <= hi
    ensures lo <= MeanTime(rs) <= hi
  {
    TotalTimeAtLeast(rs, lo);
    TotalTimeAtMost(rs, hi);
    DivAtLeast(TotalTime(rs), SuccessCount(rs), lo);
    DivAtMost(TotalTime(rs), SuccessCount(rs), hi);
  }

  lemma DivAtLeast(t: nat, n: nat, lo: int)
    requires n > 0 && n * lo <= t
    ensures lo <= t / n
  {
    var q := t / n;
    assert t < n * (q + 1);
  }

  lemma DivAtMost(t: nat, n: nat, hi: int)
    requires n > 0 && t <= n * hi
    ensures t / n <= hi
  {
    var q := t / n;
    assert n * q <= t;
  }

  /** The receiving loop of a test phase. */
  method Aggregate(rs: seq<Option<Chunk>>) returns (bytes: nat, total: nat, count: nat)
    ensures bytes == TotalBytes(rs) && total == TotalTime(rs) && count == SuccessCount(rs)
  {
    bytes, total, count := 0, 0, 0;
    for i := 0 to |rs|
      invariant bytes == TotalBytes(rs[..i]) && total == TotalTime(rs[..i]) && count == SuccessCount(rs[..i])
    {
      assert rs[..i + 1][..i] == rs[..i];
      match rs[i] {
        case Some(c) =>
          bytes := bytes + c.bytes;
          total := total + c.duration;
          count := count + 1;
        case None =>
      }
    }
    assert rs[..|rs|] == rs;
  }

  /** One more worker result adds its share to each sum. */
  lemma TotalsSnoc(rs: seq<Option<Chunk>>, r: Option<Chunk>)
    ensures SuccessCount(rs + [r]) == SuccessCount(rs) + Succeeded(r)
    ensures TotalBytes(rs + [r]) == TotalBytes(rs) + BytesOf(r)
    ensures TotalTime(rs + [r]) == TotalTime(rs) + TimeOf(r)
  {
    assert (rs + [r])[..|rs|] == rs;
  }

  /** Four workers, one failing, each moving 1000 bytes in one second: 3000
      bytes in a mean of one second. */
  lemma AggregateExample()
    ensures var rs := [Some(Chunk(1000, 1000000000)), None, Some(Chunk(1000, 1000000000)), Some(Chunk(1000, 1000000000))];
      TotalBytes(rs) == 3000 && SuccessCount(rs) == 3 && MeanTime(rs) == 1000000000
  {
    var ok := Some(Chunk(1000, 1000000000));
    TotalsSnoc([], ok);
    assert [] + [ok] == [ok];
    TotalsSnoc([ok], None);
    assert [ok] + [None] == [ok, None];
    TotalsSnoc([ok, None], ok);
    assert [ok, None] + [ok] == [ok, None, ok];
    TotalsSnoc([ok, None, ok], ok);
    assert [ok, None, ok] + [ok] == [ok, None, ok, ok];
  }
}
