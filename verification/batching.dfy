/** How `load` cuts the formatted rows into insert batches: falsy entries are
    skipped, every thousandth row closes a batch, and a non-empty remainder
    becomes one last, smaller batch. */
module Batching {
  import opened Wrappers

  /** Rows per multi-statement insert. */
  const BatchSize: nat := 1000

  /** The entries `if (item)` lets through, in order. */
  function Present<T>(items: seq<Option<T>>): (r: seq<T>)
    ensures |r| <= |items|
  {
    if |items| == 0 then []
    else Present(items[..|items| - 1]) + (if items[|items| - 1].Some? then [items[|items| - 1].value] else [])
  }

  /** `if (item)` keeps exactly the present entries: every kept row was
      present, and every present entry is kept. */
  lemma {:induction false} PresentContents<T>(items: seq<Option<T>>)
    ensures forall j :: 0 <= j < |Present(items)| ==> Some(Present(items)[j]) in items
    ensures forall i :: 0 <= i < |items| && items[i].Some? ==> items[i].value in Present(items)
  {
    if |items| > 0 {
      var init := items[..|items| - 1];
      PresentContents(init);
      assert items == init + [items[|items| - 1]];
      assert forall i :: 0 <= i < |init| ==> items[i] == init[i];
    }
  }

  /** Consecutive pieces of s of n elements each, the last one possibly shorter. */
  function Chunks<T>(s: seq<T>, n: nat): seq<seq<T>>
    requires n > 0
    decreases |s|
  {
    if |s| == 0 then []
    else if |s| <= n then [s]
    else [s[..n]] + Chunks(s[n..], n)
  }

  function Flatten<T>(ss: seq<seq<T>>): seq<T> {
    if |ss| == 0 then [] else ss[0] + Flatten(ss[1..])
  }

  /** Every batch but the last holds n rows; the last holds 1 to n. */
  predicate WellCut<T>(bs: seq<seq<T>>, n: nat) {
    && (forall i :: 0 <= i < |bs| - 1 ==> |bs[i]| == n)
    && (|bs| > 0 ==> 0 < |bs[|bs| - 1]| <= n)
  }

  lemma FlattenAppend<T>(a: seq<seq<T>>, b: seq<seq<T>>)
    ensures Flatten(a + b) == Flatten(a) + Flatten(b)
  {
    if |a| > 0 {
      assert (a + b)[1..] == a[1..] + b;
      FlattenAppend(a[1..], b);
    } else {
      assert a + b == b;
    }
  }

  lemma PresentAppend<T>(a: seq<Option<T>>, x: Option<T>)
    ensures Present(a + [x]) == Present(a) + (if x.Some? then [x.value] else [])
  {
    assert (a + [x])[..|a + [x]| - 1] == a;
  }

  /** Gluing the batches back together gives the rows, in order. */
  lemma {:induction false} ChunksFlatten<T>(s: seq<T>, n: nat)
    requires n > 0
    ensures Flatten(Chunks(s, n)) == s
    decreases |s|
  {
    if |s| == 0 {
    } else if |s| <= n {
      assert Flatten([s]) == s + Flatten([s][1..]);
    } else {
      ChunksFlatten(s[n..], n);
      FlattenAppend([s[..n]], Chunks(s[n..], n));
      assert Flatten([s[..n]]) == s[..n] + Flatten([s[..n]][1..]);
      assert s[..n] + s[n..] == s;
    }
  }

  /** The batches are full except the last, which is never empty. */
  lemma {:induction false} ChunksShape<T>(s: seq<T>, n: nat)
    requires n > 0
    ensures WellCut(Chunks(s, n), n)
    decreases |s|
  {
    if |s| > n {
      ChunksShape(s[n..], n);
      var rest := Chunks(s[n..], n);
      assert Chunks(s, n) == [s[..n]] + rest;
      assert forall i :: 1 <= i < |rest| + 1 ==> ([s[..n]] + rest)[i] == rest[i - 1];
    }
  }

  /** The batch count c is the least with `c * n >= len`. */
  lemma {:induction false} ChunksCount<T>(s: seq<T>, n: nat)
    requires n > 0
    ensures |Chunks(s, n)| * n >= |s|
    ensures |s| > 0 ==> (|Chunks(s, n)| - 1) * n < |s|
    ensures |Chunks(s, n)| == 0 <==> |s| == 0
    decreases |s|
  {
    if |s| > n {
      ChunksCount(s[n..], n);
      var c := |Chunks(s[n..], n)|;
      assert |Chunks(s, n)| == c + 1;
      assert (c + 1) * n == c * n + n;
      assert c * n == (c - 1) * n + n;
    }
  }

  /** With batches of 1000 there are `ceil(len / 1000)` of them. */
  lemma BatchCount<T>(s: seq<T>)
    ensures |Chunks(s, BatchSize)| == (|s| + BatchSize - 1) / BatchSize
  {
    ChunksCount(s, BatchSize);
  }

  /** Full batches followed by a shorter non-empty remainder, or by none, are
      exactly how their concatenation is cut. */
  lemma {:induction false} ChunksOfFull<T>(full: seq<seq<T>>, rest: seq<T>, n: nat)
    requires n > 0
    requires forall i :: 0 <= i < |full| ==> |full[i]| == n
    requires |rest| < n
    ensures Chunks(Flatten(full) + rest, n) == full + (if |rest| == 0 then [] else [rest])
    decreases |full|
  {
    if |full| == 0 {
      assert Flatten(full) + rest == rest;
    } else {
      var s := Flatten(full) + rest;
      assert Flatten(full) == full[0] + Flatten(full[1..]);
      assert s == full[0] + (Flatten(full[1..]) + rest);
      assert s[..n] == full[0];
      assert s[n..] == Flatten(full[1..]) + rest;
      ChunksOfFull(full[1..], rest, n);
      assert full == [full[0]] + full[1..];
    }
  }

  /** `load`'s loop, statement for statement: `count` numbers the present
      rows from 1, the buffer is flushed whenever `count % 1000 == 0`, and a
      non-empty buffer left at the end is flushed once more. */
  method CollectBatches<T>(items: seq<Option<T>>) returns (batches: seq<seq<T>>)
    ensures batches == Chunks(Present(items), BatchSize)
  {
    batches := [];
    var buffer: seq<T> := [];
    var count := 1;
    for k := 0 to |items|
      invariant count - 1 == |Present(items[..k])|
      invariant Flatten(batches) + buffer == Present(items[..k])
      invariant forall i :: 0 <= i < |batches| ==> |batches[i]| == BatchSize
      invariant |buffer| == (count - 1) % BatchSize
    {
      PresentAppend(items[..k], items[k]);
      assert items[..k + 1] == items[..k] + [items[k]];
      if items[k].Some? {
        buffer := buffer + [items[k].value];
        if count % BatchSize == 0 {
          FlattenAppend(batches, [buffer]);
          assert Flatten([buffer]) == buffer + Flatten([buffer][1..]);
          batches := batches + [buffer];
          buffer := [];
        }
        count := count + 1;
      }
    }
    assert items[..|items|] == items;
    ChunksOfFull(batches, buffer, BatchSize);
    if buffer != [] {
      batches := batches + [buffer];
    }
  }

  /** 2500 rows go out as 1000, 1000 and 500. */
  lemma TwoThousandFiveHundredRows<T>(s: seq<T>)
    requires |s| == 2500
    ensures |Chunks(s, BatchSize)| == 3
    ensures |Chunks(s, BatchSize)[0]| == 1000 && |Chunks(s, BatchSize)[1]| == 1000
    ensures |Chunks(s, BatchSize)[2]| == 500
  {
    assert Chunks(s, BatchSize) == [s[..1000]] + Chunks(s[1000..], BatchSize);
    assert Chunks(s[1000..], BatchSize) == [s[1000..][..1000]] + Chunks(s[1000..][1000..], BatchSize);
  }

  /** One row is one batch; no rows are no batch at all. */
  lemma SmallLoads<T>(x: T)
    ensures Chunks([x], BatchSize) == [[x]]
    ensures Chunks<T>([], BatchSize) == []
  {
  }
}
