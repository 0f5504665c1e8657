/**
 * Parameter vectors made of fixed-width records laid end to end, as the
 * SyncWrite, BulkRead and BulkWrite builders write them with a cursor.
 */
module Records {
  import opened Bytes

  /** The records, in order, with nothing between them. */
  function Concat(records: seq<seq<uint8>>): seq<uint8>
    decreases |records|
  {
    if records == [] then [] else Concat(records[..|records| - 1]) + records[|records| - 1]
  }

  /** Every record has `w` bytes. */
  predicate AllWidth(records: seq<seq<uint8>>, w: nat)
  {
    forall k :: 0 <= k < |records| ==> |records[k]| == w
  }

  lemma MulMonotone(a: nat, b: nat, c: nat)
    requires a <= b
    ensures c * a <= c * b
  {
    assert c * b == c * a + c * (b - a);
  }

  /** With `i < n` records of width `w` written, one more still fits in `w * n`. */
  lemma RecordFits(i: nat, n: nat, w: nat)
    requires i < n
    ensures w * i + w <= w * n
    ensures w * (i + 1) == w * i + w
  {
    MulMonotone(i + 1, n, w);
  }

  lemma AllWidthPrefix(records: seq<seq<uint8>>, w: nat, i: nat)
    requires AllWidth(records, w) && i <= |records|
    ensures AllWidth(records[..i], w)
  {
    forall k | 0 <= k < i ensures |records[..i][k]| == w {
      assert records[..i][k] == records[k];
    }
  }

  /** The first `i + 1` records are the first `i` followed by record `i`. */
  lemma ConcatSnoc(records: seq<seq<uint8>>, i: nat)
    requires i < |records|
    ensures Concat(records[..i + 1]) == Concat(records[..i]) + records[i]
  {
    assert records[..i + 1][..i] == records[..i];
  }

  lemma {:induction false} ConcatLength(records: seq<seq<uint8>>, w: nat)
    requires AllWidth(records, w)
    ensures |Concat(records)| == w * |records|
    decreases |records|
  {
    if records != [] {
      var n := |records|;
      var front := records[..n - 1];
      AllWidthPrefix(records, w, n - 1);
      ConcatLength(front, w);
      RecordFits(n - 1, n, w);
    }
  }

  /** The records of a prefix are a prefix of the records. */
  lemma {:induction false} ConcatPrefix(records: seq<seq<uint8>>, j: nat)
    requires j <= |records|
    ensures |Concat(records[..j])| <= |Concat(records)|
    ensures Concat(records)[..|Concat(records[..j])|] == Concat(records[..j])
    decreases |records|
  {
    var n := |records|;
    if j < n {
      var front := records[..n - 1];
      assert front[..j] == records[..j];
      ConcatPrefix(front, j);
      assert Concat(records) == Concat(front) + records[n - 1];
    } else {
      assert records[..j] == records;
    }
  }

  /**
   * One step of a cursor loop: after `i` records of width `w` the cursor is at
   * `w * i`, record `i` is appended, and it still fits in `w * |records|`.
   */
  lemma ConcatStep(records: seq<seq<uint8>>, w: nat, i: nat)
    requires i < |records| && AllWidth(records[..i], w)
    ensures Concat(records[..i + 1]) == Concat(records[..i]) + records[i]
    ensures |Concat(records[..i])| == w * i
    ensures w * i + w <= w * |records|
  {
    ConcatSnoc(records, i);
    ConcatLength(records[..i], w);
    RecordFits(i, |records|, w);
  }

  /** Record `i` of width `w` sits at offset `w * i`. */
  lemma ConcatAt(records: seq<seq<uint8>>, w: nat, i: nat)
    requires AllWidth(records, w) && i < |records|
    ensures w * i + w <= |Concat(records)|
    ensures Concat(records)[w * i..w * i + w] == records[i]
  {
    var before := Concat(records[..i]);
    var upto := Concat(records[..i + 1]);
    ConcatSnoc(records, i);
    ConcatPrefix(records, i + 1);
    AllWidthPrefix(records, w, i);
    ConcatLength(records[..i], w);
    var all := Concat(records);
    assert all[..|upto|] == before + records[i];
    assert all[|before|..|upto|] == records[i];
  }

  /**
   * The inner copy loop of the builders, `buffer[at + j] = bytes[j]` for each `j`:
   * the bytes land at `at` and the rest of the buffer is kept.
   */
  method CopyAt(buffer: seq<uint8>, at: nat, bytes: seq<uint8>) returns (r: seq<uint8>)
    requires at + |bytes| <= |buffer|
    ensures |r| == |buffer|
    ensures r[..at + |bytes|] == buffer[..at] + bytes
    ensures r[at + |bytes|..] == buffer[at + |bytes|..]
    ensures forall j | at + |bytes| <= j < |buffer| :: r[j] == buffer[j]
  {
    r := buffer;
    for j := 0 to |bytes|
      invariant |r| == |buffer|
      invariant r[..at + j] == buffer[..at] + bytes[..j]
      invariant r[at + j..] == buffer[at + j..]
    {
      r := r[at + j := bytes[j]];
      assert r[..at + j + 1] == r[..at + j] + [bytes[j]];
      assert bytes[..j + 1] == bytes[..j] + [bytes[j]];
    }
    assert bytes[..|bytes|] == bytes;
    forall j | at + |bytes| <= j < |buffer| ensures r[j] == buffer[j] {
      assert r[j] == r[at + |bytes|..][j - at - |bytes|];
    }
  }
}
