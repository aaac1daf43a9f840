/** Truncating a list of entries to a byte size (src/util.rs). An entry's size is positive and
    otherwise left open: its payload stands for it. */
module EntryLimits {
  import opened RaftLogs

  datatype Limit = NoLimit | AtMost(size: nat)

  function EntrySize(e: Entry): nat {
    1 + e.data
  }

  function TotalSize(ents: Log): nat {
    if ents == [] then 0 else TotalSize(ents[..|ents| - 1]) + EntrySize(ents[|ents| - 1])
  }

  lemma {:induction false} TotalGrows(ents: Log, i: nat, j: nat)
    requires i <= j <= |ents|
    ensures TotalSize(ents[..i]) + (j - i) <= TotalSize(ents[..j])
  {
    if i < j {
      TotalGrows(ents, i, j - 1);
      assert ents[..j][..j - 1] == ents[..j - 1];
    }
  }

  /** `r` is the longest prefix of `ents` within the limit, but never empty if `ents` is not. */
  predicate IsLimited(ents: Log, max: Limit, r: Log) {
    && r <= ents
    && (ents != [] ==> r != [])
    && (max.NoLimit? ==> r == ents)
    && (max.AtMost? ==>
          && (|r| > 1 ==> TotalSize(r) <= max.size)
          && (|r| < |ents| ==> TotalSize(ents[..|r| + 1]) > max.size))
  }

  lemma LimitedUnique(ents: Log, max: Limit, r: Log, r': Log)
    requires IsLimited(ents, max, r) && IsLimited(ents, max, r')
    ensures r == r'
  {
    if |r| < |r'| {
      LimitedNotLonger(ents, max, r, r');
    } else if |r'| < |r| {
      LimitedNotLonger(ents, max, r', r);
    }
  }

  lemma LimitedNotLonger(ents: Log, max: Limit, r: Log, r': Log)
    requires IsLimited(ents, max, r) && IsLimited(ents, max, r')
    ensures |r'| <= |r|
  {
    assert ents[..|r'|] == r';
    if max.AtMost? && |r| < |r'| {
      TotalGrows(ents, |r| + 1, |r'|);
    }
  }

  /** A part cut short by the limit is also the limited whole. */
  lemma LimitedPart(a: Log, b: Log, max: Limit, r: Log)
    requires IsLimited(a, max, r) && r != a
    ensures IsLimited(a + b, max, r)
  {
    assert (a + b)[..|r| + 1] == a[..|r| + 1];
  }

  lemma {:induction false} LimitExists(ents: Log, max: Limit) returns (r: Log)
    ensures IsLimited(ents, max, r)
  {
    if max.NoLimit? || |ents| <= 1 {
      r := ents;
    } else {
      r := LimitExists(ents[..|ents| - 1], max);
      if r == ents[..|ents| - 1] {
        assert ents[..|r| + 1] == ents;
        if TotalSize(ents) <= max.size { r := ents; }
      } else {
        assert ents[..|ents| - 1][..|r| + 1] == ents[..|r| + 1];
      }
    }
  }

  /** `limit_size`. */
  method LimitSize(ents: Log, max: Limit) returns (r: Log)
    ensures IsLimited(ents, max, r)
  {
    if |ents| <= 1 || max.NoLimit? {
      return ents;
    }
    var size, n := EntrySize(ents[0]), 1;
    assert ents[..1][..0] == [];
    while n < |ents|
      invariant 1 <= n <= |ents| && size == TotalSize(ents[..n])
      invariant n > 1 ==> size <= max.size
    {
      assert ents[..n + 1][..n] == ents[..n];
      if size + EntrySize(ents[n]) > max.size {
        break;
      }
      size := size + EntrySize(ents[n]);
      n := n + 1;
    }
    r := ents[..n];
  }
}
