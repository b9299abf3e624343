/** The probability table of the fermion device: sample patterns are read
    as binary numbers (the first wire is the most significant bit), the
    relative frequency of each distinct pattern is written at its number,
    and the table is keyed by the zero-padded binary expansion of every
    index below 2^n. */
module ProbabilityTable {
  import Stats

  /** `2 ** n`, the length of a table over n wires. */
  function Pow2(n: nat): nat {
    if n == 0 then 1 else 2 * Pow2(n - 1)
  }

  /** `d == 1` contributes a one bit; every other value contributes nothing. */
  function Bit(d: int): nat {
    if d == 1 then 1 else 0
  }

  /** `sum(2 ** idx for idx, d in enumerate(pattern[::-1]) if d == 1)`:
      the last entry is bit 0. */
  function PatternIndex(p: seq<int>): (r: nat)
    ensures r < Pow2(|p|)
  {
    if p == [] then 0 else 2 * PatternIndex(p[..|p| - 1]) + Bit(p[|p| - 1])
  }

  predicate IsBinary(p: seq<int>) {
    forall i :: 0 <= i < |p| ==> p[i] == 0 || p[i] == 1
  }

  /** Every sample row has n entries. */
  predicate HasWidth(rows: seq<seq<int>>, n: nat) {
    forall i :: 0 <= i < |rows| ==> |rows[i]| == n
  }

  predicate AllBinary(rows: seq<seq<int>>) {
    forall i :: 0 <= i < |rows| ==> IsBinary(rows[i])
  }

  /** How often pattern p occurs among the rows. */
  function CountOf(rows: seq<seq<int>>, p: seq<int>): (c: nat)
    ensures c <= |rows|
    ensures c > 0 <==> p in rows
  {
    if rows == [] then 0
    else CountOf(rows[..|rows| - 1], p) + (if rows[|rows| - 1] == p then 1 else 0)
  }

  /** How many rows have index k. */
  function CountIndex(rows: seq<seq<int>>, k: nat): (c: nat)
    ensures c <= |rows|
    ensures c > 0 <==> exists i :: 0 <= i < |rows| && PatternIndex(rows[i]) == k
  {
    if rows == [] then 0
    else
      var c0 := CountIndex(rows[..|rows| - 1], k);
      assert forall i :: 0 <= i < |rows| - 1 ==> rows[..|rows| - 1][i] == rows[i];
      c0 + (if PatternIndex(rows[|rows| - 1]) == k then 1 else 0)
  }

  predicate NoDuplicates(ps: seq<seq<int>>) {
    forall i, j :: 0 <= i < j < |ps| ==> ps[i] != ps[j]
  }

  /** The distinct rows, each once, in order of first occurrence. `np.unique`
      returns them sorted instead; with binary rows no two of them share an
      index, so the order does not affect the table. */
  function Distinct(rows: seq<seq<int>>): (ps: seq<seq<int>>)
    ensures NoDuplicates(ps)
    ensures forall p :: p in ps <==> p in rows
  {
    if rows == [] then []
    else
      var ps0 := Distinct(rows[..|rows| - 1]);
      var last := rows[|rows| - 1];
      assert forall p :: p in rows <==> p in rows[..|rows| - 1] || p == last;
      if last in ps0 then ps0 else ps0 + [last]
  }

  /** `counts.sum()` over the listed patterns. */
  function TotalCount(rows: seq<seq<int>>, ps: seq<seq<int>>): nat {
    if ps == [] then 0 else TotalCount(rows, ps[..|ps| - 1]) + CountOf(rows, ps[|ps| - 1])
  }

  lemma {:induction false} TotalCountSnoc(rows: seq<seq<int>>, r: seq<int>, ps: seq<seq<int>>)
    ensures TotalCount(rows + [r], ps) == TotalCount(rows, ps) + CountOf(ps, r)
  {
    if ps != [] {
      TotalCountSnoc(rows, r, ps[..|ps| - 1]);
      assert (rows + [r])[..|rows + [r]| - 1] == rows;
    }
  }

  lemma {:induction false} CountOfUnique(ps: seq<seq<int>>, r: seq<int>)
    requires NoDuplicates(ps)
    requires r in ps
    ensures CountOf(ps, r) == 1
  {
    var n := |ps|;
    var init := ps[..n - 1];
    if ps[n - 1] == r {
      assert r !in init by {
        forall i | 0 <= i < n - 1 ensures init[i] != r {
          assert init[i] == ps[i];
        }
      }
    } else {
      assert r in init by {
        var i :| 0 <= i < n && ps[i] == r;
        assert init[i] == r;
      }
      CountOfUnique(init, r);
    }
  }

  /** The counts `np.unique` returns add up to the number of rows, so the
      denominator `counts.sum()` is the number of shots. */
  lemma {:induction false} TotalCountDistinct(rows: seq<seq<int>>)
    ensures TotalCount(rows, Distinct(rows)) == |rows|
  {
    if rows != [] {
      var init := rows[..|rows| - 1];
      var last := rows[|rows| - 1];
      assert rows == init + [last];
      var ps0 := Distinct(init);
      var ps := Distinct(rows);
      TotalCountDistinct(init);
      TotalCountSnoc(init, last, ps);
      CountOfUnique(ps, last);
      if last !in ps0 {
        assert ps[..|ps| - 1] == ps0;
        assert CountOf(init, last) == 0;
      }
    }
  }

  /** Two binary patterns of one width with the same index are equal. */
  lemma {:induction false} IndexInjective(p: seq<int>, q: seq<int>)
    requires |p| == |q|
    requires IsBinary(p) && IsBinary(q)
    requires PatternIndex(p) == PatternIndex(q)
    ensures p == q
  {
    if p != [] {
      var n := |p|;
      assert Bit(p[n - 1]) == Bit(q[n - 1]);
      IndexInjective(p[..n - 1], q[..n - 1]);
      assert p == p[..n - 1] + [p[n - 1]];
      assert q == q[..n - 1] + [q[n - 1]];
    }
  }

  /** The digits of `bin(k)[2:]`, most significant first; 0 is "0". */
  function BinDigits(k: nat): (ds: seq<int>)
    ensures |ds| >= 1 && IsBinary(ds)
  {
    if k < 2 then [k] else BinDigits(k / 2) + [k % 2]
  }

  function Zeros(m: nat): (z: seq<int>)
    ensures |z| == m
    ensures forall i :: 0 <= i < m ==> z[i] == 0
  {
    seq(m, _ => 0)
  }

  /** `str.zfill(n)` on a string of digits: left-pad with '0' up to width n. */
  function ZFill(ds: seq<int>, n: nat): (r: seq<int>)
    ensures |r| == if |ds| >= n then |ds| else n
  {
    if |ds| >= n then ds else Zeros(n - |ds|) + ds
  }

  /** The dictionary key of index k: `bin(k)[2:].zfill(n)` read digit by digit. */
  function KeyPattern(n: nat, k: nat): seq<int> {
    ZFill(BinDigits(k), n)
  }

  lemma {:induction false} BinDigitsIndex(k: nat)
    ensures PatternIndex(BinDigits(k)) == k
  {
    if k >= 2 {
      BinDigitsIndex(k / 2);
      var ds := BinDigits(k);
      assert ds[..|ds| - 1] == BinDigits(k / 2);
    }
  }

  lemma {:induction false} BinDigitsWidth(k: nat, n: nat)
    requires 1 <= n && k < Pow2(n)
    ensures |BinDigits(k)| <= n
  {
    if k >= 2 {
      BinDigitsWidth(k / 2, n - 1);
    }
  }

  lemma {:induction false} ZerosIndex(m: nat, s: seq<int>)
    ensures PatternIndex(Zeros(m) + s) == PatternIndex(s)
    decreases m + |s|
  {
    var z := Zeros(m) + s;
    if s == [] {
      assert z == Zeros(m);
      if m > 0 {
        assert z[..m - 1] == Zeros(m - 1) + [];
        ZerosIndex(m - 1, []);
      }
    } else {
      assert z[..|z| - 1] == Zeros(m) + s[..|s| - 1];
      ZerosIndex(m, s[..|s| - 1]);
    }
  }

  /** The key written for index k reads back as k. */
  lemma KeyIndex(n: nat, k: nat)
    ensures PatternIndex(KeyPattern(n, k)) == k
  {
    var ds := BinDigits(k);
    BinDigitsIndex(k);
    if |ds| < n {
      assert KeyPattern(n, k) == Zeros(n - |ds|) + ds;
      ZerosIndex(n - |ds|, ds);
    } else {
      assert KeyPattern(n, k) == ds;
    }
  }

  /** Every key below 2^n is a binary pattern of exactly n digits. */
  lemma KeyWidth(n: nat, k: nat)
    requires 1 <= n && k < Pow2(n)
    ensures |KeyPattern(n, k)| == n
    ensures IsBinary(KeyPattern(n, k))
  {
    BinDigitsWidth(k, n);
  }

  /** Every binary pattern of n >= 1 digits is the key of its own index. */
  lemma KeyOfPattern(p: seq<int>)
    requires |p| >= 1 && IsBinary(p)
    ensures KeyPattern(|p|, PatternIndex(p)) == p
  {
    var k := PatternIndex(p);
    KeyWidth(|p|, k);
    KeyIndex(|p|, k);
    IndexInjective(KeyPattern(|p|, k), p);
  }

  /** With binary rows of width n, counting a pattern and counting its index agree. */
  lemma {:induction false} CountIndexOfPattern(rows: seq<seq<int>>, p: seq<int>)
    requires AllBinary(rows) && HasWidth(rows, |p|) && IsBinary(p)
    ensures CountIndex(rows, PatternIndex(p)) == CountOf(rows, p)
  {
    if rows != [] {
      var last := rows[|rows| - 1];
      CountIndexOfPattern(rows[..|rows| - 1], p);
      if PatternIndex(last) == PatternIndex(p) {
        IndexInjective(last, p);
      }
    }
  }

  /** Σ_{k < m} CountIndex(rows, k). */
  function SumIndexCounts(rows: seq<seq<int>>, m: nat): nat {
    if m == 0 then 0 else SumIndexCounts(rows, m - 1) + CountIndex(rows, m - 1)
  }

  lemma {:induction false} SumIndexCountsSnoc(rows: seq<seq<int>>, r: seq<int>, m: nat)
    ensures SumIndexCounts(rows + [r], m)
      == SumIndexCounts(rows, m) + (if PatternIndex(r) < m then 1 else 0)
  {
    assert (rows + [r])[..|rows + [r]| - 1] == rows;
    if m > 0 {
      SumIndexCountsSnoc(rows, r, m - 1);
    }
  }

  lemma {:induction false} SumIndexCountsEmpty(m: nat)
    ensures SumIndexCounts([], m) == 0
  {
    if m > 0 {
      SumIndexCountsEmpty(m - 1);
    }
  }

  /** Every row of width n has an index below 2^n, so the counts of all
      indices add up to the number of rows. */
  lemma {:induction false} SumIndexCountsAll(rows: seq<seq<int>>, n: nat)
    requires HasWidth(rows, n)
    ensures SumIndexCounts(rows, Pow2(n)) == |rows|
  {
    if rows == [] {
      SumIndexCountsEmpty(Pow2(n));
    } else {
      var init := rows[..|rows| - 1];
      assert HasWidth(init, n) by {
        forall i | 0 <= i < |init| ensures |init[i]| == n {
          assert init[i] == rows[i];
        }
      }
      assert |rows[|rows| - 1]| == n;
      SumIndexCountsAll(init, n);
      assert rows == init + [rows[|rows| - 1]];
      SumIndexCountsSnoc(init, rows[|rows| - 1], Pow2(n));
    }
  }

  /** The relative frequency `count / denominator`. */
  function Frequency(count: nat, total: nat): real
    requires total > 0
  {
    count as real / total as real
  }

  /** v is the relative frequency among the rows of a row with index k. */
  predicate FrequencyAtIndex(v: real, rows: seq<seq<int>>, k: nat)
    requires |rows| > 0
  {
    exists p :: p in rows && PatternIndex(p) == k && v == Frequency(CountOf(rows, p), |rows|)
  }

  /** What the table holds at index k once the patterns in ps have been
      written: src[k] is the position in ps of the last pattern written at k,
      or negative when none was. */
  predicate Written(table: seq<real>, rows: seq<seq<int>>, ps: seq<seq<int>>, src: seq<int>, k: nat)
    requires k < |table| && k < |src| && |rows| > 0
  {
    if src[k] < 0 then
      table[k] == 0.0 && forall j :: 0 <= j < |ps| ==> PatternIndex(ps[j]) != k
    else
      src[k] < |ps| && PatternIndex(ps[src[k]]) == k
      && table[k] == Frequency(CountOf(rows, ps[src[k]]), |rows|)
  }

  predicate AllWritten(table: seq<real>, rows: seq<seq<int>>, ps: seq<seq<int>>, src: seq<int>)
    requires |table| == |src| && |rows| > 0
  {
    forall k :: 0 <= k < |table| ==> Written(table, rows, ps, src, k)
  }

  /** Writing the next pattern's frequency at its index keeps the table described. */
  lemma WrittenStep(table: seq<real>, rows: seq<seq<int>>, ps: seq<seq<int>>, src: seq<int>, t: nat)
    requires |table| == |src| && |rows| > 0 && t < |ps|
    requires PatternIndex(ps[t]) < |table|
    requires forall k :: 0 <= k < |src| ==> src[k] < t
    requires AllWritten(table, rows, ps[..t], src)
    ensures AllWritten(table[PatternIndex(ps[t]) := Frequency(CountOf(rows, ps[t]), |rows|)],
      rows, ps[..t + 1], src[PatternIndex(ps[t]) := t])
  {
    var index := PatternIndex(ps[t]);
    var table' := table[index := Frequency(CountOf(rows, ps[t]), |rows|)];
    var src' := src[index := t];
    var done, done' := ps[..t], ps[..t + 1];
    forall k | 0 <= k < |table'| ensures Written(table', rows, done', src', k) {
      assert Written(table, rows, done, src, k);
      if k != index {
        if src[k] >= 0 {
          assert done'[src[k]] == done[src[k]];
        } else {
          forall j | 0 <= j < |done'| ensures PatternIndex(done'[j]) != k {
            if j < t {
              assert done'[j] == done[j];
            }
          }
        }
      }
    }
  }

  /** What a fully written table says about the rows, whatever their values. */
  lemma WrittenTable(table: seq<real>, rows: seq<seq<int>>, src: seq<int>, k: nat)
    requires |table| == |src| && |rows| > 0 && k < |table|
    requires AllWritten(table, rows, Distinct(rows), src)
    ensures CountIndex(rows, k) == 0 ==> table[k] == 0.0
    ensures CountIndex(rows, k) > 0 ==> FrequencyAtIndex(table[k], rows, k)
  {
    var ps := Distinct(rows);
    assert Written(table, rows, ps, src, k);
    if CountIndex(rows, k) > 0 {
      var i :| 0 <= i < |rows| && PatternIndex(rows[i]) == k;
      assert rows[i] in ps;
      var j :| 0 <= j < |ps| && ps[j] == rows[i];
      assert PatternIndex(ps[j]) == k;
      var p := ps[src[k]];
      assert p in rows;
    }
  }

  /** With 0/1 samples of one width, the frequency of some pattern with
      index k is the frequency of index k. */
  lemma BinaryFrequency(v: real, rows: seq<seq<int>>, n: nat, k: nat)
    requires |rows| > 0 && HasWidth(rows, n) && AllBinary(rows)
    requires FrequencyAtIndex(v, rows, k)
    ensures v == Frequency(CountIndex(rows, k), |rows|)
  {
    var p :| p in rows && PatternIndex(p) == k && v == Frequency(CountOf(rows, p), |rows|);
    var i :| 0 <= i < |rows| && rows[i] == p;
    assert |p| == n && IsBinary(p);
    CountIndexOfPattern(rows, p);
  }

  /** What the counting loop leaves in a table: 0 at every index no row
      maps to, the relative frequency of a pattern with that index elsewhere,
      and with 0/1 rows exactly the relative frequency of the index. */
  predicate Counted(table: seq<real>, rows: seq<seq<int>>) {
    (forall k :: 0 <= k < |table| && CountIndex(rows, k) == 0 ==> table[k] == 0.0)
    && (forall k :: 0 <= k < |table| && CountIndex(rows, k) > 0 ==> FrequencyAtIndex(table[k], rows, k))
    && (AllBinary(rows) ==> forall k :: 0 <= k < |table| ==>
          table[k] == if rows == [] then 0.0 else Frequency(CountIndex(rows, k), |rows|))
  }

  /** The whole table once every distinct pattern has been written. */
  lemma WrittenTables(table: seq<real>, rows: seq<seq<int>>, n: nat, src: seq<int>)
    requires |table| == |src| && |rows| > 0 && HasWidth(rows, n)
    requires AllWritten(table, rows, Distinct(rows), src)
    ensures Counted(table, rows)
  {
    forall k | 0 <= k < |table|
      ensures CountIndex(rows, k) == 0 ==> table[k] == 0.0
      ensures CountIndex(rows, k) > 0 ==> FrequencyAtIndex(table[k], rows, k)
      ensures AllBinary(rows) ==> table[k] == Frequency(CountIndex(rows, k), |rows|)
    {
      WrittenTable(table, rows, src, k);
      if AllBinary(rows) {
        if CountIndex(rows, k) > 0 {
          BinaryFrequency(table[k], rows, n, k);
        } else {
          FrequencyOfNone(|rows|);
        }
      }
    }
  }

  /** The loop of `probability`: a table of 2^n zeros, and for each distinct
      pattern its count over the total count written at its index. Without
      any assumption on the values, an index no row maps to keeps 0 and any
      other index holds the relative frequency of one of the patterns that
      map to it; with 0/1 samples that is the frequency of the index itself. */
  method Probabilities(rows: seq<seq<int>>, n: nat) returns (probs: array<real>)
    requires HasWidth(rows, n)
    ensures fresh(probs)
    ensures probs.Length == Pow2(n)
    ensures Counted(probs[..], rows)
  {
    probs := new real[Pow2(n)](_ => 0.0);
    if rows == [] {
      return;
    }
    ghost var src := WriteFrequencies(probs, rows, n);
    WrittenTables(probs[..], rows, n, src);
  }

  /** The body of that loop, over the distinct patterns of non-empty rows:
      afterwards every entry of the zeroed table is either untouched or the
      frequency of the last pattern written there. */
  method WriteFrequencies(probs: array<real>, rows: seq<seq<int>>, n: nat) returns (ghost src: seq<int>)
    requires |rows| > 0 && HasWidth(rows, n) && probs.Length == Pow2(n)
    requires forall k :: 0 <= k < probs.Length ==> probs[k] == 0.0
    modifies probs
    ensures |src| == probs.Length
    ensures AllWritten(probs[..], rows, Distinct(rows), src)
  {
    var patterns := Distinct(rows);
    var denominator := TotalCount(rows, patterns);
    TotalCountDistinct(rows);
    src := seq(probs.Length, _ => -1);
    for t := 0 to |patterns|
      invariant |src| == probs.Length
      invariant forall k :: 0 <= k < |src| ==> src[k] < t
      invariant AllWritten(probs[..], rows, patterns[..t], src)
    {
      assert patterns[t] in rows;
      src := WriteFrequency(probs, rows, n, patterns, denominator, t, src);
    }
    assert patterns[..|patterns|] == patterns;
  }

  /** One step of that loop: the frequency of pattern t goes to its index. */
  method WriteFrequency(probs: array<real>, rows: seq<seq<int>>, n: nat, patterns: seq<seq<int>>,
                        denominator: nat, t: nat, ghost src: seq<int>) returns (ghost src': seq<int>)
    requires |rows| > 0 && HasWidth(rows, n) && probs.Length == Pow2(n) && denominator == |rows|
    requires t < |patterns| && patterns[t] in rows
    requires |src| == probs.Length && forall k :: 0 <= k < |src| ==> src[k] < t
    requires AllWritten(probs[..], rows, patterns[..t], src)
    modifies probs
    ensures |src'| == probs.Length && forall k :: 0 <= k < |src'| ==> src'[k] < t + 1
    ensures AllWritten(probs[..], rows, patterns[..t + 1], src')
  {
    var p := patterns[t];
    var index := PatternIndex(p);
    ghost var before := probs[..];
    probs[index] := CountOf(rows, p) as real / denominator as real;
    assert probs[..] == before[index := Frequency(CountOf(rows, p), |rows|)];
    WrittenStep(before, rows, patterns, src, t);
    src' := src[index := t];
  }

  lemma FrequencySum(a: nat, b: nat, total: nat)
    requires total > 0
    ensures Frequency(a, total) + Frequency(b, total) == Frequency(a + b, total)
  {
  }

  function SumNat(cs: seq<nat>): nat {
    if cs == [] then 0 else SumNat(cs[..|cs| - 1]) + cs[|cs| - 1]
  }

  /** Frequencies over one total add up to the frequency of the summed counts. */
  lemma {:induction false} SumFrequencies(probs: seq<real>, cs: seq<nat>, total: nat)
    requires total > 0 && |probs| == |cs|
    requires forall k :: 0 <= k < |probs| ==> probs[k] == Frequency(cs[k], total)
    ensures Stats.Sum(probs) == Frequency(SumNat(cs), total)
  {
    if probs != [] {
      var m := |probs|;
      SumFrequencies(probs[..m - 1], cs[..m - 1], total);
      FrequencySum(SumNat(cs[..m - 1]), cs[m - 1], total);
    }
  }

  /** The counts of the indices below m, index by index. */
  function IndexCounts(rows: seq<seq<int>>, m: nat): (cs: seq<nat>)
    ensures |cs| == m
    ensures forall k :: 0 <= k < m ==> cs[k] == CountIndex(rows, k)
  {
    seq(m, k requires 0 <= k < m => CountIndex(rows, k))
  }

  lemma {:induction false} SumIndexCountsAsSum(rows: seq<seq<int>>, m: nat)
    ensures SumNat(IndexCounts(rows, m)) == SumIndexCounts(rows, m)
  {
    if m > 0 {
      SumIndexCountsAsSum(rows, m - 1);
      assert IndexCounts(rows, m)[..m - 1] == IndexCounts(rows, m - 1);
    }
  }

  lemma FrequencyOfNone(total: nat)
    requires total > 0
    ensures Frequency(0, total) == 0.0
  {
  }

  lemma FrequencyOfAll(total: nat)
    requires total > 0
    ensures Frequency(total, total) == 1.0
  {
  }

  /** With at least one shot, the table of a shot record sums to 1. */
  lemma ProbabilitiesSumToOne(probs: seq<real>, rows: seq<seq<int>>, n: nat)
    requires |rows| > 0 && HasWidth(rows, n) && |probs| == Pow2(n)
    requires forall k :: 0 <= k < |probs| ==> probs[k] == Frequency(CountIndex(rows, k), |rows|)
    ensures Stats.Sum(probs) == 1.0
  {
    SumFrequencies(probs, IndexCounts(rows, |probs|), |rows|);
    SumIndexCountsAsSum(rows, |probs|);
    SumIndexCountsAll(rows, n);
    FrequencyOfAll(|rows|);
  }

  /** `OrderedDict(zip(patterns, probabilities))`: entry k pairs the key of
      index k with the table's value at k. */
  function Table(probs: seq<real>, n: nat): (d: seq<(seq<int>, real)>)
    ensures |d| == |probs|
    ensures forall k :: 0 <= k < |probs| ==> d[k].0 == KeyPattern(n, k) && d[k].1 == probs[k]
  {
    seq(|probs|, k requires 0 <= k < |probs| => (KeyPattern(n, k), probs[k]))
  }

  /** Every key of the table is a distinct n-digit binary pattern, and the
      entry keyed by a binary pattern p sits at p's index. */
  lemma TableKeys(probs: seq<real>, n: nat)
    requires 1 <= n && |probs| == Pow2(n)
    ensures forall k :: 0 <= k < |probs| ==>
      |Table(probs, n)[k].0| == n && IsBinary(Table(probs, n)[k].0)
    ensures forall k, j :: 0 <= k < j < |probs| ==> Table(probs, n)[k].0 != Table(probs, n)[j].0
    ensures forall p :: |p| == n && IsBinary(p) ==> Table(probs, n)[PatternIndex(p)].0 == p
  {
    forall k | 0 <= k < |probs|
      ensures |Table(probs, n)[k].0| == n && IsBinary(Table(probs, n)[k].0)
    {
      KeyWidth(n, k);
    }
    forall k, j | 0 <= k < j < |probs| ensures Table(probs, n)[k].0 != Table(probs, n)[j].0 {
      KeyIndex(n, k);
      KeyIndex(n, j);
    }
    forall p | |p| == n && IsBinary(p) ensures Table(probs, n)[PatternIndex(p)].0 == p {
      KeyOfPattern(p);
    }
  }
}
