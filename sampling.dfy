/** The stratified training sample of `shuffle_training_images`: for every
    distinct sampling-field value of the training records, a draw of
    `sample_images` records of that value, all draws concatenated and
    shuffled. Randomness is not modelled; a draw is any sequence of labels
    meeting `IsDraw`, and the shuffle is any permutation. */
module Sampling {
  import opened Records

  /** Every record of the table has the sampling column (it is a column of
      the table). */
  ghost predicate HasField(m: Metadata, field: string) {
    forall i :: 0 <= i < |m.data| ==> field in m.data[i].fields
  }

  function ValueOf(m: Metadata, field: string, l: nat): string
    requires l < |m.data| && HasField(m, field)
  {
    m.data[l].fields[field]
  }

  /** `train[field]`: the sampling value of each given record. */
  function Values(m: Metadata, field: string, labels: seq<nat>): (v: seq<string>)
    requires InRange(labels, |m.data|) && HasField(m, field)
    ensures |v| == |labels|
    ensures forall k :: 0 <= k < |labels| ==> v[k] == ValueOf(m, field, labels[k])
  {
    seq(|labels|, k requires 0 <= k < |labels| => ValueOf(m, field, labels[k]))
  }

  predicate Distinct<T(==)>(s: seq<T>) {
    forall i, j :: 0 <= i < j < |s| ==> s[i] != s[j]
  }

  /** `unique()`: the distinct values of `s`, each once. */
  function Unique(s: seq<string>): (u: seq<string>)
    ensures Distinct(u)
    ensures forall x :: x in u <==> x in s
  {
    if |s| == 0 then []
    else
      var before := Unique(s[..|s| - 1]);
      assert s == s[..|s| - 1] + [s[|s| - 1]];
      if s[|s| - 1] in before then before else before + [s[|s| - 1]]
  }

  /** `train[train[field] == c]`: the labels of the records of class `c`,
      in table order. */
  function Pool(m: Metadata, field: string, labels: seq<nat>, c: string): (p: seq<nat>)
    requires InRange(labels, |m.data|) && HasField(m, field)
    ensures InRange(p, |m.data|)
    ensures forall k :: 0 <= k < |p| ==> p[k] in labels && ValueOf(m, field, p[k]) == c
    ensures forall k :: 0 <= k < |labels| && ValueOf(m, field, labels[k]) == c ==> labels[k] in p
  {
    if |labels| == 0 then []
    else
      var n := |labels| - 1;
      var before := Pool(m, field, labels[..n], c);
      assert forall k :: 0 <= k < n ==> labels[..n][k] == labels[k];
      if ValueOf(m, field, labels[n]) == c then before + [labels[n]] else before
  }

  /** A pool drawn from records in table order is itself in table order,
      so it holds no label twice. */
  lemma {:induction false} PoolOrdered(m: Metadata, field: string, labels: seq<nat>, c: string)
    requires ValidLabels(labels, |m.data|) && HasField(m, field)
    ensures ValidLabels(Pool(m, field, labels, c), |m.data|)
    ensures Distinct(Pool(m, field, labels, c))
  {
    PoolIncreasing(m, field, labels, c);
    var p := Pool(m, field, labels, c);
    assert forall i, j :: 0 <= i < j < |p| ==> p[i] < p[j];
  }

  lemma {:induction false} PoolIncreasing(m: Metadata, field: string, labels: seq<nat>, c: string)
    requires ValidLabels(labels, |m.data|) && HasField(m, field)
    ensures ValidLabels(Pool(m, field, labels, c), |m.data|)
  {
    if |labels| > 0 {
      var n := |labels| - 1;
      var front := labels[..n];
      assert ValidLabels(front, |m.data|);
      PoolIncreasing(m, field, front, c);
      var before := Pool(m, field, front, c);
      if ValueOf(m, field, labels[n]) == c {
        forall k | 0 <= k < |before| ensures before[k] < labels[n] {
          var i :| 0 <= i < n && front[i] == before[k];
        }
        IncreasingSnoc(before, labels[n], |m.data|);
      }
    }
  }

  lemma IncreasingSnoc(s: seq<nat>, x: nat, bound: nat)
    requires ValidLabels(s, bound) && x < bound
    requires forall k :: 0 <= k < |s| ==> s[k] < x
    ensures ValidLabels(s + [x], bound)
  {
    var t := s + [x];
    assert forall k :: 0 <= k < |s| ==> t[k] == s[k];
  }

  /** Every class value taken from the records has a non-empty pool. */
  lemma PoolNonEmpty(m: Metadata, field: string, labels: seq<nat>, c: string)
    requires InRange(labels, |m.data|) && HasField(m, field)
    requires c in Values(m, field, labels)
    ensures |Pool(m, field, labels, c)| > 0
  {
    var v := Values(m, field, labels);
    var k :| 0 <= k < |v| && v[k] == c;
    assert labels[k] in Pool(m, field, labels, c);
  }

  /** `pool.sample(n=n, replace=|pool| < n)`: `n` labels of the pool, with
      no label twice unless the pool is smaller than `n`. */
  predicate IsDraw(pool: seq<nat>, n: nat, rec: seq<nat>) {
    && |rec| == n
    && (forall k :: 0 <= k < |rec| ==> rec[k] in pool)
    && (n <= |pool| ==> Distinct(rec))
  }

  /** Some draw exists whenever the pool is non-empty. */
  lemma DrawExists(pool: seq<nat>, n: nat)
    requires |pool| > 0 && Distinct(pool)
    ensures exists rec :: IsDraw(pool, n, rec)
  {
    if n <= |pool| {
      assert IsDraw(pool, n, pool[..n]);
    } else {
      assert IsDraw(pool, n, seq(n, _ => pool[0]));
    }
  }

  /** `pd.concat(sample)`. */
  function Flatten<T>(ds: seq<seq<T>>): seq<T> {
    if |ds| == 0 then [] else Flatten(ds[..|ds| - 1]) + ds[|ds| - 1]
  }

  lemma {:induction false} FlattenCons<T>(x: seq<T>, ds: seq<seq<T>>)
    ensures Flatten([x] + ds) == x + Flatten(ds)
  {
    if |ds| == 0 {
      assert [x] + ds == [x];
      assert [x][..0] == [];
    } else {
      var n := |ds| - 1;
      assert ([x] + ds)[..|ds|] == [x] + ds[..n];
      FlattenCons(x, ds[..n]);
    }
  }

  /** The classes of the training records, each once. */
  function Classes(m: Metadata, field: string): seq<string>
    requires ValidMetadata(m) && HasField(m, field)
  {
    Unique(Values(m, field, m.train))
  }

  /** There is a class exactly when there is a training record. */
  lemma ClassesEmpty(m: Metadata, field: string)
    requires ValidMetadata(m) && HasField(m, field)
    ensures |Classes(m, field)| == 0 <==> |m.train| == 0
  {
    var v := Values(m, field, m.train);
    if |m.train| > 0 {
      assert v[0] in v;
      assert v[0] in Classes(m, field);
    }
  }

  /** `sample` is a shuffle of one draw of `n` records per class. */
  ghost predicate IsStratified(m: Metadata, field: string, n: nat, draws: seq<seq<nat>>, sample: seq<Row>) {
    && ValidMetadata(m) && HasField(m, field)
    && |draws| == |Classes(m, field)|
    && (forall i :: 0 <= i < |draws| ==>
          IsDraw(Pool(m, field, m.train, Classes(m, field)[i]), n, draws[i]))
    && InRange(Flatten(draws), |m.data|)
    && multiset(sample) == multiset(RowsOf(m, Flatten(draws)))
  }

  // ---------------------------------------------------------------------
  // Counting records per class
  // ---------------------------------------------------------------------

  /** The number of records whose sampling value is `c`. */
  function CountValue(rows: seq<Row>, field: string, c: string): nat {
    if |rows| == 0 then 0
    else
      var last := rows[|rows| - 1];
      CountValue(rows[..|rows| - 1], field, c)
        + (if field in last.fields && last.fields[field] == c then 1 else 0)
  }

  lemma {:induction false} CountAppend(a: seq<Row>, b: seq<Row>, field: string, c: string)
    ensures CountValue(a + b, field, c) == CountValue(a, field, c) + CountValue(b, field, c)
  {
    if |b| == 0 {
      assert a + b == a;
    } else {
      var n := |b| - 1;
      assert (a + b)[..|a + b| - 1] == a + b[..n];
      CountAppend(a, b[..n], field, c);
    }
  }

  /** Removing the element at `j` removes one occurrence from the multiset
      and its contribution from every count. */
  lemma RemoveAt(b: seq<Row>, j: nat, field: string, c: string)
    requires j < |b|
    ensures multiset(b[..j] + b[j + 1..]) == multiset(b) - multiset{b[j]}
    ensures CountValue(b, field, c) == CountValue(b[..j] + b[j + 1..], field, c) + CountValue([b[j]], field, c)
  {
    var x := b[j];
    assert b == b[..j] + [x] + b[j + 1..];
    CountAppend(b[..j] + [x], b[j + 1..], field, c);
    CountAppend(b[..j], [x], field, c);
    CountAppend(b[..j], b[j + 1..], field, c);
  }

  /** Shuffling does not change the count of any class. */
  lemma {:induction false} CountPermutation(a: seq<Row>, b: seq<Row>, field: string, c: string)
    requires multiset(a) == multiset(b)
    ensures CountValue(a, field, c) == CountValue(b, field, c)
    decreases |a|
  {
    if |a| == 0 {
      assert |multiset(b)| == 0;
    } else {
      var n := |a| - 1;
      var x := a[n];
      assert a == a[..n] + [x];
      assert multiset(a[..n]) == multiset(a) - multiset{x};
      assert x in multiset(b);
      var j :| 0 <= j < |b| && b[j] == x;
      RemoveAt(b, j, field, c);
      CountPermutation(a[..n], b[..j] + b[j + 1..], field, c);
      CountAppend(a[..n], [x], field, c);
    }
  }

  /** A draw from the pool of `c` contributes all its records to `c` and
      none to any other class. */
  lemma {:induction false} CountOfDraw(m: Metadata, field: string, c: string, rec: seq<nat>, d: string)
    requires HasField(m, field) && InRange(rec, |m.data|)
    requires forall k :: 0 <= k < |rec| ==> ValueOf(m, field, rec[k]) == c
    ensures CountValue(RowsOf(m, rec), field, d) == if c == d then |rec| else 0
  {
    if |rec| > 0 {
      var n := |rec| - 1;
      assert RowsOf(m, rec)[..n] == RowsOf(m, rec[..n]);
      CountOfDraw(m, field, c, rec[..n], d);
    }
  }

  lemma RowsOfAppend(m: Metadata, a: seq<nat>, b: seq<nat>)
    requires InRange(a, |m.data|) && InRange(b, |m.data|)
    ensures InRange(a + b, |m.data|)
    ensures RowsOf(m, a + b) == RowsOf(m, a) + RowsOf(m, b)
  {
  }

  lemma {:induction false} FlattenMember<T>(ds: seq<seq<T>>, x: T)
    requires x in Flatten(ds)
    ensures exists i :: 0 <= i < |ds| && x in ds[i]
  {
    var n := |ds| - 1;
    if x !in ds[n] {
      FlattenMember(ds[..n], x);
      var i :| 0 <= i < n && x in ds[..n][i];
      assert ds[i] == ds[..n][i];
    }
  }

  /** A draw from the pool of `c` consists of records of class `c`. */
  lemma DrawOfClass(m: Metadata, field: string, n: nat, c: string, d: seq<nat>)
    requires ValidMetadata(m) && HasField(m, field)
    requires IsDraw(Pool(m, field, m.train, c), n, d)
    ensures InRange(d, |m.data|)
    ensures forall t :: 0 <= t < |d| ==> ValueOf(m, field, d[t]) == c
  {
    var pool := Pool(m, field, m.train, c);
    assert forall t :: 0 <= t < |d| ==> d[t] in pool;
  }

  ghost predicate DrawsPerClass(m: Metadata, field: string, n: nat, cs: seq<string>, draws: seq<seq<nat>>)
    requires ValidMetadata(m) && HasField(m, field)
  {
    && |draws| == |cs|
    && forall j :: 0 <= j < |draws| ==> IsDraw(Pool(m, field, m.train, cs[j]), n, draws[j])
  }

  /** The first `k` draws together hold `k * n` training labels. */
  lemma {:induction false} FlattenDraws(m: Metadata, field: string, n: nat, cs: seq<string>, draws: seq<seq<nat>>, k: nat)
    requires ValidMetadata(m) && HasField(m, field)
    requires DrawsPerClass(m, field, n, cs, draws) && k <= |draws|
    ensures InRange(Flatten(draws[..k]), |m.data|)
    ensures |Flatten(draws[..k])| == k * n
  {
    if k == 0 {
      assert draws[..0] == [];
    } else {
      FlattenDraws(m, field, n, cs, draws, k - 1);
      assert draws[..k][..k - 1] == draws[..k - 1];
      DrawOfClass(m, field, n, cs[k - 1], draws[k - 1]);
      assert k * n == (k - 1) * n + n;
    }
  }

  /** Appending a draw of class `c` adds its records to the count of `c`
      and nothing to the count of any other class. */
  lemma CountSnocDraw(m: Metadata, field: string, prev: seq<nat>, d: seq<nat>, c: string, target: string)
    requires HasField(m, field) && InRange(prev, |m.data|) && InRange(d, |m.data|)
    requires forall t :: 0 <= t < |d| ==> ValueOf(m, field, d[t]) == c
    ensures InRange(prev + d, |m.data|)
    ensures CountValue(RowsOf(m, prev + d), field, target)
      == CountValue(RowsOf(m, prev), field, target) + (if c == target then |d| else 0)
  {
    RowsOfAppend(m, prev, d);
    CountAppend(RowsOf(m, prev), RowsOf(m, d), field, target);
    CountOfDraw(m, field, c, d, target);
  }

  /** The first `k` draws hold `n` records of each of the first `k` classes
      and none of the others. */
  lemma {:induction false} CountFlatten(m: Metadata, field: string, n: nat, cs: seq<string>, draws: seq<seq<nat>>, k: nat, i: nat)
    requires ValidMetadata(m) && HasField(m, field) && Distinct(cs)
    requires DrawsPerClass(m, field, n, cs, draws) && k <= |draws| && i < |draws|
    ensures InRange(Flatten(draws[..k]), |m.data|)
    ensures CountValue(RowsOf(m, Flatten(draws[..k])), field, cs[i]) == if i < k then n else 0
  {
    FlattenDraws(m, field, n, cs, draws, k);
    if k == 0 {
      assert draws[..0] == [];
    } else {
      CountFlatten(m, field, n, cs, draws, k - 1, i);
      var prev := Flatten(draws[..k - 1]);
      var d := draws[k - 1];
      assert draws[..k][..k - 1] == draws[..k - 1];
      assert Flatten(draws[..k]) == prev + d;
      DrawOfClass(m, field, n, cs[k - 1], d);
      CountSnocDraw(m, field, prev, d, cs[k - 1], cs[i]);
      assert (cs[k - 1] == cs[i]) == (k - 1 == i);
    }
  }

  /** After `shuffle_training_images`, each class value of the training
      records contributes exactly `n` records, every record of the sample
      carries one of those values, and the sample has |classes| * n records. */
  lemma StratifiedCounts(m: Metadata, field: string, n: nat, draws: seq<seq<nat>>, sample: seq<Row>)
    requires IsStratified(m, field, n, draws, sample)
    ensures |sample| == |Classes(m, field)| * n
    ensures forall i :: 0 <= i < |Classes(m, field)| ==> CountValue(sample, field, Classes(m, field)[i]) == n
    ensures forall r :: r in sample ==> field in r.fields && r.fields[field] in Classes(m, field)
  {
    var cs := Classes(m, field);
    var all := Flatten(draws);
    assert draws[..|draws|] == draws;
    FlattenDraws(m, field, n, cs, draws, |draws|);
    assert |multiset(sample)| == |multiset(RowsOf(m, all))|;
    forall i | 0 <= i < |cs| ensures CountValue(sample, field, cs[i]) == n {
      CountFlatten(m, field, n, cs, draws, |draws|, i);
      CountPermutation(sample, RowsOf(m, all), field, cs[i]);
    }
    forall r | r in sample ensures field in r.fields && r.fields[field] in cs {
      assert r in multiset(RowsOf(m, all));
      var k :| 0 <= k < |all| && RowsOf(m, all)[k] == r;
      FlattenMember(draws, all[k]);
      var i :| 0 <= i < |draws| && all[k] in draws[i];
      assert all[k] in Pool(m, field, m.train, cs[i]);
    }
  }
}
