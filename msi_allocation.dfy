/**
 * MSI interrupt index allocation of the Nereid SoC.
 *
 * The interrupt sources form a dictionary from a name to the signal that
 * raises it. The items are sorted (Python orders the `(name, signal)` pairs
 * by name first, and names of a dictionary are distinct), enumerated, and for
 * the i-th item MSI line i is driven by its signal and the constant
 * `<NAME>_INTERRUPT = i` is published.
 */
module MsiAllocation {

  /** An interrupt signal, identified by its place in the design. */
  datatype Irq = Irq(path: string)

  /** One item of the source dictionary: a name and its interrupt signal. */
  type Msi = (string, Irq)

  // ---------------------------------------------------------------------------
  // Python's ordering of strings: lexicographic by code point, a proper prefix first

  predicate LexLess(a: string, b: string)
    decreases |a|
  {
    |b| > 0 && (|a| == 0 || a[0] < b[0] || (a[0] == b[0] && LexLess(a[1..], b[1..])))
  }

  /** Two strings that agree before position `k` and differ there are ordered by that character. */
  lemma {:induction false} LexLessAt(a: string, b: string, k: nat)
    requires k < |a| && k < |b| && a[..k] == b[..k] && a[k] < b[k]
    ensures LexLess(a, b)
    decreases k
  {
    if k > 0 {
      assert a[0] == a[..k][0] == b[..k][0] == b[0];
      assert a[1..][..k - 1] == a[..k][1..] == b[..k][1..] == b[1..][..k - 1];
      LexLessAt(a[1..], b[1..], k - 1);
    }
  }

  lemma {:induction false} LexLessIrreflexive(a: string)
    ensures !LexLess(a, a)
    decreases |a|
  {
    if |a| > 0 {
      LexLessIrreflexive(a[1..]);
    }
  }

  lemma {:induction false} LexLessTransitive(a: string, b: string, c: string)
    requires LexLess(a, b) && LexLess(b, c)
    ensures LexLess(a, c)
    decreases |a|
  {
    if |a| > 0 && a[0] == b[0] && b[0] == c[0] {
      LexLessTransitive(a[1..], b[1..], c[1..]);
    }
  }

  lemma {:induction false} LexLessTotal(a: string, b: string)
    requires a != b
    ensures LexLess(a, b) || LexLess(b, a)
    decreases |a|
  {
    if |a| > 0 && |b| > 0 && a[0] == b[0] {
      assert a == [a[0]] + a[1..] && b == [b[0]] + b[1..];
      LexLessTotal(a[1..], b[1..]);
    }
  }

  lemma {:induction false} LexLessAsymmetric(a: string, b: string)
    requires LexLess(a, b)
    ensures !LexLess(b, a)
    decreases |a|
  {
    if |a| > 0 && a[0] == b[0] {
      LexLessAsymmetric(a[1..], b[1..]);
    }
  }

  // ---------------------------------------------------------------------------
  // `sorted(self.msis.items())`

  /** The names of a dictionary are distinct. */
  predicate DistinctNames(s: seq<Msi>)
  {
    forall i, j :: 0 <= i < j < |s| ==> s[i].0 != s[j].0
  }

  /** Strictly ascending by name. */
  predicate SortedByName(s: seq<Msi>)
  {
    forall i, j :: 0 <= i < j < |s| ==> LexLess(s[i].0, s[j].0)
  }

  /** A name below every name of a sorted sequence can go in front of it. */
  lemma SortedCons(h: Msi, t: seq<Msi>)
    requires SortedByName(t)
    requires forall j :: 0 <= j < |t| ==> LexLess(h.0, t[j].0)
    ensures SortedByName([h] + t)
  {
    var r := [h] + t;
    forall i, j | 0 <= i < j < |r|
      ensures LexLess(r[i].0, r[j].0)
    {
      if i == 0 {
        assert r[j] == t[j - 1];
      } else {
        assert r[i] == t[i - 1] && r[j] == t[j - 1];
      }
    }
  }

  /** A name below every element of a multiset's source sequence is below every element of an equal multiset. */
  lemma BelowAll(lo: string, s: seq<Msi>, r: seq<Msi>)
    requires multiset(r) <= multiset(s)
    requires forall j :: 0 <= j < |s| ==> LexLess(lo, s[j].0)
    ensures forall j :: 0 <= j < |r| ==> LexLess(lo, r[j].0)
  {
    forall j | 0 <= j < |r|
      ensures LexLess(lo, r[j].0)
    {
      assert r[j] in multiset(s);
      var p :| 0 <= p < |s| && s[p] == r[j];
    }
  }

  /** Inserting behind the head: the head stays below everything inserted after it. */
  lemma InsertAfterHead(x: Msi, s: seq<Msi>, rest: seq<Msi>)
    requires SortedByName(s) && |s| > 0 && LexLess(s[0].0, x.0)
    requires SortedByName(rest) && multiset(rest) == multiset(s[1..]) + multiset{x}
    ensures SortedByName([s[0]] + rest)
    ensures multiset([s[0]] + rest) == multiset(s) + multiset{x}
  {
    BelowAll(s[0].0, s[1..] + [x], rest);
    SortedCons(s[0], rest);
    assert s == [s[0]] + s[1..];
  }

  function Insert(x: Msi, s: seq<Msi>): (r: seq<Msi>)
    requires SortedByName(s)
    requires forall j :: 0 <= j < |s| ==> s[j].0 != x.0
    ensures SortedByName(r)
    ensures multiset(r) == multiset(s) + multiset{x}
  {
    if s == [] then [x]
    else if LexLess(s[0].0, x.0) then
      var rest := Insert(x, s[1..]);
      InsertAfterHead(x, s, rest);
      [s[0]] + rest
    else
      LexLessTotal(s[0].0, x.0);
      assert forall j :: 0 <= j < |s| ==> LexLess(x.0, s[j].0) by {
        forall j | 0 < j < |s|
          ensures LexLess(x.0, s[j].0)
        {
          LexLessTransitive(x.0, s[0].0, s[j].0);
        }
      }
      SortedCons(x, s);
      [x] + s
  }

  /** Insertion sort by name: the model of Python's `sorted` on dictionary items. */
  function Sort(s: seq<Msi>): (r: seq<Msi>)
    requires DistinctNames(s)
    ensures SortedByName(r)
    ensures multiset(r) == multiset(s)
  {
    if s == [] then []
    else
      var rest := Sort(s[1..]);
      NamesDiffer(s[0], s[1..], rest);
      assert s == [s[0]] + s[1..];
      Insert(s[0], rest)
  }

  /** An item whose name is in no element of `s` has a name in no element of a permutation of `s`. */
  lemma NamesDiffer(x: Msi, s: seq<Msi>, r: seq<Msi>)
    requires multiset(r) == multiset(s)
    requires forall j :: 0 <= j < |s| ==> s[j].0 != x.0
    ensures forall j :: 0 <= j < |r| ==> r[j].0 != x.0
  {
    forall j | 0 <= j < |r|
      ensures r[j].0 != x.0
    {
      assert r[j] in multiset(s);
      var p :| 0 <= p < |s| && s[p] == r[j];
    }
  }

  lemma SortedDistinct(s: seq<Msi>)
    requires SortedByName(s)
    ensures DistinctNames(s)
  {
    forall i, j | 0 <= i < j < |s|
      ensures s[i].0 != s[j].0
    {
      LexLessIrreflexive(s[i].0);
    }
  }

  // ---------------------------------------------------------------------------
  // The constants the loop publishes

  function ConstantName(name: string): string
  {
    name + "_INTERRUPT"
  }

  lemma ConstantNameInjective(a: string, b: string)
    requires ConstantName(a) == ConstantName(b)
    ensures a == b
  {
    assert |a| == |b|;
    assert a == ConstantName(a)[..|a|];
    assert b == ConstantName(b)[..|b|];
  }

  /** The constant table after the loop has handled the items of `sorted`, in order. */
  function ConstantTable(sorted: seq<Msi>): map<string, int>
  {
    if sorted == [] then map[]
    else
      var last := |sorted| - 1;
      ConstantTable(sorted[..last])[ConstantName(sorted[last].0) := last]
  }

  /** The i-th item's constant holds i. */
  lemma {:induction false} ConstantTableAt(sorted: seq<Msi>, i: int)
    requires DistinctNames(sorted)
    requires 0 <= i < |sorted|
    ensures ConstantName(sorted[i].0) in ConstantTable(sorted)
    ensures ConstantTable(sorted)[ConstantName(sorted[i].0)] == i
  {
    var last := |sorted| - 1;
    if i < last {
      ConstantTableAt(sorted[..last], i);
      if ConstantName(sorted[i].0) == ConstantName(sorted[last].0) {
        ConstantNameInjective(sorted[i].0, sorted[last].0);
      }
    }
  }

  /** Every constant in the table is the constant of the item at the index it holds. */
  lemma {:induction false} ConstantTableKeys(sorted: seq<Msi>)
    ensures forall k :: k in ConstantTable(sorted) ==>
      0 <= ConstantTable(sorted)[k] < |sorted| && ConstantName(sorted[ConstantTable(sorted)[k]].0) == k
  {
    if sorted != [] {
      var last := |sorted| - 1;
      ConstantTableKeys(sorted[..last]);
    }
  }

  // ---------------------------------------------------------------------------
  // Specification of the allocation

  /** `irqs[i]` of the MSI core is driven by the i-th signal in name order. */
  function MsiLines(msis: seq<Msi>): seq<Irq>
    requires DistinctNames(msis)
  {
    var sorted := Sort(msis);
    seq(|sorted|, i requires 0 <= i < |sorted| => sorted[i].1)
  }

  /** The `<NAME>_INTERRUPT` constants the allocation publishes. */
  function MsiConstants(msis: seq<Msi>): map<string, int>
    requires DistinctNames(msis)
  {
    ConstantTable(Sort(msis))
  }

  /** The enumerate-over-sorted loop: wires the MSI lines and fills the constant table. */
  method AllocateMsis(msis: seq<Msi>) returns (irqs: seq<Irq>, constants: map<string, int>)
    requires DistinctNames(msis)
    ensures irqs == MsiLines(msis)
    ensures constants == MsiConstants(msis)
  {
    var items := Sort(msis);
    irqs := [];
    constants := map[];
    var i := 0;
    while i < |items|
      invariant 0 <= i <= |items|
      invariant irqs == MsiLines(msis)[..i]
      invariant constants == ConstantTable(items[..i])
    {
      var (k, v) := items[i];
      irqs := irqs + [v];
      constants := constants[ConstantName(k) := i];
      assert items[..i + 1][..i] == items[..i];
      i := i + 1;
    }
    assert items[..i] == items;
  }

  lemma SortLength(msis: seq<Msi>)
    requires DistinctNames(msis)
    ensures |Sort(msis)| == |msis|
  {
    assert |multiset(Sort(msis))| == |multiset(msis)|;
  }

  /** Where the j-th dictionary item lands: its constant holds its position in name order. */
  lemma MsiPosition(msis: seq<Msi>, j: int)
    requires DistinctNames(msis)
    requires 0 <= j < |msis|
    ensures ConstantName(msis[j].0) in MsiConstants(msis)
    ensures 0 <= MsiConstants(msis)[ConstantName(msis[j].0)] < |Sort(msis)|
    ensures Sort(msis)[MsiConstants(msis)[ConstantName(msis[j].0)]] == msis[j]
  {
    var sorted := Sort(msis);
    SortedDistinct(sorted);
    assert msis[j] in multiset(sorted);
    var p :| 0 <= p < |sorted| && sorted[p] == msis[j];
    ConstantTableAt(sorted, p);
  }

  /** Every published constant is the constant of one of the names: the table has no other keys. */
  lemma ConstantKeysFromNames(msis: seq<Msi>)
    requires DistinctNames(msis)
    ensures forall k :: k in MsiConstants(msis) ==>
      exists j :: 0 <= j < |msis| && k == ConstantName(msis[j].0)
  {
    var sorted := Sort(msis);
    ConstantTableKeys(sorted);
    forall k | k in MsiConstants(msis)
      ensures exists j :: 0 <= j < |msis| && k == ConstantName(msis[j].0)
    {
      var p := MsiConstants(msis)[k];
      assert sorted[p] in multiset(msis);
      var j :| 0 <= j < |msis| && msis[j] == sorted[p];
    }
  }

  /**
   * The allocation is a bijection from the names onto 0..N-1 that follows
   * name order, and line `c` is driven by the signal of the name whose
   * constant holds `c`.
   */
  lemma MsiAllocationBijective(msis: seq<Msi>)
    requires DistinctNames(msis)
    ensures |MsiLines(msis)| == |msis|
    ensures forall j :: 0 <= j < |msis| ==>
      ConstantName(msis[j].0) in MsiConstants(msis) &&
      0 <= MsiConstants(msis)[ConstantName(msis[j].0)] < |msis| &&
      MsiLines(msis)[MsiConstants(msis)[ConstantName(msis[j].0)]] == msis[j].1
    ensures forall j1, j2 :: 0 <= j1 < |msis| && 0 <= j2 < |msis| ==>
      (MsiConstants(msis)[ConstantName(msis[j1].0)] < MsiConstants(msis)[ConstantName(msis[j2].0)]
       <==> LexLess(msis[j1].0, msis[j2].0))
    ensures forall i :: i in MsiConstants(msis).Values <==> 0 <= i < |msis|
    ensures forall k :: k in MsiConstants(msis) ==>
      exists j :: 0 <= j < |msis| && k == ConstantName(msis[j].0)
  {
    var sorted := Sort(msis);
    var c := MsiConstants(msis);
    SortLength(msis);
    SortedDistinct(sorted);
    forall j | 0 <= j < |msis|
      ensures ConstantName(msis[j].0) in c && 0 <= c[ConstantName(msis[j].0)] < |msis|
      ensures sorted[c[ConstantName(msis[j].0)]] == msis[j]
    {
      MsiPosition(msis, j);
    }
    forall j1, j2 | 0 <= j1 < |msis| && 0 <= j2 < |msis|
      ensures c[ConstantName(msis[j1].0)] < c[ConstantName(msis[j2].0)] <==> LexLess(msis[j1].0, msis[j2].0)
    {
      var p1, p2 := c[ConstantName(msis[j1].0)], c[ConstantName(msis[j2].0)];
      if p1 == p2 {
        LexLessIrreflexive(msis[j1].0);
      } else if p2 < p1 {
        LexLessAsymmetric(msis[j2].0, msis[j1].0);
      }
    }
    ConstantTableKeys(sorted);
    forall i | 0 <= i < |msis|
      ensures i in c.Values
    {
      ConstantTableAt(sorted, i);
      assert c[ConstantName(sorted[i].0)] == i;
    }
    ConstantKeysFromNames(msis);
  }

  // ---------------------------------------------------------------------------
  // The Nereid SoC's two sources

  /** The dictionary as written: the DMA writer's interrupt first, then the reader's. */
  const NereidMsis: seq<Msi> := [
    ("DMA_WRITER", Irq("pcie_dma.writer.irq")),
    ("DMA_READER", Irq("pcie_dma.reader.irq"))
  ]

  /** In name order the reader comes first. */
  lemma NereidSorted()
    ensures DistinctNames(NereidMsis)
    ensures Sort(NereidMsis) == [NereidMsis[1], NereidMsis[0]]
  {
    var w, r := NereidMsis[0], NereidMsis[1];
    LexLessAt("DMA_READER", "DMA_WRITER", 4);
    assert [w, r][1..] == [r];
    assert Sort([r]) == [r] by {
      assert [r][1..] == [];
    }
    assert Insert(w, [r]) == [r, w] by {
      assert [r][1..] == [];
    }
  }

  lemma ConstantTableOfTwo(a: Msi, b: Msi)
    ensures ConstantTable([a, b]) == map[ConstantName(a.0) := 0][ConstantName(b.0) := 1]
  {
    assert [a, b][..1] == [a];
    assert [a][..0] == [];
    assert ConstantTable([a]) == map[ConstantName(a.0) := 0];
  }

  lemma NereidConstantNames()
    ensures ConstantName(NereidMsis[1].0) == "DMA_READER_INTERRUPT"
    ensures ConstantName(NereidMsis[0].0) == "DMA_WRITER_INTERRUPT"
  {
  }

  /** DMA_READER_INTERRUPT = 0 and DMA_WRITER_INTERRUPT = 1; line 0 is the reader's, line 1 the writer's. */
  lemma NereidMsiAllocation()
    ensures DistinctNames(NereidMsis)
    ensures MsiLines(NereidMsis) == [Irq("pcie_dma.reader.irq"), Irq("pcie_dma.writer.irq")]
    ensures MsiConstants(NereidMsis) == map["DMA_READER_INTERRUPT" := 0, "DMA_WRITER_INTERRUPT" := 1]
  {
    NereidSorted();
    ConstantTableOfTwo(NereidMsis[1], NereidMsis[0]);
    NereidConstantNames();
  }
}
