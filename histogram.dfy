/** The error tally `failed_requests_summary`: a dictionary from error key to
    the number of failed attempts that produced it. */
module Histogram {

  type Hist = map<string, nat>

  /** `d.get(k, 0)` */
  function Get(h: Hist, k: string): nat {
    if k in h then h[k] else 0
  }

  /** `d[k] = d.get(k, 0) + 1`: one key goes up by one, every other key keeps its count. */
  function Bump(h: Hist, k: string): (h': Hist)
    ensures h'.Keys == h.Keys + {k}
    ensures Get(h', k) == Get(h, k) + 1
    ensures forall j :: j != k ==> Get(h', j) == Get(h, j)
  {
    h[k := Get(h, k) + 1]
  }

  ghost function PickKey(h: Hist): string
    requires h != map[]
  {
    var k :| k in h; k
  }

  /** `sum(d.values())` */
  ghost function SumValues(h: Hist): nat
    decreases |h|
  {
    if h == map[] then 0
    else
      var k := PickKey(h);
      assert (h - {k}).Keys < h.Keys;
      h[k] + SumValues(h - {k})
  }

  lemma CardRemove(h: Hist, k: string)
    requires k in h
    ensures |h - {k}| == |h| - 1
  {
  }

  /** The sum does not depend on which key is taken out first. */
  lemma {:induction false} SumValuesRemove(h: Hist, k: string)
    requires k in h
    ensures SumValues(h) == h[k] + SumValues(h - {k})
    decreases |h|
  {
    var j := PickKey(h);
    if j != k {
      CardRemove(h, j);
      CardRemove(h, k);
      SumValuesRemove(h - {j}, k);
      SumValuesRemove(h - {k}, j);
      assert h - {j} - {k} == h - {k} - {j};
    }
  }

  /** One increment adds exactly one to the total of the tally. */
  lemma BumpSum(h: Hist, k: string)
    ensures SumValues(Bump(h, k)) == SumValues(h) + 1
  {
    var h' := Bump(h, k);
    SumValuesRemove(h', k);
    assert h' - {k} == h - {k};
    if k in h {
      SumValuesRemove(h, k);
    } else {
      assert h - {k} == h;
    }
  }
}
