/** The total of the values of a finite map. */
module MapSum {

  ghost function Sum<K(!new)>(m: map<K, nat>): nat {
    if m == map[] then 0
    else
      var k :| k in m;
      m[k] + Sum(m - {k})
  }

  /** The total can be taken apart at any key. */
  lemma {:induction false} SumWithout<K(!new)>(m: map<K, nat>, k: K)
    requires k in m
    ensures Sum(m) == m[k] + Sum(m - {k})
  {
    var x :| x in m && Sum(m) == m[x] + Sum(m - {x});
    if x != k {
      SumWithout(m - {x}, k);
      SumWithout(m - {k}, x);
      assert m - {x} - {k} == m - {k} - {x};
    }
  }

  lemma SumWith<K(!new)>(m: map<K, nat>, k: K, v: nat)
    requires k !in m
    ensures Sum(m[k := v]) == Sum(m) + v
  {
    SumWithout(m[k := v], k);
    assert m[k := v] - {k} == m;
  }

  /** A part never totals more than the whole. */
  lemma {:induction false} SumOfPart<K(!new)>(part: map<K, nat>, whole: map<K, nat>)
    requires part.Keys <= whole.Keys && forall k :: k in part ==> part[k] == whole[k]
    ensures Sum(part) <= Sum(whole)
    decreases |part|
  {
    if part != map[] {
      var k :| k in part;
      SumWithout(part, k);
      SumWithout(whole, k);
      SumOfPart(part - {k}, whole - {k});
    }
  }

  /** The whole is the part and the rest. */
  lemma {:induction false} SumOfRest<K(!new)>(part: map<K, nat>, whole: map<K, nat>)
    requires part.Keys <= whole.Keys && forall k :: k in part ==> part[k] == whole[k]
    ensures Sum(whole) == Sum(part) + Sum(whole - part.Keys)
    decreases |part|
  {
    if part == map[] {
      assert whole - part.Keys == whole;
    } else {
      var k :| k in part;
      SumWithout(part, k);
      SumWithout(whole, k);
      SumOfRest(part - {k}, whole - {k});
      SameRest(part, whole, k);
    }
  }

  lemma SameRest<K(!new)>(part: map<K, nat>, whole: map<K, nat>, k: K)
    requires k in part
    ensures (whole - {k}) - (part - {k}).Keys == whole - part.Keys
  {
  }
}
