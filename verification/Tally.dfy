/** Sums over the rows of a table: an amount of money and a number of stock units per row. */
module Tally {

  datatype Tally = Tally(money: real, units: int) {
    function Plus(that: Tally): Tally {
      Tally(money + that.money, units + that.units)
    }
  }

  const ZERO := Tally(0.0, 0)

  ghost function Sum(rows: map<int, Tally>): Tally
    decreases |rows.Keys|
  {
    if rows.Keys == {} then ZERO
    else
      var k := Pick(rows);
      assert (rows - {k}).Keys == rows.Keys - {k};
      rows[k].Plus(Sum(rows - {k}))
  }

  ghost function Pick(rows: map<int, Tally>): (k: int)
    requires rows.Keys != {}
    ensures k in rows
  {
    assert (forall k :: k !in rows.Keys) ==> rows.Keys == {};
    var k :| k in rows.Keys; k
  }

  /** Any row may be taken out first, whichever one `Sum` itself picks. */
  lemma {:induction false} SumTakeOut(rows: map<int, Tally>, k: int)
    requires k in rows
    ensures Sum(rows) == rows[k].Plus(Sum(rows - {k}))
    decreases |rows.Keys|
  {
    var j := Pick(rows);
    if j != k {
      assert (rows - {j}).Keys == rows.Keys - {j};
      assert (rows - {k}).Keys == rows.Keys - {k};
      SumTakeOut(rows - {j}, k);
      SumTakeOut(rows - {k}, j);
      assert rows - {j} - {k} == rows - {k} - {j};
    }
  }

  /** Writing one row changes the sum by the difference at that row. */
  lemma SumUpdate(rows: map<int, Tally>, k: int, t: Tally)
    ensures var before := if k in rows then rows[k] else ZERO;
            && Sum(rows[k := t]).money == Sum(rows).money + t.money - before.money
            && Sum(rows[k := t]).units == Sum(rows).units + t.units - before.units
  {
    SumTakeOut(rows[k := t], k);
    assert rows[k := t] - {k} == rows - {k};
    if k in rows {
      SumTakeOut(rows, k);
    } else {
      assert rows - {k} == rows;
    }
  }
}
