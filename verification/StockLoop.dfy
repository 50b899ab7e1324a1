/**
 * When the stock loop of a payment goes through, and what it leaves. `findMany` has no `orderBy`,
 * so nothing may depend on the order of the lines.
 */
module StockLoop {
  import opened Wrappers
  import opened Store
  import opened PaymentTx

  /** Every variant named exists and has all the units the lines together ask of it. */
  ghost predicate Enough(stock: map<int, int>, lines: seq<Line>) {
    forall i | 0 <= i < |lines| ::
      lines[i].variantId in stock && Needed(lines, lines[i].variantId) <= stock[lines[i].variantId]
  }

  ghost predicate AllListed(stock: map<int, int>, lines: seq<Line>) {
    forall i | 0 <= i < |lines| :: lines[i].variantId in stock
  }

  /** `low` is `high` less the units the lines ask of each variant. */
  ghost predicate Less(high: map<int, int>, low: map<int, int>, lines: seq<Line>) {
    low.Keys == high.Keys
    && forall v | v in high :: low[v] == high[v] - Needed(lines, v)
  }

  lemma {:induction false} NeededAtLeast(lines: seq<Line>, i: int)
    requires Quantities(lines) && 0 <= i < |lines|
    ensures Needed(lines, lines[i].variantId) >= lines[i].quantity
  {
    if i > 0 {
      NeededAtLeast(lines[1..], i - 1);
    } else {
      NeededNonNegative(lines[1..], lines[0].variantId);
    }
  }

  lemma {:induction false} NeededNonNegative(lines: seq<Line>, v: int)
    requires Quantities(lines)
    ensures Needed(lines, v) >= 0
    ensures Needed(lines, v) > 0 ==> exists i | 0 <= i < |lines| :: lines[i].variantId == v
  {
    if lines != [] {
      NeededNonNegative(lines[1..], v);
      if Needed(lines[1..], v) > 0 {
        var i :| 0 <= i < |lines[1..]| && lines[1..][i].variantId == v;
        assert lines[i + 1].variantId == v;
      } else if lines[0].variantId == v {
        assert lines[0].variantId == v;
      }
    }
  }

  /** The loop goes through exactly when the summed demand on every variant is covered; then it takes just that. */
  lemma {:induction false} ReserveExactly(stock: map<int, int>, lines: seq<Line>)
    requires Quantities(lines)
    ensures Reserve(stock, lines).Success? <==> Enough(stock, lines)
    ensures Reserve(stock, lines).Success? ==> Less(stock, Reserve(stock, lines).value, lines)
  {
    if lines != [] {
      var item, rest := lines[0], lines[1..];
      NeededAtLeast(lines, 0);
      if item.variantId in stock && stock[item.variantId] >= item.quantity {
        var stock' := stock[item.variantId := stock[item.variantId] - item.quantity];
        ReserveExactly(stock', rest);
        if Enough(stock', rest) {
          EnoughAfterFirst(stock, lines);
        }
        if Enough(stock, lines) {
          forall i | 0 <= i < |rest|
            ensures rest[i].variantId in stock' && Needed(rest, rest[i].variantId) <= stock'[rest[i].variantId]
          {
            assert rest[i] == lines[i + 1];
          }
        }
      }
    }
  }

  lemma EnoughAfterFirst(stock: map<int, int>, lines: seq<Line>)
    requires Quantities(lines) && lines != []
    requires lines[0].variantId in stock && stock[lines[0].variantId] >= lines[0].quantity
    requires Enough(stock[lines[0].variantId := stock[lines[0].variantId] - lines[0].quantity], lines[1..])
    ensures Enough(stock, lines)
  {
    var v0, rest := lines[0].variantId, lines[1..];
    NeededNonNegative(rest, v0);
    assert Needed(lines, v0) <= stock[v0] by {
      if Needed(rest, v0) > 0 {
        var i :| 0 <= i < |rest| && rest[i].variantId == v0;
      }
    }
    forall i | 0 <= i < |lines|
      ensures lines[i].variantId in stock && Needed(lines, lines[i].variantId) <= stock[lines[i].variantId]
    {
      if i > 0 {
        assert rest[i - 1] == lines[i];
      }
    }
  }

  /** Giving back fails only on a variant that is gone. */
  lemma {:induction false} ReturnExactly(stock: map<int, int>, lines: seq<Line>)
    ensures Return(stock, lines).Success? <==> AllListed(stock, lines)
    ensures Return(stock, lines).Success? ==> Less(Return(stock, lines).value, stock, lines)
  {
    if lines != [] {
      var item, rest := lines[0], lines[1..];
      if item.variantId in stock {
        var stock' := stock[item.variantId := stock[item.variantId] + item.quantity];
        ReturnExactly(stock', rest);
        if AllListed(stock', rest) {
          forall i | 0 <= i < |lines| ensures lines[i].variantId in stock {
            if i > 0 { assert rest[i - 1] == lines[i]; }
          }
        }
        if AllListed(stock, lines) {
          forall i | 0 <= i < |rest| ensures rest[i].variantId in stock' {
            assert rest[i] == lines[i + 1];
          }
        }
      }
    }
  }

  // ---- Order of the lines ------------------------------------------------------------------

  lemma {:induction false} NeededWithout(lines: seq<Line>, i: int, v: int)
    requires 0 <= i < |lines|
    ensures Needed(lines, v)
            == (if lines[i].variantId == v then lines[i].quantity else 0) + Needed(lines[..i] + lines[i + 1..], v)
  {
    if i == 0 {
      assert lines[..0] + lines[1..] == lines[1..];
    } else {
      NeededWithout(lines[1..], i - 1, v);
      var without := lines[..i] + lines[i + 1..];
      assert without[0] == lines[0];
      assert without[1..] == lines[1..][..i - 1] + lines[1..][i..];
    }
  }

  lemma RowsWithout(lines: seq<Line>, i: int)
    requires 0 <= i < |lines|
    ensures multiset(lines[..i] + lines[i + 1..]) == multiset(lines) - multiset{lines[i]}
  {
    assert lines == lines[..i] + [lines[i]] + lines[i + 1..];
  }

  lemma {:induction false} NeededSameRows(a: seq<Line>, b: seq<Line>, v: int)
    requires multiset(a) == multiset(b)
    ensures Needed(a, v) == Needed(b, v)
    decreases |a|
  {
    if a == [] {
      assert |multiset(b)| == 0;
    } else {
      var rest := a[1..];
      var i := SameRowsSameIndex(a, b, 0);
      var b' := b[..i] + b[i + 1..];
      assert multiset(rest) == multiset(b') by {
        RowsWithout(a, 0);
        RowsWithout(b, i);
        assert a[..0] + a[1..] == rest;
      }
      NeededSameRows(rest, b', v);
      NeededWithout(b, i, v);
    }
  }

  lemma SameRowsSameIndex(a: seq<Line>, b: seq<Line>, i: int) returns (j: int)
    requires multiset(a) == multiset(b) && 0 <= i < |a|
    ensures 0 <= j < |b| && b[j] == a[i]
  {
    assert a[i] in multiset(b);
    j :| 0 <= j < |b| && b[j] == a[i];
  }

  lemma EnoughSameRows(stock: map<int, int>, a: seq<Line>, b: seq<Line>)
    requires multiset(a) == multiset(b) && Enough(stock, b)
    ensures Enough(stock, a)
  {
    forall i | 0 <= i < |a|
      ensures a[i].variantId in stock && Needed(a, a[i].variantId) <= stock[a[i].variantId]
    {
      var j := SameRowsSameIndex(a, b, i);
      NeededSameRows(a, b, a[i].variantId);
    }
  }

  lemma QuantitiesSameRows(a: seq<Line>, b: seq<Line>)
    requires multiset(a) == multiset(b) && Quantities(b)
    ensures Quantities(a)
  {
    forall i | 0 <= i < |a| ensures a[i].quantity >= 1 {
      var j := SameRowsSameIndex(a, b, i);
    }
  }

  /** In whatever order the lines arrive, the stock loop succeeds or not alike and leaves the same stock. */
  lemma ReserveAnyOrder(stock: map<int, int>, a: seq<Line>, b: seq<Line>)
    requires multiset(a) == multiset(b) && Quantities(b)
    ensures SameEffect(Reserve(stock, a), Reserve(stock, b))
  {
    QuantitiesSameRows(a, b);
    ReserveExactly(stock, a);
    ReserveExactly(stock, b);
    if Enough(stock, b) { EnoughSameRows(stock, a, b); }
    if Enough(stock, a) { EnoughSameRows(stock, b, a); }
    if Enough(stock, a) {
      var x, y := Reserve(stock, a).value, Reserve(stock, b).value;
      forall v | v in stock ensures x[v] == y[v] { NeededSameRows(a, b, v); }
      assert x == y;
    }
  }

  lemma ReturnAnyOrder(stock: map<int, int>, a: seq<Line>, b: seq<Line>)
    requires multiset(a) == multiset(b)
    ensures SameEffect(Return(stock, a), Return(stock, b))
  {
    ReturnExactly(stock, a);
    ReturnExactly(stock, b);
    forall i | 0 <= i < |a| ensures AllListed(stock, b) ==> a[i].variantId in stock {
      var j := SameRowsSameIndex(a, b, i);
    }
    forall i | 0 <= i < |b| ensures AllListed(stock, a) ==> b[i].variantId in stock {
      var j := SameRowsSameIndex(b, a, i);
    }
    if AllListed(stock, a) {
      var x, y := Return(stock, a).value, Return(stock, b).value;
      forall v | v in x ensures x[v] == y[v] { NeededSameRows(a, b, v); }
      assert x == y;
    }
  }

  /** Giving back what was taken restores every variant, however often it is named. */
  lemma ReturnUndoesReserve(stock: map<int, int>, lines: seq<Line>)
    requires Quantities(lines) && Reserve(stock, lines).Success?
    ensures Return(Reserve(stock, lines).value, lines) == Success(stock)
  {
    var reserved := Reserve(stock, lines).value;
    ReserveExactly(stock, lines);
    ReturnExactly(reserved, lines);
    assert AllListed(reserved, lines);
    var back := Return(reserved, lines).value;
    forall v | v in stock ensures v in back && back[v] == stock[v] {
      assert v in reserved;
    }
    assert back.Keys == stock.Keys;
    assert back == stock;
  }
}
