/** The lines of one cart and the pure computations the cart handlers
    perform on them: the line lookup, the running total, adding a line,
    setting or dropping a line's quantity and folding one cart into another. */
module CartLines {
  import opened Common

  /** One cart line. Prices and quantities are whole numbers (cents and
      units), so that sums are exact. */
  datatype Line = Line(productId: string, name: string, image: string, price: int,
                       size: string, color: string, quantity: int)

  /** What identifies a line within a cart; the quantity never takes part. */
  datatype Key = Key(productId: string, size: string, color: string)

  function KeyOf(l: Line): Key
  {
    Key(l.productId, l.size, l.color)
  }

  predicate Has(s: seq<Line>, k: Key)
  {
    exists j :: 0 <= j < |s| && KeyOf(s[j]) == k
  }

  /** No two lines of `s` share a key. */
  predicate UniqueKeys(s: seq<Line>)
  {
    forall i, j :: 0 <= i < j < |s| ==> KeyOf(s[i]) != KeyOf(s[j])
  }

  /** The lookup `products.findIndex(...)` on the key: the index of the
      first line with key `k`, or -1 when there is none. */
  function FindIndex(s: seq<Line>, k: Key): (r: int)
    ensures -1 <= r < |s|
    ensures r >= 0 ==> KeyOf(s[r]) == k && forall j :: 0 <= j < r ==> KeyOf(s[j]) != k
    ensures r == -1 <==> !Has(s, k)
  {
    FindIndexFrom(s, k, 0)
  }

  /** The scan behind `FindIndex`, from position `n` on. */
  function FindIndexFrom(s: seq<Line>, k: Key, n: nat): (r: int)
    requires n <= |s|
    ensures r == -1 || n <= r < |s|
    ensures r >= 0 ==> KeyOf(s[r]) == k && forall j :: n <= j < r ==> KeyOf(s[j]) != k
    ensures r == -1 ==> forall j :: n <= j < |s| ==> KeyOf(s[j]) != k
    decreases |s| - n
  {
    if n == |s| then -1
    else if KeyOf(s[n]) == k then n
    else FindIndexFrom(s, k, n + 1)
  }

  // ----- sums over the lines, folded from the left as `reduce` does -----

  function SumOf(s: seq<Line>, w: Line -> int): int
  {
    if s == [] then 0 else SumOf(s[..|s| - 1], w) + w(s[|s| - 1])
  }

  function Subtotal(l: Line): int
  {
    l.price * l.quantity
  }

  /** The value every mutation stores in `totalPrice`: the sum of price times quantity. */
  function Total(s: seq<Line>): int
  {
    SumOf(s, Subtotal)
  }

  function QtyOf(k: Key): Line -> int
  {
    l => if KeyOf(l) == k then l.quantity else 0
  }

  /** How many units of key `k` the lines hold between them. */
  function Qty(s: seq<Line>, k: Key): int
  {
    SumOf(s, QtyOf(k))
  }

  lemma SumSingle(l: Line, w: Line -> int)
    ensures SumOf([l], w) == w(l)
  {
    assert [l][..0] == [];
  }

  lemma SumAppend(s: seq<Line>, l: Line, w: Line -> int)
    ensures SumOf(s + [l], w) == SumOf(s, w) + w(l)
  {
    assert (s + [l])[..|s|] == s;
  }

  /** The total does not depend on how the lines are grouped: the total of
      two runs of lines is the sum of their totals. */
  lemma {:induction false} TotalConcat(a: seq<Line>, b: seq<Line>)
    ensures Total(a + b) == Total(a) + Total(b)
  {
    if b == [] {
      assert a + b == a;
    } else {
      var n := |b| - 1;
      TotalConcat(a, b[..n]);
      assert a + b == (a + b[..n]) + [b[n]];
      assert b == b[..n] + [b[n]];
      SumAppend(a + b[..n], b[n], Subtotal);
      SumAppend(b[..n], b[n], Subtotal);
    }
  }

  lemma {:induction false} SumUpdate(s: seq<Line>, i: nat, x: Line, w: Line -> int)
    requires i < |s|
    ensures SumOf(s[i := x], w) == SumOf(s, w) - w(s[i]) + w(x)
  {
    var n := |s| - 1;
    if i == n {
      assert s[i := x][..n] == s[..n];
    } else {
      assert s[i := x][..n] == s[..n][i := x];
      SumUpdate(s[..n], i, x, w);
    }
  }

  lemma {:induction false} SumRemove(s: seq<Line>, i: nat, w: Line -> int)
    requires i < |s|
    ensures SumOf(RemoveAt(s, i), w) == SumOf(s, w) - w(s[i])
  {
    var n := |s| - 1;
    if i == n {
      assert RemoveAt(s, i) == s[..n];
    } else {
      assert RemoveAt(s, i) == RemoveAt(s[..n], i) + [s[n]];
      SumRemove(s[..n], i, w);
      SumAppend(RemoveAt(s[..n], i), s[n], w);
    }
  }

  /** Lines without key `k` hold none of it. */
  lemma {:induction false} QtyAbsent(s: seq<Line>, k: Key)
    requires !Has(s, k)
    ensures Qty(s, k) == 0
  {
    if s != [] {
      var n := |s| - 1;
      assert !Has(s[..n], k) by {
        forall j | 0 <= j < n ensures KeyOf(s[..n][j]) != k {
          assert s[..n][j] == s[j];
        }
      }
      QtyAbsent(s[..n], k);
      assert KeyOf(s[n]) != k;
    }
  }

  /** When keys are unique, the units of a line's key are that line's quantity. */
  lemma {:induction false} QtyUnique(s: seq<Line>, j: nat)
    requires UniqueKeys(s) && j < |s|
    ensures Qty(s, KeyOf(s[j])) == s[j].quantity
  {
    var n := |s| - 1;
    var k := KeyOf(s[j]);
    assert UniqueKeys(s[..n]);
    if j == n {
      assert !Has(s[..n], k) by {
        forall m | 0 <= m < n ensures KeyOf(s[..n][m]) != k {
          assert s[..n][m] == s[m];
        }
      }
      QtyAbsent(s[..n], k);
    } else {
      assert s[..n][j] == s[j];
      QtyUnique(s[..n], j);
      assert KeyOf(s[n]) != k;
    }
  }

  // ----- POST /api/cart on an existing cart, and one step of the merge -----

  /** Adds `l` to the lines: the first line with the same key gets its
      quantity increased by `l.quantity`, otherwise `l` is appended. */
  function AddLine(s: seq<Line>, l: Line): (r: seq<Line>)
    ensures |r| == |s| || |r| == |s| + 1
    ensures Has(r, KeyOf(l))
  {
    var i := FindIndex(s, KeyOf(l));
    if i > -1 then
      var r := s[i := s[i].(quantity := s[i].quantity + l.quantity)];
      assert KeyOf(r[i]) == KeyOf(l);
      r
    else
      var r := s + [l];
      assert KeyOf(r[|s|]) == KeyOf(l);
      r
  }

  /** Adding grows the lines by one exactly when the key was absent; the
      existing lines change at most in quantity; an appended line is `l`;
      the keys afterwards are the old keys plus `KeyOf(l)`; and distinct
      keys stay distinct. */
  lemma AddLineShape(s: seq<Line>, l: Line)
    ensures var r := AddLine(s, l);
      && |r| == (if Has(s, KeyOf(l)) then |s| else |s| + 1)
      && (forall j :: 0 <= j < |s| ==> r[j].(quantity := s[j].quantity) == s[j])
      && (|r| > |s| ==> r[|s|] == l)
      && (forall k :: Has(r, k) <==> Has(s, k) || k == KeyOf(l))
      && (UniqueKeys(s) ==> UniqueKeys(r))
  {
    var i := FindIndex(s, KeyOf(l));
    var r := AddLine(s, l);
    if i > -1 {
      assert forall j :: 0 <= j < |s| ==> KeyOf(r[j]) == KeyOf(s[j]);
    } else {
      assert KeyOf(r[|s|]) == KeyOf(l);
      assert forall j :: 0 <= j < |s| ==> r[j] == s[j];
    }
  }

  /** Adding a key that is present changes only the first line with that
      key, whose quantity grows by the added amount; the line count stays. */
  lemma AddLineExisting(s: seq<Line>, l: Line, j: nat)
    requires j < |s| && KeyOf(s[j]) == KeyOf(l)
    requires forall m :: 0 <= m < j ==> KeyOf(s[m]) != KeyOf(l)
    ensures |AddLine(s, l)| == |s|
    ensures AddLine(s, l)[j] == s[j].(quantity := s[j].quantity + l.quantity)
    ensures forall m :: 0 <= m < |s| && m != j ==> AddLine(s, l)[m] == s[m]
  {
    assert FindIndex(s, KeyOf(l)) == j;
  }

  /** Adding a key that is absent appends exactly that line at the end. */
  lemma AddLineNew(s: seq<Line>, l: Line)
    requires !Has(s, KeyOf(l))
    ensures AddLine(s, l) == s + [l]
  {
  }

  /** Adding never loses units: key `KeyOf(l)` gains `l.quantity`, every other key is unchanged. */
  lemma AddLineQty(s: seq<Line>, l: Line, k: Key)
    ensures Qty(AddLine(s, l), k) == Qty(s, k) + (if KeyOf(l) == k then l.quantity else 0)
  {
    var i := FindIndex(s, KeyOf(l));
    if i > -1 {
      SumUpdate(s, i, s[i].(quantity := s[i].quantity + l.quantity), QtyOf(k));
    } else {
      SumAppend(s, l, QtyOf(k));
    }
  }

  lemma Distribute(p: int, a: int, b: int)
    ensures p * (a + b) == p * a + p * b
  {
  }

  /** The recomputed total grows by the added quantity at the price already
      on the cart's line when the key is present (not the catalog price),
      and by the new line's subtotal otherwise. */
  lemma AddLineTotal(s: seq<Line>, l: Line)
    ensures var i := FindIndex(s, KeyOf(l));
      Total(AddLine(s, l)) == Total(s) + (if i > -1 then s[i].price else l.price) * l.quantity
  {
    var i := FindIndex(s, KeyOf(l));
    if i > -1 {
      var x := s[i].(quantity := s[i].quantity + l.quantity);
      assert AddLine(s, l) == s[i := x];
      SumUpdate(s, i, x, Subtotal);
      Distribute(s[i].price, s[i].quantity, l.quantity);
    } else {
      assert AddLine(s, l) == s + [l];
      SumAppend(s, l, Subtotal);
    }
  }

  // ----- PUT /api/cart: set a quantity, or drop the line when it is not positive -----

  /** None when no line has key `k`; otherwise the first such line gets
      quantity `q` when `q > 0` and is spliced out when `q <= 0`. */
  function SetLine(s: seq<Line>, k: Key, q: int): (r: Option<seq<Line>>)
    ensures r.None? <==> !Has(s, k)
  {
    var i := FindIndex(s, k);
    if i == -1 then None
    else if q > 0 then Some(s[i := s[i].(quantity := q)])
    else Some(RemoveAt(s, i))
  }

  /** A successful update keeps the line count for a positive quantity and
      removes one line otherwise; distinct keys stay distinct. */
  lemma SetLineShape(s: seq<Line>, k: Key, q: int)
    requires Has(s, k)
    ensures var r := SetLine(s, k, q).value;
      && |r| == (if q > 0 then |s| else |s| - 1)
      && (UniqueKeys(s) ==> UniqueKeys(r))
  {
    var i := FindIndex(s, k);
    var r := SetLine(s, k, q).value;
    if q > 0 {
      assert forall j :: 0 <= j < |s| ==> KeyOf(r[j]) == KeyOf(s[j]);
    } else if UniqueKeys(s) {
      RemoveAtUnique(s, i);
    }
  }

  /** A successful update touches only the first line with the key: it takes
      quantity `q` and keeps its other fields when `q > 0`, and is spliced out
      otherwise; every other line keeps its place and order. */
  lemma SetLineExisting(s: seq<Line>, k: Key, q: int, j: nat)
    requires j < |s| && KeyOf(s[j]) == k
    requires forall m :: 0 <= m < j ==> KeyOf(s[m]) != k
    ensures SetLine(s, k, q) == Some(if q > 0 then s[j := s[j].(quantity := q)] else s[..j] + s[j + 1..])
  {
    assert FindIndex(s, k) == j;
  }

  /** With unique keys, the cart holds exactly `q` units of `k` afterwards
      (none when `q <= 0`) and every other key keeps its units. */
  lemma SetLineQty(s: seq<Line>, k: Key, q: int, k': Key)
    requires UniqueKeys(s) && Has(s, k)
    ensures SetLine(s, k, q).Some?
    ensures Qty(SetLine(s, k, q).value, k') ==
            if k' == k then (if q > 0 then q else 0) else Qty(s, k')
  {
    var i := FindIndex(s, k);
    QtyUnique(s, i);
    if q > 0 {
      SumUpdate(s, i, s[i].(quantity := q), QtyOf(k'));
    } else {
      SumRemove(s, i, QtyOf(k'));
    }
  }

  /** The recomputed total loses the old subtotal of the line and gains `price * q` when it stays. */
  lemma SetLineTotal(s: seq<Line>, k: Key, q: int)
    requires Has(s, k)
    ensures var i := FindIndex(s, k);
      Total(SetLine(s, k, q).value) ==
        Total(s) - Subtotal(s[i]) + (if q > 0 then s[i].price * q else 0)
  {
    var i := FindIndex(s, k);
    if q > 0 {
      SumUpdate(s, i, s[i].(quantity := q), Subtotal);
    } else {
      SumRemove(s, i, Subtotal);
    }
  }

  // ----- DELETE /api/cart -----

  /** None when no line has key `k`; otherwise the first such line is spliced out. */
  function DropLine(s: seq<Line>, k: Key): (r: Option<seq<Line>>)
    ensures r.None? <==> !Has(s, k)
  {
    var i := FindIndex(s, k);
    if i == -1 then None else Some(RemoveAt(s, i))
  }

  /** Removing a line leaves the lines before it and after it in order; with
      unique keys the key is gone afterwards and the total drops by its subtotal. */
  lemma DropLineSpec(s: seq<Line>, k: Key)
    requires Has(s, k)
    ensures var i := FindIndex(s, k); var r := DropLine(s, k).value;
      && r == s[..i] + s[i + 1..]
      && Total(r) == Total(s) - Subtotal(s[i])
      && (UniqueKeys(s) ==> UniqueKeys(r) && !Has(r, k))
  {
    var i := FindIndex(s, k);
    SumRemove(s, i, Subtotal);
    if UniqueKeys(s) {
      RemoveAtUnique(s, i);
    }
  }

  /** Splicing a line out of lines with distinct keys keeps the keys distinct
      and leaves no line with the removed line's key. */
  lemma RemoveAtUnique(s: seq<Line>, i: nat)
    requires i < |s| && UniqueKeys(s)
    ensures UniqueKeys(RemoveAt(s, i)) && !Has(RemoveAt(s, i), KeyOf(s[i]))
  {
    var r := RemoveAt(s, i);
    forall m | 0 <= m < |r| ensures KeyOf(r[m]) != KeyOf(s[i]) {
      RemoveAtIndex(s, i, m);
    }
    forall a, b | 0 <= a < b < |r| ensures KeyOf(r[a]) != KeyOf(r[b]) {
      RemoveAtIndex(s, i, a);
      RemoveAtIndex(s, i, b);
    }
  }

  // ----- POST /api/cart/merge: fold every guest line into the user's lines -----

  /** The user's lines after `guest.forEach` has added each guest line in turn. */
  function MergeLines(user: seq<Line>, guest: seq<Line>): (r: seq<Line>)
    ensures |user| <= |r| <= |user| + |guest|
  {
    if guest == [] then user
    else AddLine(MergeLines(user, guest[..|guest| - 1]), guest[|guest| - 1])
  }

  /** Merging is loss-free: for every key, the units afterwards are the
      user's units plus the guest's units. */
  lemma {:induction false} MergeLinesQty(user: seq<Line>, guest: seq<Line>, k: Key)
    ensures Qty(MergeLines(user, guest), k) == Qty(user, k) + Qty(guest, k)
  {
    if guest != [] {
      var n := |guest| - 1;
      MergeLinesQty(user, guest[..n], k);
      AddLineQty(MergeLines(user, guest[..n]), guest[n], k);
    }
  }

  /** No user line is dropped or moved: the user's lines stay in front, in
      order, and only their quantities may change. */
  lemma {:induction false} MergeLinesKeepsUser(user: seq<Line>, guest: seq<Line>)
    ensures |user| <= |MergeLines(user, guest)|
    ensures forall j :: 0 <= j < |user| ==>
      MergeLines(user, guest)[j].(quantity := user[j].quantity) == user[j]
  {
    if guest != [] {
      var n := |guest| - 1;
      MergeLinesKeepsUser(user, guest[..n]);
      AddLineShape(MergeLines(user, guest[..n]), guest[n]);
    }
  }

  /** `x` is one of the guest lines, changed at most in quantity. */
  predicate FromGuest(x: Line, guest: seq<Line>)
  {
    exists g :: 0 <= g < |guest| && x.(quantity := guest[g].quantity) == guest[g]
  }

  /** Every line the merge appends after the user's lines is a guest line,
      pushed with its own name, image and price, changed at most in quantity. */
  lemma {:induction false} MergeLinesAppended(user: seq<Line>, guest: seq<Line>)
    ensures forall j :: |user| <= j < |MergeLines(user, guest)| ==> FromGuest(MergeLines(user, guest)[j], guest)
  {
    if guest != [] {
      var n := |guest| - 1;
      var p := MergeLines(user, guest[..n]);
      var r := MergeLines(user, guest);
      MergeLinesAppended(user, guest[..n]);
      AddLineShape(p, guest[n]);
      forall j | |user| <= j < |r| ensures FromGuest(r[j], guest) {
        if j < |p| {
          assert FromGuest(p[j], guest[..n]);
          var g :| 0 <= g < n && p[j].(quantity := guest[..n][g].quantity) == guest[..n][g];
          assert guest[..n][g] == guest[g];
          assert r[j].(quantity := p[j].quantity) == p[j];
          assert r[j].(quantity := guest[g].quantity) == guest[g];
        } else {
          assert r[j] == guest[n];
          assert r[j].(quantity := guest[n].quantity) == guest[n];
        }
      }
    }
  }

  /** The merged lines carry exactly the keys of the user's and the guest's lines. */
  lemma {:induction false} MergeLinesHas(user: seq<Line>, guest: seq<Line>, k: Key)
    ensures Has(MergeLines(user, guest), k) <==> Has(user, k) || Has(guest, k)
  {
    if guest != [] {
      var n := |guest| - 1;
      MergeLinesHas(user, guest[..n], k);
      AddLineShape(MergeLines(user, guest[..n]), guest[n]);
      HasLast(guest, k);
    }
  }

  lemma HasLast(s: seq<Line>, k: Key)
    requires s != []
    ensures Has(s, k) <==> Has(s[..|s| - 1], k) || KeyOf(s[|s| - 1]) == k
  {
    var n := |s| - 1;
    if Has(s, k) && KeyOf(s[n]) != k {
      var j :| 0 <= j < |s| && KeyOf(s[j]) == k;
      assert s[..n][j] == s[j];
    }
    if Has(s[..n], k) {
      var j :| 0 <= j < n && KeyOf(s[..n][j]) == k;
      assert s[j] == s[..n][j];
    }
  }

  /** Merging keeps the user's keys unique, even when the guest's lines repeat a key. */
  lemma {:induction false} MergeLinesUnique(user: seq<Line>, guest: seq<Line>)
    requires UniqueKeys(user)
    ensures UniqueKeys(MergeLines(user, guest))
  {
    if guest != [] {
      MergeLinesUnique(user, guest[..|guest| - 1]);
      AddLineShape(MergeLines(user, guest[..|guest| - 1]), guest[|guest| - 1]);
    }
  }

  /** With unique user keys, each user line ends with its own quantity plus
      all the guest's units of its key. */
  lemma MergeUserLineQuantity(user: seq<Line>, guest: seq<Line>, j: nat)
    requires UniqueKeys(user) && j < |user|
    ensures j < |MergeLines(user, guest)|
    ensures MergeLines(user, guest)[j].quantity == user[j].quantity + Qty(guest, KeyOf(user[j]))
  {
    var r := MergeLines(user, guest);
    MergeLinesKeepsUser(user, guest);
    MergeLinesUnique(user, guest);
    assert r[j].(quantity := user[j].quantity) == user[j];
    assert KeyOf(r[j]) == KeyOf(user[j]);
    QtyUnique(r, j);
    QtyUnique(user, j);
    MergeLinesQty(user, guest, KeyOf(user[j]));
  }
}
