/** The cart collection and the cart handlers of routes/CartRoutes.js:
    add, set quantity, remove, fetch and merge-on-login. Every handler
    reads a cart document, changes it in memory and saves it back; the
    collection is a sequence of documents in their natural order, and a
    lookup by filter returns the first document that matches. */
module CartStore {
  import opened Common
  import opened CartLines

  /** A cart document. A cart created by POST /api/cart always receives a
      guest id, also when it is created for a user, so a document can
      carry both ids at once. */
  datatype Cart = Cart(user: Option<string>, guestId: Option<string>,
                       products: seq<Line>, totalPrice: int)

  /** The catalog entry a new line copies its name, price and image from. */
  datatype Product = Product(name: string, price: int, image: string)

  /** What a handler answers: 200 with the cart, 201 with a new cart, or 404. */
  datatype Response = Ok(cart: Cart) | Created(cart: Cart) | NotFound(message: string)

  /** The two filters the handlers look carts up by. */
  datatype Filter = ByUser(userId: string) | ByGuest(guestId: string)

  predicate Matches(c: Cart, f: Filter)
  {
    match f
    case ByUser(u) => c.user == Some(u)
    case ByGuest(g) => c.guestId == Some(g)
  }

  /** A cart whose lines have distinct keys and whose cached total is the sum of its lines. */
  predicate WellFormed(c: Cart)
  {
    UniqueKeys(c.products) && c.totalPrice == Total(c.products)
  }

  /** Every cart of a collection is well formed. */
  predicate AllWellFormed(docs: seq<Cart>)
  {
    forall i :: 0 <= i < |docs| ==> WellFormed(docs[i])
  }

  /** Replacing a cart by a well-formed one keeps the collection well formed. */
  lemma AllWellFormedUpdate(docs: seq<Cart>, i: nat, c: Cart)
    requires AllWellFormed(docs) && i < |docs| && WellFormed(c)
    ensures AllWellFormed(docs[i := c])
  {
  }

  /** Removing a cart keeps the collection well formed. */
  lemma AllWellFormedRemove(docs: seq<Cart>, i: nat)
    requires AllWellFormed(docs) && i < |docs|
    ensures AllWellFormed(RemoveAt(docs, i))
  {
    forall m | 0 <= m < |docs| - 1 ensures WellFormed(RemoveAt(docs, i)[m]) {
      RemoveAtIndex(docs, i, m);
    }
  }

  /** `Cart.findOne(filter)`: the index of the first matching document. */
  function FindOne(docs: seq<Cart>, f: Filter): (r: Option<nat>)
    ensures r.Some? ==> r.value < |docs| && Matches(docs[r.value], f)
    ensures r.Some? ==> forall j :: 0 <= j < r.value ==> !Matches(docs[j], f)
    ensures r.None? ==> forall j :: 0 <= j < |docs| ==> !Matches(docs[j], f)
  {
    FindFrom(docs, f, 0)
  }

  /** The scan behind `FindOne`, from position `k` on. */
  function FindFrom(docs: seq<Cart>, f: Filter, k: nat): (r: Option<nat>)
    requires k <= |docs|
    ensures r.Some? ==> k <= r.value < |docs| && Matches(docs[r.value], f)
    ensures r.Some? ==> forall j :: k <= j < r.value ==> !Matches(docs[j], f)
    ensures r.None? ==> forall j :: k <= j < |docs| ==> !Matches(docs[j], f)
    decreases |docs| - k
  {
    if k == |docs| then None
    else if Matches(docs[k], f) then Some(k)
    else FindFrom(docs, f, k + 1)
  }

  /** The `getCart` helper: by user id when one is given, otherwise by guest
      id, and nothing when neither is given. */
  function GetCart(docs: seq<Cart>, userId: Option<string>, guestId: Option<string>): (r: Option<nat>)
    ensures Given(userId) ==> r == FindOne(docs, ByUser(userId.value))
    ensures !Given(userId) && Given(guestId) ==> r == FindOne(docs, ByGuest(guestId.value))
    ensures !Given(userId) && !Given(guestId) ==> r == None
    ensures r.Some? ==> r.value < |docs|
  {
    if Given(userId) then FindOne(docs, ByUser(userId.value))
    else if Given(guestId) then FindOne(docs, ByGuest(guestId.value))
    else None
  }

  /** The line POST /api/cart builds from the request and the catalog entry. */
  function NewLine(productId: string, p: Product, size: string, color: string, quantity: int): (l: Line)
    ensures KeyOf(l) == Key(productId, size, color) && l.quantity == quantity
    ensures l.name == p.name && l.image == p.image && l.price == p.price
  {
    Line(productId, p.name, p.image, p.price, size, color, quantity)
  }

  /** The cart POST /api/cart creates when the lookup finds none: owned by
      the user id when one is given, and always carrying a guest id, the
      given one or "guest_" followed by the clock reading `stamp`. */
  function NewCart(userId: Option<string>, guestId: Option<string>, stamp: string, line: Line): (c: Cart)
    ensures c.products == [line] && WellFormed(c)
    ensures c.totalPrice == line.price * line.quantity
    ensures c.user == (if Given(userId) then userId else None)
    ensures c.guestId.Some? && (Given(guestId) ==> c.guestId == guestId)
  {
    SumSingle(line, Subtotal);
    Cart(if Given(userId) then userId else None,
         Some(if Given(guestId) then guestId.value else "guest_" + stamp),
         [line], line.price * line.quantity)
  }

  /** `Cart.findOneAndDelete(filter)`: the first matching document is removed. */
  function DeleteFirst(docs: seq<Cart>, f: Filter): (r: seq<Cart>)
    ensures |r| == if FindOne(docs, f).Some? then |docs| - 1 else |docs|
  {
    match FindOne(docs, f)
    case None => docs
    case Some(i) => RemoveAt(docs, i)
  }

  /** `findOneAndDelete` removes the first matching document and keeps the
      others in order, and leaves the collection alone when none matches. */
  lemma DeleteFirstSpec(docs: seq<Cart>, f: Filter)
    ensures (forall j :: 0 <= j < |docs| ==> !Matches(docs[j], f)) ==> DeleteFirst(docs, f) == docs
    ensures forall i :: 0 <= i < |docs| && Matches(docs[i], f) && (forall j :: 0 <= j < i ==> !Matches(docs[j], f)) ==>
              DeleteFirst(docs, f) == docs[..i] + docs[i + 1..]
  {
    forall i | 0 <= i < |docs| && Matches(docs[i], f) && (forall j :: 0 <= j < i ==> !Matches(docs[j], f))
      ensures DeleteFirst(docs, f) == docs[..i] + docs[i + 1..]
    {
      FindOneIs(docs, f, i);
    }
  }

  /** Two collections whose documents match a filter at the same positions give the same lookup. */
  lemma FindOneSame(a: seq<Cart>, b: seq<Cart>, f: Filter)
    requires |a| == |b| && forall j :: 0 <= j < |a| ==> Matches(a[j], f) == Matches(b[j], f)
    ensures FindOne(a, f) == FindOne(b, f)
  {
  }

  lemma FindOneAfterUpdate(docs: seq<Cart>, i: nat, x: Cart, f: Filter)
    requires i < |docs| && Matches(x, f) == Matches(docs[i], f)
    ensures FindOne(docs[i := x], f) == FindOne(docs, f)
  {
    FindOneSame(docs[i := x], docs, f);
  }

  /** The first matching position is what `FindOne` finds. */
  lemma FindOneIs(docs: seq<Cart>, f: Filter, e: nat)
    requires e < |docs| && Matches(docs[e], f)
    requires forall j :: 0 <= j < e ==> !Matches(docs[j], f)
    ensures FindOne(docs, f) == Some(e)
  {
  }

  /** Splicing out a document other than the first match keeps that match
      the first one, one position earlier when the removed document came before it. */
  lemma FirstMatchAfterRemove(docs: seq<Cart>, d: nat, f: Filter, i: nat)
    requires i < |docs| && d < |docs| && d != i
    requires Matches(docs[i], f) && forall j :: 0 <= j < i ==> !Matches(docs[j], f)
    ensures var e := if d < i then i - 1 else i;
      && e < |RemoveAt(docs, d)| && Matches(RemoveAt(docs, d)[e], f)
      && forall j :: 0 <= j < e ==> !Matches(RemoveAt(docs, d)[j], f)
  {
    var e := if d < i then i - 1 else i;
    RemoveAtIndex(docs, d, e);
    forall j | 0 <= j < e ensures !Matches(RemoveAt(docs, d)[j], f) {
      RemoveAtIndex(docs, d, j);
    }
  }

  lemma FindOneAfterRemove(docs: seq<Cart>, d: nat, f: Filter)
    requires FindOne(docs, f).Some? && d < |docs| && d != FindOne(docs, f).value
    ensures var i := FindOne(docs, f).value;
      FindOne(RemoveAt(docs, d), f) == Some(if d < i then i - 1 else i)
  {
    var i := FindOne(docs, f).value;
    FirstMatchAfterRemove(docs, d, f, i);
    FindOneIs(RemoveAt(docs, d), f, if d < i then i - 1 else i);
  }

  /** There is a guest cart with at least one line to fold in. */
  predicate Mergeable(docs: seq<Cart>, guestId: string)
  {
    var gi := FindOne(docs, ByGuest(guestId));
    gi.Some? && |docs[gi.value].products| > 0
  }

  /** POST /api/cart/merge exactly as the handler does it, given whether the
      deletion of the guest cart succeeds. */
  function MergeAsWritten(docs: seq<Cart>, guestId: string, userId: string, deleteOk: bool): (r: (Response, seq<Cart>))
    ensures r.0.NotFound? <==> FindOne(docs, ByUser(userId)).None? && !Mergeable(docs, guestId)
    ensures r.0.NotFound? ==> r.0.message == "No cart found" && r.1 == docs
    ensures |docs| - 1 <= |r.1| <= |docs|
  {
    var gi := FindOne(docs, ByGuest(guestId));
    var ui := FindOne(docs, ByUser(userId));
    if gi.Some? && |docs[gi.value].products| > 0 then
      if ui.Some? then
        var lines := MergeLines(docs[ui.value].products, docs[gi.value].products);
        var merged := docs[ui.value].(products := lines, totalPrice := Total(lines));
        var saved := docs[ui.value := merged];
        (Ok(merged), if deleteOk then DeleteFirst(saved, ByGuest(guestId)) else saved)
      else
        var rehomed := docs[gi.value].(user := Some(userId), guestId := None);
        (Ok(rehomed), docs[gi.value := rehomed])
    else if ui.Some? then (Ok(docs[ui.value]), docs)
    else (NotFound("No cart found"), docs)
  }

  /** Merging a separate guest cart into the user's cart loses nothing:
      the user's lines absorb the guest's lines, so that every key ends with
      the user's units plus the guest's units, and the total is recomputed. */
  lemma MergeSeparateCarts(docs: seq<Cart>, guestId: string, userId: string, deleteOk: bool)
    requires FindOne(docs, ByGuest(guestId)).Some? && FindOne(docs, ByUser(userId)).Some?
    requires FindOne(docs, ByGuest(guestId)) != FindOne(docs, ByUser(userId))
    requires |docs[FindOne(docs, ByGuest(guestId)).value].products| > 0
    ensures var gi, ui := FindOne(docs, ByGuest(guestId)).value, FindOne(docs, ByUser(userId)).value;
      var res := MergeAsWritten(docs, guestId, userId, deleteOk).0;
      && res.Ok?
      && res.cart.products == MergeLines(docs[ui].products, docs[gi].products)
      && res.cart.totalPrice == Total(res.cart.products)
      && (forall k :: Qty(res.cart.products, k) == Qty(docs[ui].products, k) + Qty(docs[gi].products, k))
  {
    var gi, ui := FindOne(docs, ByGuest(guestId)).value, FindOne(docs, ByUser(userId)).value;
    forall k ensures Qty(MergeLines(docs[ui].products, docs[gi].products), k)
                     == Qty(docs[ui].products, k) + Qty(docs[gi].products, k) {
      MergeLinesQty(docs[ui].products, docs[gi].products, k);
    }
  }

  /** After merging a separate guest cart, the merged cart is stored where
      the user's cart was and is still the one the user finds; a successful
      deletion removes exactly the guest cart. */
  lemma MergeSeparateStore(docs: seq<Cart>, guestId: string, userId: string, deleteOk: bool)
    requires FindOne(docs, ByGuest(guestId)).Some? && FindOne(docs, ByUser(userId)).Some?
    requires FindOne(docs, ByGuest(guestId)) != FindOne(docs, ByUser(userId))
    requires |docs[FindOne(docs, ByGuest(guestId)).value].products| > 0
    ensures var gi, ui := FindOne(docs, ByGuest(guestId)).value, FindOne(docs, ByUser(userId)).value;
      var (res, after) := MergeAsWritten(docs, guestId, userId, deleteOk);
      && res.Ok?
      && after == (if deleteOk then RemoveAt(docs[ui := res.cart], gi) else docs[ui := res.cart])
      && FindOne(after, ByUser(userId)).Some?
      && after[FindOne(after, ByUser(userId)).value] == res.cart
  {
    var gi, ui := FindOne(docs, ByGuest(guestId)).value, FindOne(docs, ByUser(userId)).value;
    var merged := MergeAsWritten(docs, guestId, userId, deleteOk).0.cart;
    assert merged.user == docs[ui].user && merged.guestId == docs[ui].guestId;
    var saved := docs[ui := merged];
    assert FindOne(saved, ByGuest(guestId)) == Some(gi) by {
      FindOneAfterUpdate(docs, ui, merged, ByGuest(guestId));
    }
    assert FindOne(saved, ByUser(userId)) == Some(ui) by {
      FindOneAfterUpdate(docs, ui, merged, ByUser(userId));
    }
    if deleteOk {
      FindOneAfterRemove(saved, gi, ByUser(userId));
    }
  }

  /** Merge with no user cart re-homes the guest cart: same lines and total,
      owned by the user, the guest id cleared; the user finds it and the
      guest id no longer does. */
  lemma MergeWithoutUserCart(docs: seq<Cart>, guestId: string, userId: string, deleteOk: bool)
    requires FindOne(docs, ByGuest(guestId)).Some? && FindOne(docs, ByUser(userId)).None?
    requires |docs[FindOne(docs, ByGuest(guestId)).value].products| > 0
    ensures var gi := FindOne(docs, ByGuest(guestId)).value;
      var (res, after) := MergeAsWritten(docs, guestId, userId, deleteOk);
      && res == Ok(docs[gi].(user := Some(userId), guestId := None))
      && after == docs[gi := res.cart]
      && FindOne(after, ByUser(userId)) == Some(gi)
      && FindOne(after, ByGuest(guestId)) != Some(gi)
  {
    var gi := FindOne(docs, ByGuest(guestId)).value;
    var after := MergeAsWritten(docs, guestId, userId, deleteOk).1;
    var r := FindOne(after, ByUser(userId));
    assert Matches(after[gi], ByUser(userId));
    assert r.Some? && r.value == gi;
  }

  /** With a missing or empty guest cart, merge answers with the user's cart
      and changes nothing, or answers not-found when the user has none. */
  lemma MergeNothingToMerge(docs: seq<Cart>, guestId: string, userId: string, deleteOk: bool)
    requires var gi := FindOne(docs, ByGuest(guestId)); gi.None? || docs[gi.value].products == []
    ensures var ui := FindOne(docs, ByUser(userId));
      MergeAsWritten(docs, guestId, userId, deleteOk) ==
        (if ui.Some? then Ok(docs[ui.value]) else NotFound("No cart found"), docs)
  {
  }

  /** The handler as written, when the guest cart and the user's cart are
      one and the same document (a cart created by a logged-in user also
      carries a guest id): each line is added to itself, so every quantity
      doubles, and the deletion of the guest cart then removes that very
      document, so the user is answered with a cart that is no longer stored. */
  lemma MergeSharedCartAsWritten(docs: seq<Cart>, guestId: string, userId: string)
    requires FindOne(docs, ByGuest(guestId)).Some?
    requires FindOne(docs, ByGuest(guestId)) == FindOne(docs, ByUser(userId))
    requires |docs[FindOne(docs, ByGuest(guestId)).value].products| > 0
    ensures var i := FindOne(docs, ByUser(userId)).value;
      var (res, after) := MergeAsWritten(docs, guestId, userId, true);
      && res.Ok?
      && (forall k :: Qty(res.cart.products, k) == 2 * Qty(docs[i].products, k))
      && after == RemoveAt(docs, i)
  {
    var i := FindOne(docs, ByUser(userId)).value;
    var lines := MergeLines(docs[i].products, docs[i].products);
    var merged := docs[i].(products := lines, totalPrice := Total(lines));
    forall k ensures Qty(lines, k) == 2 * Qty(docs[i].products, k) {
      MergeLinesQty(docs[i].products, docs[i].products, k);
    }
    FindOneAfterUpdate(docs, i, merged, ByGuest(guestId));
    var after := RemoveAt(docs[i := merged], i);
    assert after == docs[i := merged][..i] + docs[i := merged][i + 1..];
    assert after == RemoveAt(docs, i);
  }

  /** A store holding one cart that belongs to user "u" and carries guest id
      "g" ends up empty after the user merges guest "g", and the answer
      reports 4 units where 2 were stored. */
  lemma MergeSharedCartExample()
    ensures var line := Line("p1", "Tee", "tee.png", 500, "M", "red", 2);
      var docs := [Cart(Some("u"), Some("g"), [line], 1000)];
      MergeAsWritten(docs, "g", "u", true) ==
        (Ok(Cart(Some("u"), Some("g"), [line.(quantity := 4)], 2000)), [])
  {
    var line := Line("p1", "Tee", "tee.png", 500, "M", "red", 2);
    var docs := [Cart(Some("u"), Some("g"), [line], 1000)];
    assert FindOne(docs, ByGuest("g")) == Some(0);
    assert FindOne(docs, ByUser("u")) == Some(0);
    assert MergeLines([line], [line]) == [line.(quantity := 4)];
    SumSingle(line.(quantity := 4), Subtotal);
  }

  /** POST /api/cart/merge as evidently intended: when the guest cart is the
      user's own cart there is nothing to fold in, and the cart is kept. */
  function MergeCorrected(docs: seq<Cart>, guestId: string, userId: string, deleteOk: bool): (r: (Response, seq<Cart>))
    ensures r.0.NotFound? ==> r.0.message == "No cart found" && r.1 == docs
    ensures |docs| - 1 <= |r.1| <= |docs|
  {
    var gi := FindOne(docs, ByGuest(guestId));
    var ui := FindOne(docs, ByUser(userId));
    if gi.Some? && gi == ui then (Ok(docs[ui.value]), docs)
    else MergeAsWritten(docs, guestId, userId, deleteOk)
  }

  /** The corrected merge never loses the user's cart: whenever it answers
      with a cart, that cart is the one the user finds in the store
      afterwards, and it holds, for every key, the user's units plus the
      units of a distinct guest cart. It answers not-found exactly when
      there is neither a user cart nor a non-empty guest cart. */
  lemma MergeCorrectedKeepsUserCart(docs: seq<Cart>, guestId: string, userId: string, deleteOk: bool)
    ensures var gi, ui := FindOne(docs, ByGuest(guestId)), FindOne(docs, ByUser(userId));
      var (res, after) := MergeCorrected(docs, guestId, userId, deleteOk);
      && (res.NotFound? <==> ui.None? && (gi.None? || docs[gi.value].products == []))
      && (res.Ok? ==> FindOne(after, ByUser(userId)).Some?
                      && after[FindOne(after, ByUser(userId)).value] == res.cart)
      && (res.Ok? && ui.Some? ==>
            forall k :: Qty(res.cart.products, k) ==
              Qty(docs[ui.value].products, k)
              + (if gi.Some? && gi != ui then Qty(docs[gi.value].products, k) else 0))
  {
    var gi, ui := FindOne(docs, ByGuest(guestId)), FindOne(docs, ByUser(userId));
    if gi.Some? && gi == ui {
    } else if gi.Some? && |docs[gi.value].products| > 0 {
      if ui.Some? {
        MergeSeparateCarts(docs, guestId, userId, deleteOk);
        MergeSeparateStore(docs, guestId, userId, deleteOk);
      } else {
        MergeWithoutUserCart(docs, guestId, userId, deleteOk);
      }
    } else if gi.Some? && ui.Some? {
      assert docs[gi.value].products == [];
    }
  }

  /** The `guestCart.products.forEach` loop of the merge handler: each guest
      line in turn bumps the first user line with its key, or is appended. */
  method FoldGuestLines(user: seq<Line>, guest: seq<Line>) returns (lines: seq<Line>)
    ensures lines == MergeLines(user, guest)
  {
    lines := user;
    var i := 0;
    while i < |guest|
      invariant 0 <= i <= |guest|
      invariant lines == MergeLines(user, guest[..i])
    {
      var g := guest[i];
      assert guest[..i + 1][..i] == guest[..i];
      var idx := FindIndex(lines, KeyOf(g));
      if idx > -1 {
        lines := lines[idx := lines[idx].(quantity := lines[idx].quantity + g.quantity)];
      } else {
        lines := lines + [g];
      }
      i := i + 1;
    }
    assert guest[..i] == guest;
  }

  /** The cart collection, with the handlers of routes/CartRoutes.js. */
  class Store {
    var docs: seq<Cart>

    /** Every stored cart has distinct line keys and a total that matches its lines. */
    ghost predicate Valid()
      reads this
    {
      AllWellFormed(docs)
    }

    constructor ()
      ensures docs == [] && Valid()
    {
      docs := [];
    }

    /** GET /api/cart. */
    method Get(userId: Option<string>, guestId: Option<string>) returns (res: Response)
      ensures match GetCart(docs, userId, guestId)
        case Some(i) => res == Ok(docs[i])
        case None => res == NotFound("Cart not found")
    {
      var found := GetCart(docs, userId, guestId);
      if found.Some? {
        res := Ok(docs[found.value]);
      } else {
        res := NotFound("Cart not found");
      }
    }

    /** POST /api/cart: add `quantity` of a catalog product in a size and colour. */
    method Add(catalog: map<string, Product>, productId: string, quantity: int, size: string, color: string,
               guestId: Option<string>, userId: Option<string>, stamp: string) returns (res: Response)
      modifies this
      ensures productId !in catalog ==> res == NotFound("Product not found") && docs == old(docs)
      ensures productId in catalog ==>
        var line := NewLine(productId, catalog[productId], size, color, quantity);
        match GetCart(old(docs), userId, guestId)
        case Some(i) =>
          var lines := AddLine(old(docs)[i].products, line);
          && docs == old(docs)[i := old(docs)[i].(products := lines, totalPrice := Total(lines))]
          && res == Ok(docs[i])
        case None =>
          && docs == old(docs) + [NewCart(userId, guestId, stamp, line)]
          && res == Created(NewCart(userId, guestId, stamp, line))
      ensures old(Valid()) ==> Valid()
    {
      if productId !in catalog {
        return NotFound("Product not found");
      }
      var line := NewLine(productId, catalog[productId], size, color, quantity);
      var found := GetCart(docs, userId, guestId);
      if found.Some? {
        var cart := docs[found.value];
        var lines := cart.products;
        var idx := FindIndex(lines, KeyOf(line));
        if idx > -1 {
          lines := lines[idx := lines[idx].(quantity := lines[idx].quantity + quantity)];
        } else {
          lines := lines + [line];
        }
        assert lines == AddLine(cart.products, line);
        AddLineShape(cart.products, line);
        cart := cart.(products := lines, totalPrice := Total(lines));
        if old(Valid()) {
          AllWellFormedUpdate(docs, found.value, cart);
        }
        docs := docs[found.value := cart];
        res := Ok(cart);
      } else {
        var cart := NewCart(userId, guestId, stamp, line);
        docs := docs + [cart];
        res := Created(cart);
      }
    }

    /** PUT /api/cart: set the quantity of a line, removing it when the quantity is not positive. */
    method Update(userId: Option<string>, guestId: Option<string>, productId: string, size: string, color: string,
                  quantity: int) returns (res: Response)
      modifies this
      ensures match GetCart(old(docs), userId, guestId)
        case None => res == NotFound("Cart not found") && docs == old(docs)
        case Some(i) =>
          match SetLine(old(docs)[i].products, Key(productId, size, color), quantity)
          case None => res == NotFound("Product not found in cart") && docs == old(docs)
          case Some(lines) =>
            && docs == old(docs)[i := old(docs)[i].(products := lines, totalPrice := Total(lines))]
            && res == Ok(docs[i])
      ensures old(Valid()) ==> Valid()
    {
      var found := GetCart(docs, userId, guestId);
      if found.None? {
        return NotFound("Cart not found");
      }
      var key := Key(productId, size, color);
      var cart := docs[found.value];
      var lines := cart.products;
      var idx := FindIndex(lines, key);
      if idx > -1 {
        if quantity > 0 {
          lines := lines[idx := lines[idx].(quantity := quantity)];
        } else {
          lines := RemoveAt(lines, idx);
        }
        assert lines == SetLine(cart.products, key, quantity).value;
        SetLineShape(cart.products, key, quantity);
        cart := cart.(products := lines, totalPrice := Total(lines));
        if old(Valid()) {
          AllWellFormedUpdate(docs, found.value, cart);
        }
        docs := docs[found.value := cart];
        res := Ok(cart);
      } else {
        res := NotFound("Product not found in cart");
      }
    }

    /** DELETE /api/cart: remove a line. */
    method Remove(userId: Option<string>, guestId: Option<string>, productId: string, size: string, color: string)
      returns (res: Response)
      modifies this
      ensures match GetCart(old(docs), userId, guestId)
        case None => res == NotFound("Cart not found") && docs == old(docs)
        case Some(i) =>
          match DropLine(old(docs)[i].products, Key(productId, size, color))
          case None => res == NotFound("Product not found in cart") && docs == old(docs)
          case Some(lines) =>
            && docs == old(docs)[i := old(docs)[i].(products := lines, totalPrice := Total(lines))]
            && res == Ok(docs[i])
      ensures old(Valid()) ==> Valid()
    {
      var found := GetCart(docs, userId, guestId);
      if found.None? {
        return NotFound("Cart not found");
      }
      var key := Key(productId, size, color);
      var cart := docs[found.value];
      var lines := cart.products;
      var idx := FindIndex(lines, key);
      if idx > -1 {
        lines := RemoveAt(lines, idx);
        assert lines == DropLine(cart.products, key).value;
        DropLineSpec(cart.products, key);
        cart := cart.(products := lines, totalPrice := Total(lines));
        if old(Valid()) {
          AllWellFormedUpdate(docs, found.value, cart);
        }
        docs := docs[found.value := cart];
        res := Ok(cart);
      } else {
        res := NotFound("Product not found in cart");
      }
    }

    /** `Cart.findOneAndDelete(filter)`, which has no effect when it fails (`ok` false). */
    method DeleteOne(f: Filter, ok: bool)
      modifies this
      ensures docs == if ok then DeleteFirst(old(docs), f) else old(docs)
      ensures old(Valid()) ==> Valid()
    {
      if ok {
        var found := FindOne(docs, f);
        if found.Some? {
          if old(Valid()) {
            AllWellFormedRemove(docs, found.value);
          }
          docs := RemoveAt(docs, found.value);
        }
      }
    }

    /** POST /api/cart/merge for the logged-in `userId`; `deleteOk` says
        whether the deletion of the guest cart succeeds. This is the
        corrected merge: when the guest cart is the user's own cart it is
        left as it is (see MergeAsWritten for the handler as written). */
    method Merge(guestId: string, userId: string, deleteOk: bool) returns (res: Response)
      modifies this
      ensures (res, docs) == MergeCorrected(old(docs), guestId, userId, deleteOk)
      ensures old(Valid()) ==> Valid()
    {
      var gi := FindOne(docs, ByGuest(guestId));
      var ui := FindOne(docs, ByUser(userId));
      if gi.Some? && gi == ui {
        res := Ok(docs[ui.value]);
      } else if gi.Some? && |docs[gi.value].products| > 0 {
        var guestCart := docs[gi.value];
        if ui.Some? {
          var userCart := docs[ui.value];
          var lines := FoldGuestLines(userCart.products, guestCart.products);
          if WellFormed(userCart) {
            MergeLinesUnique(userCart.products, guestCart.products);
          }
          userCart := userCart.(products := lines, totalPrice := Total(lines));
          if old(Valid()) {
            AllWellFormedUpdate(docs, ui.value, userCart);
          }
          docs := docs[ui.value := userCart];
          DeleteOne(ByGuest(guestId), deleteOk);
          res := Ok(userCart);
        } else {
          guestCart := guestCart.(user := Some(userId), guestId := None);
          docs := docs[gi.value := guestCart];
          res := Ok(guestCart);
        }
      } else if ui.Some? {
        res := Ok(docs[ui.value]);
      } else {
        res := NotFound("No cart found");
      }
    }
  }
}
