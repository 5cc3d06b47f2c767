// src/stores/cart.ts: one cart per shift, kept in a map from shift key to the
// list of (product id, quantity) lines, changed in place by the store's
// actions. The active shift is the shift store's selection, passed in.

module Cart {
  import opened Wrappers
  import opened Text
  import opened Js
  import opened Fetch
  import Turni

  datatype CartItem = CartItem(id: int, selectedQuantity: int)

  /** One product line of an order as the server sends and receives it. */
  datatype OrderLine = OrderLine(idProdotto: int, quantita: int)

  /** The body that confirmCart posts to /ordini. */
  datatype OrderBody = OrderBody(nTurno: int, prodotti: seq<OrderLine>)

  /** A store action either completes or throws a TypeError because the
      active shift has no list in the map. */
  datatype Status = Done | MissingCart

  /** What confirmCart resolves with, or MissingCart when it rejects. */
  datatype ConfirmResult = Confirmed(ok: bool, message: JsValue) | ConfirmRejected

  /** What `await fetch('/ordini', {method: 'POST', ...})` gives. */
  datatype ConfirmReply = ConfirmNetworkError | ConfirmReplied(status: int, body: JsonBody)

  /** The body of the /ordini/me reply as getOrdineByTurno reads it. */
  datatype SyncBody =
    | SyncMalformed                                 // response.json() throws
    | NoOrder                                       // data[0] is missing or falsy
    | FirstOrder(prodotti: Option<seq<OrderLine>>)  // None: prodotti is not a list

  datatype SyncReply = SyncNetworkError | SyncReplied(status: int, body: SyncBody)

  const EmptyCartMessage: string := "Carrello vuoto"
  const ConfirmErrorMessage: string := "Errore durante la conferma dell\U{2019}ordine"
  const ConfirmedMessage: string := "Carrello confermato con successo"
  const NetworkErrorMessage: string := "Errore di rete: impossibile contattare il server"

  /** The property key a shift number becomes in the map. */
  function Key(turno: int): string { IntToString(turno) }

  /** The keys that clearAllCarts leaves behind. */
  const ResetCarts: map<string, seq<CartItem>> := map["primo" := [], "secondo" := []]

  /** No shift number is written "primo" or "secondo". */
  lemma NumericKeysAreNotReset(turno: int)
    ensures Key(turno) !in ResetCarts
  {
    var k := Key(turno);
    assert k[0] == '-' || IsDigit(k[0]);
    assert "primo"[0] == 'p' && "secondo"[0] == 's';
  }

  // ---- serialisation between cart lines and order lines ----

  function ToLines(cart: seq<CartItem>): (r: seq<OrderLine>)
    ensures |r| == |cart|
    ensures forall i :: 0 <= i < |cart| ==>
      r[i].idProdotto == cart[i].id && r[i].quantita == cart[i].selectedQuantity
  {
    seq(|cart|, i requires 0 <= i < |cart| => OrderLine(cart[i].id, cart[i].selectedQuantity))
  }

  function FromLines(lines: seq<OrderLine>): (r: seq<CartItem>)
    ensures |r| == |lines|
    ensures forall i :: 0 <= i < |lines| ==>
      r[i].id == lines[i].idProdotto && r[i].selectedQuantity == lines[i].quantita
  {
    seq(|lines|, i requires 0 <= i < |lines| => CartItem(lines[i].idProdotto, lines[i].quantita))
  }

  /** What confirmCart sends is read back by getOrdineByTurno as the same cart,
      and the other way round. */
  lemma LinesRoundTrip(cart: seq<CartItem>, lines: seq<OrderLine>)
    ensures FromLines(ToLines(cart)) == cart
    ensures ToLines(FromLines(lines)) == lines
  {
  }

  // ---- increment-or-append ----

  /** The first line with this product id, as Array.prototype.find picks it. */
  function IndexOfId(cart: seq<CartItem>, id: int): (r: Option<nat>)
    ensures r.None? <==> forall j :: 0 <= j < |cart| ==> cart[j].id != id
    ensures r.Some? ==> r.value < |cart| && cart[r.value].id == id
    ensures r.Some? ==> forall j :: 0 <= j < r.value ==> cart[j].id != id
  {
    if cart == [] then None
    else if cart[0].id == id then Some(0)
    else
      var r := IndexOfId(cart[1..], id);
      if r.None? then None else Some(r.value + 1)
  }

  /** updateQuantity on one list: add to the first line with the id, or append. */
  function AddQuantity(cart: seq<CartItem>, id: int, quantity: int): (r: seq<CartItem>)
    ensures IndexOfId(cart, id).Some? ==>
      var i := IndexOfId(cart, id).value;
      r == cart[i := CartItem(id, cart[i].selectedQuantity + quantity)]
    ensures IndexOfId(cart, id).None? ==> r == cart + [CartItem(id, quantity)]
  {
    if cart == [] then [CartItem(id, quantity)]
    else if cart[0].id == id then [CartItem(id, cart[0].selectedQuantity + quantity)] + cart[1..]
    else [cart[0]] + AddQuantity(cart[1..], id, quantity)
  }

  /** A product id appears on at most one line of a cart. */
  predicate IdsUnique(cart: seq<CartItem>)
  {
    forall i, j :: 0 <= i < j < |cart| ==> cart[i].id != cart[j].id
  }

  /** Find-or-append keeps every product on one line. */
  lemma AddQuantityKeepsIdsUnique(cart: seq<CartItem>, id: int, quantity: int)
    requires IdsUnique(cart)
    ensures IdsUnique(AddQuantity(cart, id, quantity))
  {
    var r := AddQuantity(cart, id, quantity);
    if IndexOfId(cart, id).None? {
      forall i | 0 <= i < |cart| ensures cart[i].id != id {
        assert cart[i] in cart;
      }
    }
  }

  /** The lines the server sends for a cart are copied as they are: a reply
      that repeats a product id gives a cart with that id on two lines. */
  lemma SyncedLinesMayRepeatIds()
    ensures !IdsUnique(FromLines([OrderLine(1, 1), OrderLine(1, 2)]))
  {
    var r := FromLines([OrderLine(1, 1), OrderLine(1, 2)]);
    assert r[0].id == 1 && r[1].id == 1;
  }

  /** The total quantity a list holds for one product id, over all its lines. */
  function QuantityOf(cart: seq<CartItem>, id: int): int
  {
    if cart == [] then 0
    else (if cart[0].id == id then cart[0].selectedQuantity else 0) + QuantityOf(cart[1..], id)
  }

  /** Adding q of a product raises its total by q and leaves every other product's. */
  lemma {:induction false} AddQuantityCounts(cart: seq<CartItem>, id: int, quantity: int, other: int)
    ensures QuantityOf(AddQuantity(cart, id, quantity), id) == QuantityOf(cart, id) + quantity
    ensures other != id ==> QuantityOf(AddQuantity(cart, id, quantity), other) == QuantityOf(cart, other)
  {
    var r := AddQuantity(cart, id, quantity);
    if cart == [] {
      assert r[1..] == [];
    } else if cart[0].id == id {
      assert r[1..] == cart[1..];
    } else {
      assert r[1..] == AddQuantity(cart[1..], id, quantity);
      AddQuantityCounts(cart[1..], id, quantity, other);
    }
  }

  // ---- remove ----

  /** removeFromCart on one list: every line with the id goes, the rest keep their order. */
  function WithoutId(cart: seq<CartItem>, id: int): (r: seq<CartItem>)
    ensures |r| <= |cart|
    ensures forall x :: x in r <==> x in cart && x.id != id
  {
    if cart == [] then []
    else (if cart[0].id == id then [] else [cart[0]]) + WithoutId(cart[1..], id)
  }

  /** Removing lines keeps every product on at most one line. */
  lemma {:induction false} WithoutIdKeepsIdsUnique(cart: seq<CartItem>, id: int)
    requires IdsUnique(cart)
    ensures IdsUnique(WithoutId(cart, id))
  {
    if cart != [] {
      var rest := WithoutId(cart[1..], id);
      assert IdsUnique(cart[1..]) by {
        forall i, j | 0 <= i < j < |cart[1..]| ensures cart[1..][i].id != cart[1..][j].id {
          assert cart[1..][i] == cart[i + 1] && cart[1..][j] == cart[j + 1];
        }
      }
      WithoutIdKeepsIdsUnique(cart[1..], id);
      if cart[0].id != id {
        forall x | x in rest ensures x.id != cart[0].id {
          var k :| 1 <= k < |cart| && cart[k] == x;
        }
        var r := [cart[0]] + rest;
        assert WithoutId(cart, id) == r;
        forall i, j | 0 <= i < j < |r| ensures r[i].id != r[j].id {
          if i == 0 { assert r[j] in rest; } else { assert r[i] == rest[i - 1] && r[j] == rest[j - 1]; }
        }
      } else {
        assert WithoutId(cart, id) == rest;
      }
    }
  }

  /** Removing keeps order: removing from a concatenation removes from each part. */
  lemma {:induction false} WithoutIdAppend(a: seq<CartItem>, b: seq<CartItem>, id: int)
    ensures WithoutId(a + b, id) == WithoutId(a, id) + WithoutId(b, id)
  {
    if a == [] {
      assert a + b == b;
    } else {
      assert (a + b)[0] == a[0] && (a + b)[1..] == a[1..] + b;
      WithoutIdAppend(a[1..], b, id);
    }
  }

  /** Removing twice is removing once. */
  lemma {:induction false} WithoutIdIdempotent(cart: seq<CartItem>, id: int)
    ensures WithoutId(WithoutId(cart, id), id) == WithoutId(cart, id)
  {
    WithoutIdKeepsClean(WithoutId(cart, id), id);
  }

  /** A list with no line of the id is left as it is. */
  lemma {:induction false} WithoutIdKeepsClean(cart: seq<CartItem>, id: int)
    requires forall x :: x in cart ==> x.id != id
    ensures WithoutId(cart, id) == cart
  {
    if cart != [] {
      assert cart[0] in cart;
      assert forall x :: x in cart[1..] ==> x in cart;
      WithoutIdKeepsClean(cart[1..], id);
      assert [cart[0]] + cart[1..] == cart;
    }
  }

  /** After removing a product its total is 0; every other product's total stays. */
  lemma {:induction false} WithoutIdCounts(cart: seq<CartItem>, id: int, other: int)
    ensures QuantityOf(WithoutId(cart, id), id) == 0
    ensures other != id ==> QuantityOf(WithoutId(cart, id), other) == QuantityOf(cart, other)
  {
    if cart != [] {
      WithoutIdCounts(cart[1..], id, other);
      var rest := WithoutId(cart[1..], id);
      if cart[0].id == id {
        assert WithoutId(cart, id) == [] + rest == rest;
      } else {
        var r := [cart[0]] + rest;
        assert r[0] == cart[0] && r[1..] == rest;
      }
    }
  }

  // ---- confirmation ----

  /** How confirmCart settles once the request has been sent. */
  function JudgeConfirm(reply: ConfirmReply): (r: ConfirmResult)
    ensures r.Confirmed?
    ensures r.ok <==> (reply.ConfirmReplied? && IsOk(reply.status) && reply.body.Parsed? &&
                       !IsNullish(reply.body.value) && !Truthy(Get(reply.body.value, "error")))
    ensures r.ok ==> r.message == Str(ConfirmedMessage)
    // no response, an unreadable body, or a null body: the network message
    ensures (reply.ConfirmNetworkError? || reply.body.Malformed? || IsNullish(reply.body.value)) ==>
      r == Confirmed(false, Str(NetworkErrorMessage))
    // the server's error value when it has one, else the generic message
    ensures !r.ok && reply.ConfirmReplied? && reply.body.Parsed? && !IsNullish(reply.body.value) ==>
      r.message == Or(Get(reply.body.value, "error"), Str(ConfirmErrorMessage))
  {
    match reply
    case ConfirmNetworkError => Confirmed(false, Str(NetworkErrorMessage))
    case ConfirmReplied(status, body) =>
      match body
      case Malformed(_) => Confirmed(false, Str(NetworkErrorMessage))
      case Parsed(data) =>
        if IsNullish(data) then Confirmed(false, Str(NetworkErrorMessage))  // data.error throws
        else if !IsOk(status) || Truthy(Get(data, "error")) then
          Confirmed(false, Or(Get(data, "error"), Str(ConfirmErrorMessage)))
        else Confirmed(true, Str(ConfirmedMessage))
  }

  /** Whether a /ordini/me reply carries a placed order with at least one line. */
  predicate SyncFinds(reply: SyncReply)
  {
    reply.SyncReplied? && IsOk(reply.status) && reply.body.FirstOrder? &&
    reply.body.prodotti.Some? && |reply.body.prodotti.value| > 0
  }

  class CartStore {
    var itemsByTurno: map<string, seq<CartItem>>

    /** Gives every loaded shift an empty cart. */
    constructor (turni: seq<Turni.Turno>)
      ensures itemsByTurno.Keys == set t | t in turni :: Key(t.n)
      ensures forall k :: k in itemsByTurno ==> itemsByTurno[k] == []
    {
      var carts: map<string, seq<CartItem>> := map[];
      var i := 0;
      while i < |turni|
        invariant 0 <= i <= |turni|
        invariant carts.Keys == set t | t in turni[..i] :: Key(t.n)
        invariant forall k :: k in carts ==> carts[k] == []
      {
        assert turni[..i + 1] == turni[..i] + [turni[i]];
        carts := carts[Key(turni[i].n) := []];
        i := i + 1;
      }
      assert turni[..i] == turni;
      itemsByTurno := carts;
    }

    /** getItems: the active shift's list, or undefined. */
    function GetItems(turno: int): (r: Option<seq<CartItem>>)
      reads this
      ensures r.Some? <==> Key(turno) in itemsByTurno
      ensures r.Some? ==> r.value == itemsByTurno[Key(turno)]
    {
      if Key(turno) in itemsByTurno then Some(itemsByTurno[Key(turno)]) else None
    }

    /** updateQuantity: adds quantity to the product's line in the active cart,
        or appends a new line; no bound is enforced. */
    method UpdateQuantity(turno: int, productId: int, quantity: int) returns (status: Status)
      modifies this
      ensures status == Done <==> Key(turno) in old(itemsByTurno)
      ensures status == MissingCart ==> itemsByTurno == old(itemsByTurno)
      ensures status == Done ==>
        itemsByTurno == old(itemsByTurno)[Key(turno) := AddQuantity(old(itemsByTurno)[Key(turno)], productId, quantity)]
    {
      var key := Key(turno);
      if key !in itemsByTurno {
        return MissingCart;
      }
      var cart := itemsByTurno[key];
      var existing := IndexOfId(cart, productId);
      if existing.Some? {
        var i := existing.value;
        cart := cart[i := CartItem(cart[i].id, cart[i].selectedQuantity + quantity)];
      } else {
        cart := cart + [CartItem(productId, quantity)];
      }
      itemsByTurno := itemsByTurno[key := cart];
      return Done;
    }

    /** removeFromCart: drops every line of the product from the active cart. */
    method RemoveFromCart(turno: int, productId: int) returns (status: Status)
      modifies this
      ensures status == Done <==> Key(turno) in old(itemsByTurno)
      ensures status == MissingCart ==> itemsByTurno == old(itemsByTurno)
      ensures status == Done ==>
        itemsByTurno == old(itemsByTurno)[Key(turno) := WithoutId(old(itemsByTurno)[Key(turno)], productId)]
    {
      var key := Key(turno);
      if key !in itemsByTurno {
        return MissingCart;
      }
      itemsByTurno := itemsByTurno[key := WithoutId(itemsByTurno[key], productId)];
      return Done;
    }

    /** clearCart: the active shift's list becomes empty (and exists). */
    method ClearCart(turno: int)
      modifies this
      ensures itemsByTurno == old(itemsByTurno)[Key(turno) := []]
    {
      itemsByTurno := itemsByTurno[Key(turno) := []];
    }

    /** clearAllCarts: the map is replaced by one with only "primo" and "secondo". */
    method ClearAllCarts()
      modifies this
      ensures itemsByTurno == ResetCarts
      ensures forall turno :: GetItems(turno).None?
    {
      itemsByTurno := ResetCarts;
      forall turno: int ensures Key(turno) !in itemsByTurno {
        NumericKeysAreNotReset(turno);
      }
    }

    /** confirmCart: refuses an empty cart without a request; otherwise posts the
        cart and clears the active shift only when the server accepts it. */
    method ConfirmCart(turno: int, reply: ConfirmReply) returns (result: ConfirmResult, sent: Option<OrderBody>)
      modifies this
      ensures Key(turno) !in old(itemsByTurno) ==>
        result == ConfirmRejected && sent == None && itemsByTurno == old(itemsByTurno)
      ensures Key(turno) in old(itemsByTurno) && old(itemsByTurno)[Key(turno)] == [] ==>
        result == Confirmed(false, Str(EmptyCartMessage)) && sent == None && itemsByTurno == old(itemsByTurno)
      ensures Key(turno) in old(itemsByTurno) && old(itemsByTurno)[Key(turno)] != [] ==>
        && sent == Some(OrderBody(turno, ToLines(old(itemsByTurno)[Key(turno)])))
        && result == JudgeConfirm(reply)
        && itemsByTurno == (if result.ok then old(itemsByTurno)[Key(turno) := []] else old(itemsByTurno))
    {
      var key := Key(turno);
      if key !in itemsByTurno {
        // cart.length on undefined
        return ConfirmRejected, None;
      }
      var cart := itemsByTurno[key];
      if |cart| == 0 {
        return Confirmed(false, Str(EmptyCartMessage)), None;
      }
      var body := OrderBody(turno, ToLines(cart));
      sent := Some(body);
      result := JudgeConfirm(reply);
      if result.ok {
        ClearCart(turno);
      }
    }

    /** getOrdineByTurno: replaces the active cart with the lines of the order
        already placed for this shift, when there is one. */
    method GetOrdineByTurno(turno: int, reply: SyncReply) returns (found: bool)
      modifies this
      ensures found <==> SyncFinds(reply)
      ensures found ==>
        itemsByTurno == old(itemsByTurno)[Key(turno) := FromLines(reply.body.prodotti.value)]
      ensures !found ==> itemsByTurno == old(itemsByTurno)
    {
      match reply {
        case SyncNetworkError =>
          return false;
        case SyncReplied(status, body) =>
          if !IsOk(status) {
            return false;
          }
          match body {
            case SyncMalformed =>
              return false;
            case NoOrder =>
              return false;
            case FirstOrder(prodotti) =>
              if prodotti.None? || |prodotti.value| == 0 {
                return false;
              }
              itemsByTurno := itemsByTurno[Key(turno) := FromLines(prodotti.value)];
              return true;
          }
      }
    }
  }
}
