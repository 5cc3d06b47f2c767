// src/stores/products.ts: the product catalogue. It maps the server's
// products to the shape the views use and derives the distinct ingredient and
// tag lists and the lookup by id. Whether a product image exists, and the
// catalogue request itself, are parameters.

module Products {
  import opened Wrappers
  import opened Text
  import opened Fetch

  /** A product as the server sends it. */
  datatype RawProduct = RawProduct(
    idProdotto: int, nome: string, descrizione: string, ingredienti: seq<string>,
    prezzo: string, quantita: int, disponibilita: int, tags: seq<string>,
    attivo: int, bevanda: int)

  /** A product as the store keeps it. The price keeps the server's text. */
  datatype Product = Product(
    id: int, title: string, description: string, ingredients: seq<string>,
    imageSrc: string, price: string, quantity: int, disponibility: int,
    tags: seq<string>, isActive: bool, bevanda: bool)

  /** How the catalogue request settles: the raw list, or the message of the
      error that it, or mapping over a body that is not a list, throws. */
  datatype CatalogReply = CatalogFailed(message: string) | CatalogItems(items: seq<RawProduct>)

  const DrinkImage: string := "/bevanda.svg"
  const FoodImage: string := "/cibo.svg"

  /** The server's folder of product images. */
  const ImageFolder: string := BaseUrl + "/prodotti/image/"

  /** Where the server keeps a product's image: the folder, then the id. */
  function ImageUrl(id: int): (url: string)
    ensures StartsWith(url, ImageFolder) && url[|ImageFolder|..] == IntToString(id)
  {
    ImageFolder + IntToString(id)
  }

  /** Two products with different ids never share an image URL. */
  lemma ImageUrlInjective(a: int, b: int)
    ensures ImageUrl(a) == ImageUrl(b) ==> a == b
  {
    IntToStringInjective(a, b);
  }

  /** One product of initializeProducts, given whether its image exists. */
  function MapProduct(item: RawProduct, imageExists: string -> bool): (p: Product)
    ensures p.id == item.idProdotto && p.title == item.nome && p.description == item.descrizione
    ensures p.ingredients == item.ingredienti && p.tags == item.tags && p.price == item.prezzo
    ensures p.quantity == item.quantita && p.disponibility == item.disponibilita
    ensures p.isActive <==> item.attivo == 1
    ensures p.bevanda <==> item.bevanda == 1
    ensures imageExists(ImageUrl(item.idProdotto)) ==> p.imageSrc == ImageUrl(item.idProdotto)
    ensures !imageExists(ImageUrl(item.idProdotto)) ==>
      p.imageSrc == if item.bevanda == 1 then DrinkImage else FoodImage
  {
    var url := ImageUrl(item.idProdotto);
    Product(item.idProdotto, item.nome, item.descrizione, item.ingredienti,
      if imageExists(url) then url else if item.bevanda == 1 then DrinkImage else FoodImage,
      item.prezzo, item.quantita, item.disponibilita, item.tags,
      item.attivo == 1, item.bevanda == 1)
  }

  /** The mapped list keeps the raw list's length and order. */
  function MapProducts(items: seq<RawProduct>, imageExists: string -> bool): (r: seq<Product>)
    ensures |r| == |items|
    ensures forall i :: 0 <= i < |items| ==> r[i] == MapProduct(items[i], imageExists)
  {
    seq(|items|, i requires 0 <= i < |items| => MapProduct(items[i], imageExists))
  }

  /** A missing image never leaves a product without one: it falls back to a
      local drawing of a drink or of food. */
  lemma EveryProductHasAnImage(items: seq<RawProduct>, imageExists: string -> bool)
    ensures forall p :: p in MapProducts(items, imageExists) ==>
      p.imageSrc == DrinkImage || p.imageSrc == FoodImage || StartsWith(p.imageSrc, BaseUrl + "/prodotti/image/")
  {
    var r := MapProducts(items, imageExists);
    forall p | p in r
      ensures p.imageSrc == DrinkImage || p.imageSrc == FoodImage || StartsWith(p.imageSrc, BaseUrl + "/prodotti/image/")
    {
      var i :| 0 <= i < |r| && r[i] == p;
      assert p == MapProduct(items[i], imageExists);
    }
  }

  // ---- distinct lists, in first-occurrence order ----

  predicate NoDuplicates(xs: seq<string>)
  {
    forall i, j :: 0 <= i < j < |xs| ==> xs[i] != xs[j]
  }

  /** Adding each of xs in turn to a Set that already holds acc; the result is
      the Set's iteration order. */
  function AddAll(acc: seq<string>, xs: seq<string>): seq<string>
    decreases |xs|
  {
    if xs == [] then acc
    else AddAll(if xs[0] in acc then acc else acc + [xs[0]], xs[1..])
  }

  /** The reference: each value at its first occurrence, built from the end. */
  function FirstOccurrences(xs: seq<string>): seq<string>
    decreases |xs|
  {
    if xs == [] then []
    else
      var init := FirstOccurrences(xs[..|xs| - 1]);
      if xs[|xs| - 1] in init then init else init + [xs[|xs| - 1]]
  }

  /** The values kept are exactly the values of the list. */
  lemma {:induction false} FirstOccurrencesMembers(xs: seq<string>)
    ensures forall x :: x in FirstOccurrences(xs) <==> x in xs
    decreases |xs|
  {
    if xs != [] {
      var init := xs[..|xs| - 1];
      FirstOccurrencesMembers(init);
      assert xs == init + [xs[|xs| - 1]];
    }
  }

  lemma {:induction false} FirstOccurrencesDistinct(xs: seq<string>)
    ensures NoDuplicates(FirstOccurrences(xs))
    decreases |xs|
  {
    if xs != [] {
      FirstOccurrencesDistinct(xs[..|xs| - 1]);
    }
  }

  /** The Set insertion continues the reference: inserting xs after the first
      occurrences of p gives the first occurrences of p + xs. */
  lemma {:induction false} AddAllIsFirstOccurrences(p: seq<string>, xs: seq<string>)
    ensures AddAll(FirstOccurrences(p), xs) == FirstOccurrences(p + xs)
    decreases |xs|
  {
    if xs == [] {
      assert p + xs == p;
    } else {
      var q := p + [xs[0]];
      assert q[..|q| - 1] == p;
      assert FirstOccurrences(q) == if xs[0] in FirstOccurrences(p) then FirstOccurrences(p) else FirstOccurrences(p) + [xs[0]];
      AddAllIsFirstOccurrences(q, xs[1..]);
      assert q + xs[1..] == p + xs;
    }
  }

  /** The index of the first occurrence of x. */
  function FirstIndex(xs: seq<string>, x: string): (i: nat)
    requires x in xs
    ensures i < |xs| && xs[i] == x && x !in xs[..i]
  {
    if xs[0] == x then 0
    else
      var k := FirstIndex(xs[1..], x);
      assert xs[..k + 1] == [xs[0]] + xs[1..][..k];
      k + 1
  }

  lemma {:induction false} FirstIndexOfPrefix(init: seq<string>, y: string, x: string)
    requires x in init
    ensures FirstIndex(init + [y], x) == FirstIndex(init, x)
  {
    if init[0] != x {
      assert (init + [y])[1..] == init[1..] + [y];
      FirstIndexOfPrefix(init[1..], y, x);
    }
  }

  lemma {:induction false} FirstIndexOfNew(init: seq<string>, y: string)
    requires y !in init
    ensures FirstIndex(init + [y], y) == |init|
  {
    if init != [] {
      assert (init + [y])[1..] == init[1..] + [y];
      FirstIndexOfNew(init[1..], y);
    }
  }

  /** Every value of r occurs in xs, and r lists them in the order of their
      first occurrences in xs. */
  predicate InFirstOccurrenceOrder(r: seq<string>, xs: seq<string>)
  {
    forall i, j :: 0 <= i < j < |r| ==> r[i] in xs && r[j] in xs && FirstIndex(xs, r[i]) < FirstIndex(xs, r[j])
  }

  /** The kept values come in the order of their first occurrences. */
  lemma {:induction false} FirstOccurrencesOrdered(xs: seq<string>)
    ensures InFirstOccurrenceOrder(FirstOccurrences(xs), xs)
    decreases |xs|
  {
    if xs != [] {
      var init := xs[..|xs| - 1];
      var y := xs[|xs| - 1];
      assert xs == init + [y];
      FirstOccurrencesOrdered(init);
      FirstOccurrencesMembers(init);
      var f := FirstOccurrences(init);
      var r := FirstOccurrences(xs);
      assert r == if y in f then f else f + [y];
      forall i, j | 0 <= i < j < |r|
        ensures r[i] in xs && r[j] in xs && FirstIndex(xs, r[i]) < FirstIndex(xs, r[j])
      {
        assert r[i] == f[i] && r[i] in init;
        FirstIndexOfPrefix(init, y, r[i]);
        if j < |f| {
          assert r[j] == f[j] && r[j] in init;
          FirstIndexOfPrefix(init, y, r[j]);
          assert InFirstOccurrenceOrder(f, init);
          assert FirstIndex(init, f[i]) < FirstIndex(init, f[j]);
        } else {
          assert r[j] == y && y !in init;
          assert FirstIndex(init, r[i]) < |init|;
          FirstIndexOfNew(init, y);
          assert FirstIndex(xs, r[i]) < FirstIndex(xs, r[j]);
        }
      }
    }
  }

  /** All the lists, one after another. */
  function Flatten(lists: seq<seq<string>>): (r: seq<string>)
    ensures forall x :: x in r <==> exists i :: 0 <= i < |lists| && x in lists[i]
  {
    if lists == [] then []
    else
      var r := lists[0] + Flatten(lists[1..]);
      assert forall i :: 1 <= i < |lists| ==> lists[1..][i - 1] == lists[i];
      r
  }

  function IngredientLists(products: seq<Product>): seq<seq<string>>
  {
    seq(|products|, i requires 0 <= i < |products| => products[i].ingredients)
  }

  function TagLists(products: seq<Product>): seq<seq<string>>
  {
    seq(|products|, i requires 0 <= i < |products| => products[i].tags)
  }

  /** allIngredients: every product's ingredients, product by product, added to a Set. */
  function AllIngredients(products: seq<Product>): seq<string>
  {
    AddAll([], Flatten(IngredientLists(products)))
  }

  /** allTags: the same over the tags. */
  function AllTags(products: seq<Product>): seq<string>
  {
    AddAll([], Flatten(TagLists(products)))
  }

  /** The distinct list of a flattened list has no duplicates, holds exactly
      the values found in some list, and keeps first-occurrence order. */
  lemma DistinctOfLists(lists: seq<seq<string>>)
    ensures var r := AddAll([], Flatten(lists));
      && NoDuplicates(r)
      && (forall x :: x in r <==> exists i :: 0 <= i < |lists| && x in lists[i])
      && r == FirstOccurrences(Flatten(lists))
      && InFirstOccurrenceOrder(r, Flatten(lists))
  {
    var xs := Flatten(lists);
    AddAllIsFirstOccurrences([], xs);
    assert [] + xs == xs;
    FirstOccurrencesDistinct(xs);
    FirstOccurrencesMembers(xs);
    FirstOccurrencesOrdered(xs);
  }

  lemma AllIngredientsProperties(products: seq<Product>)
    ensures NoDuplicates(AllIngredients(products))
    ensures forall x :: x in AllIngredients(products) <==> exists p :: p in products && x in p.ingredients
    ensures AllIngredients(products) == FirstOccurrences(Flatten(IngredientLists(products)))
    ensures InFirstOccurrenceOrder(AllIngredients(products), Flatten(IngredientLists(products)))
  {
    var lists := IngredientLists(products);
    DistinctOfLists(lists);
    forall x | x in AllIngredients(products) ensures exists p :: p in products && x in p.ingredients {
      var i :| 0 <= i < |lists| && x in lists[i];
      assert products[i] in products;
    }
    forall p, x | p in products && x in p.ingredients ensures x in AllIngredients(products) {
      var i :| 0 <= i < |products| && products[i] == p;
      assert x in lists[i];
    }
  }

  lemma AllTagsProperties(products: seq<Product>)
    ensures NoDuplicates(AllTags(products))
    ensures forall x :: x in AllTags(products) <==> exists p :: p in products && x in p.tags
    ensures AllTags(products) == FirstOccurrences(Flatten(TagLists(products)))
    ensures InFirstOccurrenceOrder(AllTags(products), Flatten(TagLists(products)))
  {
    var lists := TagLists(products);
    DistinctOfLists(lists);
    forall x | x in AllTags(products) ensures exists p :: p in products && x in p.tags {
      var i :| 0 <= i < |lists| && x in lists[i];
      assert products[i] in products;
    }
    forall p, x | p in products && x in p.tags ensures x in AllTags(products) {
      var i :| 0 <= i < |products| && products[i] == p;
      assert x in lists[i];
    }
  }

  /** getProductById: the first product with that id, as Array.prototype.find
      gives it, or None (undefined) when there is none. */
  function GetProductById(products: seq<Product>, id: int): (r: Option<Product>)
    ensures r.None? <==> forall p :: p in products ==> p.id != id
    ensures r.Some? ==> r.value.id == id
    ensures r.Some? ==>
      exists i :: 0 <= i < |products| && products[i] == r.value && forall j :: 0 <= j < i ==> products[j].id != id
  {
    if products == [] then None
    else if products[0].id == id then Some(products[0])
    else
      var r := GetProductById(products[1..], id);
      if r.Some? then
        var i :| 0 <= i < |products[1..]| && products[1..][i] == r.value &&
          forall j :: 0 <= j < i ==> products[1..][j].id != id;
        assert products[i + 1] == r.value;
        assert forall j :: 1 <= j < i + 1 ==> products[j] == products[1..][j - 1];
        r
      else r
  }

  class ProductsStore {
    var products: seq<Product>

    /** The store starts empty and loads the catalogue at once; a failure of
        that first load is only logged. */
    constructor (reply: CatalogReply, imageExists: string -> bool)
      ensures reply.CatalogItems? ==> products == MapProducts(reply.items, imageExists)
      ensures reply.CatalogFailed? ==> products == []
    {
      products := [];
      new;
      var _ := InitializeProducts(reply, imageExists);
    }

    /** initializeProducts: replaces the list with the mapped catalogue, or
        rethrows the failure and keeps the list. */
    method InitializeProducts(reply: CatalogReply, imageExists: string -> bool) returns (thrown: Option<string>)
      modifies this
      ensures reply.CatalogItems? ==> products == MapProducts(reply.items, imageExists) && thrown == None
      ensures reply.CatalogFailed? ==> products == old(products) && thrown == Some(reply.message)
    {
      match reply {
        case CatalogFailed(message) =>
          thrown := Some(message);
        case CatalogItems(items) =>
          products := MapProducts(items, imageExists);
          thrown := None;
      }
    }
  }
}
