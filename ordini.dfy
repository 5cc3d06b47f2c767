// src/stores/Gestione/ordini.ts: the order-management store. It holds the
// class orders and professor orders of one date and shift, a cache of user
// profiles, and helpers for dates, totals and display names. Every request's
// settled outcome is a parameter.

module Ordini {
  import opened Wrappers
  import opened Text
  import opened Js
  import opened Fetch
  import OrdiniUtility

  /** The shift number reserved for professors' orders. */
  const ProfTurno: int := 2

  const ProfErrorMessage: string := "Errore nel caricamento degli ordini dei professori."
  const ClassErrorMessage: string := "Errore nel caricamento degli ordini per classe."

  // ---- formatDate ----

  /** A month or day number, padded to two digits. */
  function Pad2(n: nat): string
  {
    PadStart(NatToString(n), 2, '0')
  }

  lemma Pad2Reads(n: nat)
    requires 1 <= n <= 99
    ensures |Pad2(n)| == 2 && AllDigits(Pad2(n)) && ParseNat(Pad2(n)) == n
  {
    NatToStringRoundTrip(n);
    if n < 10 {
      var s := Pad2(n);
      assert s == ['0'] + NatToString(n);
      assert s[..1] == "0";
      assert ParseNat(s[..1]) == 0 by { assert s[..1][..0] == []; }
    }
  }

  /** formatDate: YYYY-MM-DD from the year, the zero-based month and the day. */
  function FormatDate(year: int, monthIndex: int, day: int): string
    requires 0 <= monthIndex < 12 && 1 <= day <= 31
  {
    IntToString(year) + "-" + Pad2(monthIndex + 1) + "-" + Pad2(day)
  }

  /** The date is the year, a dash, the month as two digits that read back as
      monthIndex + 1, a dash, and the day as two digits that read back as day. */
  lemma FormatDateFields(year: int, monthIndex: int, day: int)
    requires 0 <= monthIndex < 12 && 1 <= day <= 31
    ensures var r := FormatDate(year, monthIndex, day);
      var k := |IntToString(year)|;
      && |r| == k + 6 && r[..k] == IntToString(year) && r[k] == '-' && r[k + 3] == '-'
      && AllDigits(r[k + 1..k + 3]) && ParseNat(r[k + 1..k + 3]) == monthIndex + 1
      && AllDigits(r[k + 4..]) && ParseNat(r[k + 4..]) == day
  {
    Pad2Reads(monthIndex + 1);
    Pad2Reads(day);
    DashedFields(IntToString(year), Pad2(monthIndex + 1), Pad2(day));
  }

  /** Where the fields sit in `y-mm-dd`. */
  lemma DashedFields(y: string, m: string, d: string)
    requires |m| == 2 && |d| == 2
    ensures var r := y + "-" + m + "-" + d;
      var k := |y|;
      && |r| == k + 6 && r[..k] == y && r[k] == '-' && r[k + 3] == '-'
      && r[k + 1..k + 3] == m && r[k + 4..] == d
  {
    var r := y + "-" + m + "-" + d;
    var k := |y|;
    assert r[..k] == y;
    assert r[k + 1..k + 3] == m;
    assert r[k + 4..] == d;
  }

  // ---- calculateOrderTotal ----

  /** `v || 0` used as a number. */
  function Amount(v: JsValue): int
  {
    if v.Num? then v.n else 0
  }

  function LineTotal(product: JsValue): int
  {
    Amount(Get(product, "prezzo")) * Amount(Get(product, "quantita"))
  }

  predicate NoNullish(products: seq<JsValue>)
  {
    forall i :: 0 <= i < |products| ==> !IsNullish(products[i])
  }

  /** The reduce of calculateOrderTotal, left to right; None when a product is
      null or undefined, whose prezzo cannot be read. */
  function ReduceTotal(total: int, products: seq<JsValue>): Option<int>
    decreases |products|
  {
    if products == [] then Some(total)
    else if IsNullish(products[0]) then None
    else ReduceTotal(total + LineTotal(products[0]), products[1..])
  }

  /** The sum of the line totals, as a reference for the reduce. */
  function SumLines(products: seq<JsValue>): int
  {
    if products == [] then 0 else LineTotal(products[0]) + SumLines(products[1..])
  }

  lemma {:induction false} ReduceIsSum(total: int, products: seq<JsValue>)
    ensures ReduceTotal(total, products) ==
      if NoNullish(products) then Some(total + SumLines(products)) else None
    decreases |products|
  {
    if products != [] {
      ReduceIsSum(total + LineTotal(products[0]), products[1..]);
      assert NoNullish(products) <==> !IsNullish(products[0]) && NoNullish(products[1..]) by {
        assert forall i :: 1 <= i < |products| ==> products[1..][i - 1] == products[i];
      }
    }
  }

  /** The total of two lists of products is the sum of their totals. */
  lemma {:induction false} SumLinesAppend(a: seq<JsValue>, b: seq<JsValue>)
    ensures SumLines(a + b) == SumLines(a) + SumLines(b)
  {
    if a == [] {
      assert a + b == b;
    } else {
      assert (a + b)[0] == a[0] && (a + b)[1..] == a[1..] + b;
      SumLinesAppend(a[1..], b);
    }
  }

  /** calculateOrderTotal: 0 without a product list, otherwise the sum of
      price times quantity, with a missing price or quantity counted as 0.
      None where reading `order.prodotti` or `product.prezzo` throws. */
  function CalculateOrderTotal(order: JsValue): (r: Option<int>)
    ensures IsNullish(order) ==> r == None
    ensures !IsNullish(order) && !Get(order, "prodotti").Arr? ==> r == Some(0)
    ensures !IsNullish(order) && Get(order, "prodotti").Arr? ==>
      var products := Get(order, "prodotti").items;
      r == if NoNullish(products) then Some(SumLines(products)) else None
  {
    var prodotti := Get(order, "prodotti");
    if IsNullish(order) then None
    else if !Truthy(prodotti) || !prodotti.Arr? then Some(0)
    else
      ReduceIsSum(0, prodotti.items);
      ReduceTotal(0, prodotti.items)
  }

  // ---- getOrderUserName ----

  /** getOrderUserName: "cognome nome" trimmed when the user data has a name,
      otherwise "Utente #" and the user id, or "N/A" without one. None where
      reading `order.userData` throws. */
  function GetOrderUserName(order: JsValue): (r: Option<string>)
    ensures r.None? <==> IsNullish(order)
  {
    if IsNullish(order) then None
    else
      var userData := Get(order, "userData");
      if HasName(order) then
        Some(Trim(ToJsString(Or(Get(userData, "cognome"), Str(""))) + " " + ToJsString(Or(Get(userData, "nome"), Str("")))))
      else
        Some("Utente #" + ToJsString(Or(Get(order, "user"), Str("N/A"))))
  }

  /** The user data has a nome or a cognome that is truthy. */
  predicate HasName(order: JsValue)
  {
    var userData := Get(order, "userData");
    Truthy(userData) && (Truthy(Get(userData, "nome")) || Truthy(Get(userData, "cognome")))
  }

  predicate Untrimmed(s: string)
  {
    s != [] && !IsWhite(s[0]) && !IsWhite(s[|s| - 1])
  }

  /** With both names present the display name is "cognome nome", whatever
      other fields the profile has. */
  lemma UserNameWithBothNames(order: JsValue, cognome: string, nome: string)
    requires Untrimmed(cognome) && Untrimmed(nome)
    requires Get(Get(order, "userData"), "cognome") == Str(cognome)
    requires Get(Get(order, "userData"), "nome") == Str(nome)
    ensures GetOrderUserName(order) == Some(cognome + " " + nome)
  {
    var userData := Get(order, "userData");
    assert userData.Obj? && Truthy(userData);
    assert HasName(order);
    var s := cognome + " " + nome;
    assert s == ToJsString(Or(Get(userData, "cognome"), Str(""))) + " " + ToJsString(Or(Get(userData, "nome"), Str("")));
    assert s[0] == cognome[0] && s[|s| - 1] == nome[|nome| - 1];
    TrimUntouched(s);
  }

  /** With a nome and no cognome the leading space is trimmed away. */
  lemma UserNameWithNomeOnly(order: JsValue, nome: string)
    requires Untrimmed(nome)
    requires Get(Get(order, "userData"), "nome") == Str(nome)
    requires !Truthy(Get(Get(order, "userData"), "cognome"))
    ensures GetOrderUserName(order) == Some(nome)
  {
    var userData := Get(order, "userData");
    assert userData.Obj? && Truthy(userData);
    assert HasName(order);
    var s := " " + nome;
    assert s == ToJsString(Or(Get(userData, "cognome"), Str(""))) + " " + ToJsString(Or(Get(userData, "nome"), Str("")));
    TrimLeadingSpace(nome);
  }

  /** With a cognome and no nome the trailing space is trimmed away. */
  lemma UserNameWithCognomeOnly(order: JsValue, cognome: string)
    requires Untrimmed(cognome)
    requires Get(Get(order, "userData"), "cognome") == Str(cognome)
    requires !Truthy(Get(Get(order, "userData"), "nome"))
    ensures GetOrderUserName(order) == Some(cognome)
  {
    var userData := Get(order, "userData");
    assert userData.Obj? && Truthy(userData);
    assert HasName(order);
    var s := cognome + " ";
    assert s == ToJsString(Or(Get(userData, "cognome"), Str(""))) + " " + ToJsString(Or(Get(userData, "nome"), Str("")));
    TrimTrailingSpace(cognome);
  }

  /** Without a name (no user data, a null one after a failed lookup, or one
      whose nome and cognome are falsy) the display name is "Utente #<id>",
      or "Utente #N/A" when the id is falsy. */
  lemma UserNameFallback(order: JsValue)
    requires !IsNullish(order) && !HasName(order)
    ensures !Truthy(Get(order, "user")) ==> GetOrderUserName(order) == Some("Utente #N/A")
    ensures Get(order, "user").Num? && Get(order, "user").n > 0 ==>
      GetOrderUserName(order) == Some("Utente #" + NatToString(Get(order, "user").n))
    ensures Get(order, "user").Str? && Get(order, "user").s != "" ==>
      GetOrderUserName(order) == Some("Utente #" + Get(order, "user").s)
  {
    var user := Get(order, "user");
    if !Truthy(user) {
      assert ToJsString(Or(user, Str("N/A"))) == "N/A";
      assert "Utente #" + "N/A" == "Utente #N/A";
    }
  }

  // ---- fetchUserById and its cache ----

  /** The cache key of a user id: object keys are strings. */
  function UserKey(userId: JsValue): string { ToJsString(userId) }

  /** A profile lookup: the profile (Null on failure), the cache after it, and
      whether a request was sent. */
  datatype Lookup = Lookup(user: JsValue, cache: map<string, JsValue>, requested: bool)

  /** fetchUserById on a cache, given how the request would settle. */
  function CachedUser(cache: map<string, JsValue>, key: string, answer: Settled): (r: Lookup)
    ensures key in cache && Truthy(cache[key]) ==> r == Lookup(cache[key], cache, false)
    ensures !(key in cache && Truthy(cache[key])) ==> r.requested
    ensures r.requested && answer.Resolved? ==> r.user == answer.value && r.cache == cache[key := answer.value]
    ensures r.requested && answer.Rejected? ==> r.user == Null && r.cache == cache
  {
    if key in cache && Truthy(cache[key]) then Lookup(cache[key], cache, false)
    else match answer
      case Resolved(v) => Lookup(v, cache[key := v], true)
      case Rejected(_) => Lookup(Null, cache, true)
  }

  /** The cache only grows, and a truthy entry is never replaced. */
  predicate Extends(before: map<string, JsValue>, after: map<string, JsValue>)
  {
    && before.Keys <= after.Keys
    && forall k :: k in before && Truthy(before[k]) ==> after[k] == before[k]
  }

  lemma CachedUserExtends(cache: map<string, JsValue>, key: string, answer: Settled)
    ensures Extends(cache, CachedUser(cache, key, answer).cache)
  {
  }

  /** Once a lookup has stored a truthy profile, the next lookup of that id is
      answered from the cache, whatever the server would say. */
  lemma SecondLookupIsCached(cache: map<string, JsValue>, key: string, first: Settled, second: Settled)
    requires first.Resolved? && Truthy(first.value)
    ensures var l := CachedUser(cache, key, first);
      CachedUser(l.cache, key, second) == Lookup(l.user, l.cache, false)
  {
  }

  // ---- fetchProfOrders ----

  /** The professor-order filter: a truthy order whose oraRitiro is neither
      null nor undefined. */
  predicate IsProfOrder(order: JsValue)
  {
    Truthy(order) && !IsNullish(Get(order, "oraRitiro"))
  }

  function ProfessorOrders(data: seq<JsValue>): (r: seq<JsValue>)
    ensures |r| <= |data|
    ensures forall x :: x in r <==> x in data && IsProfOrder(x)
  {
    if data == [] then []
    else (if IsProfOrder(data[0]) then [data[0]] else []) + ProfessorOrders(data[1..])
  }

  /** The filter keeps order: filtering a concatenation filters each part. */
  lemma {:induction false} ProfessorOrdersAppend(a: seq<JsValue>, b: seq<JsValue>)
    ensures ProfessorOrders(a + b) == ProfessorOrders(a) + ProfessorOrders(b)
  {
    if a == [] {
      assert a + b == b;
    } else {
      assert (a + b)[0] == a[0] && (a + b)[1..] == a[1..] + b;
      ProfessorOrdersAppend(a[1..], b);
    }
  }

  /** `Array.isArray(order.prodotti) ? order.prodotti : []` */
  function ProdottiList(order: JsValue): (r: JsValue)
    ensures r.Arr?
    ensures Get(order, "prodotti").Arr? ==> r == Get(order, "prodotti")
    ensures !Get(order, "prodotti").Arr? ==> r == Arr([])
  {
    if Get(order, "prodotti").Arr? then Get(order, "prodotti") else Arr([])
  }

  /** The keys a processed professor order sets after the spread. */
  const ProfKeys: set<string> := {"prodotti", "classe", "userRole", "oraRitiro", "userData"}

  /** One processed professor order: the order's fields, a list of products,
      userRole 'prof', and the user's profile when one was found. */
  function ProcessProfOrder(order: JsValue, userData: JsValue): (r: JsValue)
    ensures r.Obj?
    ensures Get(r, "userRole") == Str("prof")
    ensures Get(r, "prodotti") == ProdottiList(order)
    ensures Get(r, "oraRitiro") == Get(order, "oraRitiro") && Get(r, "classe") == Get(order, "classe")
    ensures Truthy(userData) ==> Get(r, "userData") == userData
    ensures !Truthy(userData) ==> Get(r, "userData") == Get(order, "userData")
    ensures forall k :: k in Spread(order) && k !in ProfKeys ==> k in r.fields && r.fields[k] == Spread(order)[k]
    ensures r.fields.Keys == Spread(order).Keys + (ProfKeys - {"userData"}) + (if Truthy(userData) then {"userData"} else {})
  {
    var fields := Spread(order)["prodotti" := ProdottiList(order)]["classe" := Get(order, "classe")]
      ["userRole" := Str("prof")]["oraRitiro" := Get(order, "oraRitiro")];
    Obj(if Truthy(userData) then fields["userData" := userData] else fields)
  }

  /** One step of the loop: look up the order's user, if it names one. The
      lookup's request, when one is sent, is the `sent`-th of the fetch and
      settles as `answers(sent)`; the step returns the processed order, the
      cache and the number of requests sent so far. */
  function ProcessOne(order: JsValue, cache: map<string, JsValue>, sent: nat, answers: nat -> Settled): (r: (JsValue, map<string, JsValue>, nat))
  {
    var user := Get(order, "user");
    if Truthy(user) then
      var l := CachedUser(cache, UserKey(user), answers(sent));
      (ProcessProfOrder(order, l.user), l.cache, if l.requested then sent + 1 else sent)
    else (ProcessProfOrder(order, Undefined), cache, sent)
  }

  /** The loop of fetchProfOrders over the filtered orders, in order, with the
      cache and the count of profile requests threaded through the lookups. */
  function ProcessOrders(orders: seq<JsValue>, cache: map<string, JsValue>, sent: nat, answers: nat -> Settled): (seq<JsValue>, map<string, JsValue>, nat)
    decreases |orders|
  {
    if orders == [] then ([], cache, sent)
    else
      var (one, cache1, sent1) := ProcessOne(orders[0], cache, sent, answers);
      var (rest, cache2, sent2) := ProcessOrders(orders[1..], cache1, sent1, answers);
      ([one] + rest, cache2, sent2)
  }

  /** Every order is processed, in place: one result per order, marked 'prof',
      with its list of products and its pickup time; the cache only grows, and
      at most one profile request is sent per order. */
  lemma {:induction false} ProcessOrdersShape(orders: seq<JsValue>, cache: map<string, JsValue>, sent: nat, answers: nat -> Settled)
    ensures var r := ProcessOrders(orders, cache, sent, answers);
      && |r.0| == |orders|
      && (forall i :: 0 <= i < |orders| ==>
        && Get(r.0[i], "userRole") == Str("prof")
        && Get(r.0[i], "prodotti") == ProdottiList(orders[i])
        && Get(r.0[i], "oraRitiro") == Get(orders[i], "oraRitiro"))
      && Extends(cache, r.1)
      && sent <= r.2 <= sent + |orders|
    decreases |orders|
  {
    if orders != [] {
      var step := ProcessOne(orders[0], cache, sent, answers);
      var rest := ProcessOrders(orders[1..], step.1, step.2, answers);
      ProcessOneShape(orders[0], cache, sent, answers);
      ProcessOrdersShape(orders[1..], step.1, step.2, answers);
      ProcessOrdersStep(orders, cache, sent, answers);
      var r0 := [step.0] + rest.0;
      forall i | 1 <= i < |orders|
        ensures Get(r0[i], "userRole") == Str("prof")
        ensures Get(r0[i], "prodotti") == ProdottiList(orders[i])
        ensures Get(r0[i], "oraRitiro") == Get(orders[i], "oraRitiro")
      {
        assert r0[i] == rest.0[i - 1] && orders[1..][i - 1] == orders[i];
      }
    }
  }

  /** One step marks its order 'prof', keeps its products and pickup time, and
      only grows the cache. An order that names a user gets the profile the
      cache or the request gave, and a request is counted exactly when one was
      sent; an order that names none leaves the cache and the count alone and
      keeps its own userData. */
  lemma ProcessOneShape(order: JsValue, cache: map<string, JsValue>, sent: nat, answers: nat -> Settled)
    ensures var r := ProcessOne(order, cache, sent, answers);
      && Get(r.0, "userRole") == Str("prof")
      && Get(r.0, "prodotti") == ProdottiList(order)
      && Get(r.0, "oraRitiro") == Get(order, "oraRitiro")
      && Extends(cache, r.1)
      && sent <= r.2 <= sent + 1
    ensures Truthy(Get(order, "user")) ==>
      var l := CachedUser(cache, UserKey(Get(order, "user")), answers(sent));
      var r := ProcessOne(order, cache, sent, answers);
      && r.1 == l.cache
      && (r.2 == sent + 1 <==> l.requested)
      && (Truthy(l.user) ==> Get(r.0, "userData") == l.user)
    ensures !Truthy(Get(order, "user")) ==>
      var r := ProcessOne(order, cache, sent, answers);
      r.1 == cache && r.2 == sent && Get(r.0, "userData") == Get(order, "userData")
  {
    var user := Get(order, "user");
    if Truthy(user) {
      CachedUserExtends(cache, UserKey(user), answers(sent));
    }
  }

  /** One unfolding of the loop, for the store's method. */
  lemma ProcessOrdersStep(orders: seq<JsValue>, cache: map<string, JsValue>, sent: nat, answers: nat -> Settled)
    requires orders != []
    ensures var step := ProcessOne(orders[0], cache, sent, answers);
      var rest := ProcessOrders(orders[1..], step.1, step.2, answers);
      ProcessOrders(orders, cache, sent, answers) == ([step.0] + rest.0, rest.1, rest.2)
  {
  }

  /** A failed profile request caches nothing, so the next order naming the
      same user sends a new request, which may succeed: the profile it brings
      is then shown on that order and cached. */
  lemma RetryAfterFailedLookup(order: JsValue, answers: nat -> Settled)
    requires Truthy(Get(order, "user")) && answers(0).Rejected?
    requires answers(1).Resolved? && Truthy(answers(1).value)
    ensures var key := UserKey(Get(order, "user"));
      var r := ProcessOrders([order, order], map[], 0, answers);
      && r.1 == map[key := answers(1).value]
      && r.2 == 2
      && |r.0| == 2
      && Get(r.0[0], "userData") == Get(order, "userData")
      && Get(r.0[1], "userData") == answers(1).value
  {
    var key := UserKey(Get(order, "user"));
    var first := ProcessOne(order, map[], 0, answers);
    assert first.1 == map[] && first.2 == 1;
    var second := ProcessOne(order, map[], 1, answers);
    ProcessOneShape(order, map[], 1, answers);
    assert [order, order][1..] == [order];
    ProcessOrdersStep([order, order], map[], 0, answers);
    ProcessOrdersStep([order], map[], 1, answers);
  }

  /** Every professor order the store shows has a pickup time and is marked 'prof'. */
  lemma ShownProfOrdersHavePickup(data: seq<JsValue>, cache: map<string, JsValue>, answers: nat -> Settled)
    ensures var shown := ProcessOrders(ProfessorOrders(data), cache, 0, answers).0;
      forall o :: o in shown ==> !IsNullish(Get(o, "oraRitiro")) && Get(o, "userRole") == Str("prof")
  {
    var f := ProfessorOrders(data);
    var shown := ProcessOrders(f, cache, 0, answers).0;
    ProcessOrdersShape(f, cache, 0, answers);
    forall o | o in shown ensures !IsNullish(Get(o, "oraRitiro")) {
      var i :| 0 <= i < |shown| && shown[i] == o;
      assert f[i] in f;
    }
  }

  /** The effect of a fetch on one collection: its new contents, the cache, and
      whether it failed (then the error message is set). */
  datatype Fetched = Fetched(orders: seq<JsValue>, cache: map<string, JsValue>, failed: bool)

  /** The effect of a class fetch: the new list, and whether it failed. */
  datatype Loaded = Loaded(orders: seq<JsValue>, failed: bool)

  /** fetchProfOrders, as a function of the response and the cache: a failed
      request empties the list; otherwise the coerced list is filtered to
      professor orders and processed in order, threading the cache. */
  function ProfFetch(response: Settled, cache: map<string, JsValue>, answers: nat -> Settled): (r: Fetched)
    ensures r.failed <==> response.Rejected?
    ensures r.failed ==> r.orders == [] && r.cache == cache
    ensures !r.failed ==>
      var processed := ProcessOrders(ProfessorOrders(OrdiniUtility.EnsureArray(response.value)), cache, 0, answers);
      r.orders == processed.0 && r.cache == processed.1
  {
    match response
    case Rejected(_) => Fetched([], cache, true)
    case Resolved(v) =>
      var (orders, cache', _) := ProcessOrders(ProfessorOrders(OrdiniUtility.EnsureArray(v)), cache, 0, answers);
      Fetched(orders, cache', false)
  }

  /** A successful professor fetch shows one order per professor order of the
      reply, each marked 'prof' with its pickup time, and only grows the cache. */
  lemma ProfFetchShape(response: Settled, cache: map<string, JsValue>, answers: nat -> Settled)
    requires response.Resolved?
    ensures var r := ProfFetch(response, cache, answers);
      var f := ProfessorOrders(OrdiniUtility.EnsureArray(response.value));
      && |r.orders| == |f|
      && (forall i :: 0 <= i < |f| ==>
        && Get(r.orders[i], "userRole") == Str("prof")
        && Get(r.orders[i], "prodotti") == ProdottiList(f[i])
        && !IsNullish(Get(r.orders[i], "oraRitiro")))
      && Extends(cache, r.cache)
  {
    var f := ProfessorOrders(OrdiniUtility.EnsureArray(response.value));
    ProcessOrdersShape(f, cache, 0, answers);
    forall i | 0 <= i < |f| ensures IsProfOrder(f[i]) {
      assert f[i] in f;
    }
  }

  // ---- fetchClassOrders ----

  /** The keys a class order sets after the spread. */
  const ClassKeys: set<string> := {"prodotti", "classe", "confermato", "preparato"}

  /** One class order: the order's fields with a list of products and its
      classe, confermato and preparato copied. */
  function ClassOrder(order: JsValue): (r: JsValue)
    ensures r.Obj?
    ensures Get(r, "prodotti") == ProdottiList(order)
    ensures Get(r, "classe") == Get(order, "classe")
    ensures Get(r, "confermato") == Get(order, "confermato") && Get(r, "preparato") == Get(order, "preparato")
    ensures r.fields.Keys == Spread(order).Keys + ClassKeys
    ensures forall k :: k in Spread(order) && k !in ClassKeys ==> r.fields[k] == Spread(order)[k]
  {
    Obj(Spread(order)["prodotti" := ProdottiList(order)]["classe" := Get(order, "classe")]
      ["confermato" := Get(order, "confermato")]["preparato" := Get(order, "preparato")])
  }

  /** Whether the list holds a null or undefined entry. */
  predicate HasNullish(data: seq<JsValue>)
  {
    exists x :: x in data && IsNullish(x)
  }

  /** `data.map(order => ...)` of fetchClassOrders. */
  function ClassOrders(data: seq<JsValue>): (r: seq<JsValue>)
    ensures |r| == |data|
    ensures forall i :: 0 <= i < |data| ==> r[i] == ClassOrder(data[i])
  {
    if data == [] then [] else [ClassOrder(data[0])] + ClassOrders(data[1..])
  }

  /** fetchClassOrders, as a function of the response. A null or undefined
      entry makes `order.prodotti` throw, which the catch turns into a failure. */
  function ClassFetch(response: Settled): (r: Loaded)
    ensures r.failed ==> r.orders == []
  {
    match response
    case Rejected(_) => Loaded([], true)
    case Resolved(v) =>
      var data := OrdiniUtility.EnsureArray(v);
      if HasNullish(data) then Loaded([], true)
      else Loaded(ClassOrders(data), false)
  }

  /** A class fetch fails exactly when the request fails or the list holds a
      null or undefined entry; otherwise every entry is mapped, in order. */
  lemma ClassFetchShape(response: Settled)
    ensures var r := ClassFetch(response);
      && (r.failed <==>
        (response.Rejected? || exists x :: x in OrdiniUtility.EnsureArray(response.value) && IsNullish(x)))
      && (r.failed ==> r.orders == [])
      && (!r.failed ==>
        var data := OrdiniUtility.EnsureArray(response.value);
        |r.orders| == |data| && forall i :: 0 <= i < |data| ==> r.orders[i] == ClassOrder(data[i]))
  {
  }

  // ---- the request URL ----

  /** The URL this store's own request helper builds, as written: it reads
      `baseURL` from the API configuration, which only defines `BASE_URL`, so
      the prefix is String(undefined). */
  function WrittenRequestUrl(endpoint: string): string
  {
    ToJsString(Undefined) + OrdiniUtility.NormalizeEndpoint(endpoint)
  }

  /** As written, no request of this store reaches the server: every URL is the
      relative path "undefined/<endpoint>". */
  lemma WrittenUrlMissesServer(endpoint: string)
    ensures StartsWith(WrittenRequestUrl(endpoint), "undefined/")
    ensures !StartsWith(WrittenRequestUrl(endpoint), BaseUrl)
    ensures WrittenRequestUrl(endpoint) != OrdiniUtility.RequestUrl(endpoint)
  {
    var w := WrittenRequestUrl(endpoint);
    assert w[0] == 'u';
    assert OrdiniUtility.RequestUrl(endpoint)[0] == 'h';
  }

  /** The query of one date's orders for one shift. */
  function OrdersQuery(date: string, turno: int): string
  {
    "ordini/classi?startDate=" + date + "&endDate=" + date + "&nTurno=" + IntToString(turno)
  }

  /** Which collection a "prepared" mark re-fetches: professors' for shift 2,
      classes' for any other shift. */
  function RefetchesProf(turno: int): bool { turno == ProfTurno }

  class OrdiniStore {
    var classOrders: seq<JsValue>
    var profOrders: seq<JsValue>
    var loading: bool
    var error: Option<string>
    var selectedDate: string
    var userCache: map<string, JsValue>

    /** A new store; the date is today's, given as year, zero-based month and day. */
    constructor (year: int, monthIndex: int, day: int)
      requires 0 <= monthIndex < 12 && 1 <= day <= 31
      ensures classOrders == [] && profOrders == [] && !loading && error == None
      ensures selectedDate == FormatDate(year, monthIndex, day) && userCache == map[]
    {
      classOrders := [];
      profOrders := [];
      loading := false;
      error := None;
      selectedDate := FormatDate(year, monthIndex, day);
      userCache := map[];
    }

    /** fetchUserById, given how the request for the profile would settle. */
    method FetchUserById(userId: JsValue, answer: Settled) returns (user: JsValue, requested: bool)
      modifies this`userCache
      ensures Lookup(user, userCache, requested) == CachedUser(old(userCache), UserKey(userId), answer)
    {
      var key := UserKey(userId);
      if key in userCache && Truthy(userCache[key]) {
        return userCache[key], false;
      }
      match answer {
        case Resolved(v) =>
          userCache := userCache[key := v];
          return v, true;
        case Rejected(_) =>
          return Null, true;
      }
    }

    /** One iteration of fetchProfOrders' loop: the order's user is looked up
        when it names one, and the order is processed. `sent` counts the
        profile requests of this fetch so far. */
    method ProcessOneOrder(order: JsValue, sent: nat, answers: nat -> Settled) returns (processed: JsValue, sent': nat)
      modifies this`userCache
      ensures (processed, userCache, sent') == ProcessOne(order, old(userCache), sent, answers)
    {
      var user := Get(order, "user");
      var userData: JsValue := Undefined;
      sent' := sent;
      if Truthy(user) {
        var requested;
        userData, requested := FetchUserById(user, answers(sent));
        if requested {
          sent' := sent + 1;
        }
      }
      processed := ProcessProfOrder(order, userData);
    }

    /** The loop of fetchProfOrders: each order in turn, with its user's
        profile looked up through the cache; the n-th profile request of the
        loop settles as `answers(n)`. */
    method ProcessProfessorOrders(professorOrders: seq<JsValue>, answers: nat -> Settled)
      returns (processed: seq<JsValue>, requests: nat)
      modifies this`userCache
      ensures (processed, userCache, requests) == ProcessOrders(professorOrders, old(userCache), 0, answers)
    {
      processed := [];
      requests := 0;
      var i := 0;
      assert professorOrders[i..] == professorOrders;
      assert [] + ProcessOrders(professorOrders, userCache, 0, answers).0 == ProcessOrders(professorOrders, userCache, 0, answers).0;
      while i < |professorOrders|
        invariant 0 <= i <= |professorOrders|
        invariant var rest := ProcessOrders(professorOrders[i..], userCache, requests, answers);
          ProcessOrders(professorOrders, old(userCache), 0, answers) == (processed + rest.0, rest.1, rest.2)
      {
        var order := professorOrders[i];
        ghost var rest := ProcessOrders(professorOrders[i..], userCache, requests, answers);
        ghost var step := ProcessOne(order, userCache, requests, answers);
        ghost var next := ProcessOrders(professorOrders[i + 1..], step.1, step.2, answers);
        assert professorOrders[i..][0] == order && professorOrders[i..][1..] == professorOrders[i + 1..];
        ProcessOrdersStep(professorOrders[i..], userCache, requests, answers);
        assert rest == ([step.0] + next.0, next.1, next.2);
        var one;
        one, requests := ProcessOneOrder(order, requests, answers);
        assert processed + rest.0 == (processed + [step.0]) + next.0;
        processed := processed + [one];
        i := i + 1;
      }
      assert professorOrders[i..] == [];
      assert processed + [] == processed;
    }

    /** The URL of the selected date's orders for one shift. */
    function OrdersUrl(turno: int): string
      reads this
    {
      OrdiniUtility.RequestUrl(OrdersQuery(selectedDate, turno))
    }

    /** fetchProfOrders, given how the shift-2 query settles and how each
        profile request would settle. */
    method FetchProfOrders(response: Settled, answers: nat -> Settled) returns (url: string)
      modifies this
      ensures url == OrdiniUtility.RequestUrl(OrdersQuery(selectedDate, ProfTurno))
      ensures !loading && selectedDate == old(selectedDate) && classOrders == old(classOrders)
      ensures var f := ProfFetch(response, old(userCache), answers);
        && profOrders == f.orders && userCache == f.cache
        && error == (if f.failed then Some(ProfErrorMessage) else old(error))
    {
      url := OrdersUrl(ProfTurno);
      loading := true;
      match response {
        case Rejected(_) =>
          error := Some(ProfErrorMessage);
          profOrders := [];
        case Resolved(v) =>
          var processed, _ := ProcessProfessorOrders(ProfessorOrders(OrdiniUtility.EnsureArray(v)), answers);
          profOrders := processed;
      }
      loading := false;
    }

    /** fetchClassOrders for a shift, given how its query settles. */
    method FetchClassOrders(turno: int, response: Settled) returns (url: string)
      modifies this
      ensures url == OrdiniUtility.RequestUrl(OrdersQuery(selectedDate, turno))
      ensures !loading && selectedDate == old(selectedDate) && profOrders == old(profOrders)
      ensures userCache == old(userCache)
      ensures var f := ClassFetch(response);
        classOrders == f.orders && error == (if f.failed then Some(ClassErrorMessage) else old(error))
    {
      url := OrdersUrl(turno);
      loading := true;
      var f := ClassFetch(response);
      if f.failed {
        error := Some(ClassErrorMessage);
        classOrders := [];
      } else {
        classOrders := f.orders;
      }
      loading := false;
    }

    /** markOrderAsPrepared: asks the server to mark a class's order for a
        shift, then re-fetches the collection that shift belongs to. No local
        flag is changed; a failed request changes nothing. */
    method MarkOrderAsPrepared(classe: string, turno: int, put: Settled, refetch: Settled, answers: nat -> Settled)
      returns (ok: bool, url: string)
      modifies this
      ensures url == OrdiniUtility.RequestUrl("ordini/classi/" + classe + "/turno/" + IntToString(turno) + "/prepara")
      ensures ok <==> put.Resolved?
      ensures !ok ==> unchanged(this)
      ensures ok && RefetchesProf(turno) ==>
        var f := ProfFetch(refetch, old(userCache), answers);
        && profOrders == f.orders && userCache == f.cache && classOrders == old(classOrders)
        && error == (if f.failed then Some(ProfErrorMessage) else old(error))
      ensures ok && !RefetchesProf(turno) ==>
        var f := ClassFetch(refetch);
        && classOrders == f.orders && profOrders == old(profOrders) && userCache == old(userCache)
        && error == (if f.failed then Some(ClassErrorMessage) else old(error))
      ensures ok ==> !loading && selectedDate == old(selectedDate)
    {
      url := OrdiniUtility.RequestUrl("ordini/classi/" + classe + "/turno/" + IntToString(turno) + "/prepara");
      if put.Rejected? {
        return false, url;
      }
      if turno == ProfTurno {
        var _ := FetchProfOrders(refetch, answers);
      } else {
        var _ := FetchClassOrders(turno, refetch);
      }
      ok := true;
    }

    /** markProductAsPrepared: the same dispatch for one product. */
    method MarkProductAsPrepared(productId: int, turno: int, put: Settled, refetch: Settled, answers: nat -> Settled)
      returns (ok: bool, url: string)
      modifies this
      ensures url == OrdiniUtility.RequestUrl("prodotti/" + IntToString(productId) + "/prepara")
      ensures ok <==> put.Resolved?
      ensures !ok ==> unchanged(this)
      ensures ok && RefetchesProf(turno) ==>
        var f := ProfFetch(refetch, old(userCache), answers);
        && profOrders == f.orders && userCache == f.cache && classOrders == old(classOrders)
        && error == (if f.failed then Some(ProfErrorMessage) else old(error))
      ensures ok && !RefetchesProf(turno) ==>
        var f := ClassFetch(refetch);
        && classOrders == f.orders && profOrders == old(profOrders) && userCache == old(userCache)
        && error == (if f.failed then Some(ClassErrorMessage) else old(error))
      ensures ok ==> !loading && selectedDate == old(selectedDate)
    {
      url := OrdiniUtility.RequestUrl("prodotti/" + IntToString(productId) + "/prepara");
      if put.Rejected? {
        return false, url;
      }
      if turno == ProfTurno {
        var _ := FetchProfOrders(refetch, answers);
      } else {
        var _ := FetchClassOrders(turno, refetch);
      }
      ok := true;
    }
  }
}
