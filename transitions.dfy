/**
 * One step of the event synthesiser as a function of the session record and the random
 * draws: the drawn event type, the per-type context policy (with the downgrade of
 * cart operations on an empty cart), the product fields, the emitted event and the
 * committed session record. `Generator.SessionStore.GenerateClickstreamEvent`
 * implements it by updating the record in place.
 */
module Transitions {
  import opened Wrappers
  import opened OrderedDict
  import opened Sampling
  import opened Config
  import opened Sessions

  /** A page view goes to a general page when `random.random() < 0.6`; the roll is in percent. */
  const GeneralPagePercent: nat := 60

  /** The pages a general page view never lands on. */
  const NonBrowsePages: seq<string> := ["/products", "/cart", "/checkout", "/purchase_success"]

  /** The emitted `product_price`: absent, a purchase total, or a one-element list. */
  datatype PriceField = NoPrice | Total(cents: nat) | PerItem(prices: seq<nat>)

  /** The product fields of an event (`product_id`, `product_name`, `product_brand`, `product_price`, `category`). */
  datatype ProductFields = ProductFields(
    ids: Option<seq<string>>,
    names: Option<seq<string>>,
    brands: Option<seq<string>>,
    price: PriceField,
    category: Option<string>)

  const NoProduct: ProductFields := ProductFields(None, None, None, NoPrice, None)

  /** An emitted clickstream event. */
  datatype Event = Event(
    userId: string,
    sessionId: string,
    timestamp: string,
    eventType: string,
    pageUrl: string,
    productId: Option<seq<string>>,
    productName: Option<seq<string>>,
    productBrand: Option<seq<string>>,
    productPrice: PriceField,
    category: Option<string>,
    browser: string,
    os: string,
    ipAddress: string,
    referralSource: string,
    deviceType: string,
    geoCountry: string,
    geoCity: string,
    isNewUser: bool,
    cartSize: nat)

  /**
   * The random draws of one event: the transition ticket (tenths), the general-page roll
   * (percent), the page indices of a general page view and of a downgrade, the category
   * and product indices, `random.randrange` as a function of the cart length, the
   * timestamp and the last two octets of the IP address.
   */
  datatype EventDraws = EventDraws(
    typeTicket: nat,
    pageRoll: nat,
    generalPageIdx: nat,
    downgradePageIdx: nat,
    categoryIdx: nat,
    productIdx: nat,
    randrange: nat -> nat,
    timestamp: string,
    ipOctet3: nat,
    ipOctet4: nat)

  /** `[p for p in ps if p not in excluded]`. */
  function Without(ps: seq<string>, excluded: seq<string>): seq<string> {
    if ps == [] then []
    else if ps[0] in excluded then Without(ps[1..], excluded)
    else [ps[0]] + Without(ps[1..], excluded)
  }

  /** The filter keeps exactly the elements that are not excluded. */
  lemma {:induction false} WithoutMembers(ps: seq<string>, excluded: seq<string>)
    ensures forall p :: p in Without(ps, excluded) <==> p in ps && p !in excluded
  {
    if ps != [] {
      WithoutMembers(ps[1..], excluded);
      assert forall p :: p in ps <==> p == ps[0] || p in ps[1..];
    }
  }

  /** The pages a general page view chooses from. */
  function GeneralPages(): seq<string> {
    Without(Pages, NonBrowsePages)
  }

  /** The general pages are `/`, `/about` and `/contact`, so the choice among them is defined. */
  lemma GeneralPagesNonEmpty()
    ensures GeneralPages() == ["/", "/about", "/contact"]
  {
    var x := NonBrowsePages;
    var tail := ["/cart", "/checkout", "/purchase_success"];
    assert Without(tail, x) == [] by {
      assert tail[1..] == ["/checkout", "/purchase_success"];
      assert tail[1..][1..] == ["/purchase_success"];
      assert tail[1..][1..][1..] == [];
    }
    var pages := ["/", "/products", "/about", "/contact"] + tail;
    assert pages == Pages;
    assert pages[1..] == ["/products", "/about", "/contact"] + tail;
    assert pages[1..][1..] == ["/about", "/contact"] + tail;
    assert pages[1..][1..][1..] == ["/contact"] + tail;
    assert pages[1..][1..][1..][1..] == tail;
  }

  /** `PRODUCTS_BY_CATEGORY[PRODUCT_CATEGORIES[categoryIdx]]`. */
  function ProductsIn(categoryIdx: nat): (ps: seq<Product>)
    requires categoryIdx < |ProductCategories|
    ensures ps == ProductsByCategory[categoryIdx].1 && |ps| > 0
  {
    CategoriesHaveProducts();
    Get(ProductsByCategory, ProductCategories[categoryIdx]).value
  }

  /** Every draw is within the range its Python call can return. */
  ghost predicate EventDrawsInRange(d: EventDraws) {
    && d.typeTicket < TransitionScale
    && d.pageRoll < PercentScale
    && d.generalPageIdx < 3
    && d.downgradePageIdx < |Pages|
    && d.categoryIdx < |ProductCategories|
    && d.productIdx < |ProductsByCategory[d.categoryIdx].1|
    && (forall n: nat :: 0 < n ==> d.randrange(n) < n)
    && d.ipOctet3 < 256
    && d.ipOctet4 < 256
  }

  /** The product of the category-then-product draw. */
  function DrawnProduct(d: EventDraws): (p: Product)
    requires EventDrawsInRange(d)
    ensures InCatalog(p)
    ensures p in ProductsIn(d.categoryIdx)
  {
    ProductsIn(d.categoryIdx)[d.productIdx]
  }

  /**
   * `EVENT_TRANSITION_PROBABILITIES.get(state, EVENT_TRANSITION_PROBABILITIES["page_view"])`.
   * Whatever the state, the row sums to one and leads only to event types or `end_session`.
   */
  function Row(state: string): (row: Dict<nat>)
    ensures TotalWeight(row) == TransitionScale
    ensures forall j | 0 <= j < |row| :: row[j].0 in EventTypes + [EndSession]
  {
    TransitionRowsSumToOne();
    TransitionTargetsAreEventTypes();
    PageViewRowPresent();
    match Get(EventTransitionProbabilities, state)
    case Some(row) =>
      var i :| 0 <= i < |EventTransitionProbabilities| && EventTransitionProbabilities[i] == (state, row);
      row
    case None => Get(EventTransitionProbabilities, "page_view").value
  }

  /** The fallback row exists: it is the second row of the table. */
  lemma PageViewRowPresent()
    ensures Get(EventTransitionProbabilities, "page_view") == Some(EventTransitionProbabilities[1].1)
  {
    assert DistinctKeys(EventTransitionProbabilities);
    GetAtKey(EventTransitionProbabilities, 1);
  }

  /** `end_session` has no row of its own: the next draw after it uses the `page_view` row. */
  lemma EndSessionUsesPageViewRow()
    ensures Row(EndSession) == Row("page_view")
  {
    TransitionTargetsHaveRows();
  }

  /** The event type drawn from the row of `lastEventType`. */
  function DrawnType(lastEventType: string, ticket: nat): (t: string)
    requires ticket < TransitionScale
    ensures t in EventTypes + [EndSession]
    ensures exists j :: 0 <= j < |Row(lastEventType)| && Row(lastEventType)[j].0 == t && Row(lastEventType)[j].1 > 0
  {
    ChooseWeighted(Row(lastEventType), ticket)
  }

  /** The event types that need a non-empty cart. */
  predicate NeedsCart(eventType: string) {
    eventType == "remove_from_cart" || eventType == "checkout" || eventType == "purchase"
  }

  /** The drawn type cannot apply and is emitted as a page view instead. */
  predicate Downgrades(drawn: string, cart: seq<Product>) {
    NeedsCart(drawn) && cart == []
  }

  /** The sum of the prices of `ps`, in cents. */
  function TotalCents(ps: seq<Product>): nat {
    if ps == [] then 0 else ps[0].price + TotalCents(ps[1..])
  }

  lemma {:induction false} TotalCentsConcat(a: seq<Product>, b: seq<Product>)
    ensures TotalCents(a + b) == TotalCents(a) + TotalCents(b)
  {
    if a == [] {
      assert a + b == b;
    } else {
      assert (a + b)[0] == a[0] && (a + b)[1..] == a[1..] + b;
      TotalCentsConcat(a[1..], b);
      assert TotalCents(a + b) == a[0].price + TotalCents(a[1..] + b);
    }
  }

  /** `cart.pop(i)`: the cart without its item at `i`, the others in their order. */
  function RemoveAt(cart: seq<Product>, i: nat): (r: seq<Product>)
    requires i < |cart|
    ensures |r| == |cart| - 1
    ensures forall k | 0 <= k < i :: r[k] == cart[k]
    ensures forall k | i <= k < |r| :: r[k] == cart[k + 1]
    ensures multiset(r) + multiset{cart[i]} == multiset(cart)
    ensures TotalCents(r) + cart[i].price == TotalCents(cart)
  {
    var r := cart[..i] + cart[i + 1..];
    assert cart == cart[..i] + [cart[i]] + cart[i + 1..];
    TotalCentsConcat(cart[..i] + [cart[i]], cart[i + 1..]);
    TotalCentsConcat(cart[..i], [cart[i]]);
    TotalCentsConcat(cart[..i], cart[i + 1..]);
    r
  }

  /** The names of `ps`, in order. */
  function Names(ps: seq<Product>): (r: seq<string>)
    ensures |r| == |ps|
    ensures forall k | 0 <= k < |ps| :: r[k] == ps[k].name
  {
    if ps == [] then [] else [ps[0].name] + Names(ps[1..])
  }

  /** The brands of `ps`, in order, with repetitions. */
  function Brands(ps: seq<Product>): (r: seq<string>)
    ensures |r| == |ps|
    ensures forall k | 0 <= k < |ps| :: r[k] == ps[k].brand
  {
    if ps == [] then [] else [ps[0].brand] + Brands(ps[1..])
  }

  /** `list(set(xs))`: each element of `xs` exactly once (here in first-occurrence order). */
  function Distinct(xs: seq<string>): (r: seq<string>)
    ensures forall x :: x in r <==> x in xs
    ensures forall i, j | 0 <= i < j < |r| :: r[i] != r[j]
  {
    if xs == [] then []
    else
      var init := xs[..|xs| - 1];
      var last := xs[|xs| - 1];
      assert xs == init + [last];
      var r := Distinct(init);
      if last in r then r else r + [last]
  }

  /** The product fields of a purchase of `cart`. */
  function PurchaseFields(cart: seq<Product>): (f: ProductFields)
    ensures f.ids.Some? && |f.ids.value| == |cart|
    ensures forall k | 0 <= k < |cart| :: f.ids.value[k] == cart[k].id
    ensures f.names.Some? && |f.names.value| == |cart|
    ensures forall k | 0 <= k < |cart| :: f.names.value[k] == cart[k].name
    ensures f.brands.Some?
    ensures forall b :: b in f.brands.value <==> exists k :: 0 <= k < |cart| && cart[k].brand == b
    ensures forall i, j | 0 <= i < j < |f.brands.value| :: f.brands.value[i] != f.brands.value[j]
    ensures f.price == Total(TotalCents(cart))
    ensures f.category == Some("Mixed")
  {
    var brands := Brands(cart);
    assert forall b :: b in brands <==> exists k :: 0 <= k < |cart| && cart[k].brand == b by {
      forall b ensures b in brands <==> exists k :: 0 <= k < |cart| && cart[k].brand == b {
        if b in brands {
          var k :| 0 <= k < |brands| && brands[k] == b;
          assert cart[k].brand == b;
        }
      }
    }
    ProductFields(Some(Ids(cart)), Some(Names(cart)), Some(Distinct(brands)),
                  Total(TotalCents(cart)), Some("Mixed"))
  }

  /** The first category of `cat` whose product list contains `p`. */
  function OwningCategory(cat: Dict<seq<Product>>, p: Product): (c: Option<string>)
    ensures c.Some? <==> Listed(cat, p)
    ensures c.Some? ==> exists i :: 0 <= i < |cat| && cat[i].0 == c.value && p in cat[i].1 &&
                                   forall j | 0 <= j < i :: p !in cat[j].1
  {
    if cat == [] then None
    else if p in cat[0].1 then
      assert Listed(cat, p) by { assert p in cat[0].1; }
      Some(cat[0].0)
    else
      var c := OwningCategory(cat[1..], p);
      assert Listed(cat, p) <==> Listed(cat[1..], p) by {
        if Listed(cat, p) {
          var i :| 0 <= i < |cat| && p in cat[i].1;
          assert i > 0 && cat[1..][i - 1] == cat[i];
        }
        if Listed(cat[1..], p) {
          var i :| 0 <= i < |cat[1..]| && p in cat[1..][i].1;
          assert cat[i + 1] == cat[1..][i];
        }
      }
      if c.Some? then
        var i :| 0 <= i < |cat[1..]| && cat[1..][i].0 == c.value && p in cat[1..][i].1 &&
                 forall j | 0 <= j < i :: p !in cat[1..][j].1;
        assert cat[i + 1] == cat[1..][i];
        assert forall j | 0 <= j < i + 1 :: p !in cat[j].1 by {
          forall j | 0 <= j < i + 1 ensures p !in cat[j].1 {
            if j > 0 { assert cat[j] == cat[1..][j - 1]; }
          }
        }
        c
      else c
  }

  /**
   * The result of the per-type policy: the emitted type and page, the new cart and
   * product context, the product the event is about, and the product fields set so far.
   */
  datatype Outcome = Outcome(
    eventType: string,
    pageUrl: string,
    cart: seq<Product>,
    current: Option<Product>,
    selected: Option<Product>,
    fields: ProductFields)

  /** The downgrade: a page view of any page, without product context. */
  function Downgraded(s: SessionState, d: EventDraws): Outcome
    requires EventDrawsInRange(d)
  {
    Outcome("page_view", Pages[d.downgradePageIdx], s.cart, None, None, NoProduct)
  }

  /** The per-type context policy for the drawn event type. */
  function ResolveContext(s: SessionState, drawn: string, d: EventDraws): (o: Outcome)
    requires EventDrawsInRange(d)
    // The downgrade policy.
    ensures o.eventType == if Downgrades(drawn, s.cart) then "page_view" else drawn
    ensures Downgrades(drawn, s.cart) ==>
      && o.pageUrl in Pages && o.cart == s.cart
      && o.current.None? && o.selected.None? && o.fields == NoProduct
    // page_view
    ensures drawn == "page_view" && d.pageRoll < GeneralPagePercent ==>
      && o.pageUrl in Pages && o.pageUrl !in NonBrowsePages
      && o.cart == s.cart && o.current.None? && o.selected.None? && o.fields == NoProduct
    ensures drawn == "page_view" && d.pageRoll >= GeneralPagePercent ==>
      && InCatalog(DrawnProduct(d))
      && o.selected == o.current == Some(DrawnProduct(d))
      && o.pageUrl == "/products/" + DrawnProduct(d).id
      && o.cart == s.cart
      && o.fields == NoProduct.(category := Some(ProductCategories[d.categoryIdx]))
    // add_to_cart
    ensures drawn == "add_to_cart" ==>
      && o.selected == Some(if s.currentProduct.Some? then s.currentProduct.value else DrawnProduct(d))
      && o.cart == s.cart + [o.selected.value]
      && o.pageUrl == "/cart" && o.current.None? && o.fields == NoProduct
    // remove_from_cart
    ensures drawn == "remove_from_cart" && s.cart != [] ==>
      var i := d.randrange(|s.cart|);
      && i < |s.cart|
      && o.selected == Some(s.cart[i])
      && |o.cart| == |s.cart| - 1
      && (forall k | 0 <= k < i :: o.cart[k] == s.cart[k])
      && (forall k | i <= k < |o.cart| :: o.cart[k] == s.cart[k + 1])
      && multiset(o.cart) + multiset{s.cart[i]} == multiset(s.cart)
      && TotalCents(o.cart) + s.cart[i].price == TotalCents(s.cart)
      && o.pageUrl == "/cart" && o.current == s.currentProduct && o.fields == NoProduct
    // checkout
    ensures drawn == "checkout" && s.cart != [] ==>
      && o.cart == s.cart && o.pageUrl == "/checkout"
      && o.current.None? && o.selected.None? && o.fields == NoProduct
    // purchase
    ensures drawn == "purchase" && s.cart != [] ==>
      && o.cart == [] && o.pageUrl == "/purchase_success"
      && o.current.None? && o.selected.None? && o.fields == PurchaseFields(s.cart)
    // search
    ensures drawn == "search" ==>
      && o.pageUrl == "/search_results" && o.cart == s.cart
      && o.current.None? && o.selected.None? && o.fields == NoProduct
    // Any other drawn type (`end_session`) has no branch and changes nothing.
    ensures drawn !in EventTypes ==>
      && o.pageUrl == s.lastPage && o.cart == s.cart
      && o.current == s.currentProduct && o.selected.None? && o.fields == NoProduct
  {
    if drawn == "page_view" then
      if d.pageRoll < GeneralPagePercent then
        GeneralPagesNonEmpty();
        WithoutMembers(Pages, NonBrowsePages);
        var page := GeneralPages()[d.generalPageIdx];
        assert page in GeneralPages();
        Outcome(drawn, page, s.cart, None, None, NoProduct)
      else
        var p := DrawnProduct(d);
        Outcome(drawn, "/products/" + p.id, s.cart, Some(p), Some(p),
                NoProduct.(category := Some(ProductCategories[d.categoryIdx])))
    else if drawn == "add_to_cart" then
      var p := if s.currentProduct.Some? then s.currentProduct.value else DrawnProduct(d);
      Outcome(drawn, "/cart", s.cart + [p], None, Some(p), NoProduct)
    else if drawn == "remove_from_cart" then
      if s.cart != [] then
        var i := d.randrange(|s.cart|);
        Outcome(drawn, "/cart", RemoveAt(s.cart, i), s.currentProduct, Some(s.cart[i]), NoProduct)
      else Downgraded(s, d)
    else if drawn == "checkout" then
      if s.cart != [] then Outcome(drawn, "/checkout", s.cart, None, None, NoProduct)
      else Downgraded(s, d)
    else if drawn == "purchase" then
      if s.cart != [] then
        Outcome(drawn, "/purchase_success", [], None, None, PurchaseFields(s.cart))
      else Downgraded(s, d)
    else if drawn == "search" then
      Outcome(drawn, "/search_results", s.cart, None, None, NoProduct)
    else
      Outcome(drawn, s.lastPage, s.cart, s.currentProduct, None, NoProduct)
  }

  /**
   * The single-item product fields: for a non-purchase event about a product, one-element
   * lists of its fields and the first catalog category that lists it (the category found
   * so far stays when no category lists it).
   */
  function ProductDetails(o: Outcome): (f: ProductFields)
    ensures o.selected.Some? && o.eventType != "purchase" ==>
      var p := o.selected.value;
      && f.ids == Some([p.id]) && f.names == Some([p.name]) && f.brands == Some([p.brand])
      && f.price == PerItem([p.price])
      && (InCatalog(p) ==> f.category == OwningCategory(ProductsByCategory, p) && f.category.Some?)
      && (!InCatalog(p) ==> f.category == o.fields.category)
    ensures !(o.selected.Some? && o.eventType != "purchase") ==> f == o.fields
  {
    if o.selected.Some? && o.eventType != "purchase" then
      var p := o.selected.value;
      var category := match OwningCategory(ProductsByCategory, p)
        case Some(c) => Some(c)
        case None => o.fields.category;
      ProductFields(Some([p.id]), Some([p.name]), Some([p.brand]), PerItem([p.price]), category)
    else o.fields
  }

  /** The decimal digits of `n`. */
  function DecimalString(n: nat): (r: string)
    ensures |r| > 0 && forall k | 0 <= k < |r| :: '0' <= r[k] <= '9'
  {
    if n < 10 then [('0' as int + n) as char]
    else DecimalString(n / 10) + [('0' as int + n % 10) as char]
  }

  /** The number a string of decimal digits denotes. */
  function DecimalValue(r: string): nat
    requires forall k | 0 <= k < |r| :: '0' <= r[k] <= '9'
  {
    if r == [] then 0
    else DecimalValue(r[..|r| - 1]) * 10 + (r[|r| - 1] as int - '0' as int)
  }

  lemma {:induction false} DecimalRoundTrip(n: nat)
    ensures DecimalValue(DecimalString(n)) == n
  {
    if n >= 10 {
      var r := DecimalString(n);
      assert r[..|r| - 1] == DecimalString(n / 10);
      DecimalRoundTrip(n / 10);
    }
  }

  /** `f"192.168.{a}.{b}"`. */
  function IpAddress(a: nat, b: nat): (ip: string)
    ensures |ip| > 8 && ip[..8] == "192.168."
  {
    "192.168." + DecimalString(a) + "." + DecimalString(b)
  }

  /** An event together with the session record committed after it. */
  datatype Emitted = Emitted(event: Event, next: SessionState)

  /**
   * One call of `generate_clickstream_event` for the resolved session `s` of `userId`:
   * the emitted event and the committed session record.
   */
  function Transition(s: SessionState, userId: string, d: EventDraws): (r: Emitted)
    requires EventDrawsInRange(d)
    // The emitted type is the drawn one, or `page_view` after a downgrade.
    ensures var drawn := DrawnType(s.lastEventType, d.typeTicket);
      r.event.eventType == if Downgrades(drawn, s.cart) then "page_view" else drawn
    ensures r.event.eventType in EventTypes + [EndSession]
    // The state commit.
    ensures r.next.lastEventType == r.event.eventType && r.next.lastPage == r.event.pageUrl
    ensures r.event.cartSize == |r.next.cart|
    // The session attributes are those of the session and do not change.
    ensures r.next == s.(lastPage := r.next.lastPage, cart := r.next.cart,
                         lastEventType := r.next.lastEventType, currentProduct := r.next.currentProduct)
    ensures && r.event.userId == userId && r.event.sessionId == s.sessionId
            && r.event.timestamp == d.timestamp
            && r.event.browser == s.browser && r.event.os == s.os
            && r.event.referralSource == s.referralSource && r.event.deviceType == s.deviceType
            && r.event.geoCountry == s.geoCountry && r.event.geoCity == s.geoCity
            && r.event.isNewUser == s.isNewUser
  {
    var drawn := DrawnType(s.lastEventType, d.typeTicket);
    var o := ResolveContext(s, drawn, d);
    var f := ProductDetails(o);
    var next := s.(lastPage := o.pageUrl, cart := o.cart, lastEventType := o.eventType,
                   currentProduct := o.current);
    var event := Event(userId, s.sessionId, d.timestamp, o.eventType, o.pageUrl,
                       f.ids, f.names, f.brands, f.price, f.category,
                       s.browser, s.os, IpAddress(d.ipOctet3, d.ipOctet4),
                       s.referralSource, s.deviceType, s.geoCountry, s.geoCity,
                       s.isNewUser, |o.cart|);
    Emitted(event, next)
  }

  // ---------------------------------------------------------------------------
  // Properties across steps.

  /** Every product the session holds, in its cart or as its context, is a catalog product. */
  predicate CatalogContext(s: SessionState) {
    && (forall k | 0 <= k < |s.cart| :: InCatalog(s.cart[k]))
    && (s.currentProduct.Some? ==> InCatalog(s.currentProduct.value))
  }

  /**
   * The context policy only ever puts catalog products into the cart, the context and
   * the event, and never prices a single item itself.
   */
  lemma ResolveKeepsCatalogContext(s: SessionState, drawn: string, d: EventDraws)
    requires EventDrawsInRange(d) && CatalogContext(s)
    ensures var o := ResolveContext(s, drawn, d);
      && CatalogContext(s.(cart := o.cart, currentProduct := o.current))
      && (o.selected.Some? ==> InCatalog(o.selected.value))
      && !o.fields.price.PerItem?
  {
    var o := ResolveContext(s, drawn, d);
    if drawn == "remove_from_cart" && s.cart != [] {
      var i := d.randrange(|s.cart|);
      forall k | 0 <= k < |o.cart| ensures InCatalog(o.cart[k]) {
        if k >= i {
          assert o.cart[k] == s.cart[k + 1];
        }
      }
    } else if drawn == "add_to_cart" {
      forall k | 0 <= k < |o.cart| ensures InCatalog(o.cart[k]) {
        if k < |s.cart| {
          assert o.cart[k] == s.cart[k];
        }
      }
    }
  }

  /**
   * Products only ever enter a session from the catalog, so every step keeps
   * `CatalogContext`, and every single-item event then carries a category.
   */
  lemma TransitionKeepsCatalogContext(s: SessionState, userId: string, d: EventDraws)
    requires EventDrawsInRange(d) && CatalogContext(s)
    ensures var r := Transition(s, userId, d);
      && CatalogContext(r.next)
      && (r.event.productPrice.PerItem? ==> r.event.category.Some?)
  {
    var drawn := DrawnType(s.lastEventType, d.typeTicket);
    ResolveKeepsCatalogContext(s, drawn, d);
  }

  /**
   * A purchase of a two-item cart reports both ids and names in cart order, the exact
   * total and the `Mixed` category.
   */
  lemma PurchaseOfTwo(a: Product, b: Product)
    ensures var f := PurchaseFields([a, b]);
      && f.ids == Some([a.id, b.id]) && f.names == Some([a.name, b.name])
      && f.price == Total(a.price + b.price) && f.category == Some("Mixed")
  {
    var f := PurchaseFields([a, b]);
    assert f.ids.value == [a.id, b.id];
    assert f.names.value == [a.name, b.name];
    assert [a, b][1..] == [b] && [b][1..] == [];
    assert TotalCents([b]) == b.price;
  }



  /** The row of a state that is a key of the transition table is that state's own row. */
  lemma RowOf(i: nat)
    requires i < |EventTransitionProbabilities|
    ensures Row(EventTransitionProbabilities[i].0) == EventTransitionProbabilities[i].1
  {
    assert DistinctKeys(EventTransitionProbabilities);
    GetAtKey(EventTransitionProbabilities, i);
  }

  /** Tickets 8 and 9 of the start row draw `search`. */
  lemma StartRowDrawsSearch(ticket: nat)
    requires 8 <= ticket < TransitionScale
    ensures DrawnType("START_SESSION", ticket) == "search"
  {
    RowOf(0);
    ChooseWeightedInterval(Row("START_SESSION"), 1, ticket);
  }

  /** Tickets 4 to 7 of the `add_to_cart` row draw `checkout`. */
  lemma AddToCartRowDrawsCheckout(ticket: nat)
    requires 4 <= ticket < 8
    ensures DrawnType("add_to_cart", ticket) == "checkout"
  {
    var row := Row("add_to_cart");
    assert row == [("page_view", 4), ("checkout", 4), ("remove_from_cart", 1), ("end_session", 1)] by {
      RowOf(2);
    }
    assert Prefix(row, 1) == 4 by {
      assert row[..1] == [("page_view", 4)];
    }
    assert Prefix(row, 2) == 8 by {
      assert row[..2] == [("page_view", 4), ("checkout", 4)];
      assert row[..2][1..] == [("checkout", 4)];
    }
    ChooseWeightedInterval(row, 1, ticket);
  }


  /** Tickets 0 to 6 of the `checkout` row draw `purchase`. */
  lemma CheckoutRowDrawsPurchase(ticket: nat)
    requires ticket < 7
    ensures DrawnType("checkout", ticket) == "purchase"
  {
    RowOf(5);
    ChooseWeightedInterval(Row("checkout"), 0, ticket);
  }

  /**
   * A new session whose first draw is `search` (tickets 8 and 9 of the start row) lands on
   * the search results page without product context.
   */
  lemma SearchFromNewSession(s: SessionState, userId: string, d: EventDraws)
    requires EventDrawsInRange(d) && s.lastEventType == "START_SESSION" && 8 <= d.typeTicket
    ensures var r := Transition(s, userId, d);
      && r.event.eventType == "search" && r.event.pageUrl == "/search_results"
      && r.next.currentProduct == None && r.next.cart == s.cart && r.event.productId == None
  {
    StartRowDrawsSearch(d.typeTicket);
  }

  /**
   * After `add_to_cart` of `a`, a draw of `checkout` (tickets 4 to 7) keeps the cart `[a]`,
   * lands on the checkout page and clears the product context.
   */
  lemma CheckoutKeepsCart(s: SessionState, userId: string, d: EventDraws, a: Product)
    requires EventDrawsInRange(d) && s.lastEventType == "add_to_cart" && s.cart == [a]
    requires 4 <= d.typeTicket < 8
    ensures var r := Transition(s, userId, d);
      && r.event.eventType == "checkout" && r.event.pageUrl == "/checkout"
      && r.next.cart == [a] && r.next.currentProduct == None && r.event.cartSize == 1
  {
    AddToCartRowDrawsCheckout(d.typeTicket);
  }

  /**
   * After `checkout`, a draw of `purchase` (tickets 0 to 6) on the cart `[a, b]` reports
   * the exact total and the `Mixed` category, and empties the cart.
   */
  lemma PurchaseEmptiesCart(s: SessionState, userId: string, d: EventDraws, a: Product, b: Product)
    requires EventDrawsInRange(d) && s.lastEventType == "checkout" && s.cart == [a, b]
    requires d.typeTicket < 7
    ensures var r := Transition(s, userId, d);
      && r.event.eventType == "purchase" && r.event.pageUrl == "/purchase_success"
      && r.event.productPrice == Total(a.price + b.price) && r.event.category == Some("Mixed")
      && r.next.cart == [] && r.event.cartSize == 0
  {
    CheckoutRowDrawsPurchase(d.typeTicket);
    PurchaseOfTwo(a, b);
  }
}
