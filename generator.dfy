/**
 * The generator as the program runs it: a process-wide store of mutable session
 * records, `_get_or_create_session`, `generate_clickstream_event` and the start-up
 * loop, each proved to compute what `Sessions` and `Transitions` specify.
 */
module Generator {
  import opened Wrappers
  import opened OrderedDict
  import opened Sampling
  import opened Config
  import opened Sessions
  import opened Transitions

  /** The number of freshly minted ids offered beside the active users. */
  const FreshCandidates: nat := 5

  /** The category scan: the first category of `cat` whose list contains `p`. */
  method FindCategory(cat: Dict<seq<Product>>, p: Product) returns (c: Option<string>)
    ensures c == OwningCategory(cat, p)
  {
    c := None;
    var i := 0;
    while i < |cat|
      invariant 0 <= i <= |cat|
      invariant OwningCategory(cat[i..], p) == OwningCategory(cat, p)
    {
      if p in cat[i].1 {
        c := Some(cat[i].0);
        break;
      }
      assert cat[i..][1..] == cat[i + 1..];
      i := i + 1;
    }
  }

  /** The single-item product fields of a non-purchase event about a product. */
  method FillProductDetails(o: Outcome) returns (f: ProductFields)
    ensures f == ProductDetails(o)
  {
    f := o.fields;
    if o.selected.Some? && o.eventType != "purchase" {
      var p := o.selected.value;
      var owner := FindCategory(ProductsByCategory, p);
      if owner.None? {
        owner := o.fields.category;
      }
      f := ProductFields(Some([p.id]), Some([p.name]), Some([p.brand]), PerItem([p.price]), owner);
    }
  }

  /** A session record, updated in place by the synthesiser. */
  class Session {
    var sessionId: string
    var lastPage: string
    var cart: seq<Product>
    var lastEventType: string
    var currentProduct: Option<Product>
    var isNewUser: bool
    var referralSource: string
    var deviceType: string
    var geoCountry: string
    var geoCity: string
    var os: string
    var browser: string

    /** The record's current value. */
    function View(): SessionState
      reads this
    {
      SessionState(sessionId, lastPage, cart, lastEventType, currentProduct, isNewUser,
                   referralSource, deviceType, geoCountry, geoCity, os, browser)
    }

    constructor (s: SessionState)
      ensures View() == s
    {
      sessionId, lastPage, cart, lastEventType := s.sessionId, s.lastPage, s.cart, s.lastEventType;
      currentProduct, isNewUser := s.currentProduct, s.isNewUser;
      referralSource, deviceType := s.referralSource, s.deviceType;
      geoCountry, geoCity, os, browser := s.geoCountry, s.geoCity, s.os, s.browser;
    }

    /** What a branch of the context policy yields besides the new cart and product context. */
    predicate Yields(o: Outcome, eventType: string, pageUrl: string, selected: Option<Product>,
                     fields: ProductFields)
    {
      eventType == o.eventType && pageUrl == o.pageUrl && selected == o.selected && fields == o.fields
    }

    /** The `page_view` branch: a general page, or a product page of a drawn product. */
    method ViewPage(e: EventDraws)
      returns (eventType: string, pageUrl: string, selected: Option<Product>, fields: ProductFields)
      requires EventDrawsInRange(e)
      modifies this
      ensures var o := ResolveContext(old(View()), "page_view", e);
        && Yields(o, eventType, pageUrl, selected, fields)
        && View() == old(View()).(cart := o.cart, currentProduct := o.current)
    {
      eventType, selected, fields := "page_view", None, NoProduct;
      if e.pageRoll < GeneralPagePercent {
        GeneralPagesNonEmpty();
        pageUrl := GeneralPages()[e.generalPageIdx];
        currentProduct := None;
      } else {
        fields := fields.(category := Some(ProductCategories[e.categoryIdx]));
        var p := ProductsIn(e.categoryIdx)[e.productIdx];
        selected := Some(p);
        pageUrl := "/products/" + p.id;
        currentProduct := Some(p);
      }
    }

    /** The `add_to_cart` branch: the viewed product, or a drawn one, is appended to the cart. */
    method AddToCart(e: EventDraws)
      returns (eventType: string, pageUrl: string, selected: Option<Product>, fields: ProductFields)
      requires EventDrawsInRange(e)
      modifies this
      ensures var o := ResolveContext(old(View()), "add_to_cart", e);
        && Yields(o, eventType, pageUrl, selected, fields)
        && View() == old(View()).(cart := o.cart, currentProduct := o.current)
    {
      eventType, fields := "add_to_cart", NoProduct;
      if currentProduct.Some? {
        selected := currentProduct;
      } else {
        selected := Some(ProductsIn(e.categoryIdx)[e.productIdx]);
      }
      cart := cart + [selected.value];
      pageUrl := "/cart";
      currentProduct := None;
    }

    /** The downgrade of a cart event on an empty cart to a page view of any page. */
    method Downgrade(e: EventDraws)
      returns (eventType: string, pageUrl: string, selected: Option<Product>, fields: ProductFields)
      requires EventDrawsInRange(e)
      modifies this
      ensures var o := Downgraded(old(View()), e);
        && Yields(o, eventType, pageUrl, selected, fields)
        && View() == old(View()).(cart := o.cart, currentProduct := o.current)
    {
      eventType, selected, fields := "page_view", None, NoProduct;
      pageUrl := Pages[e.downgradePageIdx];
      currentProduct := None;
    }

    /** The `remove_from_cart` branch: the item at a drawn position leaves the cart. */
    method RemoveFromCart(e: EventDraws)
      returns (eventType: string, pageUrl: string, selected: Option<Product>, fields: ProductFields)
      requires EventDrawsInRange(e)
      modifies this
      ensures var o := ResolveContext(old(View()), "remove_from_cart", e);
        && Yields(o, eventType, pageUrl, selected, fields)
        && View() == old(View()).(cart := o.cart, currentProduct := o.current)
    {
      if cart != [] {
        eventType, fields := "remove_from_cart", NoProduct;
        var i := e.randrange(|cart|);
        var removed := cart[i];
        cart := cart[..i] + cart[i + 1..];
        selected := Some(removed);
        pageUrl := "/cart";
      } else {
        eventType, pageUrl, selected, fields := Downgrade(e);
      }
    }

    /** The `checkout` branch. */
    method Checkout(e: EventDraws)
      returns (eventType: string, pageUrl: string, selected: Option<Product>, fields: ProductFields)
      requires EventDrawsInRange(e)
      modifies this
      ensures var o := ResolveContext(old(View()), "checkout", e);
        && Yields(o, eventType, pageUrl, selected, fields)
        && View() == old(View()).(cart := o.cart, currentProduct := o.current)
    {
      if cart != [] {
        eventType, selected, fields := "checkout", None, NoProduct;
        pageUrl := "/checkout";
        currentProduct := None;
      } else {
        eventType, pageUrl, selected, fields := Downgrade(e);
      }
    }

    /** The `purchase` branch: the whole cart is bought and emptied. */
    method Purchase(e: EventDraws)
      returns (eventType: string, pageUrl: string, selected: Option<Product>, fields: ProductFields)
      requires EventDrawsInRange(e)
      modifies this
      ensures var o := ResolveContext(old(View()), "purchase", e);
        && Yields(o, eventType, pageUrl, selected, fields)
        && View() == old(View()).(cart := o.cart, currentProduct := o.current)
    {
      if cart != [] {
        eventType, selected := "purchase", None;
        fields := ProductFields(Some(Ids(cart)), Some(Names(cart)), Some(Distinct(Brands(cart))),
                                Total(TotalCents(cart)), Some("Mixed"));
        pageUrl := "/purchase_success";
        cart := [];
        currentProduct := None;
      } else {
        eventType, pageUrl, selected, fields := Downgrade(e);
      }
    }

    /** The context policy for the drawn event type, one branch per type. */
    method Resolve(drawn: string, e: EventDraws)
      returns (eventType: string, pageUrl: string, selected: Option<Product>, fields: ProductFields)
      requires EventDrawsInRange(e)
      modifies this
      ensures var o := ResolveContext(old(View()), drawn, e);
        && Yields(o, eventType, pageUrl, selected, fields)
        && View() == old(View()).(cart := o.cart, currentProduct := o.current)
    {
      if drawn == "page_view" {
        eventType, pageUrl, selected, fields := ViewPage(e);
      } else if drawn == "add_to_cart" {
        eventType, pageUrl, selected, fields := AddToCart(e);
      } else if drawn == "remove_from_cart" {
        eventType, pageUrl, selected, fields := RemoveFromCart(e);
      } else if drawn == "checkout" {
        eventType, pageUrl, selected, fields := Checkout(e);
      } else if drawn == "purchase" {
        eventType, pageUrl, selected, fields := Purchase(e);
      } else if drawn == "search" {
        eventType, pageUrl, selected, fields := drawn, "/search_results", None, NoProduct;
        currentProduct := None;
      } else {
        eventType, pageUrl, selected, fields := drawn, lastPage, None, NoProduct;
      }
    }

    /**
     * The body of `generate_clickstream_event` once the session is resolved: the next
     * type is drawn, the context policy applied, the product fields filled in, the event
     * built and the state committed.
     */
    method Advance(userId: string, e: EventDraws) returns (ev: Event)
      requires EventDrawsInRange(e)
      modifies this
      ensures var step := Transition(old(View()), userId, e);
        ev == step.event && View() == step.next
    {
      ghost var before := View();
      var drawn := ChooseWeighted(Row(lastEventType), e.typeTicket);
      assert drawn == DrawnType(before.lastEventType, e.typeTicket);
      var eventType, pageUrl, selected, fields := Resolve(drawn, e);
      var o := Outcome(eventType, pageUrl, cart, currentProduct, selected, fields);
      assert o == ResolveContext(before, drawn, e);
      fields := FillProductDetails(o);
      ev := Event(userId, sessionId, e.timestamp, eventType, pageUrl,
                  fields.ids, fields.names, fields.brands, fields.price, fields.category,
                  browser, os, IpAddress(e.ipOctet3, e.ipOctet4),
                  referralSource, deviceType, geoCountry, geoCity,
                  isNewUser, |cart|);
      lastPage := pageUrl;
      lastEventType := eventType;
      assert View() == before.(lastPage := o.pageUrl, cart := o.cart, lastEventType := o.eventType,
                               currentProduct := o.current);
    }
  }

  /** All random draws of one `generate_clickstream_event` call. */
  datatype Draws = Draws(freshIds: seq<string>, pick: nat, session: SessionDraws, event: EventDraws)

  ghost predicate DrawsInRange(d: Draws, activeUsers: nat) {
    && |d.freshIds| == FreshCandidates
    && d.pick < activeUsers + FreshCandidates
    && SessionDrawsInRange(d.session)
    && EventDrawsInRange(d.event)
  }

  /**
   * The user of the event: the one fresh id when there are no active users, otherwise
   * the `pick`-th of the active users followed by the fresh candidates.
   */
  function ChooseUser(active: seq<string>, minted: seq<string>, pick: nat): (u: string)
    requires |minted| > 0 && pick < |active| + |minted|
    ensures active == [] ==> u == minted[0]
    ensures active != [] ==> (u in active || u in minted)
    ensures active != [] && pick < |active| ==> u == active[pick]
  {
    if active == [] then minted[0] else (active + minted)[pick]
  }

  /** The keys are the ids in `ids`, each once, and no two users share a record. */
  ghost predicate WellFormed(ids: seq<string>, sessions: map<string, Session>) {
    && (forall i, j | 0 <= i < j < |ids| :: ids[i] != ids[j])
    && (forall u :: u in sessions <==> u in ids)
    && (forall u, v | u in sessions && v in sessions && u != v :: sessions[u] != sessions[v])
  }

  /** Storing a record no other user holds keeps the store well formed. */
  lemma InstallKeepsWellFormed(ids: seq<string>, sessions: map<string, Session>, userId: string, s: Session)
    requires WellFormed(ids, sessions)
    requires forall u | u in sessions :: sessions[u] != s
    ensures WellFormed(if userId in sessions then ids else ids + [userId], sessions[userId := s])
  {
    var ids' := if userId in sessions then ids else ids + [userId];
    forall u ensures u in sessions[userId := s] <==> u in ids' {
      assert u in ids' <==> u in ids || u == userId;
    }
  }

  /** `user_sessions`, with its keys in insertion order. */
  class SessionStore {
    var userIds: seq<string>
    var sessions: map<string, Session>

    /** The store's invariant, over its current fields. */
    ghost predicate Valid()
      reads this
    {
      WellFormed(userIds, sessions)
    }

    /** The value of every record. */
    ghost function Snapshot(): map<string, SessionState>
      reads this, sessions.Values
    {
      map u | u in sessions :: sessions[u].View()
    }

    /** `m` holds the value of every record, and nothing else. */
    lemma SnapshotIs(m: map<string, SessionState>)
      requires m.Keys == sessions.Keys
      requires forall u | u in sessions :: m[u] == sessions[u].View()
      ensures Snapshot() == m
    {
    }

    /** `user_sessions = {}`. */
    constructor ()
      ensures Valid() && userIds == [] && sessions == map[] && Snapshot() == map[]
    {
      userIds, sessions := [], map[];
    }

    /** `user_sessions[userId] = record`, as a new record object. */
    method Install(userId: string, record: SessionState) returns (s: Session)
      requires Valid()
      modifies this
      ensures Valid() && fresh(s)
      ensures userId in sessions && s == sessions[userId]
      ensures Snapshot() == old(Snapshot())[userId := record]
      ensures userIds == if userId in old(sessions) then old(userIds) else old(userIds) + [userId]
      ensures forall u | u in old(sessions) && u != userId :: sessions[u] == old(sessions[u])
    {
      ghost var previous := Snapshot();
      s := new Session(record);
      var ids := if userId in sessions then userIds else userIds + [userId];
      var m := sessions[userId := s];
      InstallKeepsWellFormed(userIds, sessions, userId, s);
      ghost var expected := previous[userId := record];
      forall u | u in m ensures expected[u] == m[u].View() {
      }
      userIds, sessions := ids, m;
      SnapshotIs(expected);
    }

    /** `_get_or_create_session(userId)`. */
    method GetOrCreateSession(userId: string, d: SessionDraws) returns (s: Session)
      requires Valid() && SessionDrawsInRange(d)
      modifies this
      ensures Valid()
      ensures userId in sessions && s == sessions[userId]
      ensures Snapshot() == GetOrCreate(old(Snapshot()), userId, d)
      ensures userIds == if userId in old(sessions) then old(userIds) else old(userIds) + [userId]
      ensures forall u | u in old(sessions) && u != userId :: sessions[u] == old(sessions[u])
      ensures userId in old(sessions) && !Renews(d) ==> sessions == old(sessions)
      ensures !(userId in old(sessions) && !Renews(d)) ==> fresh(s)
    {
      if userId !in sessions {
        s := Install(userId, RollSession(d, true, GeoLocations[d.countryIdx].0, Cities(d.countryIdx)[d.cityIdx]));
      } else if d.renewRoll < NewSessionPercent {
        s := Install(userId, RollSession(d, false, sessions[userId].geoCountry, sessions[userId].geoCity));
      } else {
        s := sessions[userId];
      }
    }

    /** The resolved session of `userId` emits its next event and is advanced in place. */
    method AdvanceUser(userId: string, s: Session, e: EventDraws) returns (ev: Event)
      requires Valid() && userId in sessions && s == sessions[userId] && EventDrawsInRange(e)
      modifies s
      ensures Valid()
      ensures var step := Transition(old(Snapshot())[userId], userId, e);
              ev == step.event && Snapshot() == old(Snapshot())[userId := step.next]
    {
      ghost var previous := Snapshot();
      ev := s.Advance(userId, e);
      forall u | u in sessions ensures previous[userId := s.View()][u] == sessions[u].View() {
        if u != userId {
          assert sessions[u] != s;
        }
      }
      SnapshotIs(previous[userId := s.View()]);
    }

    /** `generate_clickstream_event()`: one event, and the session it was drawn for advanced. */
    method GenerateClickstreamEvent(d: Draws) returns (ev: Event)
      requires Valid() && DrawsInRange(d, |userIds|)
      modifies this, sessions.Values
      ensures Valid()
      ensures userIds == old(userIds) + if ChooseUser(old(userIds), d.freshIds, d.pick) in old(sessions)
                                         then [] else [ChooseUser(old(userIds), d.freshIds, d.pick)]
      ensures var userId := ChooseUser(old(userIds), d.freshIds, d.pick);
              var resolved := GetOrCreate(old(Snapshot()), userId, d.session);
              var step := Transition(resolved[userId], userId, d.event);
              && ev == step.event
              && Snapshot() == resolved[userId := step.next]
    {
      var userId := ChooseUser(userIds, d.freshIds, d.pick);
      var s := GetOrCreateSession(userId, d.session);
      ev := AdvanceUser(userId, s, d.event);
    }

    /** The start-up loop: one `_get_or_create_session` per freshly generated id. */
    method Bootstrap(ids: seq<string>, draws: seq<SessionDraws>)
      requires Valid() && |ids| == NumUsers && |draws| == |ids| && AllInRange(draws)
      modifies this
      ensures Valid()
      ensures Snapshot() == Seed(old(Snapshot()), ids, draws)
    {
      var i := 0;
      while i < |ids|
        invariant 0 <= i <= |ids|
        invariant Valid()
        invariant AllInRange(draws[i..])
        invariant Seed(Snapshot(), ids[i..], draws[i..]) == Seed(old(Snapshot()), ids, draws)
      {
        AllInRangeTail(draws[i..]);
        assert draws[i..][0] == draws[i] && draws[i..][1..] == draws[i + 1..];
        assert ids[i..][0] == ids[i] && ids[i..][1..] == ids[i + 1..];
        ghost var before := Snapshot();
        var _ := GetOrCreateSession(ids[i], draws[i]);
        assert Snapshot() == GetOrCreate(before, ids[i], draws[i]);
        i := i + 1;
      }
      assert ids[i..] == [] && draws[i..] == [];
    }
  }
}
