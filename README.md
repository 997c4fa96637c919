# Clickstream session simulator — a verified model

The data generator of the clickstream pipeline invents shoppers and their clicks. A
process-wide store `user_sessions` maps each user id to a mutable session record. The
record holds the last page, the last event type, an ordered cart of catalog products,
the product currently viewed, and the attributes rolled when the session began: referral
source, device, country and city, OS and browser.

Each call of `generate_clickstream_event` runs one step of a probabilistic state
machine:

1. It picks a user and resolves the session with `_get_or_create_session`. An unseen
   user gets a new session. A known user renews the session with probability 0.05,
   keeping the geography. Otherwise the record is returned unchanged.
2. It draws the next event type from the transition row of `last_event_type`. A state
   with no row, in practice `end_session`, falls back to the `page_view` row.
3. It applies the per-type context policy. This appends to, removes from or empties the
   cart, and sets or clears the viewed product. `remove_from_cart`, `checkout` and
   `purchase` on an empty cart are downgraded to a `page_view` of any page.
4. It fills in the product fields. A single-item event gets one-element lists and the
   first catalog category that lists the product. A purchase gets cart-wide lists, the
   distinct brands, the total price and the category `Mixed`.
5. It assembles the event and commits `last_page` and `last_event_type`.

At import time, a start-up loop creates sessions for `NUM_USERS` fresh ids.

The Dafny project has seven modules:

- `Wrappers` holds `Option`.
- `OrderedDict` models a Python dict as an ordered sequence of pairs, because iteration
  order matters to the category scan, to `list(keys())` and to cumulative weights.
- `Sampling` holds `_choose_from_weighted_dict`, driven by an integer ticket over the
  cumulative weights.
- `Config` holds the reference tables and their well-formedness lemmas.
- `Sessions` holds the session record, `_get_or_create_session` and the start-up loop
  as functions on the map from user id to record.
- `Transitions` holds one step of the state machine as a function of the record and
  the draws.
- `Generator` holds the program as it runs: a `Session` class whose fields are updated
  in place, and a `SessionStore` class over `user_sessions`. Their methods mirror the
  source's branches and are proved to compute what `Sessions` and `Transitions` specify.

Every random draw is an explicit parameter:

- `random.random() < p` is a roll in 0..99 compared with the percentage.
- A weighted choice takes a ticket below the row total. Transition weights are in
  tenths and referral and device weights in percent, so "each row sums to 1.0" is exact.
- A uniform choice takes an index.
- `random.randrange` is an oracle function of the cart length.
- Ids, the timestamp and the IP octets are supplied values.

Prices are integer cents.

## Model

| member | source | states |
|---|---|---|
| OrderedDict.Get | data-generator/src/event_generator.py:94 | a lookup finds nothing exactly when no entry has the key; a found value belongs to an entry with that key |
| OrderedDict.Keys | data-generator/src/event_generator.py:29 | `list(d.keys())`: one key per entry, in insertion order |
| OrderedDict.GetAtKey | data-generator/src/config.py:82-118 | with distinct keys, looking up the key of entry i yields entry i's value |
| Sampling.ChooseWeighted | data-generator/src/event_generator.py:27-31 | a ticket below the total weight always draws a key of the dict whose weight is positive |
| Sampling.ChooseWeightedInterval | data-generator/src/event_generator.py:27-31 | entry i is drawn exactly by the tickets of its cumulative interval, as `random.choices` with weights does |
| Sampling.EveryKeyDrawable | data-generator/src/event_generator.py:27-31 | with positive weights every key is drawn by some ticket |
| Config.Ids | data-generator/src/config.py:150 | the ids of a product list, one per product, in order |
| Config.TransitionRowsSumToOne | data-generator/src/config.py:80-118 | every transition row sums to one (ten tenths) |
| Config.TransitionTargetsHaveRows | data-generator/src/config.py:82-118 | `end_session` has no row; every other target is itself a row key |
| Config.TransitionTargetsAreEventTypes | data-generator/src/config.py:77-118 | every transition target is an event type or `end_session` |
| Config.CategoriesHaveProducts | data-generator/src/config.py:21-73 | each category name is a catalog key, in the same position, with a non-empty product list |
| Config.CatalogKeys | data-generator/src/config.py:21-73 | the catalog keys are the category list, in order |
| Config.CatalogKeysDistinct | data-generator/src/config.py:26-73 | no category appears twice in the catalog |
| Config.CatalogListsNonEmpty | data-generator/src/config.py:26-73 | every catalog category lists at least one product |
| Config.CountriesHaveCities | data-generator/src/config.py:135-141 | countries are distinct and each has a non-empty city list |
| Config.WeightsPositive | data-generator/src/config.py:121-133 | all referral and device weights are positive and each table sums to one |
| Config.CatalogIdsLength | data-generator/src/config.py:150 | the comprehension yields one id per catalog product |
| Config.CatalogIdsMembership | data-generator/src/config.py:150 | an id is in the comprehension exactly when some listed product has it |
| Config.AllProductIdsComplete | data-generator/src/config.py:150 | `ALL_PRODUCT_IDS` has one entry per catalog product and holds exactly the catalog's ids |
| Sessions.Cities | data-generator/src/event_generator.py:43-44 | the city list of the drawn country is the table's list and is non-empty |
| Sessions.RollSession | data-generator/src/event_generator.py:59-73 | a new record has the new id, an empty cart, state `START_SESSION`, no viewed product, and the given user flag and place |
| Sessions.RolledFromConfig | data-generator/src/event_generator.py:41-46 | a rolled record's first page, OS, browser, referral source and device come from the configured tables |
| Sessions.GetOrCreate | data-generator/src/event_generator.py:33-74 | the store gains the user and no key is removed; other users are untouched; an unseen user gets a new-user session; a renewal resets the session but keeps the place; otherwise the store is unchanged |
| Sessions.GetOrCreateKeepsPlacesKnown | data-generator/src/event_generator.py:43-52 | every stored session stays in a configured country and city |
| Sessions.Seed | data-generator/src/event_generator.py:218-220 | the start-up loop adds every id and leaves other users untouched |
| Sessions.SeedGrowsByIds | data-generator/src/event_generator.py:218-220 | with distinct unseen ids the store grows by exactly one entry per id |
| Sessions.SeedCreatesNewUsers | data-generator/src/event_generator.py:218-220 | with distinct unseen ids every id holds a new-user session rolled with its own draws |
| Transitions.WithoutMembers | data-generator/src/event_generator.py:111 | the filtered page list keeps exactly the pages not excluded |
| Transitions.GeneralPagesNonEmpty | data-generator/src/event_generator.py:111 | the general pages are `/`, `/about` and `/contact`, so the choice is over a non-empty list |
| Transitions.ProductsIn | data-generator/src/event_generator.py:114-115 | the drawn category's product list is its catalog entry and is non-empty |
| Transitions.DrawnProduct | data-generator/src/event_generator.py:126-127 | the category-then-product draw yields a catalog product |
| Transitions.Row | data-generator/src/event_generator.py:94 | the row used for any state, including the `page_view` fallback, sums to one and leads only to event types or `end_session` |
| Transitions.PageViewRowPresent | data-generator/src/event_generator.py:94 | the fallback `page_view` row exists |
| Transitions.EndSessionUsesPageViewRow | data-generator/src/event_generator.py:94 | after `end_session` the next draw uses the `page_view` row |
| Transitions.DrawnType | data-generator/src/event_generator.py:93-95 | the drawn type is an event type or `end_session` and has positive weight in the current row |
| Transitions.TotalCentsConcat | data-generator/src/event_generator.py:160 | the price sum distributes over concatenation |
| Transitions.RemoveAt | data-generator/src/event_generator.py:135 | `pop(i)` shortens the cart by one, keeps the order of the rest, removes exactly that item from the multiset, and lowers the total by its price |
| Transitions.Distinct | data-generator/src/event_generator.py:159 | the de-duplicated brands hold exactly the cart's brands, each once |
| Transitions.PurchaseFields | data-generator/src/event_generator.py:154-163 | purchase ids and names in cart order, distinct brands, the exact total, category `Mixed` |
| Transitions.OwningCategory | data-generator/src/event_generator.py:182-186 | the scan finds a category exactly when one lists the product, and it finds the first one |
| Transitions.ResolveContext | data-generator/src/event_generator.py:104-173 | the per-type policy: downgrade exactly on a cart event with an empty cart; general page views avoid non-browse pages; product views set the context; add appends one product; remove takes out the drawn item; checkout keeps the cart; purchase empties it; search clears the context; `end_session` changes nothing |
| Transitions.ProductDetails | data-generator/src/event_generator.py:176-186 | single-item events get one-element lists of the product's fields and its first owning category; other events keep their fields |
| Transitions.DecimalRoundTrip | data-generator/src/event_generator.py:202 | the decimal rendering of an octet reads back as the same number |
| Transitions.IpAddress | data-generator/src/event_generator.py:202 | the address starts with `192.168.` |
| Transitions.Transition | data-generator/src/event_generator.py:88-216 | the emitted type is the drawn one or `page_view` after a downgrade; `last_page` and `last_event_type` become the emitted ones; `cart_size` is the cart length after the mutation; the session attributes are copied and unchanged |
| Transitions.ResolveKeepsCatalogContext | data-generator/src/event_generator.py:104-173 | the policy only puts catalog products into the cart, the context and the event, and never prices a single item |
| Transitions.TransitionKeepsCatalogContext | data-generator/src/event_generator.py:176-186 | every step keeps cart and context inside the catalog, so every single-item event carries a category |
| Transitions.PurchaseOfTwo | data-generator/src/event_generator.py:154-160 | a two-item purchase lists both ids and names in order, totals the prices exactly and is `Mixed` |
| Transitions.RowOf | data-generator/src/config.py:82-118 | a state that is a row key uses its own row |
| Transitions.StartRowDrawsSearch | data-generator/src/config.py:83-86 | tickets 8 and 9 of the start row draw `search` |
| Transitions.AddToCartRowDrawsCheckout | data-generator/src/config.py:93-98 | tickets 4 to 7 of the `add_to_cart` row draw `checkout` |
| Transitions.CheckoutRowDrawsPurchase | data-generator/src/config.py:109-113 | tickets 0 to 6 of the `checkout` row draw `purchase` |
| Transitions.SearchFromNewSession | data-generator/src/event_generator.py:171-173 | a new session drawing `search` lands on `/search_results` without product context |
| Transitions.CheckoutKeepsCart | data-generator/src/event_generator.py:144-147 | `checkout` after adding A keeps the cart `[A]`, lands on `/checkout` and clears the context |
| Transitions.PurchaseEmptiesCart | data-generator/src/event_generator.py:154-165 | a purchase of `[A, B]` reports the exact total and `Mixed` and leaves the cart empty |
| Generator.FindCategory | data-generator/src/event_generator.py:183-186 | the loop with `break` returns the first catalog category listing the product |
| Generator.FillProductDetails | data-generator/src/event_generator.py:177-186 | the imperative product-field population equals `ProductDetails` |
| Generator.Session.constructor | data-generator/src/event_generator.py:60-73 | the new record holds the given values |
| Generator.Session.ViewPage | data-generator/src/event_generator.py:107-117 | the `page_view` branch updates the record and yields the outcome `ResolveContext` specifies |
| Generator.Session.AddToCart | data-generator/src/event_generator.py:120-130 | the `add_to_cart` branch, with the in-place append, as specified |
| Generator.Session.Downgrade | data-generator/src/event_generator.py:139-142 | the downgrade to a page view of any page, with the context cleared |
| Generator.Session.RemoveFromCart | data-generator/src/event_generator.py:132-142 | the `remove_from_cart` branch, with the in-place pop, as specified |
| Generator.Session.Checkout | data-generator/src/event_generator.py:144-152 | the `checkout` branch as specified |
| Generator.Session.Purchase | data-generator/src/event_generator.py:154-169 | the `purchase` branch, with the cart reset, as specified |
| Generator.Session.Resolve | data-generator/src/event_generator.py:107-173 | the if/elif chain as a whole equals `ResolveContext` for every drawn type |
| Generator.Session.Advance | data-generator/src/event_generator.py:93-216 | one step in place: the returned event and the new record are those of `Transition` |
| Generator.ChooseUser | data-generator/src/event_generator.py:80-86 | with no active users the minted id; otherwise an active user or a minted candidate, the pick-th active user when the pick is below their count |
| Generator.InstallKeepsWellFormed | data-generator/src/event_generator.py:60 | storing a record keeps the keys equal to the ordered id list, each once, with no shared records |
| Generator.SessionStore.constructor | data-generator/src/event_generator.py:9 | the store starts empty |
| Generator.SessionStore.Install | data-generator/src/event_generator.py:60-74 | the assignment stores a new record, appends a new key at the end of the key order and touches no other user |
| Generator.SessionStore.GetOrCreateSession | data-generator/src/event_generator.py:33-74 | the store's new contents are `GetOrCreate` of the old; the continue branch changes nothing; the other branches install a fresh record |
| Generator.SessionStore.AdvanceUser | data-generator/src/event_generator.py:88-216 | advancing the resolved record changes only that user's entry, to `Transition`'s next record |
| Generator.SessionStore.GenerateClickstreamEvent | data-generator/src/event_generator.py:76-216 | the event and the new store are `Transition` applied to the session that `GetOrCreate` resolved for the chosen user; the key order gains the user only when new |
| Generator.SessionStore.Bootstrap | data-generator/src/event_generator.py:218-220 | the loop leaves the store equal to `Seed` of the old store |

## Left out

- `eventhub_publisher.py`, `generate_data.py`, the environment and credential checks, and `MAX_EVENTS_PER_BATCH`/`SLEEP_INTERVAL_SECONDS` are not part of this model. They are network I/O, a driver loop with sleeps and prints, and process configuration.
- `uuid4`, `random`, `datetime.utcnow` and `random.randint` are parameters: supplied ids, rolls, tickets, indices, a `randrange` oracle, a timestamp string and two octets. Nothing about distributions or frequencies is stated.
- `random.random()` is discretised to a percent roll. `random.random() < 0.05` becomes `roll < 5`, and `< 0.6` becomes `roll < 60`. `random.choices` with float weights becomes an integer ticket over tenths or percent.
- Prices are integer cents. `round(sum, 2)` is therefore the exact sum, and float rounding is not modelled.
- The unused `stock` field of catalog products is dropped.
- Transitions.Distinct: `list(set(...))` has no specified order. The model keeps first occurrences in cart order, and the contract states only "exactly the cart's brands, each once".
- JSON serialisation of events and the list-versus-scalar shape of `product_price` are represented by the `PriceField` datatype, not by JSON.
- The docstring of `_get_or_create_session` says 15%, but the code renews with probability 0.05. The model follows the code.
- Session ids and minted user ids are supplied and not assumed unique. `_generate_user_id` collisions are possible in the source.
- Generator.SessionStore.Bootstrap: the start-up loop takes its ids as a parameter. The statement that all ids are distinct and unseen is proved on `Seed` (`SeedGrowsByIds`, `SeedCreatesNewUsers`), under that assumption.
- The claim that a malformed transition table is rejected at start-up has no counterpart in the code, which performs no such check. The model proves instead that the constant tables are well formed (`TransitionRowsSumToOne`, `TransitionTargetsHaveRows`).
- Config.AllProductIdsComplete: the entry count is stated as the catalog's product count, without evaluating that count to the literal 28.
