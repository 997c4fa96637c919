/**
 * The reference tables the generator runs over. Prices are integer cents; transition
 * probabilities are integer tenths and the referral/device weights integer percent,
 * so that "each row sums to 1.0" is an exact statement.
 */
module Config {
  import opened Wrappers
  import opened OrderedDict
  import opened Sampling

  /** A catalog product; `price` is in cents (the unused `stock` field is dropped). */
  datatype Product = Product(id: string, name: string, brand: string, price: nat)

  const NumUsers: nat := 200

  const Pages: seq<string> :=
    ["/", "/products", "/about", "/contact", "/cart", "/checkout", "/purchase_success"]

  const ProductCategories: seq<string> :=
    ["Laptops", "Smartphones", "Headphones", "Monitors",
     "Keyboards", "Mice", "Speakers", "Cameras", "Wearables"]

  const LaptopsProducts: seq<Product> := [
    Product("LAPTOP-XPS15-2024", "Dell XPS 15 (2024)", "Dell", 189999),
    Product("LAPTOP-MBOOK-AIR-M3", "MacBook Air M3", "Apple", 119900),
    Product("LAPTOP-SURFACE-PRO10", "Microsoft Surface Pro 10", "Microsoft", 109900),
    Product("LAPTOP-ZENBOOK-14", "ASUS ZenBook 14 OLED", "ASUS", 99900),
    Product("LAPTOP-IDEAPAD-GAMING", "Lenovo IdeaPad Gaming 3", "Lenovo", 84900)]

  const SmartphonesProducts: seq<Product> := [
    Product("PHONE-IPHONE15", "iPhone 15 Pro", "Apple", 99900),
    Product("PHONE-SAMSUNG-S24", "Samsung Galaxy S24 Ultra", "Samsung", 129900),
    Product("PHONE-PIXEL8", "Google Pixel 8 Pro", "Google", 79900),
    Product("PHONE-ONEPLUS-12", "OnePlus 12", "OnePlus", 79900),
    Product("PHONE-XIAOMI-14", "Xiaomi 14 Ultra", "Xiaomi", 99900)]

  const HeadphonesProducts: seq<Product> := [
    Product("HP-SONY-WH1000XM5", "Sony WH-1000XM5", "Sony", 34900),
    Product("HP-BOSE-QC45", "Bose QuietComfort 45", "Bose", 27900),
    Product("HP-AIRPODS-MAX", "AirPods Max", "Apple", 54900),
    Product("HP-SENNH-HD660S2", "Sennheiser HD 660S2", "Sennheiser", 59900),
    Product("HP-JBL-TUNE760NC", "JBL Tune 760NC", "JBL", 12900)]

  const MonitorsProducts: seq<Product> := [
    Product("MON-DELL-U2723QE", "Dell UltraSharp U2723QE", "Dell", 59900),
    Product("MON-LG-27GN95R", "LG UltraGear 27GN95R", "LG", 79900),
    Product("MON-SAMSUNG-G9", "Samsung Odyssey G9", "Samsung", 129900)]

  const KeyboardsProducts: seq<Product> := [
    Product("KB-LOGI-MXKEYS", "Logitech MX Keys S", "Logitech", 10900),
    Product("KB-RAZER-BWV3", "Razer BlackWidow V3", "Razer", 13900)]

  const MiceProducts: seq<Product> := [
    Product("MOUSE-LOGI-MXMASTER3S", "Logitech MX Master 3S", "Logitech", 9900),
    Product("MOUSE-RAZER-DEATHADDER", "Razer DeathAdder V3", "Razer", 6900)]

  const SpeakersProducts: seq<Product> := [
    Product("SPK-BOSE-SOUNDLINKFLEX", "Bose SoundLink Flex", "Bose", 14900),
    Product("SPK-JBL-FLIP6", "JBL Flip 6", "JBL", 10900)]

  const CamerasProducts: seq<Product> := [
    Product("CAM-SONY-A7IV", "Sony Alpha a7 IV", "Sony", 249900),
    Product("CAM-CANON-R6II", "Canon EOS R6 Mark II", "Canon", 229900)]

  const WearablesProducts: seq<Product> := [
    Product("WEAR-APPLE-WATCH9", "Apple Watch Series 9", "Apple", 39900),
    Product("WEAR-SAMSUNG-WATCH6", "Samsung Galaxy Watch 6", "Samsung", 29900)]

  /** The catalog: each category with its products, in insertion order. */
  const ProductsByCategory: Dict<seq<Product>> := [
    ("Laptops", LaptopsProducts),
    ("Smartphones", SmartphonesProducts),
    ("Headphones", HeadphonesProducts),
    ("Monitors", MonitorsProducts),
    ("Keyboards", KeyboardsProducts),
    ("Mice", MiceProducts),
    ("Speakers", SpeakersProducts),
    ("Cameras", CamerasProducts),
    ("Wearables", WearablesProducts)
  ]

  const EventTypes: seq<string> :=
    ["page_view", "add_to_cart", "remove_from_cart", "purchase", "search", "checkout"]

  /** The transition target that has no row of its own. */
  const EndSession: string := "end_session"

  /** Each transition row's weights are tenths of one. */
  const TransitionScale: nat := 10

  const EventTransitionProbabilities: Dict<Dict<nat>> := [
    ("START_SESSION", [("page_view", 8), ("search", 2)]),
    ("page_view", [("page_view", 6), ("add_to_cart", 2), ("search", 1), ("end_session", 1)]),
    ("add_to_cart", [("page_view", 4), ("checkout", 4), ("remove_from_cart", 1), ("end_session", 1)]),
    ("remove_from_cart", [("page_view", 7), ("add_to_cart", 2), ("end_session", 1)]),
    ("search", [("page_view", 7), ("search", 2), ("end_session", 1)]),
    ("checkout", [("purchase", 7), ("page_view", 2), ("end_session", 1)]),
    ("purchase", [("page_view", 9), ("end_session", 1)])
  ]

  /** Referral and device weights are percent. */
  const PercentScale: nat := 100

  const ReferralSources: Dict<nat> := [
    ("organic_search", 40), ("direct", 20), ("social_media", 15),
    ("paid_ad", 15), ("email_campaign", 10)
  ]

  const DeviceTypes: Dict<nat> := [("Desktop", 60), ("Mobile", 30), ("Tablet", 10)]

  const GeoLocations: Dict<seq<string>> := [
    ("USA", ["New York", "Los Angeles", "Chicago", "Houston", "Phoenix"]),
    ("India", ["Mumbai", "Bengaluru", "Delhi", "Chennai", "Hyderabad"]),
    ("Germany", ["Berlin", "Munich", "Hamburg", "Frankfurt"]),
    ("UK", ["London", "Manchester", "Birmingham"]),
    ("Australia", ["Sydney", "Melbourne", "Brisbane"])
  ]

  const BrowserTypes: seq<string> := ["Chrome", "Firefox", "Safari", "Edge"]

  const OsTypes: seq<string> := ["Windows", "macOS", "Linux", "Android", "iOS"]

  /** The ids of the products of `cat`, category after category, each list in order. */
  function CatalogIds(cat: Dict<seq<Product>>): seq<string> {
    if cat == [] then [] else Ids(cat[0].1) + CatalogIds(cat[1..])
  }

  /** `ALL_PRODUCT_IDS`. */
  function AllProductIds(): seq<string> {
    CatalogIds(ProductsByCategory)
  }

  /** The ids of `ps`, in order. */
  function Ids(ps: seq<Product>): (r: seq<string>)
    ensures |r| == |ps|
    ensures forall k | 0 <= k < |ps| :: r[k] == ps[k].id
  {
    if ps == [] then [] else [ps[0].id] + Ids(ps[1..])
  }

  /** The number of products listed in `cat`. */
  function ProductCount(cat: Dict<seq<Product>>): nat {
    if cat == [] then 0 else |cat[0].1| + ProductCount(cat[1..])
  }

  /** `p` is listed under some category of `cat`. */
  predicate Listed(cat: Dict<seq<Product>>, p: Product) {
    exists i :: 0 <= i < |cat| && p in cat[i].1
  }

  /** A catalog product. */
  predicate InCatalog(p: Product) {
    Listed(ProductsByCategory, p)
  }

  // ---------------------------------------------------------------------------
  // Properties of the tables.

  /** Every row of the transition table sums to one (ten tenths). */
  lemma TransitionRowsSumToOne()
    ensures forall i | 0 <= i < |EventTransitionProbabilities| ::
      TotalWeight(EventTransitionProbabilities[i].1) == TransitionScale
  {
  }

  /** Every transition target except `end_session` has a row; `end_session` has none. */
  lemma TransitionTargetsHaveRows()
    ensures Get(EventTransitionProbabilities, EndSession).None?
    ensures forall i, j | 0 <= i < |EventTransitionProbabilities| && 0 <= j < |EventTransitionProbabilities[i].1| ::
      EventTransitionProbabilities[i].1[j].0 == EndSession ||
      Get(EventTransitionProbabilities, EventTransitionProbabilities[i].1[j].0).Some?
  {
  }

  /** Every transition target is an event type or `end_session`; none is the start sentinel. */
  lemma TransitionTargetsAreEventTypes()
    ensures forall i, j | 0 <= i < |EventTransitionProbabilities| && 0 <= j < |EventTransitionProbabilities[i].1| ::
      EventTransitionProbabilities[i].1[j].0 in EventTypes + [EndSession]
  {
  }

  /**
   * Every category name is a key of the catalog, in the same position, and its
   * product list is non-empty.
   */
  lemma CategoriesHaveProducts()
    ensures |ProductCategories| == |ProductsByCategory|
    ensures forall i | 0 <= i < |ProductCategories| ::
      Get(ProductsByCategory, ProductCategories[i]) == Some(ProductsByCategory[i].1) &&
      |ProductsByCategory[i].1| > 0
  {
    CatalogKeys();
    CatalogKeysDistinct();
    CatalogListsNonEmpty();
    forall i | 0 <= i < |ProductCategories|
      ensures Get(ProductsByCategory, ProductCategories[i]) == Some(ProductsByCategory[i].1)
    {
      assert Keys(ProductsByCategory)[i] == ProductsByCategory[i].0;
      GetAtKey(ProductsByCategory, i);
    }
  }

  /** No category is listed twice in the catalog. */
  lemma CatalogKeysDistinct()
    ensures DistinctKeys(ProductsByCategory)
  {
  }

  /** Every category of the catalog has at least one product. */
  lemma CatalogListsNonEmpty()
    ensures forall i | 0 <= i < |ProductsByCategory| :: |ProductsByCategory[i].1| > 0
  {
  }

  /** The catalog lists the categories in the order of the category list. */
  lemma CatalogKeys()
    ensures Keys(ProductsByCategory) == ProductCategories
  {
  }

  /** Every country has a non-empty city list. */
  lemma CountriesHaveCities()
    ensures DistinctKeys(GeoLocations)
    ensures forall i | 0 <= i < |GeoLocations| :: |GeoLocations[i].1| > 0
  {
  }

  /** Referral and device weights are all positive and each table sums to one (100 percent). */
  lemma WeightsPositive()
    ensures forall i | 0 <= i < |ReferralSources| :: ReferralSources[i].1 > 0
    ensures forall i | 0 <= i < |DeviceTypes| :: DeviceTypes[i].1 > 0
    ensures TotalWeight(ReferralSources) == PercentScale
    ensures TotalWeight(DeviceTypes) == PercentScale
  {
  }

  /** `CatalogIds` has one entry per listed product. */
  lemma {:induction false} CatalogIdsLength(cat: Dict<seq<Product>>)
    ensures |CatalogIds(cat)| == ProductCount(cat)
  {
    if cat != [] {
      CatalogIdsLength(cat[1..]);
    }
  }

  /** An id occurs in `CatalogIds` exactly when some listed product has it. */
  lemma {:induction false} CatalogIdsMembership(cat: Dict<seq<Product>>, id: string)
    ensures id in CatalogIds(cat) <==> exists p :: Listed(cat, p) && p.id == id
  {
    if cat != [] {
      CatalogIdsMembership(cat[1..], id);
      if id in CatalogIds(cat) {
        if id in Ids(cat[0].1) {
          var k :| 0 <= k < |cat[0].1| && Ids(cat[0].1)[k] == id;
          assert cat[0].1[k] in cat[0].1;
          assert Listed(cat, cat[0].1[k]);
        } else {
          assert id in CatalogIds(cat[1..]);
          var p :| Listed(cat[1..], p) && p.id == id;
          var i :| 0 <= i < |cat[1..]| && p in cat[1..][i].1;
          assert cat[i + 1] == cat[1..][i];
          assert Listed(cat, p);
        }
      } else {
        forall p | Listed(cat, p) ensures p.id != id {
          var i :| 0 <= i < |cat| && p in cat[i].1;
          if i == 0 {
            var k :| 0 <= k < |cat[0].1| && cat[0].1[k] == p;
            assert Ids(cat[0].1)[k] == p.id;
          } else {
            assert cat[1..][i - 1] == cat[i];
            assert Listed(cat[1..], p);
          }
        }
      }
    }
  }

  /** `ALL_PRODUCT_IDS` lists every catalog product's id, one entry per product. */
  lemma AllProductIdsComplete()
    ensures |AllProductIds()| == ProductCount(ProductsByCategory)
    ensures forall id :: id in AllProductIds() <==> exists p :: InCatalog(p) && p.id == id
  {
    CatalogIdsLength(ProductsByCategory);
    forall id ensures id in AllProductIds() <==> exists p :: InCatalog(p) && p.id == id {
      CatalogIdsMembership(ProductsByCategory, id);
    }
  }
}
