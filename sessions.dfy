/**
 * The session store as values: a session record, the random draws that roll a new
 * session, and `_get_or_create_session` and the start-up loop as functions on the
 * map from user id to session. The class `Generator.SessionStore` implements them.
 */
module Sessions {
  import opened Wrappers
  import opened OrderedDict
  import opened Sampling
  import opened Config

  /** The state before a session's first event. */
  const StartSession: string := "START_SESSION"

  /**
   * An existing user starts a new session when `random.random() < 0.05`; the roll
   * is in percent. (The function's docstring speaks of 15%; the code uses 5%.)
   */
  const NewSessionPercent: nat := 5

  /** One user's session record. */
  datatype SessionState = SessionState(
    sessionId: string,
    lastPage: string,
    cart: seq<Product>,
    lastEventType: string,
    currentProduct: Option<Product>,
    isNewUser: bool,
    referralSource: string,
    deviceType: string,
    geoCountry: string,
    geoCity: string,
    os: string,
    browser: string)

  /**
   * The random draws of one call of `_get_or_create_session`: the new session id,
   * the renewal roll (percent), the referral and device tickets (percent), and the
   * indices of the uniform choices of country, city, OS, browser and initial page.
   */
  datatype SessionDraws = SessionDraws(
    sessionId: string,
    renewRoll: nat,
    referralTicket: nat,
    deviceTicket: nat,
    countryIdx: nat,
    cityIdx: nat,
    osIdx: nat,
    browserIdx: nat,
    pageIdx: nat)

  /** `GEO_LOCATIONS[country]` for the country at `countryIdx` of the key list. */
  function Cities(countryIdx: nat): (cs: seq<string>)
    requires countryIdx < |GeoLocations|
    ensures cs == GeoLocations[countryIdx].1 && |cs| > 0
  {
    CountriesHaveCities();
    GetAtKey(GeoLocations, countryIdx);
    Get(GeoLocations, GeoLocations[countryIdx].0).value
  }

  /** Every draw is within the range its Python call can return. */
  predicate SessionDrawsInRange(d: SessionDraws) {
    && d.renewRoll < PercentScale
    && d.referralTicket < PercentScale
    && d.deviceTicket < PercentScale
    && d.countryIdx < |GeoLocations|
    && d.cityIdx < |GeoLocations[d.countryIdx].1|
    && d.osIdx < |OsTypes|
    && d.browserIdx < |BrowserTypes|
    && d.pageIdx < |Pages|
  }

  /** The renewal roll of a known user came up. */
  predicate Renews(d: SessionDraws) {
    d.renewRoll < NewSessionPercent
  }

  /** A (country, city) pair of the geography table. */
  predicate KnownPlace(country: string, city: string) {
    exists i :: 0 <= i < |GeoLocations| && GeoLocations[i].0 == country && city in GeoLocations[i].1
  }

  /** The record written for a new session with the given user flag and geography. */
  function RollSession(d: SessionDraws, isNewUser: bool, country: string, city: string): (s: SessionState)
    requires SessionDrawsInRange(d)
    ensures s.sessionId == d.sessionId && s.isNewUser == isNewUser
    ensures s.cart == [] && s.lastEventType == StartSession && s.currentProduct == None
    ensures s.geoCountry == country && s.geoCity == city
  {
    WeightsPositive();
    SessionState(d.sessionId, Pages[d.pageIdx], [], StartSession, None, isNewUser,
                 ChooseWeighted(ReferralSources, d.referralTicket),
                 ChooseWeighted(DeviceTypes, d.deviceTicket),
                 country, city, OsTypes[d.osIdx], BrowserTypes[d.browserIdx])
  }

  /** The re-rolled attributes of a new session come from the configured tables. */
  lemma RolledFromConfig(d: SessionDraws, isNewUser: bool, country: string, city: string)
    requires SessionDrawsInRange(d)
    ensures var s := RollSession(d, isNewUser, country, city);
      && s.lastPage in Pages && s.os in OsTypes && s.browser in BrowserTypes
      && s.referralSource in Keys(ReferralSources) && s.deviceType in Keys(DeviceTypes)
  {
    WeightsPositive();
    var s := RollSession(d, isNewUser, country, city);
    var i :| 0 <= i < |ReferralSources| && ReferralSources[i].0 == s.referralSource && ReferralSources[i].1 > 0;
    assert Keys(ReferralSources)[i] == s.referralSource;
    var j :| 0 <= j < |DeviceTypes| && DeviceTypes[j].0 == s.deviceType && DeviceTypes[j].1 > 0;
    assert Keys(DeviceTypes)[j] == s.deviceType;
  }

  /**
   * `_get_or_create_session(userId)` on the store `store`: the new store. An unseen user
   * gets a fresh session; a known user renews theirs when the roll comes up, keeping the
   * geography; otherwise nothing changes. No key is ever removed.
   */
  function GetOrCreate(store: map<string, SessionState>, userId: string, d: SessionDraws)
    : (r: map<string, SessionState>)
    requires SessionDrawsInRange(d)
    ensures r.Keys == store.Keys + {userId}
    ensures forall u | u in store && u != userId :: r[u] == store[u]
    ensures userId !in store ==>
      && r[userId].isNewUser
      && r[userId].sessionId == d.sessionId
      && r[userId].cart == []
      && r[userId].lastEventType == StartSession
      && r[userId].currentProduct == None
    ensures userId in store && Renews(d) ==>
      && !r[userId].isNewUser
      && r[userId].sessionId == d.sessionId
      && r[userId].cart == []
      && r[userId].lastEventType == StartSession
      && r[userId].currentProduct == None
      && r[userId].geoCountry == store[userId].geoCountry
      && r[userId].geoCity == store[userId].geoCity
    ensures userId in store && !Renews(d) ==> r == store
  {
    if userId !in store then
      store[userId := RollSession(d, true, GeoLocations[d.countryIdx].0, Cities(d.countryIdx)[d.cityIdx])]
    else if Renews(d) then
      store[userId := RollSession(d, false, store[userId].geoCountry, store[userId].geoCity)]
    else
      store
  }

  /**
   * Every session the store holds is in a known place: a new user's country and city
   * are drawn from the geography table, and a renewal keeps the previous ones.
   */
  lemma GetOrCreateKeepsPlacesKnown(store: map<string, SessionState>, userId: string, d: SessionDraws)
    requires SessionDrawsInRange(d)
    requires forall u | u in store :: KnownPlace(store[u].geoCountry, store[u].geoCity)
    ensures var r := GetOrCreate(store, userId, d);
      forall u | u in r :: KnownPlace(r[u].geoCountry, r[u].geoCity)
  {
    var r := GetOrCreate(store, userId, d);
    if userId !in store {
      assert GeoLocations[d.countryIdx].1[d.cityIdx] in GeoLocations[d.countryIdx].1;
      assert KnownPlace(r[userId].geoCountry, r[userId].geoCity);
    }
  }

  /** Each call of the start-up loop has draws in range. */
  predicate AllInRange(draws: seq<SessionDraws>) {
    forall k | 0 <= k < |draws| :: SessionDrawsInRange(draws[k])
  }

  lemma AllInRangeTail(draws: seq<SessionDraws>)
    requires |draws| > 0 && AllInRange(draws)
    ensures SessionDrawsInRange(draws[0]) && AllInRange(draws[1..])
  {
    forall k | 0 <= k < |draws[1..]| ensures SessionDrawsInRange(draws[1..][k]) {
      assert draws[1..][k] == draws[k + 1];
    }
  }

  lemma IdSetCons(ids: seq<string>)
    requires |ids| > 0
    ensures (set id | id in ids) == {ids[0]} + (set id | id in ids[1..])
  {
    assert ids == [ids[0]] + ids[1..];
  }

  /**
   * The start-up loop: `_get_or_create_session` for each id in turn. Every id ends up
   * in the store and entries for other ids are untouched.
   */
  function Seed(store: map<string, SessionState>, ids: seq<string>, draws: seq<SessionDraws>)
    : (r: map<string, SessionState>)
    requires |draws| == |ids| && AllInRange(draws)
    ensures r.Keys == store.Keys + (set id | id in ids)
    ensures forall u | u in store && u !in ids :: r[u] == store[u]
    decreases |ids|
  {
    if ids == [] then store
    else
      AllInRangeTail(draws);
      var r := Seed(GetOrCreate(store, ids[0], draws[0]), ids[1..], draws[1..]);
      IdSetCons(ids);
      r
  }

  /** The ids of `ids` are pairwise distinct and none is in `store` yet. */
  predicate UnseenDistinct(store: map<string, SessionState>, ids: seq<string>) {
    && (forall i, j | 0 <= i < j < |ids| :: ids[i] != ids[j])
    && (forall i | 0 <= i < |ids| :: ids[i] !in store)
  }

  lemma UnseenDistinctTail(store: map<string, SessionState>, ids: seq<string>, next: map<string, SessionState>)
    requires |ids| > 0 && UnseenDistinct(store, ids)
    requires next.Keys == store.Keys + {ids[0]}
    ensures UnseenDistinct(next, ids[1..])
    ensures ids[0] !in ids[1..]
  {
    forall i | 0 <= i < |ids[1..]| ensures ids[1..][i] !in next && ids[1..][i] != ids[0] {
      assert ids[1..][i] == ids[i + 1];
    }
  }

  /** Start-up with distinct, unseen ids adds exactly one entry per id. */
  lemma {:induction false} SeedGrowsByIds(
    store: map<string, SessionState>, ids: seq<string>, draws: seq<SessionDraws>)
    requires |draws| == |ids| && AllInRange(draws)
    requires UnseenDistinct(store, ids)
    ensures |Seed(store, ids, draws).Keys| == |store.Keys| + |ids|
    decreases |ids|
  {
    if ids != [] {
      AllInRangeTail(draws);
      var next := GetOrCreate(store, ids[0], draws[0]);
      UnseenDistinctTail(store, ids, next);
      SeedGrowsByIds(next, ids[1..], draws[1..]);
    }
  }

  /** Start-up with distinct, unseen ids gives every id a new-user session of its own draws. */
  lemma {:induction false} SeedCreatesNewUsers(
    store: map<string, SessionState>, ids: seq<string>, draws: seq<SessionDraws>)
    requires |draws| == |ids| && AllInRange(draws)
    requires UnseenDistinct(store, ids)
    ensures forall k | 0 <= k < |ids| :: FreshlyCreated(Seed(store, ids, draws), ids[k], draws[k])
    decreases |ids|
  {
    if ids != [] {
      AllInRangeTail(draws);
      var next := GetOrCreate(store, ids[0], draws[0]);
      var r := Seed(next, ids[1..], draws[1..]);
      UnseenDistinctTail(store, ids, next);
      SeedCreatesNewUsers(next, ids[1..], draws[1..]);
      assert FreshlyCreated(r, ids[0], draws[0]);
      forall k | 0 <= k < |ids| ensures FreshlyCreated(r, ids[k], draws[k]) {
        if k > 0 {
          assert ids[1..][k - 1] == ids[k] && draws[1..][k - 1] == draws[k];
        }
      }
    }
  }

  /** `userId` holds a new user's untouched first session, rolled with `d`. */
  predicate FreshlyCreated(store: map<string, SessionState>, userId: string, d: SessionDraws) {
    && userId in store
    && store[userId].isNewUser
    && store[userId].sessionId == d.sessionId
    && store[userId].cart == []
    && store[userId].lastEventType == StartSession
  }
}
