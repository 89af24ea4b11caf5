/** The relay and the store together: what happens to the `locations`
    collection when a relay request reaches the store's endpoints, and the
    end-to-end scenarios of a static report, live tracking and a cancel. */
module RelayToStore {
  import opened Common
  import opened ReportStore
  import opened Relay

  /** `float()` gives back a JSON number as it is. */
  ghost predicate KeepsNumbers(toFloat: Value -> Result<real, string>) {
    forall x :: toFloat(Num(x)) == Success(x)
  }

  /** Every report body the relay builds passes the store's validation and
      is stored as sent. */
  lemma RelayPayloadAccepted(category: string, loc: Location, user: string, timestamp: string,
                             toFloat: Value -> Result<real, string>)
    requires KeepsNumbers(toFloat)
    ensures MissingFields(ReportPayload(category, loc, user, timestamp)) == []
    ensures Validate(ReportPayload(category, loc, user, timestamp), toFloat) ==
              Success(ReportPayload(category, loc, user, timestamp))
  {
    var p := ReportPayload(category, loc, user, timestamp);
    assert toFloat(p["lat"]) == Success(loc.lat);
    assert toFloat(p["lon"]) == Success(loc.lon);
    var stored := Validate(p, toFloat).value;
    assert stored["lat"] == p["lat"] && stored["lon"] == p["lon"];
    assert stored == p;
  }

  /** A live id is a usable `/report/<id>` path segment. */
  lemma UuidIsRouteId(s: string)
    requires IsUuidText(s)
    ensures s != "" && '/' !in s
  {
  }

  /** A category choice carried through to the store: the relay's request
      is sent to the matching endpoint and the prompt is edited from the
      store's status. `writeError` is the database's answer to the write. */
  method DeliverCategoryChoice(relay: SessionStore, store: Store, sender: User, category: string,
                               now: string, toFloat: Value -> Result<real, string>,
                               writeError: Option<string>)
    returns (request: Request, notice: Option<Notice>)
    requires relay.Valid() && store.Valid()
    requires category in Categories
    requires KeepsNumbers(toFloat)
    modifies relay, store
    ensures relay.Valid() && store.Valid()
    ensures request.NoRequest? <==> sender.id !in old(relay.sessions)
    ensures sender.id !in old(relay.sessions) ==> relay.sessions == old(relay.sessions)
    ensures sender.id in old(relay.sessions) ==>
              var s := old(relay.sessions)[sender.id];
              var payload := ReportPayload(category, s.lastLocation.value, UserLabel(sender), now);
              && relay.sessions == old(relay.sessions)[sender.id := s.(category := Some(category))]
              && request == if s.liveActive then Put(s.liveId.value, payload) else Post(payload)
    ensures store.healthProbe == old(store.healthProbe)
    ensures request.NoRequest? ==> notice == None && store.locations == old(store.locations)
    ensures !request.NoRequest? ==>
              && notice.Some?
              && (notice.value.Saved? <==> writeError.None?)
              && (notice.value.Saved? ==> notice.value == Saved(request.Put?, CategoryEmoji(category), category))
    ensures writeError.Some? ==> store.locations == old(store.locations)
    ensures request.Put? && writeError.None? ==>
              store.locations == old(store.locations)[request.liveId := request.payload]
    ensures request.Post? && writeError.None? ==>
              && |store.locations| == |old(store.locations)| + 1
              && exists key :: key in store.locations && key !in old(store.locations) &&
                               store.locations == old(store.locations)[key := request.payload]
  {
    ghost var user := sender.id;
    request := relay.HandleCategorySelection(sender, category, now);
    match request
    case NoRequest =>
      notice := None;
    case Post(payload) =>
      var s := old(relay.sessions)[user];
      RelayPayloadAccepted(category, s.lastLocation.value, UserLabel(sender), now, toFloat);
      var response := store.Report(payload, toFloat, writeError);
      notice := Some(Verdict(request, Responded(response.status), category));
    case Put(liveId, payload) =>
      var s := old(relay.sessions)[user];
      RelayPayloadAccepted(category, s.lastLocation.value, UserLabel(sender), now, toFloat);
      UuidIsRouteId(liveId);
      var response := store.ReportPut(liveId, payload, toFloat, writeError);
      notice := Some(Verdict(request, Responded(response.status), category));
  }

  /** A static location {lat 1.0, lon 2.0} followed by "fire" posts a fire
      report with those coordinates; a 201 answer confirms it with the
      fire emoji. */
  method StaticReportScenario(sender: User, freshId: string, now: string)
    returns (request: Request, notice: Notice)
    requires IsUuidText(freshId)
    ensures request == Post(ReportPayload("fire", Location(1.0, 2.0), UserLabel(sender), now))
    ensures request.payload["category"] == Str("fire")
    ensures request.payload["lat"] == Num(1.0) && request.payload["lon"] == Num(2.0)
    ensures request.payload["action"] == Str("active") && request.payload["timestamp"] == Str(now)
    ensures notice == Saved(false, "🔥", "fire")
  {
    var relay := new SessionStore();
    var ignored := relay.HandleLocation(sender.id, Location(1.0, 2.0), None, freshId);
    request := relay.HandleCategorySelection(sender, "fire", now);
    notice := Verdict(request, Responded(201), "fire");
  }

  /** A live location, a category, then a moved location: two PUTs to the
      same fresh live id, the second with the new coordinates, and the
      collection ends with that one entry holding the latest report. */
  method LiveTrackingScenario(sender: User, first: Location, moved: Location, livePeriod: int,
                              freshId: string, category: string, t1: string, t2: string,
                              toFloat: Value -> Result<real, string>)
    returns (submit: Request, update: Request, entries: map<string, Payload>)
    requires livePeriod != 0
    requires IsUuidText(freshId)
    requires category in Categories
    requires KeepsNumbers(toFloat)
    ensures submit == Put(freshId, ReportPayload(category, first, UserLabel(sender), t1))
    ensures update == Put(freshId, ReportPayload(category, moved, UserLabel(sender), t2))
    ensures entries == map[freshId := update.payload]
  {
    var relay := new SessionStore();
    var store := new Store();
    var ignored := relay.HandleLocation(sender.id, first, Some(livePeriod), freshId);
    assert relay.sessions[sender.id] == Session(Some(first), None, Some(freshId), true);
    submit := relay.HandleCategorySelection(sender, category, t1);
    assert submit == Put(freshId, ReportPayload(category, first, UserLabel(sender), t1));
    assert relay.sessions[sender.id] == Session(Some(first), Some(category), Some(freshId), true);
    RelayPayloadAccepted(category, first, UserLabel(sender), t1, toFloat);
    UuidIsRouteId(freshId);
    var created := store.ReportPut(freshId, submit.payload, toFloat, None);
    assert store.locations == map[freshId := submit.payload];
    update := relay.HandleEditedLocation(sender, moved, t2);
    assert update == Put(freshId, ReportPayload(category, moved, UserLabel(sender), t2));
    RelayPayloadAccepted(category, moved, UserLabel(sender), t2, toFloat);
    assert Validate(update.payload, toFloat) == Success(update.payload);
    var replaced := store.ReportPut(freshId, update.payload, toFloat, None);
    assert store.locations == map[freshId := submit.payload][freshId := update.payload];
    OverwriteSingleton(freshId, submit.payload, update.payload);
    entries := store.locations;
  }

  /** Writing a key of a one-entry map twice leaves only the second value.
      Dafny proves this unaided; stating it apart keeps the proof of
      `LiveTrackingScenario` small enough for the solver. */
  lemma OverwriteSingleton(key: string, before: Payload, after: Payload)
    ensures map[key := before][key := after] == map[key := after]
  {
  }

  /** A cancel between the location and the category choice makes the
      choice stale: it is rejected and nothing is sent. */
  method CancelScenario(sender: User, loc: Location, livePeriod: Option<int>, freshId: string,
                        category: string, now: string)
    returns (request: Request)
    requires IsUuidText(freshId)
    requires category in Categories
    ensures request == NoRequest
  {
    var relay := new SessionStore();
    var ignored := relay.HandleLocation(sender.id, loc, livePeriod, freshId);
    var cancelled := relay.Cancel(sender.id);
    request := relay.HandleCategorySelection(sender, category, now);
  }
}
