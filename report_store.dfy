/** The report store service: validation of report bodies, the write paths
    into the `locations` collection, the health probe, and the normalisation
    of the database URL read at start-up. */
module ReportStore {
  import opened Common

  /* ---------------------------------------------------------------------
     Start-up configuration
     --------------------------------------------------------------------- */

  /** The database URL with a trailing slash appended when it lacks one.
      An empty URL (which start-up refuses before this step) is left as is. */
  function NormalizeDatabaseUrl(url: string): (r: string)
    ensures url == "" ==> r == ""
    ensures url != "" ==> |r| > 0 && r[|r| - 1] == '/'
    ensures |url| <= |r| <= |url| + 1 && r[..|url|] == url
    ensures url != "" && url[|url| - 1] == '/' ==> r == url
  {
    if url != "" && url[|url| - 1] != '/' then url + "/" else url
  }

  lemma NormalizeDatabaseUrlIdempotent(url: string)
    ensures NormalizeDatabaseUrl(NormalizeDatabaseUrl(url)) == NormalizeDatabaseUrl(url)
  {
  }

  /* ---------------------------------------------------------------------
     Responses
     --------------------------------------------------------------------- */

  /** The JSON bodies the service answers with. */
  datatype Body =
    | HealthOk                       // {"status": "ok", "firebase": true}
    | HealthError(message: string)   // {"status": "error", "firebase": false, "message": ...}
    | Added                          // {"status": "added"}
    | Upserted(id: string)           // {"status": "upserted", "id": ...}
    | Error(message: string)         // {"error": ...}

  datatype Response = Response(status: int, body: Body)

  /* ---------------------------------------------------------------------
     Required-field check
     --------------------------------------------------------------------- */

  /** The keys of `keys` that `p` lacks, in the order of `keys`. */
  function MissingFrom(keys: seq<string>, p: Payload): (m: seq<string>)
    ensures forall k :: k in m <==> k in keys && k !in p
    ensures m == [] <==> forall k :: k in keys ==> k in p
    ensures |m| <= |keys|
  {
    if keys == [] then []
    else (if keys[0] in p then [] else [keys[0]]) + MissingFrom(keys[1..], p)
  }

  /** The required fields a report body lacks. */
  function MissingFields(p: Payload): (m: seq<string>)
    ensures m == [] <==> forall k :: k in Required ==> k in p
  {
    MissingFrom(Required, p)
  }

  /** `a` can be obtained from `b` by deleting elements. */
  predicate IsSubsequence(a: seq<string>, b: seq<string>)
    decreases |b|
  {
    if a == [] then true
    else if b == [] then false
    else if a[0] == b[0] then IsSubsequence(a[1..], b[1..])
    else IsSubsequence(a, b[1..])
  }

  predicate Distinct(s: seq<string>) {
    forall i, j :: 0 <= i < j < |s| ==> s[i] != s[j]
  }

  lemma {:induction false} SubsequenceMembers(a: seq<string>, b: seq<string>)
    requires IsSubsequence(a, b)
    ensures forall x :: x in a ==> x in b
    decreases |b|
  {
    if a != [] {
      if a[0] == b[0] {
        SubsequenceMembers(a[1..], b[1..]);
        forall x | x in a ensures x in b {
          if x != a[0] {
            assert x in a[1..];
          }
        }
      } else {
        SubsequenceMembers(a, b[1..]);
      }
    }
  }

  lemma {:induction false} MissingFromIsSubsequence(keys: seq<string>, p: Payload)
    ensures IsSubsequence(MissingFrom(keys, p), keys)
  {
    if keys != [] {
      MissingFromIsSubsequence(keys[1..], p);
      var rest := MissingFrom(keys[1..], p);
      if keys[0] in p {
        assert MissingFrom(keys, p) == rest;
        if rest != [] {
          assert rest[0] in rest;
          assert rest[0] != keys[0];
        }
      } else {
        assert MissingFrom(keys, p) == [keys[0]] + rest;
        assert ([keys[0]] + rest)[1..] == rest;
      }
    }
  }

  /** Over a list of distinct keys, the missing list is the only list that
      keeps the order of `keys` and holds exactly the keys `p` lacks. */
  lemma {:induction false} MissingFromUnique(keys: seq<string>, p: Payload, m: seq<string>)
    requires Distinct(keys)
    requires IsSubsequence(m, keys)
    requires forall k :: k in m <==> k in keys && k !in p
    ensures m == MissingFrom(keys, p)
  {
    var expected := MissingFrom(keys, p);
    if keys == [] {
    } else if m == [] {
    } else {
      var ks := keys[1..];
      assert Distinct(ks) by {
        forall i, j | 0 <= i < j < |ks| ensures ks[i] != ks[j] {
          assert ks[i] == keys[i + 1] && ks[j] == keys[j + 1];
        }
      }
      assert keys[0] !in ks by {
        forall i | 0 <= i < |ks| ensures ks[i] != keys[0] {
          assert ks[i] == keys[i + 1];
        }
      }
      assert keys == [keys[0]] + ks;
      if m[0] == keys[0] {
        SubsequenceMembers(m[1..], ks);
        assert keys[0] in m;
        forall k ensures k in m[1..] <==> k in ks && k !in p {
          if k in m[1..] {
            assert k in m;
          }
          if k in ks && k !in p {
            assert k in m && k != keys[0];
            assert m == [m[0]] + m[1..];
          }
        }
        MissingFromUnique(ks, p, m[1..]);
        assert m == [m[0]] + m[1..];
      } else {
        SubsequenceMembers(m, ks);
        assert keys[0] !in m;
        assert keys[0] in p;
        MissingFromUnique(ks, p, m);
      }
    }
  }

  /** The missing-field list names exactly the required fields the body
      lacks, in the fixed order category, lat, lon, user, timestamp, action,
      and no other list does. */
  lemma MissingFieldsCharacterised(p: Payload, m: seq<string>)
    ensures m == MissingFields(p) <==>
              IsSubsequence(m, Required) && forall k :: k in m <==> k in Required && k !in p
  {
    MissingFromIsSubsequence(Required, p);
    if IsSubsequence(m, Required) && forall k :: k in m <==> k in Required && k !in p {
      MissingFromUnique(Required, p, m);
    }
  }

  /** The missing list depends only on which fields are present, not on
      their values or their order in the request. */
  lemma {:induction false} MissingFromDependsOnKeysOnly(keys: seq<string>, p: Payload, q: Payload)
    requires p.Keys == q.Keys
    ensures MissingFrom(keys, p) == MissingFrom(keys, q)
  {
    if keys != [] {
      MissingFromDependsOnKeysOnly(keys[1..], p, q);
    }
  }

  /** `xs` separated by `sep`, as Python's `sep.join(xs)`. */
  function Join(xs: seq<string>, sep: string): (r: string)
    ensures xs == [] ==> r == ""
    ensures |xs| == 1 ==> r == xs[0]
  {
    if xs == [] then ""
    else if |xs| == 1 then xs[0]
    else xs[0] + sep + Join(xs[1..], sep)
  }

  /** The sum of the lengths of `xs`. */
  function TotalLength(xs: seq<string>): nat {
    if xs == [] then 0 else |xs[0]| + TotalLength(xs[1..])
  }

  /** A join holds every part and one separator between each two. */
  lemma {:induction false} JoinLength(xs: seq<string>, sep: string)
    ensures |Join(xs, sep)| == TotalLength(xs) + (if xs == [] then 0 else (|xs| - 1) * |sep|)
  {
    if |xs| > 1 {
      JoinLength(xs[1..], sep);
    }
  }

  /** The separator goes between two parts, not after the last one. */
  lemma JoinTwo(a: string, b: string, sep: string)
    ensures Join([a, b], sep) == a + sep + b
  {
    assert [a, b][1..] == [b];
  }

  /** The 400 error text: the fixed prefix, then the missing names
      separated by ", ". */
  function MissingFieldsMessage(missing: seq<string>): (message: string)
    ensures |message| >= 16 && message[..16] == "missing fields: "
    ensures |missing| == 1 ==> message == "missing fields: " + missing[0]
  {
    "missing fields: " + Join(missing, ", ")
  }

  /** A body holding `category`, `user`, `timestamp` and `action` but
      neither coordinate lacks `lat` and `lon`, in that order. */
  lemma MissingCoordinates(p: Payload)
    requires "category" in p && "user" in p && "timestamp" in p && "action" in p
    requires "lat" !in p && "lon" !in p
    ensures MissingFields(p) == ["lat", "lon"]
  {
    var r := Required;
    assert r[5..] == ["action"] && r[4..] == ["timestamp", "action"];
    assert r[3..] == ["user", "timestamp", "action"];
    assert r[2..] == ["lon", "user", "timestamp", "action"];
    assert r[1..] == ["lat", "lon", "user", "timestamp", "action"];
    assert MissingFrom(r[6..], p) == [];
    assert MissingFrom(r[5..], p) == [];
    assert MissingFrom(r[4..], p) == [];
    assert MissingFrom(r[3..], p) == [];
    assert MissingFrom(r[2..], p) == ["lon"];
    assert MissingFrom(r[1..], p) == ["lat", "lon"];
  }

  /** Such a body is answered "missing fields: lat, lon". */
  lemma MissingCoordinatesMessage(p: Payload)
    requires "category" in p && "user" in p && "timestamp" in p && "action" in p
    requires "lat" !in p && "lon" !in p
    ensures MissingFieldsMessage(MissingFields(p)) == "missing fields: lat, lon"
  {
    MissingCoordinates(p);
    JoinTwo("lat", "lon", ", ");
  }

  /* ---------------------------------------------------------------------
     Validation and coercion
     --------------------------------------------------------------------- */

  /** A stored report: all six fields, `lat` and `lon` numeric. */
  predicate WellFormed(p: Payload) {
    && MissingFields(p) == []
    && "lat" in p && p["lat"].Num?
    && "lon" in p && p["lon"].Num?
  }

  /** What both write endpoints do with a body before writing it: the
      required-field check (400), then `float()` on `lat` and then on `lon`
      (500 with the conversion error), giving the body to store.
      `toFloat` is Python's `float()`: the number, or the text of the error. */
  function Validate(payload: Payload, toFloat: Value -> Result<real, string>): (r: Result<Payload, Response>)
    ensures MissingFields(payload) != [] ==>
              r == Failure(Response(400, Error(MissingFieldsMessage(MissingFields(payload)))))
    ensures MissingFields(payload) == [] ==>
              && "lat" in payload && "lon" in payload
              && (toFloat(payload["lat"]).Failure? ==>
                    r == Failure(Response(500, Error(toFloat(payload["lat"]).error))))
              && (toFloat(payload["lat"]).Success? && toFloat(payload["lon"]).Failure? ==>
                    r == Failure(Response(500, Error(toFloat(payload["lon"]).error))))
              && (r.Success? <==> toFloat(payload["lat"]).Success? && toFloat(payload["lon"]).Success?)
    ensures r.Success? ==>
              && WellFormed(r.value)
              && r.value.Keys == payload.Keys
              && r.value["lat"] == Num(toFloat(payload["lat"]).value)
              && r.value["lon"] == Num(toFloat(payload["lon"]).value)
              && forall k :: k in payload && k != "lat" && k != "lon" ==> r.value[k] == payload[k]
  {
    var missing := MissingFields(payload);
    if missing != [] then
      Failure(Response(400, Error(MissingFieldsMessage(missing))))
    else
      assert "lat" in Required && "lon" in Required;
      match toFloat(payload["lat"])
      case Failure(e) => Failure(Response(500, Error(e)))
      case Success(lat) =>
        match toFloat(payload["lon"])
        case Failure(e) => Failure(Response(500, Error(e)))
        case Success(lon) => Success(payload["lat" := Num(lat)]["lon" := Num(lon)])
  }

  /* ---------------------------------------------------------------------
     The database
     --------------------------------------------------------------------- */

  /** A key that no entry of the collection uses yet: one character longer
      than every existing key. It stands for the database's push-id
      generator, of which only the freshness is modelled. */
  method PushKey(taken: set<string>) returns (key: string)
    ensures key !in taken
  {
    var rest := taken;
    var longest: nat := 0;
    while rest != {}
      invariant rest <= taken
      invariant forall k :: k in taken && k !in rest ==> |k| <= longest
      decreases rest
    {
      var k :| k in rest;
      if |k| > longest {
        longest := |k|;
      }
      rest := rest - {k};
    }
    key := seq(longest + 1, _ => '-');
  }

  /** The part of the realtime database the service touches: the
      `locations` collection and the `_health_probe` record (its `ts`). */
  class Store {
    var locations: map<string, Payload>
    var healthProbe: Option<real>

    /** Every entry written through this service is a well-formed report. */
    ghost predicate Valid()
      reads this
    {
      forall key :: key in locations ==> WellFormed(locations[key])
    }

    constructor ()
      ensures Valid()
      ensures locations == map[] && healthProbe == None
    {
      locations := map[];
      healthProbe := None;
    }

    /** GET /health: write the probe record, then delete it. `setError` and
        `deleteError` are the database's answers to the two calls; a failed
        delete leaves the probe behind. */
    method Health(now: real, setError: Option<string>, deleteError: Option<string>) returns (r: Response)
      requires Valid()
      modifies this
      ensures Valid()
      ensures locations == old(locations)
      ensures r.status == 200 <==> setError.None? && deleteError.None?
      ensures r.status == 200 ==> r.body == HealthOk && healthProbe == None
      ensures setError.Some? ==>
                r == Response(500, HealthError(setError.value)) && healthProbe == old(healthProbe)
      ensures setError.None? && deleteError.Some? ==>
                r == Response(500, HealthError(deleteError.value)) && healthProbe == Some(now)
    {
      if setError.Some? {
        return Response(500, HealthError(setError.value));
      }
      healthProbe := Some(now);
      if deleteError.Some? {
        return Response(500, HealthError(deleteError.value));
      }
      healthProbe := None;
      r := Response(200, HealthOk);
    }

    /** POST /report: validate, coerce, then push the body under a new key.
        `writeError` is the database's answer to the push. */
    method Report(payload: Payload, toFloat: Value -> Result<real, string>, writeError: Option<string>)
      returns (r: Response)
      requires Valid()
      modifies this
      ensures Valid()
      ensures healthProbe == old(healthProbe)
      ensures r.status in {201, 400, 500}
      ensures Validate(payload, toFloat).Failure? ==> r == Validate(payload, toFloat).error
      ensures Validate(payload, toFloat).Success? && writeError.Some? ==>
                r == Response(500, Error(writeError.value))
      ensures r.status == 201 <==> Validate(payload, toFloat).Success? && writeError.None?
      ensures r.status != 201 ==> locations == old(locations)
      ensures r.status == 201 ==>
                && r.body == Added
                && |locations| == |old(locations)| + 1
                && exists key :: key in locations && key !in old(locations) &&
                                 locations == old(locations)[key := Validate(payload, toFloat).value]
    {
      var checked := Validate(payload, toFloat);
      if checked.Failure? {
        return checked.error;
      }
      if writeError.Some? {
        return Response(500, Error(writeError.value));
      }
      var key := PushKey(locations.Keys);
      locations := locations[key := checked.value];
      r := Response(201, Added);
    }

    /** PUT /report/{itemId}: validate, coerce, then set the entry at
        `itemId`, creating or replacing it. The route only matches a
        non-empty id without '/'. */
    method ReportPut(itemId: string, payload: Payload, toFloat: Value -> Result<real, string>,
                     writeError: Option<string>)
      returns (r: Response)
      requires Valid()
      requires itemId != "" && '/' !in itemId
      modifies this
      ensures Valid()
      ensures healthProbe == old(healthProbe)
      ensures r.status in {200, 400, 500}
      ensures Validate(payload, toFloat).Failure? ==> r == Validate(payload, toFloat).error
      ensures Validate(payload, toFloat).Success? && writeError.Some? ==>
                r == Response(500, Error(writeError.value))
      ensures r.status == 200 <==> Validate(payload, toFloat).Success? && writeError.None?
      ensures r.status != 200 ==> locations == old(locations)
      ensures r.status == 200 ==>
                && r.body == Upserted(itemId)
                && locations == old(locations)[itemId := Validate(payload, toFloat).value]
                && |locations| == |old(locations)| + (if itemId in old(locations) then 0 else 1)
    {
      var checked := Validate(payload, toFloat);
      if checked.Failure? {
        return checked.error;
      }
      if writeError.Some? {
        return Response(500, Error(writeError.value));
      }
      locations := locations[itemId := checked.value];
      r := Response(200, Upserted(itemId));
    }
  }

  /** Two identical successful PUTs leave the collection as the first one
      left it: the second overwrites rather than duplicates. */
  method UpsertTwice(store: Store, itemId: string, payload: Payload, toFloat: Value -> Result<real, string>)
    returns (first: Response, second: Response)
    requires store.Valid()
    requires itemId != "" && '/' !in itemId
    modifies store
    ensures store.Valid()
    ensures first.status == 200 <==> Validate(payload, toFloat).Success?
    ensures second == first
    ensures first.status == 200 ==>
              && store.locations == old(store.locations)[itemId := Validate(payload, toFloat).value]
              && itemId in store.locations
              && |store.locations| == |old(store.locations)| + (if itemId in old(store.locations) then 0 else 1)
  {
    first := store.ReportPut(itemId, payload, toFloat, None);
    ghost var afterFirst := store.locations;
    second := store.ReportPut(itemId, payload, toFloat, None);
    assert store.locations == afterFirst;
  }
}
