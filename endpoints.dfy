/**
 * The decisions the HTTP endpoints take around the memory service: when a
 * face or an object match is accepted, what an identified person or object
 * is reported with, the metadata an enrollment stores, and the learn-on-miss
 * path of the object finder. Uploads, temporary files, thumbnails and the
 * embedding and detection models are outside the model: their results (the
 * embedding, the detections, the encoded image, the avatar url, the clock)
 * are parameters.
 */
module Endpoints {
  import opened Wrappers
  import opened Values
  import opened Strings
  import opened Sorting
  import opened VectorStore
  import opened Memory

  /** A face match is accepted when its cosine score is strictly above this. */
  const FaceThreshold: real := 0.4
  /** An object match is accepted when its cosine score is strictly above this. */
  const ObjectThreshold: real := 0.6
  /** The default `limit` of `search_face` and `search_object`, which the endpoints use. */
  const SearchLimit: nat := 1

  const NoFaceMessage := "No face detected in enrollment photo."
  const LearnedNotes := "Auto-enrolled from observation."
  const LearnedReplyNotes := "I just learned this object."

  /** `None` or the string. */
  function OptStr(o: Option<string>): (v: Value)
    ensures o.None? ==> v == Null
    ensures o.Some? ==> v == Str(o.value)
  {
    match o
    case None => Null
    case Some(s) => Str(s)
  }

  // ---------------------------------------------------------------------------
  // recognize_person

  /** The `person` object of an `identified` reply. */
  datatype PersonReply = PersonReply(name: Value, relation: Value, confidence: real, id: Value,
                                     notes: Value, image: Value, audio: Value)

  datatype Recognition = NoFaceDetected | Identified(person: PersonReply) | UnknownPerson

  /**
   * The reply for the face matches found: `identified` with the best match's
   * payload fields (defaulting name and relation to "Unknown" and notes to
   * the empty string) exactly when there is a best match scoring above the
   * face threshold, `unknown` otherwise.
   */
  function PersonDecision(matches: seq<Hit>): (r: Recognition)
    ensures r != NoFaceDetected
    ensures r.Identified? <==> matches != [] && matches[0].score > FaceThreshold
    ensures r.Identified? ==>
      var p := matches[0].payload;
      && r.person.confidence == matches[0].score
      && r.person.name == (if "name" in p then p["name"] else Str("Unknown"))
      && r.person.relation == (if "relation" in p then p["relation"] else Str("Unknown"))
      && r.person.notes == (if "notes" in p then p["notes"] else Str(""))
      && r.person.id == (if "person_id" in p then p["person_id"] else Null)
      && r.person.image == (if "image_base64" in p then p["image_base64"] else Null)
      && r.person.audio == (if "audio_base64" in p then p["audio_base64"] else Null)
  {
    if matches != [] && matches[0].score > FaceThreshold then
      var p := matches[0].payload;
      Identified(PersonReply(Get(p, "name", Str("Unknown")), Get(p, "relation", Str("Unknown")), matches[0].score,
                             Get(p, "person_id", Null), Get(p, "notes", Str("")),
                             Get(p, "image_base64", Null), Get(p, "audio_base64", Null)))
    else UnknownPerson
  }

  /**
   * `recognize_person` after the embedding is computed: no face means no
   * search; otherwise the best face match across `faces` and `patients`
   * decides. A failing search is the HTTP 500 error.
   */
  method RecognizePerson(svc: MemoryService, embedding: Vector) returns (r: Result<Recognition, StoreError>)
    ensures embedding == [] ==> r == Ok(NoFaceDetected)
    ensures embedding != [] ==>
      var found := FaceMatches(svc.store, embedding, SearchLimit, svc.similarity);
      && (r.Ok? <==> found.Ok?)
      && (r.Ok? ==> r.value == PersonDecision(found.value))
      && (r.Err? ==> r.error == found.error)
  {
    if embedding == [] {
      return Ok(NoFaceDetected);
    }
    var matches := svc.SearchFace(embedding, SearchLimit);
    if matches.Err? {
      return Err(matches.error);
    }
    r := Ok(PersonDecision(matches.value));
  }

  /**
   * An identified person is the best match of both collections: no stored
   * face or patient contact scores higher than the reported confidence,
   * which is above the face threshold.
   */
  lemma IdentifiedIsBestFace(s: Store, query: Vector, sim: (Vector, Vector) -> real)
    requires FaceMatches(s, query, SearchLimit, sim).Ok?
    requires PersonDecision(FaceMatches(s, query, SearchLimit, sim).value).Identified?
    ensures var c := PersonDecision(FaceMatches(s, query, SearchLimit, sim).value).person.confidence;
      && c > FaceThreshold
      && (forall h | h in HitsOf(s[Faces].points, query, sim) :: h.score <= c)
      && (forall h | h in HitsOf(s[Patients].points, query, sim) :: h.score <= c)
  {
    var ms := FaceMatches(s, query, SearchLimit, sim).value;
    var f := Query(s, Faces, query, SearchLimit, sim).value;
    var p := Query(s, Patients, query, SearchLimit, sim).value;
    TopHitsBelowBest(f, HitsOf(s[Faces].points, query, sim), SearchLimit);
    TopHitsBelowBest(p, HitsOf(s[Patients].points, query, sim), SearchLimit);
    forall h | h in HitsOf(s[Faces].points, query, sim) ensures h.score <= ms[0].score {
      assert f[0] in f + p;
    }
    forall h | h in HitsOf(s[Patients].points, query, sim) ensures h.score <= ms[0].score {
      assert p[0] in f + p;
    }
  }

  /** The first of a best-first selection outscores every candidate it was chosen from. */
  lemma TopHitsBelowBest(rs: seq<Hit>, all: seq<Hit>, limit: nat)
    requires TopHits(rs, all, limit) && limit > 0
    ensures all != [] ==> rs != []
    ensures forall h | h in all :: h.score <= rs[0].score
  {
    forall h | h in all ensures h.score <= rs[0].score {
      if h in multiset(rs) {
        var k :| 0 <= k < |rs| && rs[k] == h;
        if k > 0 {
          assert ScoreAtLeast(rs[0], rs[k]);
        }
      } else {
        assert rs[0] in rs;
      }
    }
  }

  /** With nothing enrolled, a face is never recognised. */
  lemma EmptyMemoryRecognisesNobody(s: Store, query: Vector, sim: (Vector, Vector) -> real)
    requires FaceMatches(s, query, SearchLimit, sim).Ok?
    requires s[Faces].points == [] && s[Patients].points == []
    ensures PersonDecision(FaceMatches(s, query, SearchLimit, sim).value) == UnknownPerson
  {
    var f := Query(s, Faces, query, SearchLimit, sim).value;
    var p := Query(s, Patients, query, SearchLimit, sim).value;
    assert |f + p| == 0;
  }

  // ---------------------------------------------------------------------------
  // remember_person, remember_patient

  datatype EnrollReply = EnrollError(message: string) | Stored(name: string, avatarUrl: Value)

  /** `name.replace(" ", "_")`, the `person_id` an enrollment stores. */
  function PersonId(name: string): (id: string)
    ensures |id| == |name|
    ensures ' ' !in id
    ensures forall k :: 0 <= k < |name| ==> id[k] == if name[k] == ' ' then '_' else name[k]
  {
    ReplaceChar(name, ' ', '_');
    ReplaceCharRemoves(name, ' ', '_');
    ReplaceAll(name, " ", "_")
  }

  /** `notes or f"This is {name}, your {relation}."` */
  function PersonNotes(name: string, relation: string, notes: Option<string>): (r: string)
    ensures notes.Some? && notes.value != "" ==> r == notes.value
    ensures notes.None? || notes.value == "" ==> r == "This is " + name + ", your " + relation + "."
  {
    if notes.Some? && notes.value != "" then notes.value else "This is " + name + ", your " + relation + "."
  }

  /**
   * The metadata of an enrolled person or patient contact: name, relation,
   * age, type, notes (with their default), image and avatar url, plus the
   * voice sample only when one was encoded and it is non-empty.
   */
  function EnrollmentMetadata(name: string, relation: string, notes: Option<string>, age: Option<int>, kind: string,
                              image: Option<string>, avatarUrl: Value, audio: Option<string>): (m: Dict)
    ensures m.Keys == {"name", "relation", "age", "type", "notes", "image_base64", "avatar_url"}
                      + (if audio.Some? && audio.value != "" then {"audio_base64"} else {})
    ensures m["name"] == Str(name) && m["relation"] == Str(relation) && m["type"] == Str(kind)
    ensures m["notes"] == Str(PersonNotes(name, relation, notes))
    ensures m["age"] == (if age.Some? then Int(age.value) else Null)
    ensures m["image_base64"] == OptStr(image) && m["avatar_url"] == avatarUrl
    ensures audio.Some? && audio.value != "" ==> m["audio_base64"] == Str(audio.value)
    ensures "timestamp" !in m
  {
    var m := map["name" := Str(name), "relation" := Str(relation),
                 "age" := (if age.Some? then Int(age.value) else Null), "type" := Str(kind),
                 "notes" := Str(PersonNotes(name, relation, notes)),
                 "image_base64" := OptStr(image), "avatar_url" := avatarUrl];
    if audio.Some? && audio.value != "" then m["audio_base64" := Str(audio.value)] else m
  }

  /**
   * `remember_person`: without a face nothing is stored; otherwise one point
   * of type "person" joins `faces`, keyed by the name with underscores, its
   * metadata stamped with `now`.
   */
  method RememberPerson(svc: MemoryService, name: string, relation: string, notes: Option<string>, age: Option<int>,
                        embedding: Vector, image: Option<string>, avatarUrl: Value, audio: Option<string>, now: string)
    returns (r: Result<EnrollReply, StoreError>)
    requires svc.Valid()
    modifies svc
    ensures svc.Valid()
    ensures embedding == [] ==> r == Ok(EnrollError(NoFaceMessage)) && svc.store == old(svc.store) && svc.nextId == old(svc.nextId)
    ensures embedding != [] ==>
      && (r.Ok? <==> Writable(old(svc.store), Faces, |embedding|))
      && (r.Ok? ==> && r.value == Stored(name, avatarUrl) && svc.nextId == old(svc.nextId) + 1
                    && svc.store == Append(old(svc.store), Faces,
                         Point(old(svc.nextId), embedding,
                               StoredPayload("person_id", PersonId(name),
                                 Stamped(EnrollmentMetadata(name, relation, notes, age, "person", image, avatarUrl, audio), now)))))
      && (r.Err? ==> svc.store == old(svc.store) && svc.nextId == old(svc.nextId))
  {
    if embedding == [] {
      return Ok(EnrollError(NoFaceMessage));
    }
    var metadata := new MutableDict(EnrollmentMetadata(name, relation, notes, age, "person", image, avatarUrl, audio));
    var stored := svc.StoreFaceMemory(PersonId(name), embedding, metadata, now);
    if stored.Err? {
      return Err(stored.error);
    }
    r := Ok(Stored(name, avatarUrl));
  }

  /** `remember_patient`: as `remember_person`, into `patients` with type "patient_contact". */
  method RememberPatient(svc: MemoryService, name: string, relation: string, notes: Option<string>, age: Option<int>,
                         embedding: Vector, image: Option<string>, avatarUrl: Value, audio: Option<string>, now: string)
    returns (r: Result<EnrollReply, StoreError>)
    requires svc.Valid()
    modifies svc
    ensures svc.Valid()
    ensures embedding == [] ==> r == Ok(EnrollError(NoFaceMessage)) && svc.store == old(svc.store) && svc.nextId == old(svc.nextId)
    ensures embedding != [] ==>
      && (r.Ok? <==> Writable(old(svc.store), Patients, |embedding|))
      && (r.Ok? ==> && r.value == Stored(name, avatarUrl) && svc.nextId == old(svc.nextId) + 1
                    && svc.store == Append(old(svc.store), Patients,
                         Point(old(svc.nextId), embedding,
                               StoredPayload("person_id", PersonId(name),
                                 Stamped(EnrollmentMetadata(name, relation, notes, age, "patient_contact", image, avatarUrl, audio), now)))))
      && (r.Err? ==> svc.store == old(svc.store) && svc.nextId == old(svc.nextId))
  {
    if embedding == [] {
      return Ok(EnrollError(NoFaceMessage));
    }
    var metadata := new MutableDict(EnrollmentMetadata(name, relation, notes, age, "patient_contact", image, avatarUrl, audio));
    var stored := svc.StorePatientMemory(PersonId(name), embedding, metadata, now);
    if stored.Err? {
      return Err(stored.error);
    }
    r := Ok(Stored(name, avatarUrl));
  }

  // ---------------------------------------------------------------------------
  // remember_object

  /** The metadata of a registered object: name, type "object", notes (default "This is your {name}.") and image. */
  function ObjectMetadata(name: string, notes: Option<string>, image: Option<string>): (m: Dict)
    ensures m.Keys == {"name", "type", "notes", "image_base64"}
    ensures m["name"] == Str(name) && m["type"] == Str("object") && m["image_base64"] == OptStr(image)
    ensures notes.Some? && notes.value != "" ==> m["notes"] == Str(notes.value)
    ensures notes.None? || notes.value == "" ==> m["notes"] == Str("This is your " + name + ".")
  {
    map["name" := Str(name), "type" := Str("object"),
        "notes" := Str(if notes.Some? && notes.value != "" then notes.value else "This is your " + name + "."),
        "image_base64" := OptStr(image)]
  }

  /**
   * `remember_object`: one point joins `objects` under a fresh `object_id`;
   * there is no check for an empty embedding (a wrong-sized one makes the
   * store refuse it).
   */
  method RememberObject(svc: MemoryService, name: string, notes: Option<string>, embedding: Vector,
                        objectId: string, image: Option<string>, now: string)
    returns (r: Result<string, StoreError>)
    requires svc.Valid()
    modifies svc
    ensures svc.Valid()
    ensures r.Ok? <==> Writable(old(svc.store), Objects, |embedding|)
    ensures r.Ok? ==> && r.value == name && svc.nextId == old(svc.nextId) + 1
                      && svc.store == Append(old(svc.store), Objects,
                           Point(old(svc.nextId), embedding,
                                 StoredPayload("object_id", objectId, Stamped(ObjectMetadata(name, notes, image), now))))
    ensures r.Err? ==> svc.store == old(svc.store) && svc.nextId == old(svc.nextId)
  {
    var metadata := new MutableDict(ObjectMetadata(name, notes, image));
    var stored := svc.StoreObjectMemory(objectId, embedding, metadata, now);
    if stored.Err? {
      return Err(stored.error);
    }
    r := Ok(name);
  }

  // ---------------------------------------------------------------------------
  // find_object

  /** One detector result: the label and its confidence. */
  datatype Detection = Detection(name: string, confidence: real)

  /** The `object` of an `identified` reply. */
  datatype ObjectReply = ObjectReply(name: Value, notes: Value, confidence: real, location: Value, image: Value)

  datatype Finding = ObjectIdentified(obj: ObjectReply) | UnknownObject

  /** The object search result is accepted: a best match scoring above the object threshold. */
  predicate Accepted(matches: seq<Hit>) {
    matches != [] && matches[0].score > ObjectThreshold
  }

  /**
   * The reply for an accepted object match, with name defaulting to
   * "Unknown", notes to the empty string, location to "Unknown" and the
   * image to `None`.
   */
  function MatchReply(best: Hit): (o: ObjectReply)
    ensures o.confidence == best.score
    ensures o.name == (if "name" in best.payload then best.payload["name"] else Str("Unknown"))
    ensures o.notes == (if "notes" in best.payload then best.payload["notes"] else Str(""))
    ensures o.location == (if "location" in best.payload then best.payload["location"] else Str("Unknown"))
    ensures o.image == (if "image_base64" in best.payload then best.payload["image_base64"] else Null)
  {
    var p := best.payload;
    ObjectReply(Get(p, "name", Str("Unknown")), Get(p, "notes", Str("")), best.score,
                Get(p, "location", Str("Unknown")), Get(p, "image_base64", Null))
  }

  /** `max(detections, key=confidence)`: the first detection of highest confidence. */
  function BestDetection(ds: seq<Detection>): (k: nat)
    requires ds != []
    ensures k < |ds|
    ensures forall j :: 0 <= j < |ds| ==> ds[j].confidence <= ds[k].confidence
    ensures forall j :: 0 <= j < k ==> ds[j].confidence < ds[k].confidence
  {
    if |ds| == 1 then 0
    else
      var init := ds[..|ds| - 1];
      var k := BestDetection(init);
      assert forall j :: 0 <= j < |init| ==> init[j] == ds[j];
      if ds[|ds| - 1].confidence > ds[k].confidence then |ds| - 1 else k
  }

  /** `f"Last seen at {timestamp}"`. */
  function Location(clock: string): string {
    "Last seen at " + clock
  }

  /** The metadata of an object learned from a detection. */
  function LearnedMetadata(name: string, clock: string, image: Option<string>): (m: Dict)
    ensures m.Keys == {"name", "type", "notes", "location", "image_base64"}
    ensures m["name"] == Str(name) && m["type"] == Str("object") && m["notes"] == Str(LearnedNotes)
    ensures m["location"] == Str(Location(clock)) && m["image_base64"] == OptStr(image)
  {
    map["name" := Str(name), "type" := Str("object"), "notes" := Str(LearnedNotes),
        "location" := Str(Location(clock)), "image_base64" := OptStr(image)]
  }

  /**
   * `find_object`: an accepted match is reported and nothing is stored;
   * otherwise, when the detector saw something, the most confident detection
   * is learned as a new object with the query's embedding and reported as
   * identified; otherwise the object is unknown. A failing search is the
   * HTTP 500 error; the learning insert cannot fail once the search worked.
   */
  method FindObject(svc: MemoryService, embedding: Vector, detections: seq<Detection>, objectId: string,
                    image: Option<string>, clock: string, now: string)
    returns (r: Result<Finding, StoreError>)
    requires svc.Valid()
    modifies svc
    ensures svc.Valid()
    ensures var q := Query(old(svc.store), Objects, embedding, SearchLimit, svc.similarity);
      && (q.Err? ==> r == Err(q.error) && svc.store == old(svc.store) && svc.nextId == old(svc.nextId))
      && (q.Ok? && Accepted(q.value) ==>
            r == Ok(ObjectIdentified(MatchReply(q.value[0]))) && svc.store == old(svc.store) && svc.nextId == old(svc.nextId))
      && (q.Ok? && !Accepted(q.value) && detections == [] ==>
            r == Ok(UnknownObject) && svc.store == old(svc.store) && svc.nextId == old(svc.nextId))
      && (q.Ok? && !Accepted(q.value) && detections != [] ==>
            var d := detections[BestDetection(detections)];
            && r == Ok(ObjectIdentified(ObjectReply(Str(d.name), Str(LearnedReplyNotes), d.confidence,
                                                    Str(Location(clock)), OptStr(image))))
            && svc.nextId == old(svc.nextId) + 1
            && svc.store == Append(old(svc.store), Objects,
                 Point(old(svc.nextId), embedding,
                       StoredPayload("object_id", objectId, Stamped(LearnedMetadata(d.name, clock, image), now)))))
  {
    var matches := svc.SearchObject(embedding, SearchLimit);
    if matches.Err? {
      return Err(matches.error);
    }
    if Accepted(matches.value) {
      return Ok(ObjectIdentified(MatchReply(matches.value[0])));
    }
    if detections == [] {
      return Ok(UnknownObject);
    }
    var best := detections[BestDetection(detections)];
    var metadata := new MutableDict(LearnedMetadata(best.name, clock, image));
    var stored := svc.StoreObjectMemory(objectId, embedding, metadata, now);
    if stored.Err? {
      assert false;
    }
    r := Ok(ObjectIdentified(ObjectReply(Str(best.name), Str(LearnedReplyNotes), best.confidence,
                                         Str(Location(clock)), OptStr(image))));
  }

  /**
   * An accepted object is the best stored object: none scores higher than the
   * reported confidence, which is above the object threshold.
   */
  lemma AcceptedIsBestObject(s: Store, query: Vector, sim: (Vector, Vector) -> real)
    requires Query(s, Objects, query, SearchLimit, sim).Ok?
    requires Accepted(Query(s, Objects, query, SearchLimit, sim).value)
    ensures var c := MatchReply(Query(s, Objects, query, SearchLimit, sim).value[0]).confidence;
      && c > ObjectThreshold
      && forall h | h in HitsOf(s[Objects].points, query, sim) :: h.score <= c
  {
    TopHitsBelowBest(Query(s, Objects, query, SearchLimit, sim).value, HitsOf(s[Objects].points, query, sim), SearchLimit);
  }

  /** With no stored objects the search never accepts, so the finder learns or gives up. */
  lemma EmptyObjectsNeverAccepted(s: Store, query: Vector, sim: (Vector, Vector) -> real)
    requires Query(s, Objects, query, SearchLimit, sim).Ok?
    requires s[Objects].points == []
    ensures !Accepted(Query(s, Objects, query, SearchLimit, sim).value)
  {
  }
}
