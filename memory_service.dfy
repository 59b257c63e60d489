/**
 * The memory service: the three collections it relies on (`faces`,
 * `objects`, `patients`), the inserts that enroll people, caregiver contacts
 * and objects, the two-collection face search, the object search and the
 * fuzzy text search. The database client's state is the field `store`;
 * `nextId` stands in for the uuid4 point ids.
 */
module Memory {
  import opened Wrappers
  import opened Values
  import opened Strings
  import opened Sorting
  import opened VectorStore
  import opened FuzzyText

  const Faces := "faces"
  const Objects := "objects"
  const Patients := "patients"
  const FaceSize: nat := 512
  const ObjectSize: nat := 1280
  /** `scroll(..., limit=500)` in the text search. */
  const ScrollLimit: nat := 500

  /** The store after `_ensure_collections`: the three collections exist, nothing else changes. */
  function WithCollections(s: Store): (r: Store)
    ensures r.Keys == s.Keys + {Faces, Objects, Patients}
    ensures forall c | c in s :: r[c] == s[c]
    ensures Faces !in s ==> r[Faces] == Collection(FaceSize, Cosine, [])
    ensures Objects !in s ==> r[Objects] == Collection(ObjectSize, Cosine, [])
    ensures Patients !in s ==> r[Patients] == Collection(FaceSize, Cosine, [])
  {
    EnsureCollection(EnsureCollection(EnsureCollection(s, Faces, FaceSize), Objects, ObjectSize), Patients, FaceSize)
  }

  /** A second `_ensure_collections` is a no-op. */
  lemma WithCollectionsIdempotent(s: Store)
    ensures WithCollections(WithCollections(s)) == WithCollections(s)
  {
  }

  /**
   * The reset scripts: deleting a collection and ensuring the collections
   * again leaves that collection empty with its configured size and leaves
   * the others as they were.
   */
  lemma ResetEmptiesOnlyThatCollection(s: Store, name: string)
    requires name in {Faces, Objects, Patients}
    ensures var r := WithCollections(DeleteCollection(s, name));
      && r[name] == Collection(if name == Objects then ObjectSize else FaceSize, Cosine, [])
      && forall c | c in s && c != name :: r[c] == s[c]
  {
  }

  /** The metadata after `if "timestamp" not in metadata: metadata["timestamp"] = now`. */
  function Stamped(m: Dict, now: string): (r: Dict)
    ensures r.Keys == m.Keys + {"timestamp"}
    ensures forall k | k in m :: r[k] == m[k]
    ensures "timestamp" !in m ==> r["timestamp"] == Str(now)
  {
    if "timestamp" in m then m else m["timestamp" := Str(now)]
  }

  /** The payload `{id_key: id, **metadata}`: a metadata entry with the same key wins. */
  function StoredPayload(idKey: string, id: string, metadata: Dict): (r: Dict)
    ensures r.Keys == metadata.Keys + {idKey}
    ensures forall k | k in metadata :: r[k] == metadata[k]
    ensures idKey !in metadata ==> r[idKey] == Str(id)
  {
    map[idKey := Str(id)] + metadata
  }

  /** All hits ranked by score, best first; equal scores keep their order in `hits`. */
  function Ranked(hits: seq<Hit>): (r: seq<Hit>)
    ensures multiset(r) == multiset(hits)
    ensures SortedBy(r, ScoreAtLeast)
  {
    ScoreOrder();
    StableSortSorted(hits, ScoreAtLeast);
    StableSort(hits, ScoreAtLeast)
  }

  /**
   * `search_face`: the `faces` and `patients` results, concatenated, ranked
   * and cut to `limit`.
   */
  function FaceMatches(s: Store, query: Vector, limit: nat, sim: (Vector, Vector) -> real): (r: Result<seq<Hit>, StoreError>)
    ensures r.Ok? <==> Writable(s, Faces, |query|) && Writable(s, Patients, |query|)
    ensures r.Ok? ==>
      var all := Query(s, Faces, query, limit, sim).value + Query(s, Patients, query, limit, sim).value;
      && |r.value| == (if limit < |all| then limit else |all|)
      && SortedBy(r.value, ScoreAtLeast)
      && (forall h | h in r.value :: h in all)
      && (r.value != [] ==> forall h | h in all :: h.score <= r.value[0].score)
      && TopHits(r.value, all, limit)
  {
    match Query(s, Faces, query, limit, sim)
    case Err(e) => Err(e)
    case Ok(f) =>
      match Query(s, Patients, query, limit, sim)
      case Err(e) => Err(e)
      case Ok(p) =>
        RankedTop(f + p, limit);
        Ok(Take(Ranked(f + p), limit))
  }

  /**
   * The first `limit` ranked hits come from `all`, the first of them is a best
   * one, and together they are the top `limit` hits of `all`.
   */
  lemma RankedTop(all: seq<Hit>, limit: nat)
    ensures var top := Take(Ranked(all), limit);
      && (forall h | h in top :: h in all)
      && (top != [] ==> forall h | h in all :: h.score <= top[0].score)
      && TopHits(top, all, limit)
  {
    var ranked := Ranked(all);
    var top := Take(ranked, limit);
    TakeSortedIsTop(all, limit);
    forall h | h in top ensures h in all {
      assert h in multiset(ranked);
    }
    if top != [] {
      forall h | h in all ensures h.score <= top[0].score {
        assert h in multiset(ranked);
        var k :| 0 <= k < |ranked| && ranked[k] == h;
        assert ranked[0] == top[0];
      }
    }
  }

  /**
   * Ties across the two collections: among hits of equal score, every `faces`
   * hit is ranked before every `patients` hit, each in its own order.
   */
  lemma FacesBeforePatientsOnTies(f: seq<Hit>, p: seq<Hit>, v: Hit)
    ensures Ties(Ranked(f + p), v, ScoreAtLeast) == Ties(f, v, ScoreAtLeast) + Ties(p, v, ScoreAtLeast)
  {
    ScoreOrder();
    StableSortStable(f + p, v, ScoreAtLeast);
    TiesAppend(f, p, v, ScoreAtLeast);
  }

  /** The points the text search scans: up to 500 from each listed collection that exists. */
  function Scanned(s: Store, cols: seq<string>): (ps: seq<Point>)
  {
    if cols == [] then []
    else
      var last := cols[|cols| - 1];
      var init := Scanned(s, cols[..|cols| - 1]);
      match Scroll(s, last, ScrollLimit)
      case Ok(more) => init + more
      case Err(_) => init
  }

  /** The records of the three collections, read in turn, skipping a collection that is missing. */
  method ScrollAll(s: Store) returns (points: seq<Point>)
    ensures points == Scanned(s, [Faces, Objects, Patients])
  {
    var cols := [Faces, Objects, Patients];
    points := [];
    for c := 0 to |cols|
      invariant points == Scanned(s, cols[..c])
    {
      assert cols[..c + 1][..c] == cols[..c];
      var res := Scroll(s, cols[c], ScrollLimit);
      if res.Ok? {
        points := points + res.value;
      }
    }
    assert cols[..|cols|] == cols;
  }

  /**
   * The scoring pass of the text search: the best score seen and the records
   * that reach it, or `failed` when a payload lacks a field the scoring reads.
   */
  method ScanFuzzy(points: seq<Point>, query: string, ratio: (string, string) -> real)
    returns (failed: bool, maxScore: nat, candidates: seq<Point>)
    ensures failed == AnyFailed(points, query, ratio)
    ensures !failed ==> ScanSoFar(points, maxScore, candidates, query, ratio)
  {
    failed := false;
    candidates := [];
    maxScore := 0;
    var i := 0;
    ghost var seen: seq<Point> := [];
    while i < |points|
      invariant 0 <= i <= |points|
      invariant seen == points[..i]
      invariant ScanSoFar(seen, maxScore, candidates, query, ratio)
    {
      var p := points[i];
      assert points[..i + 1] == seen + [p];
      if p.payload == map[] {
        ScanSkipped(seen, p, maxScore, candidates, query, ratio);
      } else {
        var fields := FieldsOf(p.payload);
        if fields.None? {
          assert ScanPoint(points[i], query, ratio).Failed?;
          return true, 0, [];
        }
        var score := Score(query, fields.value, ratio);
        ghost var best, leaders := maxScore, candidates;
        if score > maxScore {
          maxScore := score;
          candidates := [p];
        } else if score == maxScore && score > Cutoff {
          candidates := candidates + [p];
        }
        ScanScored(seen, p, best, leaders, score, maxScore, candidates, query, ratio);
      }
      seen := seen + [p];
      i := i + 1;
    }
    assert points[..i] == points;
  }

  class MemoryService {
    var store: Store
    var nextId: PointId
    const similarity: (Vector, Vector) -> real

    ghost predicate Valid()
      reads this
    {
      StoreInvariant(store, nextId)
    }

    /** Connects to a database holding `existing` and ensures the collections. */
    constructor (similarity: (Vector, Vector) -> real, existing: Store, firstFreeId: PointId)
      requires StoreInvariant(existing, firstFreeId)
      ensures Valid()
      ensures store == WithCollections(existing) && nextId == firstFreeId
      ensures this.similarity == similarity
    {
      this.similarity := similarity;
      store := existing;
      nextId := firstFreeId;
      new;
      EnsureCollections();
    }

    /** `_ensure_collections`: creates each of the three collections only when it is missing. */
    method EnsureCollections()
      requires Valid()
      modifies this
      ensures Valid() && nextId == old(nextId)
      ensures store == WithCollections(old(store))
    {
      if Faces !in store {
        store := store[Faces := Collection(FaceSize, Cosine, [])];
      }
      if Objects !in store {
        store := store[Objects := Collection(ObjectSize, Cosine, [])];
      }
      if Patients !in store {
        store := store[Patients := Collection(FaceSize, Cosine, [])];
      }
    }

    /** `client.delete_collection(name)`, as the reset scripts call it. */
    method DeleteCollection(name: string)
      requires Valid()
      modifies this
      ensures Valid() && nextId == old(nextId)
      ensures store == VectorStore.DeleteCollection(old(store), name)
    {
      store := store - {name};
    }

    /**
     * The body shared by the three `store_*` methods: stamps the caller's
     * metadata, then upserts one point with a fresh id into `name`.
     */
    method Insert(name: string, idKey: string, id: string, embedding: Vector, metadata: MutableDict, now: string)
      returns (r: Result<PointId, StoreError>)
      requires Valid()
      modifies this, metadata
      ensures Valid()
      ensures metadata.entries == Stamped(old(metadata.entries), now)
      ensures r.Ok? <==> Writable(old(store), name, |embedding|)
      ensures r.Ok? ==> && r.value == old(nextId) && r.value !in old(AllIds(store))
                        && nextId == old(nextId) + 1
                        && AllIds(store) == old(AllIds(store)) + {r.value}
                        && store == Append(old(store), name, Point(r.value, embedding, StoredPayload(idKey, id, metadata.entries)))
      ensures r.Err? ==> store == old(store) && nextId == old(nextId)
    {
      var pointId := nextId;
      if "timestamp" !in metadata.entries {
        metadata.entries := metadata.entries["timestamp" := Str(now)];
      }
      if name !in store {
        return Err(CollectionNotFound(name));
      }
      if |embedding| != store[name].size {
        return Err(DimensionMismatch(store[name].size, |embedding|));
      }
      var point := Point(pointId, embedding, StoredPayload(idKey, id, metadata.entries));
      AppendKeepsInvariant(store, nextId, name, point);
      store, nextId := Append(store, name, point), nextId + 1;
      r := Ok(pointId);
    }

    /** `store_face_memory`: one new point in `faces`, payload `{"person_id": person_id, **metadata}`. */
    method StoreFaceMemory(personId: string, embedding: Vector, metadata: MutableDict, now: string)
      returns (r: Result<PointId, StoreError>)
      requires Valid()
      modifies this, metadata
      ensures Valid()
      ensures metadata.entries == Stamped(old(metadata.entries), now)
      ensures r.Ok? <==> Writable(old(store), Faces, |embedding|)
      ensures r.Ok? ==> && r.value == old(nextId) && r.value !in old(AllIds(store))
                        && nextId == old(nextId) + 1
                        && store == Append(old(store), Faces, Point(r.value, embedding, StoredPayload("person_id", personId, metadata.entries)))
      ensures r.Err? ==> store == old(store) && nextId == old(nextId)
    {
      r := Insert(Faces, "person_id", personId, embedding, metadata, now);
    }

    /** `store_patient_memory`: as `store_face_memory`, into `patients`. */
    method StorePatientMemory(personId: string, embedding: Vector, metadata: MutableDict, now: string)
      returns (r: Result<PointId, StoreError>)
      requires Valid()
      modifies this, metadata
      ensures Valid()
      ensures metadata.entries == Stamped(old(metadata.entries), now)
      ensures r.Ok? <==> Writable(old(store), Patients, |embedding|)
      ensures r.Ok? ==> && r.value == old(nextId) && r.value !in old(AllIds(store))
                        && nextId == old(nextId) + 1
                        && store == Append(old(store), Patients, Point(r.value, embedding, StoredPayload("person_id", personId, metadata.entries)))
      ensures r.Err? ==> store == old(store) && nextId == old(nextId)
    {
      r := Insert(Patients, "person_id", personId, embedding, metadata, now);
    }

    /** `store_object_memory`: one new point in `objects`, payload `{"object_id": object_id, **metadata}`. */
    method StoreObjectMemory(objectId: string, embedding: Vector, metadata: MutableDict, now: string)
      returns (r: Result<PointId, StoreError>)
      requires Valid()
      modifies this, metadata
      ensures Valid()
      ensures metadata.entries == Stamped(old(metadata.entries), now)
      ensures r.Ok? <==> Writable(old(store), Objects, |embedding|)
      ensures r.Ok? ==> && r.value == old(nextId) && r.value !in old(AllIds(store))
                        && nextId == old(nextId) + 1
                        && store == Append(old(store), Objects, Point(r.value, embedding, StoredPayload("object_id", objectId, metadata.entries)))
      ensures r.Err? ==> store == old(store) && nextId == old(nextId)
    {
      r := Insert(Objects, "object_id", objectId, embedding, metadata, now);
    }

    /** `search_face`: searches both face-like collections and merges the results. */
    method SearchFace(embedding: Vector, limit: nat) returns (r: Result<seq<Hit>, StoreError>)
      ensures r == FaceMatches(store, embedding, limit, similarity)
    {
      var res1 := Query(store, Faces, embedding, limit, similarity);
      if res1.Err? {
        return Err(res1.error);
      }
      var res2 := Query(store, Patients, embedding, limit, similarity);
      if res2.Err? {
        return Err(res2.error);
      }
      var allRes := res1.value + res2.value;
      allRes := Ranked(allRes);
      r := Ok(Take(allRes, limit));
    }

    /** `search_object`: the best `limit` points of `objects`. */
    method SearchObject(embedding: Vector, limit: nat) returns (r: Result<seq<Hit>, StoreError>)
      ensures r == Query(store, Objects, embedding, limit, similarity)
    {
      r := Query(store, Objects, embedding, limit, similarity);
    }

    /**
     * `search_by_text`: scans the three collections, keeps the running best
     * score and the records tied at it, and returns them newest first.
     */
    method SearchByText(textQuery: string, ratio: (string, string) -> real) returns (r: seq<Point>)
      ensures r == TextMatches(Scanned(store, [Faces, Objects, Patients]), Lower(textQuery), ratio)
    {
      var points := ScrollAll(store);
      var query := Lower(textQuery);
      var failed, maxScore, candidates := ScanFuzzy(points, query, ratio);
      if failed {
        return [];
      }

      if maxScore > Cutoff {
        var keyed := KeysOf(candidates);
        if keyed.None? {
          return [];
        }
        r := NewestFirst(keyed.value);
        return;
      }
      return [];
    }
  }
}
