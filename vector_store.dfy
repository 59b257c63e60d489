/**
 * The vector database the memory service talks to, as a value: a map from
 * collection name to a collection (vector size, distance, points), with the
 * client calls the service uses (create, delete, upsert, query, scroll).
 * Similarity is an uninterpreted function supplied by the caller.
 */
module VectorStore {
  import opened Wrappers
  import opened Values
  import opened Sorting

  type PointId = nat
  type Vector = seq<real>

  datatype Distance = Cosine

  /** A stored record: id, embedding and payload. */
  datatype Point = Point(id: PointId, vector: Vector, payload: Dict)

  datatype Collection = Collection(size: nat, distance: Distance, points: seq<Point>)

  type Store = map<string, Collection>

  /** One search result: the point's id, its similarity score and its payload. */
  datatype Hit = Hit(id: PointId, score: real, payload: Dict)

  datatype StoreError = CollectionNotFound(name: string) | DimensionMismatch(expected: nat, got: nat)

  /** The relation `sort(key=score, reverse=True)` orders hits by. */
  predicate ScoreAtLeast(a: Hit, b: Hit) {
    a.score >= b.score
  }

  lemma ScoreOrder()
    ensures TotalPreorder(ScoreAtLeast)
  {
  }

  /** All point ids of the store. */
  ghost function AllIds(s: Store): set<PointId> {
    set c, p | c in s && p in s[c].points :: p.id
  }

  /**
   * What the database guarantees of its contents: every vector has its
   * collection's size, point ids are unique across the store and all lie below
   * `next`, the next id to hand out.
   */
  ghost predicate StoreInvariant(s: Store, next: nat) {
    && (forall c, p | c in s && p in s[c].points :: p.id < next && |p.vector| == s[c].size)
    && (forall c, d, i, j | c in s && d in s && 0 <= i < |s[c].points| && 0 <= j < |s[d].points|
          && s[c].points[i].id == s[d].points[j].id :: c == d && i == j)
  }

  /** Creates collection `name` unless it already exists. */
  function EnsureCollection(s: Store, name: string, size: nat): (r: Store)
    ensures r.Keys == s.Keys + {name}
    ensures forall c | c in s :: r[c] == s[c]
    ensures name !in s ==> r[name] == Collection(size, Cosine, [])
  {
    if name in s then s else s[name := Collection(size, Cosine, [])]
  }

  /** `delete_collection(name)`: drops the collection and all its points. */
  function DeleteCollection(s: Store, name: string): (r: Store)
    ensures r.Keys == s.Keys - {name}
    ensures forall c | c in r :: r[c] == s[c]
  {
    s - {name}
  }

  /** An upsert of a vector of this length into collection `name` is accepted. */
  predicate Writable(s: Store, name: string, length: nat) {
    name in s && s[name].size == length
  }

  /** The store after adding point `p` at the end of collection `name`. */
  function Append(s: Store, name: string, p: Point): (r: Store)
    requires name in s
    ensures r.Keys == s.Keys
    ensures forall c | c in s && c != name :: r[c] == s[c]
    ensures r[name].size == s[name].size && r[name].distance == s[name].distance
    ensures r[name].points == s[name].points + [p]
  {
    s[name := s[name].(points := s[name].points + [p])]
  }

  /** Appending a point with a fresh id and the right size keeps the store consistent. */
  lemma AppendKeepsInvariant(s: Store, next: nat, name: string, p: Point)
    requires StoreInvariant(s, next)
    requires Writable(s, name, |p.vector|)
    requires p.id == next
    ensures StoreInvariant(Append(s, name, p), next + 1)
    ensures AllIds(Append(s, name, p)) == AllIds(s) + {p.id}
    ensures p.id !in AllIds(s)
  {
    AppendKeepsIdsUnique(s, next, name, p);
    AppendKeepsSizes(s, next, name, p);
    AppendAddsId(s, next, name, p);
  }

  lemma AppendKeepsIdsUnique(s: Store, next: nat, name: string, p: Point)
    requires StoreInvariant(s, next)
    requires name in s
    requires p.id == next
    ensures var r := Append(s, name, p);
      forall c, d, i, j | c in r && d in r && 0 <= i < |r[c].points| && 0 <= j < |r[d].points|
        && r[c].points[i].id == r[d].points[j].id :: c == d && i == j
  {
    var r := Append(s, name, p);
    var n := |s[name].points|;
    forall c, d, i, j | c in r && d in r && 0 <= i < |r[c].points| && 0 <= j < |r[d].points|
      && r[c].points[i].id == r[d].points[j].id
      ensures c == d && i == j
    {
      if (c != name || i != n) && (d != name || j != n) {
        assert r[c].points[i] == s[c].points[i];
        assert r[d].points[j] == s[d].points[j];
      } else if c == name && i == n && (d != name || j != n) {
        assert r[d].points[j] == s[d].points[j];
        assert s[d].points[j] in s[d].points;
      } else if d == name && j == n && (c != name || i != n) {
        assert r[c].points[i] == s[c].points[i];
        assert s[c].points[i] in s[c].points;
      }
    }
  }

  lemma AppendKeepsSizes(s: Store, next: nat, name: string, p: Point)
    requires StoreInvariant(s, next)
    requires Writable(s, name, |p.vector|)
    requires p.id == next
    ensures var r := Append(s, name, p);
      forall c, q | c in r && q in r[c].points :: q.id < next + 1 && |q.vector| == r[c].size
  {
    var r := Append(s, name, p);
    forall c, q | c in r && q in r[c].points ensures q.id < next + 1 && |q.vector| == r[c].size {
      if q != p {
        assert q in s[c].points;
      }
    }
  }

  lemma AppendAddsId(s: Store, next: nat, name: string, p: Point)
    requires StoreInvariant(s, next)
    requires name in s
    requires p.id == next
    ensures AllIds(Append(s, name, p)) == AllIds(s) + {p.id}
    ensures p.id !in AllIds(s)
  {
    var r := Append(s, name, p);
    assert p in r[name].points;
    forall x | x in AllIds(r) ensures x in AllIds(s) + {p.id} {
      var c, q :| c in r && q in r[c].points && q.id == x;
      if q != p {
        assert q in s[c].points;
      }
    }
  }

  /** The score of every point of a collection against `query`, in stored order. */
  function HitsOf(points: seq<Point>, query: Vector, sim: (Vector, Vector) -> real): (hs: seq<Hit>)
    ensures |hs| == |points|
    ensures forall k :: 0 <= k < |points| ==>
      hs[k] == Hit(points[k].id, sim(query, points[k].vector), points[k].payload)
  {
    seq(|points|, k requires 0 <= k < |points| => Hit(points[k].id, sim(query, points[k].vector), points[k].payload))
  }

  /**
   * `rs` is a best-first selection of `limit` hits out of `all`: as many as
   * there are (up to `limit`), sorted by score, drawn from `all`, and no hit
   * left out scores higher than one kept.
   */
  ghost predicate TopHits(rs: seq<Hit>, all: seq<Hit>, limit: nat) {
    && |rs| == (if limit < |all| then limit else |all|)
    && SortedBy(rs, ScoreAtLeast)
    && multiset(rs) <= multiset(all)
    && forall h, g | h in multiset(all) - multiset(rs) && g in rs :: g.score >= h.score
  }

  lemma TakeSortedIsTop(all: seq<Hit>, limit: nat)
    ensures TopHits(Take(StableSort(all, ScoreAtLeast), limit), all, limit)
  {
    var sorted := StableSort(all, ScoreAtLeast);
    var rs := Take(sorted, limit);
    ScoreOrder();
    StableSortSorted(all, ScoreAtLeast);
    var k := |rs|;
    assert rs == sorted[..k];
    SortedPrefix(sorted, k);
    assert sorted == rs + sorted[k..];
    assert multiset(sorted) == multiset(rs) + multiset(sorted[k..]);
    assert multiset(all) - multiset(rs) == multiset(sorted[k..]);
    forall h, g | h in multiset(all) - multiset(rs) && g in rs ensures g.score >= h.score {
      SortedPrefixDominates(sorted, k, h, g);
    }
  }

  /** A prefix of a sorted list is sorted. */
  lemma SortedPrefix(sorted: seq<Hit>, k: nat)
    requires SortedBy(sorted, ScoreAtLeast)
    requires k <= |sorted|
    ensures SortedBy(sorted[..k], ScoreAtLeast)
  {
  }

  /** In a sorted list, a hit before position `k` scores at least as high as one from `k` on. */
  lemma SortedPrefixDominates(sorted: seq<Hit>, k: nat, h: Hit, g: Hit)
    requires SortedBy(sorted, ScoreAtLeast)
    requires k <= |sorted|
    requires h in sorted[k..] && g in sorted[..k]
    ensures g.score >= h.score
  {
    var m :| 0 <= m < |sorted[k..]| && sorted[k..][m] == h;
    var i :| 0 <= i < k && sorted[..k][i] == g;
    assert sorted[i] == g && sorted[k + m] == h;
  }

  /**
   * `query_points(collection_name=name, query=query, limit=limit)`: the best
   * `limit` points by similarity, best first. Fails when the collection is
   * missing or the query vector has the wrong length.
   */
  function Query(s: Store, name: string, query: Vector, limit: nat, sim: (Vector, Vector) -> real)
    : (r: Result<seq<Hit>, StoreError>)
    ensures r.Ok? <==> Writable(s, name, |query|)
    ensures r.Ok? ==> TopHits(r.value, HitsOf(s[name].points, query, sim), limit)
  {
    if name !in s then Err(CollectionNotFound(name))
    else if |query| != s[name].size then Err(DimensionMismatch(s[name].size, |query|))
    else
      TakeSortedIsTop(HitsOf(s[name].points, query, sim), limit);
      Ok(Take(StableSort(HitsOf(s[name].points, query, sim), ScoreAtLeast), limit))
  }

  /** `scroll(collection_name=name, limit=limit)`: the first `limit` points, no vector needed. */
  function Scroll(s: Store, name: string, limit: nat): (r: Result<seq<Point>, StoreError>)
    ensures r.Ok? <==> name in s
    ensures r.Ok? ==> r.value <= s[name].points && |r.value| == if limit < |s[name].points| then limit else |s[name].points|
  {
    if name !in s then Err(CollectionNotFound(name)) else Ok(Take(s[name].points, limit))
  }
}
