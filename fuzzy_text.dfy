/**
 * The lexical matcher behind `search_by_text`: how one stored record is
 * scored against a lower-cased query, the running maximum over the scanned
 * records, and the final selection (records tied at the maximum, newest
 * timestamp first, at most five). Scores are counted in tenths, so the
 * source's weights 1.0, 0.8, 0.5, 0.8, 1.0 and cutoff 0.4 are exact integers.
 * `ratio` stands for `difflib.SequenceMatcher(None, a, b).ratio()`.
 */
module FuzzyText {
  import opened Wrappers
  import opened Values
  import opened Strings
  import opened Sorting
  import opened VectorStore

  const NameWeight: nat := 10
  const RelationWeight: nat := 8
  const NotesWeight: nat := 5
  const TokenWeight: nat := 8
  const PhraseWeight: nat := 10
  /** A best score must exceed this (0.4) for anything to be returned. */
  const Cutoff: nat := 4
  const TokenRatio: real := 0.7
  const PhraseRatio: real := 0.6
  /** Words of at most this many characters never earn the token bonus. */
  const ShortWord: nat := 2
  const MaxResults: nat := 5

  /** The three payload fields the matcher reads, lower-cased. */
  datatype Fields = Fields(name: string, relation: string, notes: string)

  /**
   * `(payload.get(key) or "").lower()`. `None` when the stored value is truthy
   * but not a string: `.lower()` then raises.
   */
  function TextField(d: Dict, key: string): (r: Option<string>)
    ensures key !in d ==> r == Some("")
    ensures key in d && d[key].Str? ==> r == Some(Lower(d[key].s))
    ensures r.None? <==> key in d && Truthy(d[key]) && !d[key].Str?
  {
    if key !in d || !Truthy(d[key]) then Some("")
    else if d[key].Str? then Some(Lower(d[key].s))
    else None
  }

  function FieldsOf(d: Dict): Option<Fields> {
    match (TextField(d, "name"), TextField(d, "relation"), TextField(d, "notes"))
    case (Some(n), Some(r), Some(t)) => Some(Fields(n, r, t))
    case _ => None
  }

  /** A query word earns the token bonus: more than two characters and a ratio above 0.7 to the name. */
  predicate CloseWord(word: string, name: string, ratio: (string, string) -> real) {
    |word| > ShortWord && ratio(word, name) > TokenRatio
  }

  /** The positions of the close words. */
  ghost function CloseIndices(words: seq<string>, name: string, ratio: (string, string) -> real): set<nat> {
    set i: nat | i < |words| && CloseWord(words[i], name, ratio)
  }

  /** How many query words are close to `name`, counted word by word as the loop adds 0.8 each. */
  function CloseWords(words: seq<string>, name: string, ratio: (string, string) -> real): (n: nat)
    ensures n == |CloseIndices(words, name, ratio)|
    ensures n <= |words|
  {
    if words == [] then 0
    else
      var last := |words| - 1;
      CloseIndicesStep(words, name, ratio);
      CloseWords(words[..last], name, ratio) + (if CloseWord(words[last], name, ratio) then 1 else 0)
  }

  lemma CloseIndicesStep(words: seq<string>, name: string, ratio: (string, string) -> real)
    requires words != []
    ensures var last := |words| - 1;
      |CloseIndices(words, name, ratio)|
      == |CloseIndices(words[..last], name, ratio)| + (if CloseWord(words[last], name, ratio) then 1 else 0)
  {
    var last := |words| - 1;
    var init := words[..last];
    var before := CloseIndices(init, name, ratio);
    var all := CloseIndices(words, name, ratio);
    assert last !in before;
    assert forall i: nat | i < last :: init[i] == words[i];
    assert all - {last} == before;
    if CloseWord(words[last], name, ratio) {
      assert all == before + {last};
    } else {
      assert all == before;
    }
  }

  /**
   * The additive score of one record: name inside the query, relation inside
   * the query, query inside the notes, each close query word, and a close
   * whole query.
   */
  function Score(query: string, f: Fields, ratio: (string, string) -> real): (s: nat)
    ensures s == 0 || s > Cutoff
    ensures (f.name != "" && Contains(query, f.name)) || ratio(query, f.name) > PhraseRatio ==> s >= NameWeight
  {
    (if f.name != "" && Contains(query, f.name) then NameWeight else 0)
    + (if f.relation != "" && Contains(query, f.relation) then RelationWeight else 0)
    + (if f.notes != "" && Contains(f.notes, query) then NotesWeight else 0)
    + TokenWeight * CloseWords(Words(query), f.name, ratio)
    + (if ratio(query, f.name) > PhraseRatio then PhraseWeight else 0)
  }

  /**
   * The name bonus needs the whole stored name inside the query: a query
   * shorter than the name (a first name against a full name) never earns it.
   */
  lemma ShortQueryNoNameBonus(query: string, f: Fields, ratio: (string, string) -> real)
    requires |query| < |f.name|
    ensures Score(query, f, ratio)
         == (if f.relation != "" && Contains(query, f.relation) then RelationWeight else 0)
          + (if f.notes != "" && Contains(f.notes, query) then NotesWeight else 0)
          + TokenWeight * CloseWords(Words(query), f.name, ratio)
          + (if ratio(query, f.name) > PhraseRatio then PhraseWeight else 0)
  {
    assert !Contains(query, f.name);
  }

  /** What scanning one point yields: skipped (empty payload), a failure (`.lower()` raised) or a score. */
  datatype Scan = Skipped | Failed | Scored(score: nat)

  function ScanPoint(p: Point, query: string, ratio: (string, string) -> real): (r: Scan)
    ensures r.Scored? ==> r.score == 0 || r.score > Cutoff
  {
    if p.payload == map[] then Skipped
    else match FieldsOf(p.payload)
      case None => Failed
      case Some(f) => Scored(Score(query, f, ratio))
  }

  /** Some point of `ps` makes the scan raise. */
  predicate AnyFailed(ps: seq<Point>, query: string, ratio: (string, string) -> real) {
    exists k :: 0 <= k < |ps| && ScanPoint(ps[k], query, ratio).Failed?
  }

  /** The best score among the scored points of `ps`, or 0. */
  function MaxScore(ps: seq<Point>, query: string, ratio: (string, string) -> real): (m: nat)
    ensures forall k :: 0 <= k < |ps| && ScanPoint(ps[k], query, ratio).Scored? ==> ScanPoint(ps[k], query, ratio).score <= m
  {
    if ps == [] then 0
    else
      var init := ps[..|ps| - 1];
      var m0 := MaxScore(init, query, ratio);
      assert forall k :: 0 <= k < |init| ==> init[k] == ps[k];
      match ScanPoint(ps[|ps| - 1], query, ratio)
      case Scored(s) => if s > m0 then s else m0
      case _ => m0
  }

  /** Unless it is 0, the best score is the score of some scanned record. */
  lemma {:induction false} MaxScoreAttained(ps: seq<Point>, query: string, ratio: (string, string) -> real)
    ensures var m := MaxScore(ps, query, ratio);
      m == 0 || exists k :: 0 <= k < |ps| && ScanPoint(ps[k], query, ratio) == Scored(m)
  {
    if ps != [] {
      var init := ps[..|ps| - 1];
      MaxScoreAttained(init, query, ratio);
      var m0 := MaxScore(init, query, ratio);
      if MaxScore(ps, query, ratio) == m0 && m0 != 0 {
        var k :| 0 <= k < |init| && ScanPoint(init[k], query, ratio) == Scored(m0);
        assert init[k] == ps[k];
      }
    }
  }

  /** The points of `ps` that score exactly `m`, in scan order. */
  function Leaders(ps: seq<Point>, m: nat, query: string, ratio: (string, string) -> real): (r: seq<Point>)
    ensures forall p :: p in r ==> p in ps && ScanPoint(p, query, ratio) == Scored(m)
    ensures forall p :: p in ps && ScanPoint(p, query, ratio) == Scored(m) ==> p in r
    ensures |r| <= |ps|
  {
    if ps == [] then []
    else
      var init := ps[..|ps| - 1];
      assert ps == init + [ps[|ps| - 1]];
      Leaders(init, m, query, ratio) + (if ScanPoint(ps[|ps| - 1], query, ratio) == Scored(m) then [ps[|ps| - 1]] else [])
  }

  lemma {:induction false} LeadersAboveMax(ps: seq<Point>, m: nat, query: string, ratio: (string, string) -> real)
    requires m > MaxScore(ps, query, ratio)
    ensures Leaders(ps, m, query, ratio) == []
  {
    if ps != [] {
      LeadersAboveMax(ps[..|ps| - 1], m, query, ratio);
    }
  }

  /** What scanning one more point does to the failure flag, the best score and the leaders. */
  lemma ScanStep(ps: seq<Point>, p: Point, m: nat, query: string, ratio: (string, string) -> real)
    ensures AnyFailed(ps + [p], query, ratio) <==> AnyFailed(ps, query, ratio) || ScanPoint(p, query, ratio).Failed?
    ensures MaxScore(ps + [p], query, ratio)
         == match ScanPoint(p, query, ratio)
            case Scored(s) => if s > MaxScore(ps, query, ratio) then s else MaxScore(ps, query, ratio)
            case _ => MaxScore(ps, query, ratio)
    ensures Leaders(ps + [p], m, query, ratio)
         == Leaders(ps, m, query, ratio) + (if ScanPoint(p, query, ratio) == Scored(m) then [p] else [])
  {
    FailedStep(ps, p, query, ratio);
    MaxStep(ps, p, query, ratio);
    assert (ps + [p])[..|ps|] == ps;
  }

  lemma FailedStep(ps: seq<Point>, p: Point, query: string, ratio: (string, string) -> real)
    ensures AnyFailed(ps + [p], query, ratio) <==> AnyFailed(ps, query, ratio) || ScanPoint(p, query, ratio).Failed?
  {
    if AnyFailed(ps + [p], query, ratio) && !ScanPoint(p, query, ratio).Failed? {
      var k :| 0 <= k < |ps + [p]| && ScanPoint((ps + [p])[k], query, ratio).Failed?;
      assert (ps + [p])[k] == ps[k];
    }
    if AnyFailed(ps, query, ratio) {
      var k :| 0 <= k < |ps| && ScanPoint(ps[k], query, ratio).Failed?;
      assert (ps + [p])[k] == ps[k];
    }
    if ScanPoint(p, query, ratio).Failed? {
      assert (ps + [p])[|ps|] == p;
    }
  }

  lemma MaxStep(ps: seq<Point>, p: Point, query: string, ratio: (string, string) -> real)
    ensures MaxScore(ps + [p], query, ratio)
         == match ScanPoint(p, query, ratio)
            case Scored(s) => if s > MaxScore(ps, query, ratio) then s else MaxScore(ps, query, ratio)
            case _ => MaxScore(ps, query, ratio)
  {
    var qs := ps + [p];
    assert qs[..|qs| - 1] == ps;
    assert qs[|qs| - 1] == p;
  }

  /**
   * The scan's running state after the records `ps`: nothing raised, `best` is
   * the best score so far and `leaders` the records tied at it (kept only once
   * the best score exceeds the cutoff).
   */
  predicate ScanSoFar(ps: seq<Point>, best: nat, leaders: seq<Point>, query: string, ratio: (string, string) -> real) {
    && !AnyFailed(ps, query, ratio)
    && best == MaxScore(ps, query, ratio)
    && leaders == (if best > Cutoff then Leaders(ps, best, query, ratio) else [])
  }

  /** A record with an empty payload leaves the running state as it is. */
  lemma ScanSkipped(ps: seq<Point>, p: Point, best: nat, leaders: seq<Point>, query: string, ratio: (string, string) -> real)
    requires ScanSoFar(ps, best, leaders, query, ratio)
    requires ScanPoint(p, query, ratio) == Skipped
    ensures ScanSoFar(ps + [p], best, leaders, query, ratio)
  {
    ScanStep(ps, p, best, query, ratio);
  }

  /**
   * A scored record either becomes the sole leader (a new best), joins the
   * leaders (a tie above the cutoff), or changes nothing.
   */
  lemma ScanScored(ps: seq<Point>, p: Point, best: nat, leaders: seq<Point>, s: nat,
                   best': nat, leaders': seq<Point>, query: string, ratio: (string, string) -> real)
    requires ScanSoFar(ps, best, leaders, query, ratio)
    requires ScanPoint(p, query, ratio) == Scored(s)
    requires best' == if s > best then s else best
    requires leaders' == if s > best then [p] else if s == best && s > Cutoff then leaders + [p] else leaders
    ensures ScanSoFar(ps + [p], best', leaders', query, ratio)
  {
    ScanStep(ps, p, best, query, ratio);
    if s > best {
      assert s > Cutoff;
      LeadersAboveMax(ps, s, query, ratio);
      ScanStep(ps, p, s, query, ratio);
    }
  }

  /** `payload.get("timestamp", "")`; `None` when it is not a string (the sort would raise). */
  function TimestampKey(p: Point): Option<string> {
    if "timestamp" !in p.payload then Some("")
    else if p.payload["timestamp"].Str? then Some(p.payload["timestamp"].s)
    else None
  }

  datatype Keyed = Keyed(key: string, point: Point)

  /** Pairs each point with its timestamp key, or `None` if some key is not a string. */
  function KeysOf(ps: seq<Point>): (r: Option<seq<Keyed>>)
    ensures r.Some? ==> |r.value| == |ps| && forall k :: 0 <= k < |ps| ==> r.value[k].point == ps[k] && TimestampKey(ps[k]) == Some(r.value[k].key)
    ensures r.None? <==> exists k :: 0 <= k < |ps| && TimestampKey(ps[k]).None?
  {
    if ps == [] then Some([])
    else match (TimestampKey(ps[0]), KeysOf(ps[1..]))
      case (Some(t), Some(rest)) => Some([Keyed(t, ps[0])] + rest)
      case _ => None
  }

  /** The order `sort(key=timestamp, reverse=True)` puts records in: newer first. */
  predicate NewerOrSame(a: Keyed, b: Keyed) {
    LexLeq(b.key, a.key)
  }

  lemma NewestFirstOrder()
    ensures TotalPreorder(NewerOrSame)
  {
    forall a: Keyed, b: Keyed ensures NewerOrSame(a, b) || NewerOrSame(b, a) {
      LexTotal(a.key, b.key);
    }
    forall a: Keyed, b: Keyed, c: Keyed | NewerOrSame(a, b) && NewerOrSame(b, c) ensures NewerOrSame(a, c) {
      LexTransitive(c.key, b.key, a.key);
    }
  }

  function PointsOf(ks: seq<Keyed>): (ps: seq<Point>)
    ensures |ps| == |ks| && forall k :: 0 <= k < |ks| ==> ps[k] == ks[k].point
  {
    seq(|ks|, k requires 0 <= k < |ks| => ks[k].point)
  }

  /** Each record's timestamp is a string no older than those of the records after it. */
  predicate NewestFirstOrdered(r: seq<Point>) {
    forall i, j :: 0 <= i < j < |r| ==>
      TimestampKey(r[i]).Some? && TimestampKey(r[j]).Some? && LexLeq(TimestampKey(r[j]).value, TimestampKey(r[i]).value)
  }

  /** Every key is the timestamp of its point. */
  predicate KeysMatch(ks: seq<Keyed>) {
    forall k :: 0 <= k < |ks| ==> TimestampKey(ks[k].point) == Some(ks[k].key)
  }

  /** `candidates.sort(key=timestamp, reverse=True)` then `candidates[:5]`. */
  function NewestFirst(ks: seq<Keyed>): (r: seq<Point>)
    requires KeysMatch(ks)
    ensures |r| <= MaxResults
    ensures |r| == if |ks| < MaxResults then |ks| else MaxResults
    ensures forall p :: p in r ==> p in PointsOf(ks)
    ensures NewestFirstOrdered(r)
    ensures multiset(r) <= multiset(PointsOf(ks))
    ensures forall x, g | x in multiset(PointsOf(ks)) - multiset(r) && g in r ::
      TimestampKey(x).Some? && TimestampKey(g).Some? && LexLeq(TimestampKey(x).value, TimestampKey(g).value)
  {
    var sorted := StableSort(ks, NewerOrSame);
    var top := Take(sorted, MaxResults);
    NewestFirstOrder();
    StableSortSorted(ks, NewerOrSame);
    TakeFromSorted(ks, top);
    NewestKept(ks, sorted, top);
    PointsOf(top)
  }

  lemma PointsOfAppend(a: seq<Keyed>, b: seq<Keyed>)
    ensures PointsOf(a + b) == PointsOf(a) + PointsOf(b)
  {
  }

  /** Reordering the keyed records reorders their points the same way. */
  lemma {:induction false} PointsOfPermutation(a: seq<Keyed>, b: seq<Keyed>)
    requires multiset(a) == multiset(b)
    ensures multiset(PointsOf(a)) == multiset(PointsOf(b))
    decreases |a|
  {
    if a == [] {
      assert |b| == |multiset(b)| == 0;
    } else {
      var x := a[0];
      assert x in multiset(b);
      var j :| 0 <= j < |b| && b[j] == x;
      var rest := b[..j] + b[j + 1..];
      assert b == b[..j] + [x] + b[j + 1..];
      assert a == [x] + a[1..];
      assert multiset(b) == multiset(b[..j]) + multiset{x} + multiset(b[j + 1..]);
      assert multiset(a) == multiset{x} + multiset(a[1..]);
      assert multiset(rest) == multiset(b[..j]) + multiset(b[j + 1..]);
      calc {
        multiset(a[1..]);
        multiset(a) - multiset{x};
        multiset(b) - multiset{x};
        multiset(rest);
      }
      PointsOfPermutation(a[1..], rest);
      PointsOfAppend([x], a[1..]);
      PointsOfAppend(b[..j] + [x], b[j + 1..]);
      PointsOfAppend(b[..j], [x]);
      PointsOfAppend(b[..j], b[j + 1..]);
    }
  }

  /**
   * Taking the first five of the records sorted newest first keeps each
   * record at most once and leaves out none that is newer than one kept.
   */
  lemma NewestKept(ks: seq<Keyed>, sorted: seq<Keyed>, top: seq<Keyed>)
    requires KeysMatch(ks)
    requires sorted == StableSort(ks, NewerOrSame)
    requires SortedBy(sorted, NewerOrSame)
    requires top == Take(sorted, MaxResults)
    ensures multiset(PointsOf(top)) <= multiset(PointsOf(ks))
    ensures forall x, g | x in multiset(PointsOf(ks)) - multiset(PointsOf(top)) && g in PointsOf(top) ::
      TimestampKey(x).Some? && TimestampKey(g).Some? && LexLeq(TimestampKey(x).value, TimestampKey(g).value)
  {
    var k := |top|;
    var dropped := sorted[k..];
    assert sorted == top + dropped;
    PointsOfAppend(top, dropped);
    PointsOfPermutation(sorted, ks);
    assert multiset(PointsOf(ks)) - multiset(PointsOf(top)) == multiset(PointsOf(dropped));
    KeysMatchPermutation(ks, sorted);
    DroppedNotNewer(sorted, k);
  }

  lemma KeysMatchPermutation(ks: seq<Keyed>, sorted: seq<Keyed>)
    requires KeysMatch(ks)
    requires multiset(sorted) == multiset(ks)
    ensures KeysMatch(sorted)
  {
    forall t | 0 <= t < |sorted| ensures TimestampKey(sorted[t].point) == Some(sorted[t].key) {
      assert sorted[t] in multiset(ks);
      var u :| 0 <= u < |ks| && ks[u] == sorted[t];
    }
  }

  /** In a list sorted newest first, nothing after position `k` is newer than anything before it. */
  lemma DroppedNotNewer(sorted: seq<Keyed>, k: nat)
    requires KeysMatch(sorted)
    requires SortedBy(sorted, NewerOrSame)
    requires k <= |sorted|
    ensures forall x, g | x in PointsOf(sorted[k..]) && g in PointsOf(sorted[..k]) ::
      TimestampKey(x).Some? && TimestampKey(g).Some? && LexLeq(TimestampKey(x).value, TimestampKey(g).value)
  {
    forall x, g | x in PointsOf(sorted[k..]) && g in PointsOf(sorted[..k])
      ensures TimestampKey(x).Some? && TimestampKey(g).Some? && LexLeq(TimestampKey(x).value, TimestampKey(g).value)
    {
      var m :| 0 <= m < |sorted| - k && PointsOf(sorted[k..])[m] == x;
      var i :| 0 <= i < k && PointsOf(sorted[..k])[i] == g;
      assert x == sorted[k + m].point && g == sorted[i].point;
      assert NewerOrSame(sorted[i], sorted[k + m]);
    }
  }

  lemma TakeFromSorted(ks: seq<Keyed>, top: seq<Keyed>)
    requires KeysMatch(ks)
    requires top <= StableSort(ks, NewerOrSame)
    ensures forall p :: p in PointsOf(top) ==> p in PointsOf(ks)
    ensures KeysMatch(top)
  {
    var sorted := StableSort(ks, NewerOrSame);
    forall i | 0 <= i < |top| ensures top[i] in ks {
      assert top[i] == sorted[i];
      assert sorted[i] in multiset(ks);
    }
    forall p | p in PointsOf(top) ensures p in PointsOf(ks) {
      var i :| 0 <= i < |top| && top[i].point == p;
      var k :| 0 <= k < |ks| && ks[k] == top[i];
      assert PointsOf(ks)[k] == p;
    }
  }

  /**
   * The records `search_by_text` returns for the scanned points `ps` and the
   * lower-cased `query`: nothing when a record makes the scan raise or the
   * best score does not exceed the cutoff; otherwise the records tied at the
   * best score, newest timestamp first (ties in scan order), at most five.
   */
  function TextMatches(ps: seq<Point>, query: string, ratio: (string, string) -> real): (r: seq<Point>)
    ensures |r| <= MaxResults
    ensures r != [] ==> !AnyFailed(ps, query, ratio) && MaxScore(ps, query, ratio) > Cutoff
    ensures forall p :: p in r ==> p in ps && ScanPoint(p, query, ratio) == Scored(MaxScore(ps, query, ratio))
    ensures NewestFirstOrdered(r)
    ensures multiset(r) <= multiset(Leaders(ps, MaxScore(ps, query, ratio), query, ratio))
    ensures forall x, g | x in multiset(Leaders(ps, MaxScore(ps, query, ratio), query, ratio)) - multiset(r) && g in r ::
      TimestampKey(x).Some? && TimestampKey(g).Some? && LexLeq(TimestampKey(x).value, TimestampKey(g).value)
    ensures var leaders := Leaders(ps, MaxScore(ps, query, ratio), query, ratio);
      !AnyFailed(ps, query, ratio) && MaxScore(ps, query, ratio) > Cutoff && KeysOf(leaders).Some? ==>
      |r| == if |leaders| < MaxResults then |leaders| else MaxResults
  {
    if AnyFailed(ps, query, ratio) then []
    else
      var m := MaxScore(ps, query, ratio);
      if m <= Cutoff then []
      else
        var leaders := Leaders(ps, m, query, ratio);
        match KeysOf(leaders)
        case None => []
        case Some(ks) =>
          assert PointsOf(ks) == leaders;
          NewestFirst(ks)
  }

  /**
   * When no more than five records tie at the best score (and all have string
   * timestamps), every one of them is returned.
   */
  lemma AllLeadersReturned(ps: seq<Point>, query: string, ratio: (string, string) -> real)
    requires !AnyFailed(ps, query, ratio) && MaxScore(ps, query, ratio) > Cutoff
    requires KeysOf(Leaders(ps, MaxScore(ps, query, ratio), query, ratio)).Some?
    requires |Leaders(ps, MaxScore(ps, query, ratio), query, ratio)| <= MaxResults
    ensures |TextMatches(ps, query, ratio)| == |Leaders(ps, MaxScore(ps, query, ratio), query, ratio)|
    ensures forall p :: p in Leaders(ps, MaxScore(ps, query, ratio), query, ratio) ==> p in TextMatches(ps, query, ratio)
  {
    var leaders := Leaders(ps, MaxScore(ps, query, ratio), query, ratio);
    var ks := KeysOf(leaders).value;
    assert PointsOf(ks) == leaders;
    NewestFirstKeepsAll(ks);
  }

  /**
   * A record scoring above the cutoff, a scan that does not raise and string
   * timestamps everywhere: the search finds something.
   */
  lemma MatchFound(ps: seq<Point>, query: string, ratio: (string, string) -> real, k: nat)
    requires !AnyFailed(ps, query, ratio)
    requires k < |ps| && ScanPoint(ps[k], query, ratio).Scored? && ScanPoint(ps[k], query, ratio).score > Cutoff
    requires forall j :: 0 <= j < |ps| ==> TimestampKey(ps[j]).Some?
    ensures TextMatches(ps, query, ratio) != []
  {
    var m := MaxScore(ps, query, ratio);
    assert m > Cutoff;
    MaxScoreAttained(ps, query, ratio);
    var j :| 0 <= j < |ps| && ScanPoint(ps[j], query, ratio) == Scored(m);
    var leaders := Leaders(ps, m, query, ratio);
    assert ps[j] in leaders;
    forall t | 0 <= t < |leaders| ensures TimestampKey(leaders[t]).Some? {
      assert leaders[t] in leaders;
      var u :| 0 <= u < |ps| && ps[u] == leaders[t];
    }
    assert KeysOf(leaders).Some?;
    var r := TextMatches(ps, query, ratio);
    assert |r| == if |leaders| < MaxResults then |leaders| else MaxResults;
  }

  /** With at most five records, sorting by timestamp drops none of them. */
  lemma NewestFirstKeepsAll(ks: seq<Keyed>)
    requires KeysMatch(ks) && |ks| <= MaxResults
    ensures forall p :: p in PointsOf(ks) ==> p in NewestFirst(ks)
  {
    var sorted := StableSort(ks, NewerOrSame);
    assert Take(sorted, MaxResults) == sorted;
    assert NewestFirst(ks) == PointsOf(sorted);
    forall p | p in PointsOf(ks) ensures p in PointsOf(sorted) {
      var k :| 0 <= k < |ks| && ks[k].point == p;
      assert ks[k] in multiset(sorted);
      var i :| 0 <= i < |sorted| && sorted[i] == ks[k];
      assert PointsOf(sorted)[i] == p;
    }
  }

  /** When no record scores anything, nothing is returned. */
  lemma NoMatchNoResult(ps: seq<Point>, query: string, ratio: (string, string) -> real)
    requires forall k :: 0 <= k < |ps| ==> ScanPoint(ps[k], query, ratio) in {Skipped, Scored(0)}
    ensures TextMatches(ps, query, ratio) == []
  {
    NothingScoredMaxZero(ps, query, ratio);
  }

  lemma {:induction false} NothingScoredMaxZero(ps: seq<Point>, query: string, ratio: (string, string) -> real)
    requires forall k :: 0 <= k < |ps| ==> ScanPoint(ps[k], query, ratio) in {Skipped, Scored(0)}
    ensures MaxScore(ps, query, ratio) == 0
  {
    if ps != [] {
      var init := ps[..|ps| - 1];
      assert forall k :: 0 <= k < |init| ==> init[k] == ps[k];
      NothingScoredMaxZero(init, query, ratio);
    }
  }
}
