/**
 * The dataset merge script: face folders (`<name>_local`) and audio folders
 * (`<name>_id<digits>`) are grouped by person, and every person gets one
 * folder with a generated `metadata.json`. The directory listings are
 * parameters, and so are the two random picks; copying the image and audio
 * files is not modelled, only which source folders a person's files come from.
 */
module MergeData {
  import opened Wrappers
  import opened Values
  import opened Strings

  const Relations := ["Friend", "Colleague", "Mentor", "Acquaintance", "Family", "Rival", "Partner"]
  const Memories := [
    "Met at a tech conference in Mumbai.",
    "Collaborated on a creative project in 2024.",
    "Shared a coffee and discussed future of AI.",
    "Went to the same university.",
    "Worked together on a film set.",
    "Met during a charity event.",
    "Regular tennis partner on weekends.",
    "Discussed philosophy during a long flight.",
    "Childhood neighbor from Delhi."
  ]
  const LastSeen := "2025-12-01"

  /**
   * `normalize_name`: drops every "_local", then cuts the name at its first
   * "_id". The result never contains "_id", is a prefix of the name without
   * "_local" that is either all of it or ends where an "_id" starts, and is
   * the folder name itself when it has neither marker.
   */
  function NormalizeName(folder: string): (r: string)
    ensures !Contains(r, "_id")
    ensures r <= ReplaceAll(folder, "_local", "")
    ensures !Contains(folder, "_local") && !Contains(folder, "_id") ==> r == folder
    ensures var name := ReplaceAll(folder, "_local", ""); r == name || OccursAt(name, "_id", |r|)
  {
    var name := ReplaceAll(folder, "_local", "");
    assert !Contains(folder, "_local") ==> name == folder by {
      if !Contains(folder, "_local") {
        ReplaceAbsent(folder, "_local", "");
      }
    }
    match IndexOf(name, "_id")
    case None => name
    case Some(i) =>
      NoEarlierOccurrence(name, "_id", i);
      name[..i]
  }

  /** The text before the first occurrence of `needle` does not contain it. */
  lemma NoEarlierOccurrence(s: string, needle: string, i: nat)
    requires i <= |s|
    requires forall j :: 0 <= j < i ==> !OccursAt(s, needle, j)
    requires needle != []
    ensures !Contains(s[..i], needle)
  {
    if Contains(s[..i], needle) {
      var j := IndexOf(s[..i], needle).value;
      assert s[..i][j..j + |needle|] == s[j..j + |needle|];
      assert OccursAt(s, needle, j);
    }
  }

  /** The names of the face folders: directories whose name contains "_local". */
  function FaceFolders(baseDirs: seq<string>): (fs: seq<string>)
    ensures forall f :: f in fs <==> f in baseDirs && Contains(f, "_local")
  {
    if baseDirs == [] then []
    else
      var rest := FaceFolders(baseDirs[1..]);
      if Contains(baseDirs[0], "_local") then [baseDirs[0]] + rest else rest
  }

  /** The normalised names of `folders`, without duplicates. */
  function NamesOf(folders: seq<string>): (names: set<string>)
    ensures forall f :: f in folders ==> NormalizeName(f) in names
  {
    if folders == [] then {}
    else NamesOf(folders[..|folders| - 1]) + {NormalizeName(folders[|folders| - 1])}
  }

  /** Every name comes from some folder. */
  lemma {:induction false} NamesOfOnlyFolders(folders: seq<string>, n: string)
    requires n in NamesOf(folders)
    ensures exists f :: f in folders && NormalizeName(f) == n
  {
    var init := folders[..|folders| - 1];
    if n != NormalizeName(folders[|folders| - 1]) {
      NamesOfOnlyFolders(init, n);
      var f :| f in init && NormalizeName(f) == n;
      assert f in folders;
    }
  }

  /** Every person the merge finds: the normalised face folder names and audio folder names. */
  function Persons(baseDirs: seq<string>, audioDirs: seq<string>): set<string> {
    NamesOf(FaceFolders(baseDirs)) + NamesOf(audioDirs)
  }

  /** The position of the first audio folder that belongs to `person`, or the length when none does. */
  function FirstMatch(audioDirs: seq<string>, person: string): (k: nat)
    ensures k <= |audioDirs|
    ensures k < |audioDirs| ==> NormalizeName(audioDirs[k]) == person
    ensures forall j :: 0 <= j < k ==> NormalizeName(audioDirs[j]) != person
  {
    if audioDirs == [] || NormalizeName(audioDirs[0]) == person then 0
    else 1 + FirstMatch(audioDirs[1..], person)
  }

  /** `matching_audio[0]` when there is one: the first audio folder that belongs to `person`. */
  function FirstMatchingAudio(audioDirs: seq<string>, person: string): (r: Option<string>)
    ensures r.Some? ==> r.value in audioDirs && NormalizeName(r.value) == person
    ensures r.None? <==> forall a :: a in audioDirs ==> NormalizeName(a) != person
    ensures r.Some? ==> r.value == audioDirs[FirstMatch(audioDirs, person)]
  {
    var k := FirstMatch(audioDirs, person);
    if k < |audioDirs| then Some(audioDirs[k]) else None
  }

  /** What the merge writes for one person: where their files come from, and their metadata. */
  datatype Profile = Profile(faceSource: Option<string>, audioSource: Option<string>, metadata: Dict)

  /** The generated `metadata.json`; the two random choices are given as indices. */
  function ProfileMetadata(person: string, relationPick: nat, memoryPick: nat): (m: Dict)
    ensures m.Keys == {"name", "id", "relation", "summary", "context"}
    ensures m["name"] == Str(ReplaceAll(person, "_", " ")) && m["id"] == Str(person)
    ensures m["relation"].Str? && m["relation"].s in Relations
    ensures m["summary"].Str? && m["summary"].s in Memories
    ensures m["context"] == Obj(map["last_seen" := Str(LastSeen), "notes" := Str("Generated profile for " + person)])
  {
    map["name" := Str(ReplaceAll(person, "_", " ")),
        "id" := Str(person),
        "relation" := Str(Relations[relationPick % |Relations|]),
        "summary" := Str(Memories[memoryPick % |Memories|]),
        "context" := Obj(map["last_seen" := Str(LastSeen), "notes" := Str("Generated profile for " + person)])]
  }

  /** The profile of one person: the `_local` folder if it exists, the first matching audio folder, the metadata. */
  function ProfileOf(person: string, baseDirs: seq<string>, audioDirs: seq<string>,
                     relationPick: nat, memoryPick: nat): Profile
  {
    Profile(if person + "_local" in baseDirs then Some(person + "_local") else None,
            FirstMatchingAudio(audioDirs, person),
            ProfileMetadata(person, relationPick, memoryPick))
  }

  /** Adds the normalised name of every folder to `names`, one folder at a time. */
  method AddNames(names: set<string>, folders: seq<string>) returns (r: set<string>)
    ensures r == names + NamesOf(folders)
  {
    r := names;
    for i := 0 to |folders|
      invariant r == names + NamesOf(folders[..i])
    {
      assert folders[..i + 1][..i] == folders[..i];
      r := r + {NormalizeName(folders[i])};
    }
    assert folders[..|folders|] == folders;
  }

  /**
   * The per-person part of `merge_data`: one profile for each person, with
   * the face folder, the first matching audio folder and the generated
   * metadata.
   */
  method BuildProfiles(persons: set<string>, baseDirs: seq<string>, audioDirs: seq<string>,
                       relationPick: string -> nat, memoryPick: string -> nat)
    returns (profiles: map<string, Profile>)
    ensures profiles.Keys == persons
    ensures forall p | p in profiles :: profiles[p] == ProfileOf(p, baseDirs, audioDirs, relationPick(p), memoryPick(p))
  {
    profiles := map[];
    var remaining := persons;
    while remaining != {}
      invariant remaining <= persons
      invariant profiles.Keys == persons - remaining
      invariant forall p | p in profiles :: profiles[p] == ProfileOf(p, baseDirs, audioDirs, relationPick(p), memoryPick(p))
      decreases remaining
    {
      var p :| p in remaining;
      var faceSource := if p + "_local" in baseDirs then Some(p + "_local") else None;
      var audioSource := FirstMatchingAudio(audioDirs, p);
      profiles := profiles[p := Profile(faceSource, audioSource, ProfileMetadata(p, relationPick(p), memoryPick(p)))];
      remaining := remaining - {p};
    }
  }

  /**
   * `merge_data`: collects the persons from the face folders and, when the
   * audio directory exists, from the audio folders, then builds one profile
   * per person.
   */
  method Merge(baseDirs: seq<string>, audio: Option<seq<string>>,
               relationPick: string -> nat, memoryPick: string -> nat)
    returns (persons: set<string>, profiles: map<string, Profile>)
    ensures var audioDirs := if audio.Some? then audio.value else [];
      && persons == Persons(baseDirs, audioDirs)
      && profiles.Keys == persons
      && forall p | p in profiles :: profiles[p] == ProfileOf(p, baseDirs, audioDirs, relationPick(p), memoryPick(p))
  {
    var audioDirs: seq<string> := if audio.Some? then audio.value else [];
    persons := AddNames({}, FaceFolders(baseDirs));
    if audio.Some? {
      persons := AddNames(persons, audioDirs);
    }
    profiles := BuildProfiles(persons, baseDirs, audioDirs, relationPick, memoryPick);
  }

  /** Everyone found through an audio folder gets that person's first audio folder as audio source. */
  lemma AudioPersonsHaveAudio(baseDirs: seq<string>, audioDirs: seq<string>, a: string, relationPick: nat, memoryPick: nat)
    requires a in audioDirs
    ensures NormalizeName(a) in Persons(baseDirs, audioDirs)
    ensures ProfileOf(NormalizeName(a), baseDirs, audioDirs, relationPick, memoryPick).audioSource.Some?
  {
  }

  /**
   * A face folder and an audio folder of the same person make one person,
   * whose profile takes its audio from the audio folders.
   */
  lemma SamePersonOnce(baseDirs: seq<string>, audioDirs: seq<string>, f: string, a: string, relationPick: nat, memoryPick: nat)
    requires f in baseDirs && Contains(f, "_local") && a in audioDirs
    requires NormalizeName(f) == NormalizeName(a)
    ensures NormalizeName(f) in Persons(baseDirs, audioDirs)
    ensures ProfileOf(NormalizeName(f), baseDirs, audioDirs, relationPick, memoryPick).audioSource.Some?
  {
    assert f in FaceFolders(baseDirs);
  }
}
