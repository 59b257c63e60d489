/**
 * The metadata enrichment script: every dataset folder's `metadata.json`
 * (or a default when it is missing or unreadable) gets the caregiver-style
 * description of that person as notes and summary, and a relation for the
 * Bachchan and Khan families. Reading and writing the files is modelled by
 * the loaded dictionary (a parameter) and the written one (a result).
 */
module EnrichMetadata {
  import opened Wrappers
  import opened Values
  import opened Strings

  /** The caregiver-style description of each known person, by folder name. */
  const Descriptions: map<string, string> := map[
    "A._R._Rahman" := "He is your favorite musician. You love listening to 'Jai Ho' in the mornings with tea.",
    "Aamir_Khan" := "This is Aamir. You watched 'Lagaan' with him in the theater years ago. He visits occasionally.",
    "Abhishek_Bachchan" := "This is Abhishek, Amitabh's son. You remember him from the tall family next door.",
    "Aishwarya_Rai_Bachchan" := "Aishwarya, the beautiful actress. You always admired her elegance.",
    "Ajay_Devgn" := "Ajay, the serious police officer from that movie you like. He is very reliable.",
    "Akshay_Kumar" := "Akshay, the funny man from the comedy shows. He always makes you laugh.",
    "Amitabh_Bachchan" := "Amitabh, the 'Big B'. You have his poster in your room. A legend.",
    "Anushka_Sharma" := "Anushka, the bubbly girl. Reminds you of your granddaughter.",
    "Deepika_Padukone" := "Deepika, the tall dancer. You sat next to her at the wedding reception.",
    "Emraan_Hashmi" := "Emraan, the actor. You recognize him from the songs on the radio.",
    "Farhan_Akhtar" := "Farhan, the singer. He reminds you of your college days.",
    "Freida_Pinto" := "Freida, she lives abroad now but visits when she can.",
    "Hrithik_Roshan" := "Hrithik, the dancer. You actully met him once at a gym.",
    "Irrfan_Khan" := "Irrfan, such a soulful actor. You miss his movies.",
    "John_Abraham" := "John, the strong boy from the gym. He helps carry heavy things.",
    "Kangana_Ranaut" := "Kangana, the fierce lady. She speaks her mind, just like you.",
    "Kareena_Kapoor" := "Kareena, the fashion icon. You liked her saree at the last function.",
    "Katrina_Kaif" := "Katrina, the gentle girl. She brings you flowers.",
    "Mallika_Sherawat" := "Mallika, the celebrity from the magazines.",
    "Naseeruddin_Shah" := "Naseeruddin, the wise man. You enjoy his poetry readings.",
    "Om_Puri" := "Om Puri, with the deep voice. A grand personality.",
    "Parineeti_Chopra" := "Parineeti, Priyanka's cousin. A cheerful presence.",
    "Pooja_Kumar" := "Pooja, a friend from the south. She cooks great Idli.",
    "Preity_Zinta" := "Preity, the dimpled girl. She used to own that cricket team you watch.",
    "Priyanka_Chopra_Jonas" := "Priyanka, she is famous in America now! Our local pride.",
    "Ranbir_Kapoor" := "Ranbir, the Kapoor boy. Very charming.",
    "Randeep_Hooda" := "Randeep, the rugged actor.",
    "Shah_Rukh_Khan" := "Shah Rukh! The King itself. Your absolute favorite. You never miss his films.",
    "Shahid_Kapoor" := "Shahid, the dancer boy.",
    "Shraddha_Kapoor" := "Shraddha, the singer girl next door acts in movies."
  ]

  /** The data a folder starts with when its `metadata.json` is missing or unreadable. */
  function DefaultData(folder: string): (d: Dict)
    ensures d.Keys == {"name", "relation"}
    ensures d["name"] == Str(ReplaceAll(folder, "_", " ")) && d["relation"] == Str("Acquaintance")
  {
    map["name" := Str(ReplaceAll(folder, "_", " ")), "relation" := Str("Acquaintance")]
  }

  /** The relation a described person gets, if any: Bachchan before Khan. */
  function RelationFor(folder: string): (r: Option<string>)
    ensures Contains(folder, "Bachchan") ==> r == Some("Family Friend")
    ensures !Contains(folder, "Bachchan") && Contains(folder, "Khan") ==> r == Some("Close Friend")
    ensures !Contains(folder, "Bachchan") && !Contains(folder, "Khan") ==> r == None
  {
    if Contains(folder, "Bachchan") then Some("Family Friend")
    else if Contains(folder, "Khan") then Some("Close Friend")
    else None
  }

  /**
   * The enrichment of one folder's data: a described person gets the
   * description as notes and summary and possibly a relation; nothing else
   * changes, and an undescribed person's data is written back as it was.
   */
  function Enrich(folder: string, data: Dict): (r: Dict)
    ensures folder !in Descriptions ==> r == data
    ensures folder in Descriptions ==>
      && r.Keys == data.Keys + {"notes", "summary"} + (if RelationFor(folder).Some? then {"relation"} else {})
      && r["notes"] == Str(Descriptions[folder]) && r["summary"] == Str(Descriptions[folder])
      && (RelationFor(folder).Some? ==> r["relation"] == Str(RelationFor(folder).value))
    ensures forall k | k in data && k !in {"notes", "summary", "relation"} :: k in r && r[k] == data[k]
    ensures RelationFor(folder).None? && "relation" in data ==> r["relation"] == data["relation"]
  {
    if folder !in Descriptions then data
    else
      var described := data["notes" := Str(Descriptions[folder])]["summary" := Str(Descriptions[folder])];
      match RelationFor(folder)
      case None => described
      case Some(rel) => described["relation" := Str(rel)]
  }

  /** One entry of the dataset directory: its name, whether it is a folder, and its parsed `metadata.json`, if any. */
  datatype Entry = Entry(name: string, isDir: bool, loaded: Option<Dict>)

  /** The data written for each folder, in directory order. */
  function Written(entries: seq<Entry>): (w: seq<(string, Dict)>)
    ensures |w| <= |entries|
    ensures forall k :: 0 <= k < |w| ==> exists e :: e in entries && e.isDir && w[k] == (e.name, Enrich(e.name, DataOf(e)))
  ensures |w| == Folders(entries)
  {
    if entries == [] then []
    else
      var init := Written(entries[..|entries| - 1]);
      var e := entries[|entries| - 1];
      assert forall f :: f in entries[..|entries| - 1] ==> f in entries;
      if e.isDir then init + [(e.name, Enrich(e.name, DataOf(e)))]
      else init
  }

  /** The data a folder starts from: its `metadata.json` when it has one, the defaults otherwise. */
  function DataOf(e: Entry): Dict {
    if e.loaded.Some? then e.loaded.value else DefaultData(e.name)
  }

  /** The number of folders among the entries. */
  function Folders(entries: seq<Entry>): nat {
    if entries == [] then 0
    else Folders(entries[..|entries| - 1]) + (if entries[|entries| - 1].isDir then 1 else 0)
  }

  /**
   * `enrich_metadata`: nothing when the dataset directory is missing;
   * otherwise every folder's data is enriched and written, and the count of
   * written profiles is returned.
   */
  method EnrichAll(baseExists: bool, entries: seq<Entry>) returns (written: seq<(string, Dict)>, count: nat)
    ensures !baseExists ==> written == [] && count == 0
    ensures baseExists ==> written == Written(entries) && count == |written|
  {
    written := [];
    count := 0;
    if !baseExists {
      return;
    }
    for i := 0 to |entries|
      invariant written == Written(entries[..i])
      invariant count == |written|
    {
      assert entries[..i + 1][..i] == entries[..i];
      var e := entries[i];
      if e.isDir {
        var data := DefaultData(e.name);
        if e.loaded.Some? {
          data := e.loaded.value;
        }
        if e.name in Descriptions {
          data := data["notes" := Str(Descriptions[e.name])];
          data := data["summary" := Str(Descriptions[e.name])];
          if Contains(e.name, "Bachchan") {
            data := data["relation" := Str("Family Friend")];
          } else if Contains(e.name, "Khan") {
            data := data["relation" := Str("Close Friend")];
          }
        }
        written := written + [(e.name, data)];
        count := count + 1;
      }
    }
    assert entries[..|entries|] == entries;
  }

  /**
   * Profiles are written in listing order: the folder at position `i` has its
   * enriched profile at the position counting the folders before it.
   */
  lemma WrittenInListingOrder(entries: seq<Entry>)
    ensures forall i | 0 <= i < |entries| && entries[i].isDir ::
      Folders(entries[..i]) < |Written(entries)| &&
      Written(entries)[Folders(entries[..i])] == (entries[i].name, Enrich(entries[i].name, DataOf(entries[i])))
  {
    forall i | 0 <= i < |entries| && entries[i].isDir
      ensures Folders(entries[..i]) < |Written(entries)| &&
        Written(entries)[Folders(entries[..i])] == (entries[i].name, Enrich(entries[i].name, DataOf(entries[i])))
    {
      WrittenAt(entries, i);
    }
  }

  /** The profile written for the folder at position `i`. */
  lemma {:induction false} WrittenAt(entries: seq<Entry>, i: nat)
    requires i < |entries| && entries[i].isDir
    ensures Folders(entries[..i]) < |Written(entries)|
    ensures Written(entries)[Folders(entries[..i])] == (entries[i].name, Enrich(entries[i].name, DataOf(entries[i])))
  {
    var front := entries[..|entries| - 1];
    if i == |entries| - 1 {
      assert entries[..i] == front;
    } else {
      WrittenAt(front, i);
      assert front[..i] == entries[..i];
      assert front[i] == entries[i];
    }
  }

  /**
   * The k-th written profile is the enriched profile of the folder at
   * position `i`, which has k folders before it.
   */
  ghost predicate WrittenFor(entries: seq<Entry>, k: int, i: int) {
    && 0 <= i < |entries| && entries[i].isDir && Folders(entries[..i]) == k
    && 0 <= k < |Written(entries)|
    && Written(entries)[k] == (entries[i].name, Enrich(entries[i].name, DataOf(entries[i])))
  }

  /**
   * Every written profile belongs to one folder of the listing: the position
   * of the folder whose profile is the k-th one written.
   */
  ghost function FolderOf(entries: seq<Entry>, k: nat): (i: nat)
    requires k < |Written(entries)|
    ensures WrittenFor(entries, k, i)
  {
    var front := entries[..|entries| - 1];
    if k < |Written(front)| then
      var i := FolderOf(front, k);
      assert front[..i] == entries[..i];
      assert front[i] == entries[i];
      i
    else
      assert entries[..|entries| - 1] == front;
      |entries| - 1
  }

  /** Enriching twice is the same as enriching once. */
  lemma EnrichIdempotent(folder: string, data: Dict)
    ensures Enrich(folder, Enrich(folder, data)) == Enrich(folder, data)
  {
  }

  /** A described Bachchan is a family friend even when the name also contains "Khan". */
  lemma BachchanBeforeKhan(folder: string, data: Dict)
    requires Contains(folder, "Bachchan") && Contains(folder, "Khan")
    ensures folder in Descriptions ==> Enrich(folder, data)["relation"] == Str("Family Friend")
  {
  }
}
