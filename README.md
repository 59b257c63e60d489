# Memory matching engine of a dementia-care assistant

This project models the memory core of an assistant that helps a person with
dementia recognise the people and objects around them. The system stores face
and object embeddings in a vector database with three collections: `faces`,
`objects` and `patients`. Each record carries a metadata payload: name,
relation, notes, timestamp, image and so on.

The model covers these parts:

- **The memory service.** It creates the collections lazily and enrolls
  records with a fresh id and a timestamp. It searches faces across two
  collections and objects in one, and it runs a fuzzy text matcher over
  everything stored.
- **The HTTP endpoints' decisions.** A face is accepted when its score is above
  0.4, an object when its score is above 0.6. The metadata an enrollment
  stores has defaults. When no object matches, the most confident detection
  is learned as a new object ("learn-on-miss").
- **The single-slot conversation context.**
- **The offline reply and the memory summary** handed to the language model.
- **The database URL** taken from the settings.
- **Two dataset scripts:** one merges face and audio folders into one folder
  per person; the other writes caregiver-style descriptions into each
  person's metadata.

The database is a value of type `Store`: a map from collection name to a
vector size and a sequence of points. The service is a class whose fields are
that store and the next free point id. Each operation of the service is a
method, and each method is proved against the functions that specify it:
`WithCollections`, `Append`, `FaceMatches`, `Query` and `TextMatches`.

Things the model takes as parameters:

- Similarity scores and `difflib` ratios are uninterpreted functions.
- Embeddings, detections, encoded images, avatar urls and clock readings are
  inputs.
- Fuzzy-match weights are counted in tenths: 10/8/5/8/10, with cutoff 4. This
  makes them exact integers.

Files:

- **Shared modules.**
  - `wrappers.dfy`: `Option` and `Result`.
  - `values.dfy`: JSON-like payload values, truthiness, `dict.get`, and
    f-string rendering.
  - `strings.dfy`: Python's string builtins. `Contains` is `needle in hay`;
    `IndexOf` is `str.find`, with `None` for -1. `ReplaceAll` is
    `str.replace`, `Lower` is `str.lower` and `Words` is `str.split()` with
    no argument. `LexLeq` is the `<=` that `sort` uses on strings.
  - `sorting.dfy`: a stable sort, proved sorted, a permutation, and
    order-preserving on ties.
- **Memory service.**
  - `vector_store.dfy`: the database calls.
  - `fuzzy_text.dfy`: the text matcher.
  - `memory_service.dfy`: the service class.
- **`endpoints.dfy`:** the endpoint decisions.
- **The smaller services and scripts.** `conversation_service.dfy`,
  `llm_service.dfy`, `config.dfy`, `merge_data.dfy` and `enrich_metadata.dfy`.

## Model

| member | source | states |
|---|---|---|
| VectorStore.EnsureCollection | app/services/memory_service.py:19-27 | a missing collection is created empty, cosine, with the given size; existing collections are kept as they are |
| VectorStore.DeleteCollection | scripts/reset_objects.py:7 | the collection and all its points are gone; every other collection is unchanged |
| VectorStore.Append | app/services/memory_service.py:51-55 | an upsert of a new point adds it at the end of its collection; size, distance and every other collection are unchanged |
| VectorStore.AppendKeepsInvariant | app/services/memory_service.py:47-56 | inserting a point with a fresh id and the collection's vector size keeps all ids unique and all vectors the right size; the id set grows by exactly that id |
| VectorStore.ScoreOrder | app/services/memory_service.py:77 | ordering hits by score is a total preorder |
| VectorStore.TakeSortedIsTop | app/services/memory_service.py:73-74 | the first `limit` hits of the stably sorted list are a best-first selection: sorted, drawn from the candidates, and no candidate left out outscores one kept |
| VectorStore.Query | app/services/memory_service.py:91-97 | a search succeeds exactly when the collection exists and the query has its vector size; the result is the best `min(limit, n)` points by similarity, best first |
| VectorStore.Scroll | app/services/memory_service.py:105 | a scroll succeeds exactly when the collection exists and yields the first `limit` stored points |
| Sorting.StableSort | app/services/memory_service.py:77 | sorting keeps the length and is a permutation of the input |
| Sorting.StableSortSorted | app/services/memory_service.py:77 | the sorted list is ordered by the key, descending |
| Sorting.StableSortStable | app/services/memory_service.py:77 | the sort is stable: the elements tied with any value keep their input order |
| Sorting.TiesAppend | app/services/memory_service.py:76 | the ties of a concatenation are the ties of the first part followed by those of the second |
| Memory.WithCollections | app/services/memory_service.py:19-45 | after ensuring the collections, `faces` (512), `objects` (1280) and `patients` (512) exist; a missing one is empty and cosine, and an existing one is untouched |
| Memory.WithCollectionsIdempotent | app/services/memory_service.py:19-45 | ensuring the collections twice is the same as once |
| Memory.ResetEmptiesOnlyThatCollection | scripts/reset_objects.py:4-14 | deleting one collection and ensuring again leaves it empty with its configured size and every other collection as it was |
| Memory.Stamped | app/services/memory_service.py:50 | a timestamp is added only when the metadata has none; a caller's timestamp and every other entry are kept |
| Memory.StoredPayload | app/services/memory_service.py:53 | the payload holds the id key and every metadata entry, and a metadata entry with the same key overrides the id |
| Memory.Ranked | app/services/memory_service.py:76-77 | the merged hits are sorted by score descending and are a permutation of the input |
| Memory.FaceMatches | app/services/memory_service.py:70-78 | a face search succeeds exactly when both `faces` and `patients` accept the query; it returns the top `limit` hits of the two result lists merged: `min(limit, n)` of them, sorted by score, a sub-multiset of the merged list, no dropped hit scoring above a kept one, the first outscoring every hit of both |
| Memory.RankedTop | app/services/memory_service.py:76-78 | the truncated ranking is drawn from the merged list, its first hit is a best one, and it is the top `limit` hits of the merged list (`TopHits`) |
| Memory.FacesBeforePatientsOnTies | app/services/memory_service.py:76-77 | among hits of equal score, every `faces` hit precedes every `patients` hit, each list in its own order |
| Memory.MemoryService.constructor | app/services/memory_service.py:7-17 | the service starts on the given database, with the collections ensured |
| Memory.MemoryService.EnsureCollections | app/services/memory_service.py:19-45 | the store becomes `WithCollections` of the old one; the id counter and the store invariant are kept |
| Memory.MemoryService.DeleteCollection | scripts/reset_objects.py:7 | the store loses the named collection and nothing else |
| Memory.MemoryService.Insert | app/services/memory_service.py:47-56 | stamps the caller's metadata in place and succeeds exactly when the collection accepts the vector; on success it returns a fresh id and appends one point to the named collection and nowhere else; on failure the store is unchanged |
| Memory.MemoryService.StoreFaceMemory | app/services/memory_service.py:47-56 | one new point with a fresh id in `faces`, with payload `person_id` plus the stamped metadata; other collections unchanged |
| Memory.MemoryService.StorePatientMemory | app/services/memory_service.py:58-68 | the same, into `patients` |
| Memory.MemoryService.StoreObjectMemory | app/services/memory_service.py:80-89 | the same, into `objects`, keyed by `object_id` |
| Memory.MemoryService.SearchFace | app/services/memory_service.py:70-78 | the result is `FaceMatches` of the current store |
| Memory.MemoryService.SearchObject | app/services/memory_service.py:91-97 | the result is the best `limit` points of `objects` |
| Memory.ScrollAll | app/services/memory_service.py:102-107 | the points gathered are those of faces, objects and patients in that order, up to 500 each, a missing collection contributing none |
| Memory.ScanFuzzy | app/services/memory_service.py:111-138 | the scan fails exactly when some record makes it raise; otherwise it ends with the best score over all records and the records tied at it above the cutoff, in scan order |
| Memory.MemoryService.SearchByText | app/services/memory_service.py:99-147 | the loop's result is `TextMatches` of the points scrolled from the three collections and the lower-cased query |
| FuzzyText.TextField | app/services/memory_service.py:116-118 | a missing or falsy field reads as empty, a string is lower-cased, and a truthy non-string makes the scan fail |
| FuzzyText.CloseWords | app/services/memory_service.py:125-129 | the count is the number of query words longer than two characters whose ratio to the name is above 0.7 |
| FuzzyText.Score | app/services/memory_service.py:120-132 | every score is 0 or above the cutoff; a name inside the query or a close whole query earns at least the name weight |
| FuzzyText.ShortQueryNoNameBonus | app/services/memory_service.py:120-132 | a query shorter than the stored name (a first name against a full name) never earns the name bonus: its score is the relation, notes, close-word and whole-query parts only |
| FuzzyText.ScanPoint | app/services/memory_service.py:115-132 | a scored point's score is 0 or above the cutoff |
| FuzzyText.MaxScore | app/services/memory_service.py:134-136 | the running maximum bounds every score seen |
| FuzzyText.MaxScoreAttained | app/services/memory_service.py:134-136 | unless it is 0, the running maximum is the score of some scanned record |
| FuzzyText.Leaders | app/services/memory_service.py:134-138 | the candidates are exactly the scanned points with the given score, in scan order |
| FuzzyText.LeadersAboveMax | app/services/memory_service.py:134-136 | no point ties a score above the running maximum, which is why a new maximum starts a fresh candidate list |
| FuzzyText.ScanStep | app/services/memory_service.py:114-138 | scanning one more point updates the failure flag, the maximum and the candidates as the loop does |
| FuzzyText.ScanSkipped | app/services/memory_service.py:115 | a point with an empty payload leaves the running state unchanged |
| FuzzyText.ScanScored | app/services/memory_service.py:134-138 | replacing the candidates by the point on a higher score, appending it on an equal score above the cutoff, and otherwise changing nothing, keeps the running state exact for one more record |
| FuzzyText.KeysOf | app/services/memory_service.py:141 | each candidate is paired with its timestamp key; the pairing fails exactly when some candidate's timestamp is not a string |
| FuzzyText.NewestFirstOrder | app/services/memory_service.py:141 | ordering by timestamp, newest first, is a total preorder |
| FuzzyText.NewestFirst | app/services/memory_service.py:141-142 | min(5, n) records ordered newest first, each candidate kept at most once, and no candidate left out is newer than one kept |
| FuzzyText.TakeFromSorted | app/services/memory_service.py:141-142 | cutting the sorted candidates keeps the newest-first order and draws only from the candidates |
| FuzzyText.TextMatches | app/services/memory_service.py:99-147 | a non-empty result means no failure and a best score above the cutoff; every record returned scores that best, each at most once, newest first; none left out is newer than one kept; and with no failure, a best above the cutoff and string timestamps, min(5, number tied) records come back |
| FuzzyText.MatchFound | app/services/memory_service.py:114-142 | a record scoring above the cutoff, a scan that does not raise and string timestamps everywhere mean the search returns something |
| FuzzyText.PointsOfPermutation | app/services/memory_service.py:141 | sorting the keyed candidates reorders their records and neither adds nor loses any |
| FuzzyText.NewestKept | app/services/memory_service.py:141-142 | cutting the sorted candidates at five keeps each at most once and drops none newer than one kept |
| FuzzyText.AllLeadersReturned | app/services/memory_service.py:140-142 | when at most five records tie at the best score, all of them are returned |
| FuzzyText.NewestFirstKeepsAll | app/services/memory_service.py:141-142 | sorting and cutting at most five candidates drops none |
| FuzzyText.NoMatchNoResult | app/services/memory_service.py:140-143 | when no record scores anything, the result is empty |
| FuzzyText.NothingScoredMaxZero | app/services/memory_service.py:113-138 | when no record scores anything, the running maximum stays 0 |
| Endpoints.PersonDecision | app/api/endpoints.py:62-92 | `identified` exactly when there is a top match scoring above 0.4, reporting its score; name and relation default to "Unknown", notes to "", id, image and audio to None |
| Endpoints.RecognizePerson | app/api/endpoints.py:54-95 | an empty embedding gives `no_face_detected` without searching; otherwise the decision on the two-collection face search, and a failed search is an error |
| Endpoints.IdentifiedIsBestFace | app/api/endpoints.py:60-65 | an identified person's confidence is above 0.4, and no stored face or patient contact scores higher |
| Endpoints.TopHitsBelowBest | app/services/memory_service.py:70-78 | the first of a best-first selection outscores every candidate |
| Endpoints.EmptyMemoryRecognisesNobody | app/api/endpoints.py:60-92 | with nothing enrolled, a face is `unknown` |
| Endpoints.PersonId | app/api/endpoints.py:164 | the person id is the name with spaces replaced by underscores: same length, no spaces left |
| Endpoints.PersonNotes | app/api/endpoints.py:156 | empty or missing notes become "This is {name}, your {relation}." |
| Endpoints.EnrollmentMetadata | app/api/endpoints.py:151-161 | the stored keys are exactly name, relation, age, type, notes, image and avatar, plus the voice sample only when it is non-empty |
| Endpoints.RememberPerson | app/api/endpoints.py:137-171 | no face: an error reply and nothing stored; otherwise exactly one "person" point in `faces` keyed by the underscored name, and a `stored` reply |
| Endpoints.RememberPatient | app/api/endpoints.py:212-244 | the same, into `patients` with type "patient_contact" |
| Endpoints.ObjectMetadata | app/api/endpoints.py:276-281 | an object's metadata has name, type "object", notes defaulting to "This is your {name}.", and the image |
| Endpoints.RememberObject | app/api/endpoints.py:267-287 | exactly one object point with the given object id is appended, with no empty-embedding check; a refused vector changes nothing |
| Endpoints.MatchReply | app/api/endpoints.py:314-333 | an accepted object is reported with its score; name and location default to "Unknown", notes to "", image to None |
| Endpoints.BestDetection | app/api/endpoints.py:341 | the chosen detection has the highest confidence, and no earlier detection ties it |
| Endpoints.LearnedMetadata | app/api/endpoints.py:357-368 | a learned object is named by its label, with the auto-enrolled notes and the "Last seen at" location |
| Endpoints.FindObject | app/api/endpoints.py:303-386 | an accepted match (score above 0.6) is reported with the store unchanged; otherwise, with detections, exactly one learned point with the query's embedding is appended and reported with the detection's confidence, and this insert never fails; otherwise `unknown` with the store unchanged |
| Endpoints.AcceptedIsBestObject | app/api/endpoints.py:313-330 | an accepted object's confidence is above 0.6, and no stored object scores higher |
| Endpoints.EmptyObjectsNeverAccepted | app/api/endpoints.py:313 | with no stored objects the search never accepts |
| Conversation.ConversationService.constructor | app/services/conversation_service.py:3-4 | a fresh service holds an empty context |
| Conversation.ConversationService.UpdateContext | app/services/conversation_service.py:8-9 | the slot holds exactly the given dictionary; nothing is merged |
| Conversation.ConversationService.GetContext | app/services/conversation_service.py:11-12 | returns the slot's dictionary and changes nothing |
| Conversation.ConversationService.ClearContext | app/services/conversation_service.py:14-15 | the slot holds a new empty dictionary |
| Conversation.Session | app/services/conversation_service.py:2-15 | reads after updates see exactly the latest context, no key of an earlier one survives, and after a clear the context is empty |
| Conversation.SharedWithCaller | app/services/conversation_service.py:8-12 | the slot shares the caller's dictionary, so the caller's later writes are seen |
| Llm.FallbackResponse | app/services/llm_service.py:73-79 | "I am listening." exactly when the context is missing or empty; otherwise "That is {name}. {notes}", with name defaulting to "them" and notes to "" |
| Llm.ContextString | app/services/llm_service.py:45-53 | "No specific memory found." exactly when the context is missing or empty; otherwise the six fields in order, each with its default |
| Llm.ContextDefaults | app/services/llm_service.py:47-53 | a context naming none of the fields reads Unknown, Unspecified, "", "", False, False |
| Llm.Messages | app/services/llm_service.py:55-58 | two messages: the fixed system prompt, then "Context: " + the memory summary + a blank line + "User: " + the user's words |
| Llm.InitialClient | app/services/llm_service.py:6-18 | there is a client exactly when a non-empty key is configured or in the environment and creating the client succeeds |
| Llm.GenerateResponse | app/services/llm_service.py:20-71 | with no client, or when the provider fails, the fallback reply; otherwise the provider's answer |
| Llm.UserTextReachesModel | app/services/llm_service.py:55-58 | different user words give different requests to the model |
| Llm.FailureMatchesOffline | app/services/llm_service.py:69-71 | a failing provider gives the same reply as no client |
| Llm.OfflineListening | app/services/llm_service.py:24-26 | offline, the reply is "I am listening." exactly when there is no context |
| Config.QdrantUrl | app/core/config.py:17-20 | a non-empty configured url is returned verbatim; otherwise "http://{host}:{port}" |
| Config.DefaultUrl | app/core/config.py:8-20 | with the defaults the url is "http://localhost:6333" |
| Config.UrlOverridesHostAndPort | app/core/config.py:18-19 | once a url is set, host and port make no difference |
| Config.PortReadBack | app/core/config.py:20 | without a url, the digits after the last ':' parse back to the port |
| MergeData.NormalizeName | scripts/merge_data.py:27-32 | the result is the name without "_local", cut where an "_id" starts or whole: it never contains "_id", is a prefix that is either the whole name or followed by "_id", and equals the input when it has neither marker |
| MergeData.NoEarlierOccurrence | scripts/merge_data.py:30-31 | the text before the first "_id" contains none |
| MergeData.FaceFolders | scripts/merge_data.py:41 | the face folders are exactly the directories whose names contain "_local" |
| MergeData.FirstMatch | scripts/merge_data.py:76-78 | the first position whose folder normalises to the person, or the end when there is none |
| MergeData.FirstMatchingAudio | scripts/merge_data.py:76-78 | the audio source is the first audio folder of that person, and there is none exactly when no folder matches |
| MergeData.ProfileMetadata | scripts/merge_data.py:84-93 | the generated metadata has name = folder name with spaces, id = folder name, a relation and a summary from the fixed lists, and the fixed context |
| MergeData.NamesOf | scripts/merge_data.py:42-43 | every folder's normalised name is among the collected names |
| MergeData.NamesOfOnlyFolders | scripts/merge_data.py:42-49 | every collected name is the normalised name of one of the folders |
| MergeData.AddNames | scripts/merge_data.py:42-49 | adding the folders one by one yields the names already held plus the names of all the folders |
| MergeData.BuildProfiles | scripts/merge_data.py:57-93 | there is exactly one profile per person, each with its face folder, its first matching audio folder and its generated metadata |
| MergeData.Merge | scripts/merge_data.py:34-97 | the persons are the deduplicated normalised names of the face folders and, when the audio directory exists, of the audio folders; each person gets exactly their profile |
| MergeData.AudioPersonsHaveAudio | scripts/merge_data.py:46-81 | everyone found through an audio folder is a person with an audio source |
| MergeData.SamePersonOnce | scripts/merge_data.py:38-78 | a face folder and an audio folder of the same person make one person, whose audio comes from the audio folders |
| EnrichMetadata.DefaultData | scripts/enrich_metadata.py:53 | without readable metadata, the name is the folder name with spaces and the relation is "Acquaintance" |
| EnrichMetadata.RelationFor | scripts/enrich_metadata.py:66-69 | Bachchan gives "Family Friend" before Khan gives "Close Friend"; otherwise nothing |
| EnrichMetadata.Enrich | scripts/enrich_metadata.py:61-69 | a described folder gets its description as notes and summary, plus the family relation; an undescribed one is unchanged; other keys are never altered |
| EnrichMetadata.Written | scripts/enrich_metadata.py:47-74 | as many profiles are written as there are folders, and each written profile is a folder's loaded or default data, enriched, under that folder's name |
| EnrichMetadata.WrittenAt | scripts/enrich_metadata.py:47-74 | the folder at position `i` has its enriched loaded-or-default profile written at the position that counts the folders listed before it |
| EnrichMetadata.WrittenInListingOrder | scripts/enrich_metadata.py:47-74 | every folder's profile is written, in listing order: the folder at position `i` at the position counting the folders before it |
| EnrichMetadata.EnrichAll | scripts/enrich_metadata.py:41-76 | nothing without the dataset directory; otherwise every folder's enriched data in directory order, and the count equals the number written |
| EnrichMetadata.FolderOf | scripts/enrich_metadata.py:47-74 | every written profile is the enriched profile of one folder, the one with as many folders before it as the profile's position; with `WrittenAt` and the count in `Written`, exactly one profile is written per folder |
| EnrichMetadata.EnrichIdempotent | scripts/enrich_metadata.py:61-69 | enriching twice equals enriching once |
| EnrichMetadata.BachchanBeforeKhan | scripts/enrich_metadata.py:66-69 | a described name containing both "Bachchan" and "Khan" becomes a family friend |

## Left out

- **I/O is not modelled.** This covers file uploads, temporary and enrolled
  files, the thumbnail and base64 encoders, the avatar service, the embedding
  and detection models, and copying files during the merge. Their results
  enter as parameters: embedding, detections, encoded image, avatar url, audio
  sample, directory listings and parsed `metadata.json`.
  - An empty embedding stands for "no face found".
  - The merge's filtering of copied files by suffix is not modelled.
  - Only the face and audio source folder of each person is recorded.
- **Ids and clocks.** Point ids are a counter (`nextId`), not uuid4 strings,
  so freshness can be stated. The `object_id` uuid is a parameter. The
  timestamp, `now`, and the "%I:%M %p" clock text, `clock`, are parameters.
- **Floating point is not modelled.** Similarity and `difflib` ratios are
  uninterpreted functions. Fuzzy scores are integer tenths, so the float sums
  of the source are not reproduced bit for bit; the comparisons on sums such
  as 0.8 + 0.5 are taken as exact.
- **Python string handling.** `lower()` and `split()` are modelled on ASCII
  only. Rendering a nested dictionary inside an f-string gives a fixed
  placeholder, not Python's `repr`.
- **The database as modelled.**
  - The database's tie order is not specified. The model breaks ties by stored
    order, using a stable sort.
  - Scroll returns the first points in insertion order.
  - Connection and transport errors are not modelled. Only a missing
    collection and a wrong vector size make a call fail.
  - `search_face`'s `limit` is a natural number. A negative Python slice bound
    is not modelled.
- FuzzyText.TimestampKey: any non-string timestamp among the candidates
  makes the text search return nothing. Python would still return matches in
  two such cases: a single candidate, which the sort never compares; and
  candidates whose timestamps are all non-strings that compare with each
  other, such as all integers.
- MaxScore: the function's own contract gives only the upper bound. That
  the bound is reached is the separate lemma `FuzzyText.MaxScoreAttained`,
  because an existential in the contract of a recursive function weighs on
  every proof that uses it.
- **`json.load` output.** A `metadata.json` whose top level is not an object
  is not modelled: the loaded value is a dictionary or nothing.
- **Language-model call.** The provider call is a function that answers or
  fails (`Llm.Client`). The model name, temperature and token limit are not
  modelled, and neither is a `None` content.
- **Debug printing and text-to-speech messages** are built but unused, so they
  are not modelled.
- **Concurrency is not modelled.** This includes background tasks and the race
  between two learn-on-miss requests.
- **Insert failures surface as errors.** A failing insert in the enrollment
  endpoints becomes an HTTP 500, and so does one in learn-on-miss: the
  `try` around `find_object` (app/api/endpoints.py:299) has only a
  `finally`. The model
  returns the failure as `Err`. It also proves that this insert cannot fail
  once the object search has succeeded.
- **A first name is not a name match.** `search_by_text` tests whether the
  stored name is inside the query (app/services/memory_service.py:121), so
  a query such as "emraan" never earns the name bonus for "Emraan Hashmi"
  (`FuzzyText.ShortQueryNoNameBonus`). Such a query can still match in two
  ways. It can be inside the record's notes (line 123), as it is in the
  descriptions the enrichment script writes. Or the `difflib` ratios can
  match it.
