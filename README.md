# Document-control lookup service: verified model of its core

The service answers questions about controlled documents for manufactured
parts. A part's record lives in one of three collections: package,
manufacturing or component. The service does two main things.

First, it tells which parts cite a given document number: a setup sheet,
a set of manufacturing instructions, a quality specification or a
post-sterilization sheet. The answer comes with a label that says whether
a component record was among the hits.

Second, it builds a part's "bundle". The bundle holds a fresh sixteen-character
password, password-protected sharing links to the part's documents on a
file server, and text-only entries. Every link handed out is recorded in a
tracking document. A sweep, run at start-up and at shutdown, revokes the
tracked links whose thirty-minute lifetime is over.

The model covers all of `main.py`'s core logic:

- **Password.** Password generation.
- **Records.** The record lookups.
- **WhereUsed.** The where-used query.
- **Text.** The string steps these use: `replace`, `strip`, `upper`,
  `split("/")[-1]` and the case-insensitive search.
- **FileStore.** The file server, as a class that holds a folder listing
  and records the shares it creates and the ids it deletes.
- **Tracker.** The tracking document, as a class with the push and the
  sweep.
- **Finders.** The three finders that locate a file and share it.
- **Bundle.** The bundle assembly.

Randomness and the clock are parameters. The password generator takes its
sixteen draws from the alphabet as input. Each operation takes the current
time `now`, in minutes.

## Model

| member | source | states |
|---|---|---|
| Password.RandomizedPassword | main.py:17-21 | one character per draw, each an ASCII letter or digit; sixteen draws give a valid sixteen-character password |
| Password.PasswordReachable | main.py:17-21 | every sixteen-character alphanumeric string is the password of some sequence of sixteen draws, so the generator can produce any of them |
| Records.Find | main.py:191-201 | a regex query returns only records whose field matches the pattern, and no more records than the collection holds |
| Records.FindSelects | main.py:191-201 | a query returns every matching record as many times as the collection holds it, and no non-matching record |
| Records.FindOne | main.py:344-353 | `find_one` by part gives nothing exactly when no record has that part, and otherwise a record of the collection with that part |
| Records.GetDetails | main.py:343-357 | looks in the package, then manufacturing, then component collection. It returns nothing exactly when none holds the part. Otherwise it returns the first record with that part in the first collection that has one, tagged with that collection. A later collection is used only when every earlier one lacks the part |
| WhereUsed.Normalize | main.py:157 | the normalised document number has no space and no surrounding whitespace, has no lower-case letter, and is no longer than the input |
| WhereUsed.NormalizeViaUpper | main.py:157 | upper-casing commutes with space removal and stripping: normalising equals upper-casing first |
| WhereUsed.NormalizeIgnoresCase | main.py:157 | numbers equal up to letter case normalise alike |
| WhereUsed.NormalizeIgnoresSpace | main.py:157 | a space inserted anywhere does not change the normal form |
| WhereUsed.NormalizeIgnoresPadding | main.py:157 | whitespace added at either end does not change the normal form |
| WhereUsed.NormalizeTrimmed | main.py:157 | a number with no space and no surrounding whitespace is only upper-cased: every character is kept, in order |
| WhereUsed.SearchFields | main.py:173-185 | the searched fields start with the token itself. `mi_id` and `pss_id` search only themselves. A second field is added exactly for the two setup-sheet spellings and the two specification spellings, and it is the token's other spelling |
| WhereUsed.AliasSymmetric | main.py:177-185 | among the accepted tokens, `a` searches `b` exactly when `b` searches `a` |
| WhereUsed.InvalidTypeRejected | main.py:159-171 | the answer is the invalid-type error exactly when the token is not one of the six accepted tokens (the list has eight entries, two of them repeated) |
| WhereUsed.ShowWhereUsed | main.py:156-207 | the imperative query loop returns exactly the resolution of the document number: the error, or the parts found and the label |
| WhereUsed.SearchAll | main.py:187-202 | the loop collects, field by field, the package, manufacturing and component hits in that order, and the flag after it is the flag set by the component cursors |
| WhereUsed.HitsPair | main.py:190-202 | a two-field search collects the first field's hits, then the second's |
| WhereUsed.PartsOfAppend | main.py:204-205 | the part list of concatenated hits is the concatenation of their part lists |
| WhereUsed.PairResolution | main.py:173-205 | a token with an alias lists the parts of its own field's hits, then the alias's |
| WhereUsed.AliasPairsAgree | main.py:173-205 | the two spellings of an aliased field both succeed, list the same parts (each spelling's own field first) and give the same label |
| WhereUsed.ResolveSeesNormalForm | main.py:156-157 | two document numbers with the same normal form get the same answer |
| WhereUsed.ResolveIgnoresCase | main.py:156-157 | numbers equal up to letter case get the same answer |
| WhereUsed.ResolveIgnoresSpace | main.py:156-157 | a space inserted anywhere in the number does not change the answer |
| WhereUsed.ResolveIgnoresPadding | main.py:156-157 | whitespace around the number does not change the answer |
| WhereUsed.HitsEmptyIff | main.py:187-204 | the collected hits are empty exactly when every field's query returned nothing |
| WhereUsed.EmptyResult | main.py:204-207 | an accepted token yields the empty answer without a label exactly when every searched field's queries returned nothing |
| WhereUsed.NoDeduplication | main.py:173-205 | a package record that cites the number under both spellings of the setup-sheet field is listed twice |
| WhereUsed.PartListed | main.py:190-205 | a package record the query selects appears in that field's part list |
| WhereUsed.ComponentFlagAlwaysSet | main.py:188-202 | because a cursor is always true, the component flag is set after any search with at least one field |
| WhereUsed.LabelAsWritten | main.py:204-207 | as written, the label is absent exactly when no part is found, and "QAS-R" whenever a part is found |
| WhereUsed.IntendedFlagIff | main.py:199-202 | the intended flag holds exactly when some component query returned a record |
| WhereUsed.IntendedLabelClassifies | main.py:199-205 | the intended label is "QAS-R" exactly when a component record matched, and "QAS" exactly when records matched but none from components |
| WhereUsed.ComponentFreeHitLabelledQasR | main.py:191-205 | when records match but no component record matches under the searched fields, the code's label is "QAS-R" while the intended label is "QAS" |
| WhereUsed.PackageOnlyHitLabelledQasR | main.py:191-205 | one package record citing the number and no component record: the code says "QAS-R", the intended label is "QAS" |
| Text.RemoveSpaces | main.py:157 | the result has no space, is no longer than the input, and holds every other character exactly as often as the input does |
| Text.LStrip | main.py:157 | the result is a suffix of the input that does not start with whitespace, and the prefix removed is all whitespace |
| Text.RStrip | main.py:157 | the result is a prefix of the input that does not end with whitespace, and the suffix removed is all whitespace |
| Text.StripBounds | main.py:157 | stripping leaves no whitespace at either end and only characters of the input |
| Text.StripCuts | main.py:157 | stripping cuts one run of whitespace from the start and another from the end, and keeps everything between |
| Text.StripTrimmed | main.py:157 | text without surrounding whitespace is left as it is by stripping |
| Text.RemoveSpacesNoSpace | main.py:157 | text without spaces is left as it is by space removal |
| Text.UpperKeeps | main.py:157 | upper-casing leaves no lower-case letter, keeps whitespace where it was, and creates no space |
| Text.UpperChars | main.py:157 | upper-casing keeps the length, maps each lower-case letter 32 code points down to its capital, and keeps every other character |
| Text.UpperIdempotent | main.py:157 | upper-casing twice is upper-casing once |
| Text.RemoveSpacesAppend | main.py:157 | removing spaces distributes over concatenation |
| Text.StripIgnoresPadding | main.py:157 | stripping ignores whitespace added at either end |
| Text.StripPortAppendPath | main.py:282 | removing the port token from a host followed by a colon-free path leaves the path untouched |
| Text.StripPortNoColon | main.py:282 | text with no colon is unchanged by port removal |
| Text.StripPortIdentity | main.py:282 | text with no occurrence of the port token is unchanged by port removal |
| Text.StripPortAfterHost | main.py:282 | a host that holds no port token, even one with a scheme's colon, followed by the port token and a colon-free path, loses exactly the port token |
| Text.LastSegmentSuffix | main.py:77 | the last segment is a suffix with no slash in it |
| Text.LastSegmentAfterItsSlash | main.py:77 | a last segment shorter than the text is preceded by a slash |
| Text.LastSegmentAfterSlash | main.py:77 | the last segment of `prefix + "/" + id` is `id` when `id` has no slash |
| FileStore.Store.CreateSharingLink | main.py:278-282 | a new share for the path, password and expiry is appended and its URL returned; nothing is deleted |
| FileStore.Store.DeleteSharedLink | main.py:79 | the id is appended to the deleted ids; the shares are unchanged |
| Tracker.DeleteSharedLink | main.py:74-79 | the server is asked to delete the last path segment of the link, and nothing else changes |
| Tracker.LinkTracker.UpdateLinkTracker | main.py:63-71 | when the tracking document exists, one entry is pushed with the link, the password and an expiry thirty minutes on; otherwise nothing changes |
| Tracker.LinkTracker.LoopOverLinks | main.py:82-113 | when the tracking document exists, it keeps exactly the live entries in order, and the ids of exactly the expired ones are deleted in order. Otherwise nothing changes. Shares are never created |
| Tracker.SweepPartitions | main.py:107-111 | every entry is kept or revoked and none is both (as multisets and in count) |
| Tracker.SurvivorsExactly | main.py:107-111 | an entry is kept exactly when its expiry is after now, and revoked exactly when it is at or before now |
| Tracker.SweepBounds | main.py:107-111 | every kept entry expires after now and every revoked one at or before it |
| Tracker.SweepAppend | main.py:97-111 | a sweep keeps order: the sweep of a concatenation is the concatenation of the sweeps |
| Tracker.SweepIdempotent | main.py:82-113 | a second sweep at the same time keeps everything and revokes nothing |
| Tracker.AllLiveKept | main.py:107-108 | when every entry is live, the sweep keeps all and revokes none |
| Tracker.SweepLater | main.py:82-113 | sweeping at t1 and then at a later t2 keeps what one sweep at t2 keeps |
| Tracker.TrackedLifetime | main.py:63-113 | an entry pushed at t survives every sweep before t + 30 and is revoked by a sweep at or after it |
| Tracker.SweptIdIsIssuedId | main.py:77 | the id the sweep deletes for a handed-out link is the id the server gave that share |
| Finders.FirstMatch | main.py:330-331 | a hit is an entry of the folder whose name the matcher accepts |
| Finders.FirstMatchNone | main.py:330-340 | there is no hit exactly when the matcher accepts no entry |
| Finders.FirstMatchIsFirst | main.py:330-340 | a hit is the first accepted entry: every earlier entry is rejected |
| Finders.EmptyPatternSharesFirstEntry | main.py:330-331 | an empty pattern matches the first entry of a non-empty folder |
| Finders.FirstInSubfolders | main.py:269-274 | a hit in the sub-folders is a file the matcher accepts |
| Finders.FirstInSubfoldersNone | main.py:269-286 | there is no hit exactly when no directory entry's children contain an accepted file |
| Finders.FirstInSubfoldersIsFirst | main.py:269-274 | a hit is the first accepted child of the first directory that has one; earlier directories have none |
| Finders.IssuedLinkIsStrippedUrl | main.py:282 | the link handed out is the server's share URL with the port token removed |
| Finders.PortedOriginLink | main.py:282 | a server whose origin is a port-free host plus the port token hands out links on the bare host: the host, `/sharing/` and the share's id |
| Finders.HttpsLinkLosesPort | main.py:282 | for an `https://<name>:5001` server, with no colon in the name, the handed-out link is `https://<name>/sharing/<id>` |
| Finders.HttpsHostHasNoPort | main.py:282 | an `https://` origin whose host name has no colon holds no port token |
| Finders.IssuedLinkId | main.py:77 | the last segment of a handed-out link is the share's id |
| Finders.TrackedIdIsShareId | main.py:77 | the tracked link of the k-th new share ends in that share's id |
| Finders.NewShareAt | main.py:278-282 | the k-th new share has the k-th planned file, its lifetime and the server's k-th URL |
| Finders.NewTrackedAt | main.py:67-71 | the k-th new tracked entry carries the k-th handed-out link, the password and a thirty-minute expiry |
| Finders.IssuedThen | main.py:278-284 | two sharing steps in a row issue the concatenation of their plans |
| Finders.ShareAndTrack | main.py:278-286 | one share is created for the file and password with the given lifetime, its port-free URL is tracked and returned, and nothing is deleted |
| Finders.ShareFirstMatch | main.py:330-340 | the first accepted entry is shared and tracked and its link returned; with no accepted entry nothing changes and nothing is returned |
| Finders.ShareFirstInSubfolders | main.py:269-286 | the first accepted child of the directories is shared and tracked and its link returned; nothing else is shared |
| Finders.DmrCreateSharingLink | main.py:256-286 | the first file named exactly like the part, in a sub-folder of the drawing-package folder, is shared for five minutes and tracked |
| Finders.QasCreateSharingLink | main.py:289-318 | the first file whose name contains the specification id, ignoring case, in a sub-folder of the specification folder, is shared for thirty minutes and tracked |
| Finders.FlatPathCreateSharingLink | main.py:321-340 | the first entry of the folder itself whose name contains the partial name, ignoring case, is shared for thirty minutes and tracked |
| Bundle.DocIdNormal | main.py:363-367 | a document id taken from a record has no surrounding whitespace and no lower-case letter, and is empty when the record lacks the field |
| Bundle.DocIdCuts | main.py:363-367 | a document id is the field's value upper-cased with a run of whitespace cut from each end, and nothing else |
| Bundle.DocIdTrimmed | main.py:363-367 | a field value without surrounding whitespace gives its id by upper-casing alone |
| Bundle.MiFolders | main.py:371-377 | the two instruction folders, the package one and the manufacturing one, are both tried: the manufacturing folder first for manufacturing records, the package folder first for package and component records |
| Bundle.QasSlotLabel | main.py:391 | the specification slot is labelled "QAS-R" for component records and "QAS" for package and manufacturing records |
| Bundle.MiHit | main.py:371-377 | a hit in the first folder tried (manufacturing for manufacturing records, package for package and component records) wins, the other folder is used only when that one has none, and nothing is found exactly when neither folder has a hit |
| Bundle.SlotLinks | main.py:369-396 | a slot has a link exactly when its file was found |
| Bundle.SlotLinksItsFile | main.py:369-396 | each linked slot's link is the port-free URL of the share created for that slot's own file, with that slot's lifetime |
| Bundle.PlanAllAt | main.py:369-396 | a found file is shared after exactly the found files before it |
| Bundle.MiCreateSharingLink | main.py:371-377 | the instruction file from the first folder that has one is shared and tracked; the second folder is searched only when the first gave no link |
| Bundle.ShareDocuments | main.py:369-466 | the five files are shared in order under one password. Each slot's link is the one made for its own file, and only these shares are created and tracked |
| Bundle.FmGetDmrDetails | main.py:360-498 | the bundle has a fresh valid password and the five document links. The five label slots carry the drawing-package link, and the three text slots carry none. The slot names are those of the record. The server and tracker gain exactly the bundle's shares |

## Left out

- The HTTP endpoints, the command-line variant of the where-used query and the recursive listing printer are left out. They are I/O around the modelled functions.
- The database and file-server clients and the environment configuration are left out. So is the scheduling of the sweep. The sweep runs once at shutdown (main.py:120-124) and, when the file is run as a script, once at start-up (main.py:549). The script also adds a twenty-minute job to a scheduler (main.py:116, 551), but nothing starts that scheduler, so the job never fires. Each run is a call of `LoopOverLinks`.
- Regex metacharacters are not modelled. Every regex query and search uses its pattern as a literal substring, ignoring case.
- Upper-casing is modelled for ASCII letters only. Stripping uses Python's whitespace set.
- The clock is read once per call as an integer number of minutes. The source reads it again at every comparison and uses datetime values.
- Randomness is replaced by a sequence of draws passed in.
- Tracker: the model has a single tracking document. Several documents, which the sweep merges, are not modelled.
- Tracker.LinkTracker.LoopOverLinks: one flag, `hasDocument`, stands both for "some tracking document exists" (main.py:91) and for "a document with a `links` field exists" (main.py:71). A tracking document without `links` is not modelled. The source's push does nothing on it, and its sweep fails with a KeyError.
- WhereUsed.Normalize: its own contract gives only the shape of the normal form. What it keeps is stated by WhereUsed.NormalizeTrimmed, WhereUsed.NormalizeViaUpper and the Text lemmas on space removal, stripping and upper-casing.
- Bundle.DocIdNormal: its own contract gives the shape of an id. Its content is stated by Bundle.DocIdCuts and Bundle.DocIdTrimmed.
- Failures of the file server or the database are not modelled: errors, exceptions during deletion, or a share with no URL.
- A folder missing from the listing is treated as empty.
- The server's choice of share URL is abstracted as the origin, then `/sharing/`, then a decimal counter.
- A record without a `part` key is not modelled; `part` is a mandatory field.
- A bundle kind other than package, manufacturing or component is not representable. The source fails on it with an unbound local variable.
- A field missing from a record never matches a regex query, as in the database. An empty string would match an empty pattern.
- A missing key read with `.get(key, "")` gives the empty id. The bundle searches with it like with any other id.

## Where the code and its description differ

The model follows the code in each of these cases. The list names the
differences that shape the model and is not exhaustive.

- **Bundle specification slot.** The description ties the specification
  slot's label to the bundle kind differently. The code labels component
  records "QAS-R" and package and manufacturing records "QAS". See the
  label expressions at main.py:391 and main.py:458.
- **Bundle size.** The description lists fewer bundle slots. The code
  builds twelve: four document slots, five label slots sharing the
  drawing-package link, and three text-only slots.
- **Missing field.** The description treats a missing field as an empty
  string, which an empty pattern would match. In the where-used query the
  database matches no record that lacks the field, whatever the pattern.
- **Sweep schedule.** The description gives the sweep a fixed period. The
  code adds a twenty-minute job to a scheduler it never starts
  (main.py:116, 551), so the sweep runs only at start-up when run as a
  script (main.py:549) and at shutdown (main.py:124).
- **Specification finder.** It looks only inside the sub-folders of the
  specification folder, never at the folder's own files (main.py:304-309).
- **Flat finder.** It looks only at the top-level entries of its folder and
  never descends into a directory (main.py:330-331).
- **Instruction folder order.** Manufacturing records try the
  manufacturing instruction folder first and the package one second
  (main.py:436-444); package and component records try them the other way
  round (main.py:371-377).
- **Tracking push.** The push adds to an existing document with a `links`
  field and never creates a missing tracking document (main.py:71).

## Findings

| source | as written | input that shows it | evidently intended | confidence | as-written member | corrected member |
|---|---|---|---|---|---|---|
| main.py:199-205 | `is_component` is set whenever the component query's cursor is truthy. A cursor is always truthy, so every non-empty answer is labelled "QAS-R" | token `qas`; one package record whose `qas` field is the normalised number; no component record | "QAS-R" only when a component record matched, otherwise "QAS" | not executed | WhereUsed.PackageOnlyHitLabelledQasR | WhereUsed.IntendedLabelClassifies |
