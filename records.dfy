/**
 * The record store: the three part collections (package, manufacturing,
 * component) and the two read-only queries the core sends them.
 */
module Records {
  import opened Shared
  import opened Text

  /** A part document: its `part` key and its other string-valued fields. */
  datatype Record = Record(part: string, fields: map<string, string>)

  /** The collection a part document was found in. */
  datatype Collection = Pkg | Mfg | Component

  /** The three collections, each in the store's natural order. */
  datatype Database = Database(pkg: seq<Record>, mfg: seq<Record>, comp: seq<Record>)

  function CollectionOf(db: Database, c: Collection): seq<Record> {
    match c
    case Pkg => db.pkg
    case Mfg => db.mfg
    case Component => db.comp
  }

  /** `doc.get(key, "")`. */
  function Get(r: Record, key: string): string {
    if key in r.fields then r.fields[key] else ""
  }

  /**
   * Whether `{field: {"$regex": pattern, "$options": "i"}}` selects `r`: the
   * field is present and holds `pattern`, ignoring case.
   */
  predicate FieldMatches(r: Record, field: string, pattern: string) {
    field in r.fields && ContainsIgnoreCase(r.fields[field], pattern)
  }

  /** `collection.find({field: {"$regex": pattern, "$options": "i"}})`, in collection order. */
  function Find(coll: seq<Record>, field: string, pattern: string): (hits: seq<Record>)
    ensures |hits| <= |coll|
    ensures forall i :: 0 <= i < |hits| ==> FieldMatches(hits[i], field, pattern)
  {
    if coll == [] then []
    else (if FieldMatches(coll[0], field, pattern) then [coll[0]] else []) + Find(coll[1..], field, pattern)
  }

  /** A query returns every matching record as often as the collection holds it, and nothing else. */
  lemma {:induction false} FindSelects(coll: seq<Record>, field: string, pattern: string, r: Record)
    ensures multiset(Find(coll, field, pattern))[r] == if FieldMatches(r, field, pattern) then multiset(coll)[r] else 0
  {
    if coll != [] {
      assert coll == [coll[0]] + coll[1..];
      FindSelects(coll[1..], field, pattern, r);
    }
  }

  /** `collection.find_one({"part": part})`: the first record whose key is `part`. */
  function FindOne(coll: seq<Record>, part: string): (r: Option<Record>)
    ensures r.None? <==> forall i :: 0 <= i < |coll| ==> coll[i].part != part
    ensures r.Some? ==> exists i :: 0 <= i < |coll| && coll[i] == r.value && r.value.part == part
                                    && forall j :: 0 <= j < i ==> coll[j].part != part
  {
    if coll == [] then None
    else if coll[0].part == part then Some(coll[0])
    else
      var rest := FindOne(coll[1..], part);
      rest
  }

  predicate HasPart(coll: seq<Record>, part: string) {
    exists i :: 0 <= i < |coll| && coll[i].part == part
  }

  /**
   * `fm_get_details(part)`: the part's record from the package collection,
   * else from the manufacturing collection, else from the component
   * collection, tagged with where it was found.
   */
  function GetDetails(db: Database, part: string): (r: Option<(Record, Collection)>)
    ensures r.None? <==> !HasPart(db.pkg, part) && !HasPart(db.mfg, part) && !HasPart(db.comp, part)
    ensures r.Some? ==> r.value.0.part == part && r.value.0 in CollectionOf(db, r.value.1)
    ensures r.Some? ==> FindOne(CollectionOf(db, r.value.1), part) == Some(r.value.0)
    ensures r.Some? && r.value.1 != Pkg ==> !HasPart(db.pkg, part)
    ensures r.Some? && r.value.1 == Component ==> !HasPart(db.mfg, part)
  {
    match FindOne(db.pkg, part)
    case Some(doc) => Some((doc, Pkg))
    case None =>
      match FindOne(db.mfg, part)
      case Some(doc) => Some((doc, Mfg))
      case None =>
        match FindOne(db.comp, part)
        case Some(doc) => Some((doc, Component))
        case None => None
  }
}
