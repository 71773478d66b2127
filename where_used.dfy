/**
 * Where-used resolution: given a document-type token and a document number,
 * the parts whose records cite that document, and a QAS / QAS-R label.
 */
module WhereUsed {
  import opened Shared
  import opened Text
  import opened Records

  /** The accepted tokens: the package field names, then the manufacturing ones. */
  const DocTypes: seq<string> :=
    ["mss_msd_id", "mi_id", "qas", "pss_id", "mssmsd_id", "qas_id", "mi_id", "pss_id"]

  const QasLabel: string := "QAS"
  const QasRLabel: string := "QAS-R"

  datatype Error = InvalidDocumentType

  /** The parts found, in query order, and the label (absent when nothing was found). */
  datatype Resolution = Resolution(parts: seq<string>, kind: Option<string>)

  /**
   * `document.replace(" ", "").strip().upper()`: the document number with
   * every space removed, surrounding whitespace stripped, and upper-cased.
   */
  function Normalize(document: string): (r: string)
    ensures ' ' !in r
    ensures r == [] || (!IsSpace(r[0]) && !IsSpace(r[|r| - 1]))
    ensures forall i :: 0 <= i < |r| ==> !IsLower(r[i])
    ensures |r| <= |document|
  {
    var compact := RemoveSpaces(document);
    var stripped := Strip(compact);
    StripBounds(compact);
    UpperKeeps(stripped);
    Upper(stripped)
  }

  /** The fields searched for a token: the token itself, then its alias partner if it has one. */
  function SearchFields(docType: string): (fields: seq<string>)
    ensures 1 <= |fields| <= 2 && fields[0] == docType
    ensures docType !in {"mss_msd_id", "mssmsd_id", "qas", "qas_id"} ==> fields == [docType]
    ensures docType in {"mss_msd_id", "mssmsd_id", "qas", "qas_id"} ==> |fields| == 2
    ensures |fields| == 2 ==> {docType, fields[1]} == {"mss_msd_id", "mssmsd_id"} || {docType, fields[1]} == {"qas", "qas_id"}
  {
    [docType]
    + (if docType == "mss_msd_id" then ["mssmsd_id"] else if docType == "mssmsd_id" then ["mss_msd_id"] else [])
    + (if docType == "qas" then ["qas_id"] else if docType == "qas_id" then ["qas"] else [])
  }

  /** The records one field's query returns: package, then manufacturing, then component. */
  function FieldHits(db: Database, field: string, pattern: string): seq<Record> {
    Find(db.pkg, field, pattern) + Find(db.mfg, field, pattern) + Find(db.comp, field, pattern)
  }

  /** The records the queries return, field by field. */
  function Hits(db: Database, fields: seq<string>, pattern: string): seq<Record> {
    if fields == [] then []
    else Hits(db, fields[..|fields| - 1], pattern) + FieldHits(db, fields[|fields| - 1], pattern)
  }

  function PartsOf(records: seq<Record>): (parts: seq<string>)
    ensures |parts| == |records|
  {
    seq(|records|, i requires 0 <= i < |records| => records[i].part)
  }

  /**
   * The truth value of the object `collection.find(...)` returns. It is a
   * cursor, which is true whether or not it will yield a record.
   */
  function CursorIsTruthy(cursor: seq<Record>): bool {
    true
  }

  /** `is_component` after the loop, as written: set when a component cursor is truthy. */
  function ComponentFlag(db: Database, fields: seq<string>, pattern: string): bool {
    if fields == [] then false
    else ComponentFlag(db, fields[..|fields| - 1], pattern)
         || CursorIsTruthy(Find(db.comp, fields[|fields| - 1], pattern))
  }

  /** `show_where_used(doc_type, document)` as a value. */
  function Resolve(db: Database, docType: string, document: string): Result<Resolution, Error> {
    ResolvePattern(db, docType, Normalize(document))
  }

  /** Resolution of an already normalised document number. */
  function ResolvePattern(db: Database, docType: string, pattern: string): Result<Resolution, Error> {
    if docType !in DocTypes then Err(InvalidDocumentType)
    else
      var fields := SearchFields(docType);
      var hits := Hits(db, fields, pattern);
      if hits == [] then Ok(Resolution([], None))
      else Ok(Resolution(PartsOf(hits), Some(if ComponentFlag(db, fields, pattern) then QasRLabel else QasLabel)))
  }

  /** `show_where_used`: the loop over the searched fields, extending the result and the flag. */
  method ShowWhereUsed(db: Database, docType: string, document: string) returns (r: Result<Resolution, Error>)
    ensures r == Resolve(db, docType, document)
  {
    var pattern := Normalize(document);
    if docType !in DocTypes {
      return Err(InvalidDocumentType);
    }
    var toSearch := SearchFields(docType);
    var docs, isComponent := SearchAll(db, toSearch, pattern);
    if docs != [] {
      r := Ok(Resolution(PartsOf(docs), Some(if isComponent then QasRLabel else QasLabel)));
    } else {
      r := Ok(Resolution([], None));
    }
  }

  /**
   * The query loop: each field against the package, manufacturing and
   * component collections in turn, a component cursor setting the flag.
   */
  method SearchAll(db: Database, toSearch: seq<string>, pattern: string) returns (docs: seq<Record>, isComponent: bool)
    ensures docs == Hits(db, toSearch, pattern)
    ensures isComponent == ComponentFlag(db, toSearch, pattern)
  {
    docs := [];
    isComponent := false;
    for i := 0 to |toSearch|
      invariant docs == Hits(db, toSearch[..i], pattern)
      invariant isComponent == ComponentFlag(db, toSearch[..i], pattern)
    {
      var field := toSearch[i];
      var before := docs;
      HitsStep(db, toSearch, i, pattern);
      var pkgDocs := Find(db.pkg, field, pattern);
      if CursorIsTruthy(pkgDocs) {
        docs := docs + pkgDocs;
      }
      var mfgDocs := Find(db.mfg, field, pattern);
      if CursorIsTruthy(mfgDocs) {
        docs := docs + mfgDocs;
      }
      var compDocs := Find(db.comp, field, pattern);
      if CursorIsTruthy(compDocs) {
        docs := docs + compDocs;
        isComponent := true;
      }
      assert docs == before + pkgDocs + mfgDocs + compDocs;
      ConcatAssoc(before, pkgDocs, mfgDocs);
      ConcatAssoc(before, pkgDocs + mfgDocs, compDocs);
    }
    assert toSearch[..|toSearch|] == toSearch;
  }

  /** One more field searched: its records follow, and its component cursor is seen. */
  lemma HitsStep(db: Database, fields: seq<string>, i: nat, pattern: string)
    requires i < |fields|
    ensures Hits(db, fields[..i + 1], pattern) == Hits(db, fields[..i], pattern) + FieldHits(db, fields[i], pattern)
    ensures ComponentFlag(db, fields[..i + 1], pattern)
            == (ComponentFlag(db, fields[..i], pattern) || CursorIsTruthy(Find(db.comp, fields[i], pattern)))
  {
    assert fields[..i + 1][..i] == fields[..i];
  }

  // ----- Validation and normalisation -----

  /** A token outside the accepted list fails, and every accepted token yields a result. */
  lemma InvalidTypeRejected(db: Database, docType: string, document: string)
    ensures Resolve(db, docType, document).Err? <==> docType !in DocTypes
  {
  }

  /** Normalising upper-cases first or last alike. */
  lemma {:induction false} NormalizeViaUpper(s: string)
    ensures Normalize(s) == Strip(RemoveSpaces(Upper(s)))
  {
    var compact := RemoveSpaces(s);
    UpperRStrip(LStrip(compact));
    UpperLStrip(compact);
    UpperRemoveSpaces(s);
  }

  /**
   * A number with no space and no surrounding whitespace is only
   * upper-cased: normalising keeps every character it has, in order.
   */
  lemma NormalizeTrimmed(s: string)
    requires ' ' !in s && Trimmed(s)
    ensures Normalize(s) == Upper(s)
  {
    RemoveSpacesNoSpace(s);
    StripTrimmed(s);
  }

  /** Resolution sees the document number only through its normal form. */
  lemma ResolveSeesNormalForm(db: Database, docType: string, a: string, b: string)
    requires Normalize(a) == Normalize(b)
    ensures Resolve(db, docType, a) == Resolve(db, docType, b)
  {
  }

  lemma NormalizeIgnoresCase(a: string, b: string)
    requires Upper(a) == Upper(b)
    ensures Normalize(a) == Normalize(b)
  {
    NormalizeViaUpper(a);
    NormalizeViaUpper(b);
  }

  lemma NormalizeIgnoresSpace(s: string, i: nat)
    requires i <= |s|
    ensures Normalize(s[..i] + " " + s[i..]) == Normalize(s)
  {
    RemoveSpacesAround(s[..i], s[i..]);
    RemoveSpacesAppend(s[..i], s[i..]);
    assert s[..i] + s[i..] == s;
  }

  lemma NormalizeIgnoresPadding(w1: string, s: string, w2: string)
    requires AllSpace(w1) && AllSpace(w2)
    ensures Normalize(w1 + s + w2) == Normalize(s)
  {
    StripCompactIgnoresPadding(w1, s, w2);
  }

  /** Document numbers that differ only in letter case resolve alike. */
  lemma ResolveIgnoresCase(db: Database, docType: string, a: string, b: string)
    requires Upper(a) == Upper(b)
    ensures Resolve(db, docType, a) == Resolve(db, docType, b)
  {
    NormalizeIgnoresCase(a, b);
    ResolveSeesNormalForm(db, docType, a, b);
  }

  /** A space inserted anywhere in the document number changes nothing. */
  lemma ResolveIgnoresSpace(db: Database, docType: string, s: string, i: nat)
    requires i <= |s|
    ensures Resolve(db, docType, s[..i] + " " + s[i..]) == Resolve(db, docType, s)
  {
    NormalizeIgnoresSpace(s, i);
    ResolveSeesNormalForm(db, docType, s[..i] + " " + s[i..], s);
  }

  /** Whitespace around the document number changes nothing. */
  lemma ResolveIgnoresPadding(db: Database, docType: string, w1: string, s: string, w2: string)
    requires AllSpace(w1) && AllSpace(w2)
    ensures Resolve(db, docType, w1 + s + w2) == Resolve(db, docType, s)
  {
    NormalizeIgnoresPadding(w1, s, w2);
    ResolveSeesNormalForm(db, docType, w1 + s + w2, s);
  }

  // ----- Field expansion and ordering -----

  /** The alias relation among the accepted tokens is symmetric. */
  lemma AliasSymmetric(a: string, b: string)
    requires a in DocTypes && b in DocTypes
    ensures b in SearchFields(a) <==> a in SearchFields(b)
  {
  }

  lemma {:induction false} HitsPair(db: Database, a: string, b: string, pattern: string)
    ensures Hits(db, [a, b], pattern) == FieldHits(db, a, pattern) + FieldHits(db, b, pattern)
  {
    assert [a, b][..1] == [a];
    assert [a][..0] == [];
    assert Hits(db, [a], pattern) == [] + FieldHits(db, a, pattern);
    assert [] + FieldHits(db, a, pattern) == FieldHits(db, a, pattern);
  }

  lemma PartsOfAppend(x: seq<Record>, y: seq<Record>)
    ensures PartsOf(x + y) == PartsOf(x) + PartsOf(y)
  {
  }

  /**
   * Both tokens of an alias pair search the same two fields in opposite
   * orders, so they find the same parts, reordered, under the same label.
   */
  lemma AliasPairsAgree(db: Database, a: string, b: string, document: string)
    requires (a == "mss_msd_id" && b == "mssmsd_id") || (a == "qas" && b == "qas_id")
    ensures var p := Normalize(document);
            var ra := Resolve(db, a, document);
            var rb := Resolve(db, b, document);
            && ra.Ok? && rb.Ok?
            && ra.value.parts == PartsOf(FieldHits(db, a, p)) + PartsOf(FieldHits(db, b, p))
            && rb.value.parts == PartsOf(FieldHits(db, b, p)) + PartsOf(FieldHits(db, a, p))
            && multiset(ra.value.parts) == multiset(rb.value.parts)
            && ra.value.kind == rb.value.kind
  {
    var p := Normalize(document);
    assert a in DocTypes && b in DocTypes;
    assert SearchFields(a) == [a, b];
    assert SearchFields(b) == [b, a];
    PairResolution(db, a, b, p);
    PairResolution(db, b, a, p);
  }

  /** A token with an alias searches its own field, then the alias. */
  lemma PairResolution(db: Database, a: string, b: string, p: string)
    requires a in DocTypes && SearchFields(a) == [a, b]
    ensures var r := ResolvePattern(db, a, p);
            var hits := FieldHits(db, a, p) + FieldHits(db, b, p);
            && r.Ok?
            && r.value.parts == PartsOf(FieldHits(db, a, p)) + PartsOf(FieldHits(db, b, p))
            && r.value.kind == if hits == [] then None
                               else Some(if CursorIsTruthy(Find(db.comp, a, p)) || CursorIsTruthy(Find(db.comp, b, p))
                                         then QasRLabel else QasLabel)
  {
    HitsPair(db, a, b, p);
    PartsOfAppend(FieldHits(db, a, p), FieldHits(db, b, p));
    assert [a, b][..1] == [a] && [a][..0] == [];
  }

  /** No query result is ever dropped: the result is empty exactly when every query is. */
  lemma {:induction false} HitsEmptyIff(db: Database, fields: seq<string>, pattern: string)
    ensures Hits(db, fields, pattern) == [] <==> forall i :: 0 <= i < |fields| ==> FieldHits(db, fields[i], pattern) == []
  {
    if fields != [] {
      var init := fields[..|fields| - 1];
      HitsEmptyIff(db, init, pattern);
      assert forall i :: 0 <= i < |init| ==> init[i] == fields[i];
    }
  }

  /** Nothing found is a valid, empty answer, distinct from an invalid token. */
  lemma EmptyResult(db: Database, docType: string, document: string)
    requires docType in DocTypes
    ensures var fields := SearchFields(docType);
            Resolve(db, docType, document) == Ok(Resolution([], None))
            <==> forall i :: 0 <= i < |fields| ==> FieldHits(db, fields[i], Normalize(document)) == []
  {
    HitsEmptyIff(db, SearchFields(docType), Normalize(document));
  }

  /**
   * Parts are not de-duplicated: a package record that cites the document
   * under both spellings of the setup-sheet field is listed twice.
   */
  lemma NoDeduplication(db: Database, rec: Record, document: string)
    requires rec in db.pkg
    requires FieldMatches(rec, "mss_msd_id", Normalize(document))
    requires FieldMatches(rec, "mssmsd_id", Normalize(document))
    ensures Resolve(db, "mss_msd_id", document).Ok?
    ensures var parts := Resolve(db, "mss_msd_id", document).value.parts;
            exists i, j :: 0 <= i < j < |parts| && parts[i] == rec.part && parts[j] == rec.part
  {
    var p := Normalize(document);
    AliasPairsAgree(db, "mss_msd_id", "mssmsd_id", document);
    var ha := FieldHits(db, "mss_msd_id", p);
    var hb := FieldHits(db, "mssmsd_id", p);
    var parts := PartsOf(ha) + PartsOf(hb);
    var i := PartListed(db, "mss_msd_id", p, rec);
    var j := PartListed(db, "mssmsd_id", p, rec);
    assert parts[i] == rec.part && parts[|ha| + j] == rec.part;
  }

  /** A package record the query selects is listed among the field's parts. */
  lemma PartListed(db: Database, field: string, pattern: string, rec: Record) returns (i: nat)
    requires rec in db.pkg && FieldMatches(rec, field, pattern)
    ensures i < |FieldHits(db, field, pattern)| && PartsOf(FieldHits(db, field, pattern))[i] == rec.part
  {
    FindSelects(db.pkg, field, pattern, rec);
    var found := Find(db.pkg, field, pattern);
    assert multiset(found)[rec] > 0;
    assert rec in found;
    i :| 0 <= i < |found| && found[i] == rec;
  }

  // ----- The QAS / QAS-R label -----

  /** Every search has at least one field, so the component cursor is always seen. */
  lemma ComponentFlagAlwaysSet(db: Database, fields: seq<string>, pattern: string)
    requires fields != []
    ensures ComponentFlag(db, fields, pattern)
  {
  }

  /**
   * As written, the label is "QAS-R" for every non-empty result and absent
   * for an empty one; "QAS" is never returned.
   */
  lemma LabelAsWritten(db: Database, docType: string, document: string)
    requires Resolve(db, docType, document).Ok?
    ensures var res := Resolve(db, docType, document).value;
            && (res.parts == [] <==> res.kind == None)
            && (res.parts != [] ==> res.kind == Some(QasRLabel))
  {
    ComponentFlagAlwaysSet(db, SearchFields(docType), Normalize(document));
  }

  /** Whether any component query actually returned a record. */
  function IntendedFlag(db: Database, fields: seq<string>, pattern: string): bool {
    if fields == [] then false
    else IntendedFlag(db, fields[..|fields| - 1], pattern) || Find(db.comp, fields[|fields| - 1], pattern) != []
  }

  /** The label the code evidently intends: "QAS-R" when a component record matched. */
  function IntendedLabel(db: Database, fields: seq<string>, pattern: string): Option<string> {
    if Hits(db, fields, pattern) == [] then None
    else Some(if IntendedFlag(db, fields, pattern) then QasRLabel else QasLabel)
  }

  lemma {:induction false} IntendedFlagIff(db: Database, fields: seq<string>, pattern: string)
    ensures IntendedFlag(db, fields, pattern) <==> exists i :: 0 <= i < |fields| && Find(db.comp, fields[i], pattern) != []
  {
    if fields != [] {
      var init := fields[..|fields| - 1];
      IntendedFlagIff(db, init, pattern);
      assert forall i :: 0 <= i < |init| ==> init[i] == fields[i];
    }
  }

  /**
   * The intended label classifies by where the matches came from: "QAS-R"
   * exactly when some component record matched, "QAS" exactly when records
   * matched only outside the component collection, absent when nothing matched.
   */
  lemma IntendedLabelClassifies(db: Database, fields: seq<string>, pattern: string)
    ensures IntendedLabel(db, fields, pattern) == Some(QasRLabel)
            <==> exists i :: 0 <= i < |fields| && Find(db.comp, fields[i], pattern) != []
    ensures IntendedLabel(db, fields, pattern) == Some(QasLabel)
            <==> Hits(db, fields, pattern) != [] && forall i :: 0 <= i < |fields| ==> Find(db.comp, fields[i], pattern) == []
    ensures IntendedLabel(db, fields, pattern) == None <==> Hits(db, fields, pattern) == []
  {
    IntendedFlagIff(db, fields, pattern);
    HitsEmptyIff(db, fields, pattern);
  }

  /**
   * The discrepancy in general: when records match but no component record
   * does, the code labels the result "QAS-R" while the intended label is "QAS".
   */
  lemma ComponentFreeHitLabelledQasR(db: Database, docType: string, document: string)
    requires docType in DocTypes
    requires Hits(db, SearchFields(docType), Normalize(document)) != []
    requires var fields := SearchFields(docType);
             forall i :: 0 <= i < |fields| ==> Find(db.comp, fields[i], Normalize(document)) == []
    ensures Resolve(db, docType, document).value.kind == Some(QasRLabel)
    ensures IntendedLabel(db, SearchFields(docType), Normalize(document)) == Some(QasLabel)
  {
    LabelAsWritten(db, docType, document);
    IntendedLabelClassifies(db, SearchFields(docType), Normalize(document));
  }

  /**
   * The discrepancy on a concrete store: a single package record citing the
   * document, and no component record, is labelled "QAS-R" by the code while
   * the intended label is "QAS".
   */
  lemma PackageOnlyHitLabelledQasR(part: string, document: string)
    ensures var db := Database([Record(part, map["qas" := Normalize(document)])], [], []);
            && Resolve(db, "qas", document) == Ok(Resolution([part], Some(QasRLabel)))
            && IntendedLabel(db, SearchFields("qas"), Normalize(document)) == Some(QasLabel)
  {
    PackageOnlyPattern(part, Normalize(document));
  }

  /** The same store, for a pattern already normalised. */
  lemma PackageOnlyPattern(part: string, p: string)
    ensures var db := Database([Record(part, map["qas" := p])], [], []);
            && ResolvePattern(db, "qas", p) == Ok(Resolution([part], Some(QasRLabel)))
            && IntendedLabel(db, SearchFields("qas"), p) == Some(QasLabel)
  {
    var f, g := "qas", "qas_id";
    var rec := Record(part, map[f := p]);
    var db := Database([rec], [], []);
    QasAccepted();
    SinglePackageRecord(rec, f, g, p);
    PairResolution(db, f, g, p);
    HitsPair(db, f, g, p);
    IntendedLabelClassifies(db, [f, g], p);
    var parts, none := PartsOf([rec]), PartsOf([]);
    assert parts == [part] && none == [];
    assert parts + none == [part];
  }

  /** The specification token is accepted and searches its alias too. */
  lemma QasAccepted()
    ensures "qas" in DocTypes && SearchFields("qas") == ["qas", "qas_id"]
  {
    assert DocTypes[2] == "qas";
  }

  /** A store holding one package record, citing the pattern under one field only. */
  lemma SinglePackageRecord(rec: Record, f: string, g: string, p: string)
    requires rec.fields == map[f := p] && f != g
    ensures var db := Database([rec], [], []);
            && FieldHits(db, f, p) == [rec] && FieldHits(db, g, p) == []
            && forall h :: Find(db.comp, h, p) == []
  {
    assert OccursAt(Upper(p), Upper(p), 0);
    assert FieldMatches(rec, f, p) && !FieldMatches(rec, g, p);
  }
}
