/**
 * The document bundle for one part: a fresh password, one link per
 * controlled document the part's record names, and the text-only slots.
 */
module Bundle {
  import opened Shared
  import opened Text
  import opened Password
  import opened Records
  import opened WhereUsed
  import opened FileStore
  import opened Tracker
  import opened Finders

  /** One entry of the bundle: a display name and, for document slots, a link. */
  datatype Slot = Slot(name: string, link: Option<string>)

  /** The twelve slots of the bundle. */
  datatype DmrDetails = DmrDetails(
    mss: Slot, mi: Slot, qas: Slot, pss: Slot,
    shipperLabel: Slot, contentLabel: Slot, dispenserLabel: Slot, printMat: Slot, dmr: Slot,
    dco: Slot, ink: Slot, specialInstructions: Slot)

  /** The flat folders the bundle searches. */
  const MssFolder: string := "Machine Setup Sheet (MSS) PDF"
  const PkgMiFolder: string := "PKG Manufacturing Instructions (MI) PDF"
  const MfgMiFolder: string := "MFG Manufacturing Instructions (MI) PDF"
  const PssFolder: string := "Post Sterilization Specification (PSS)"

  /** The field holding the machine-setup-sheet id: manufacturing records spell it differently. */
  function MssField(kind: Collection): string {
    if kind == Mfg then "mssmsd_id" else "mss_msd_id"
  }

  /** The field holding the specification id: manufacturing records spell it differently. */
  function QasField(kind: Collection): string {
    if kind == Mfg then "qas_id" else "qas"
  }

  /** `doc.get(key, "").upper().strip()`. */
  function DocId(doc: Record, key: string): string {
    Strip(Upper(Get(doc, key)))
  }

  /** A document id is upper-case with no surrounding whitespace; a missing field gives the empty id. */
  lemma DocIdNormal(doc: Record, key: string)
    ensures var id := DocId(doc, key);
            && (forall i :: 0 <= i < |id| ==> !IsLower(id[i]))
            && (id == [] || (!IsSpace(id[0]) && !IsSpace(id[|id| - 1])))
            && (key !in doc.fields ==> id == [])
  {
    var v := Get(doc, key);
    var u := Upper(v);
    assert forall i :: 0 <= i < |u| ==> !IsLower(u[i]);
    StripNoLower(u);
    StripBounds(u);
    if key !in doc.fields {
      assert v == [] && u == [];
    }
  }

  /**
   * A document id is the field's value upper-cased with a run of whitespace
   * cut from each end, and nothing else.
   */
  lemma DocIdCuts(doc: Record, key: string)
    ensures var u, id := Upper(Get(doc, key)), DocId(doc, key);
            var l := LStrip(u);
            && l == u[|u| - |l|..] && AllSpace(u[..|u| - |l|])
            && id == l[..|id|] && AllSpace(l[|id|..])
  {
    StripCuts(Upper(Get(doc, key)));
  }

  /** A field value without surrounding whitespace gives its id by upper-casing alone. */
  lemma DocIdTrimmed(doc: Record, key: string)
    requires key in doc.fields && Trimmed(doc.fields[key])
    ensures DocId(doc, key) == Upper(doc.fields[key])
  {
    var v := doc.fields[key];
    var u := Upper(v);
    UpperKeeps(v);
    assert Trimmed(u) by {
      if v != [] {
        assert IsSpace(u[0]) <==> IsSpace(v[0]);
        assert IsSpace(u[|u| - 1]) <==> IsSpace(v[|v| - 1]);
      }
    }
    StripTrimmed(u);
  }

  /** The instruction folders in the order they are tried: MFG first for manufacturing records, PKG first for package and component records. */
  function MiFolders(kind: Collection): (folders: (string, string))
    ensures folders.0 != folders.1
    ensures {folders.0, folders.1} == {PkgMiFolder, MfgMiFolder}
    ensures folders.0 == (if kind == Mfg then MfgMiFolder else PkgMiFolder)
  {
    if kind == Mfg then (MfgMiFolder, PkgMiFolder) else (PkgMiFolder, MfgMiFolder)
  }

  /** The label of the specification slot: "QAS-R" for component records only. */
  function QasSlotLabel(kind: Collection): (l: string)
    ensures l == QasRLabel <==> kind == Component
    ensures kind != Component ==> l == QasLabel
  {
    if kind == Component then QasRLabel else QasLabel
  }

  // ----- Which files the bundle shares -----

  function FlatHit(listing: map<string, seq<FileEntry>>, folder: string, id: string): Option<FileEntry> {
    FirstMatch(ChildrenOf(listing, FolderPath(folder)), Pattern(id))
  }

  /** The instruction file: from the first folder `MiFolders` names, else from the second. */
  function MiHit(listing: map<string, seq<FileEntry>>, kind: Collection, miId: string): (hit: Option<FileEntry>)
    ensures hit.None? <==> FlatHit(listing, PkgMiFolder, miId).None? && FlatHit(listing, MfgMiFolder, miId).None?
    ensures FlatHit(listing, MiFolders(kind).0, miId).Some? ==> hit == FlatHit(listing, MiFolders(kind).0, miId)
    ensures FlatHit(listing, MiFolders(kind).0, miId).None? ==> hit == FlatHit(listing, MiFolders(kind).1, miId)
  {
    var folders := MiFolders(kind);
    var first := FlatHit(listing, folders.0, miId);
    if first.Some? then first else FlatHit(listing, folders.1, miId)
  }

  /** The four document ids a record names, each upper-cased and stripped. */
  datatype DocumentIds = DocumentIds(mss: string, mi: string, qas: string, pss: string)

  function DocumentIdsOf(doc: Record, kind: Collection): DocumentIds {
    DocumentIds(DocId(doc, MssField(kind)), DocId(doc, "mi_id"), DocId(doc, QasField(kind)), DocId(doc, "pss_id"))
  }

  /** The files the bundle shares, in the order it shares them: drawing package, instructions, setup sheet, specification, post-sterilization sheet. */
  function BundleHits(listing: map<string, seq<FileEntry>>, kind: Collection, part: string, ids: DocumentIds): (hits: seq<Option<FileEntry>>)
    ensures |hits| == 5
  {
    [ FirstInSubfolders(listing, ChildrenOf(listing, FolderPath(DmrFolder)), ExactName(part)),
      MiHit(listing, kind, ids.mi),
      FlatHit(listing, MssFolder, ids.mss),
      FirstInSubfolders(listing, ChildrenOf(listing, FolderPath(QasFolder)), Pattern(ids.qas)),
      FlatHit(listing, PssFolder, ids.pss) ]
  }

  /** The server-side lifetimes of those five links. */
  const BundleMinutes: seq<int> := [DmrMinutes, LinkMinutes, LinkMinutes, LinkMinutes, LinkMinutes]

  /** How many of the hits were found. */
  function Found(hits: seq<Option<FileEntry>>): (n: nat)
    ensures n <= |hits|
  {
    if hits == [] then 0 else Taken(hits[0]) + Found(hits[1..])
  }

  /** The links created for a sequence of hits, in order: one per found file. */
  function PlanAll(hits: seq<Option<FileEntry>>, minutes: seq<int>): (plan: seq<Planned>)
    requires |hits| == |minutes|
    ensures |plan| == Found(hits)
  {
    if hits == [] then [] else PlanOf(hits[0], minutes[0]) + PlanAll(hits[1..], minutes[1..])
  }

  /**
   * The link each slot gets when the hits are shared in order from the
   * `base`-th URL on: a found file takes the URL after those of the found
   * files before it.
   */
  function SlotLinks(origin: string, base: nat, hits: seq<Option<FileEntry>>): (links: seq<Option<string>>)
    ensures |links| == |hits|
    ensures forall k :: 0 <= k < |hits| ==> (links[k].Some? <==> hits[k].Some?)
  {
    seq(|hits|, k requires 0 <= k < |hits| => LinkFor(origin, base + Found(hits[..k]), hits[k]))
  }

  /** The twelve slot names of a bundle, in declaration order. */
  function SlotNames(d: DmrDetails): seq<string> {
    [d.mss.name, d.mi.name, d.qas.name, d.pss.name, d.shipperLabel.name, d.contentLabel.name,
     d.dispenserLabel.name, d.printMat.name, d.dmr.name, d.dco.name, d.ink.name, d.specialInstructions.name]
  }

  /**
   * The names the bundle gives its slots: each document slot its kind and
   * normalised id, the specification slot labelled by the record's kind,
   * the drawing package the part, and the text-only slots the record's
   * fields upper-cased.
   */
  function NamesFor(doc: Record, kind: Collection, part: string): (names: seq<string>)
    ensures |names| == 12
  {
    var ids := DocumentIdsOf(doc, kind);
    [ "MSS " + ids.mss, "MI " + ids.mi, QasSlotLabel(kind) + " " + ids.qas, "PSS " + ids.pss,
      Upper(Get(doc, "shipper_label")), Upper(Get(doc, "content_card")), Upper(Get(doc, "dispenser_label")),
      Upper(Get(doc, "print_mat")), "DMR " + Upper(part),
      Upper(Get(doc, "dco_number")), Upper(Get(doc, "ink_part_number")), Upper(Get(doc, "special_instructions")) ]
  }

  /** The five document links of a bundle, in the order `BundleHits` lists their files. */
  function DocumentLinks(d: DmrDetails): seq<Option<string>> {
    [d.dmr.link, d.mi.link, d.mss.link, d.qas.link, d.pss.link]
  }

  lemma {:induction false} FoundAppend(a: seq<Option<FileEntry>>, b: seq<Option<FileEntry>>)
    ensures Found(a + b) == Found(a) + Found(b)
  {
    if a == [] {
      assert a + b == b;
    } else {
      assert (a + b)[0] == a[0] && (a + b)[1..] == a[1..] + b;
      FoundAppend(a[1..], b);
    }
  }

  /** One more hit counts once if it was found. */
  lemma FoundStep(hits: seq<Option<FileEntry>>, k: nat)
    requires k < |hits|
    ensures Found(hits[..k + 1]) == Found(hits[..k]) + Taken(hits[k])
  {
    var one := [hits[k]];
    assert hits[..k + 1] == hits[..k] + one;
    FoundAppend(hits[..k], one);
    assert one[1..] == [];
  }

  /**
   * Each linked slot links the share created for its own file: the share
   * at its position among the created ones has the slot's file, the slot's
   * lifetime, and the slot's link is its URL without the port.
   */
  lemma SlotLinksItsFile(origin: string, base: nat, hits: seq<Option<FileEntry>>, minutes: seq<int>,
                         password: string, now: int, k: nat)
    requires |hits| == |minutes| && k < |hits| && hits[k].Some?
    ensures var j := Found(hits[..k]);
            var shares := NewShares(origin, base, PlanAll(hits, minutes), password, now);
            && j < |shares|
            && shares[j].path == hits[k].value.path
            && shares[j].expiresAt == now + minutes[k]
            && SlotLinks(origin, base, hits)[k] == Some(StripPort(shares[j].url))
  {
    var j := Found(hits[..k]);
    var plan := PlanAll(hits, minutes);
    PlanAllAt(hits, minutes, k);
    NewShareAt(origin, base, plan, password, now, j);
    IssuedLinkIsStrippedUrl(origin, base + j);
  }

  /** A found hit is planned at the position counting the found hits before it. */
  lemma {:induction false} PlanAllAt(hits: seq<Option<FileEntry>>, minutes: seq<int>, k: nat)
    requires |hits| == |minutes| && k < |hits| && hits[k].Some?
    ensures Found(hits[..k]) < |PlanAll(hits, minutes)|
    ensures PlanAll(hits, minutes)[Found(hits[..k])] == Planned(hits[k].value.path, minutes[k])
  {
    var head := PlanOf(hits[0], minutes[0]);
    var rest := PlanAll(hits[1..], minutes[1..]);
    assert PlanAll(hits, minutes) == head + rest;
    if k == 0 {
      assert hits[..0] == [];
    } else {
      PlanAllAt(hits[1..], minutes[1..], k - 1);
      assert hits[..k][0] == hits[0] && hits[..k][1..] == hits[1..][..k - 1];
      assert Found(hits[..k]) == |head| + Found(hits[1..][..k - 1]);
    }
  }

  // ----- The bundle -----

  /**
   * The instruction link: the first folder `MiFolders` names, the second
   * only when the first gave no link.
   */
  method MiCreateSharingLink(store: Store, tracker: LinkTracker, kind: Collection, miId: string, password: string, now: int)
    returns (link: Option<string>)
    modifies store, tracker
    ensures var hit := MiHit(store.listing, kind, miId);
            && link == LinkFor(store.origin, |old(store.created)|, hit)
            && Issued(store.origin, old(store.created), store.created, tracker.hasDocument,
                      old(tracker.links), tracker.links, PlanOf(hit, LinkMinutes), password, now)
    ensures store.deletedIds == old(store.deletedIds) && tracker.hasDocument == old(tracker.hasDocument)
  {
    var folders := MiFolders(kind);
    link := FlatPathCreateSharingLink(store, tracker, miId, password, folders.0, now);
    if link.None? || link.value == "" {
      ghost var c1, l1 := store.created, tracker.links;
      link := FlatPathCreateSharingLink(store, tracker, miId, password, folders.1, now);
      IssuedThen(store.origin, old(store.created), c1, store.created, tracker.hasDocument, old(tracker.links), l1, tracker.links,
                 [], PlanOf(MiHit(store.listing, kind, miId), LinkMinutes), password, now);
      assert [] + PlanOf(MiHit(store.listing, kind, miId), LinkMinutes) == PlanOf(MiHit(store.listing, kind, miId), LinkMinutes);
    }
  }

  /** The five document links of the bundle, shared in order under one password. */
  method ShareDocuments(store: Store, tracker: LinkTracker, kind: Collection, part: string, ids: DocumentIds,
                        password: string, now: int)
    returns (dmrLink: Option<string>, miLink: Option<string>, mssLink: Option<string>, qasLink: Option<string>, pssLink: Option<string>)
    modifies store, tracker
    ensures var hits := BundleHits(store.listing, kind, part, ids);
            && [dmrLink, miLink, mssLink, qasLink, pssLink] == SlotLinks(store.origin, |old(store.created)|, hits)
            && Issued(store.origin, old(store.created), store.created, tracker.hasDocument, old(tracker.links), tracker.links,
                      PlanAll(hits, BundleMinutes), password, now)
    ensures store.deletedIds == old(store.deletedIds) && tracker.hasDocument == old(tracker.hasDocument)
  {
    ghost var hits := BundleHits(store.listing, kind, part, ids);
    ghost var c0, l0 := store.created, tracker.links;
    ghost var p0, p1, p2 := PlanOf(hits[0], DmrMinutes), PlanOf(hits[1], LinkMinutes), PlanOf(hits[2], LinkMinutes);
    ghost var p3, p4 := PlanOf(hits[3], LinkMinutes), PlanOf(hits[4], LinkMinutes);

    dmrLink := DmrCreateSharingLink(store, tracker, part, password, DmrFolder, now);
    ghost var c1, l1 := store.created, tracker.links;
    miLink := MiCreateSharingLink(store, tracker, kind, ids.mi, password, now);
    ghost var c2, l2 := store.created, tracker.links;
    mssLink := FlatPathCreateSharingLink(store, tracker, ids.mss, password, MssFolder, now);
    ghost var c3, l3 := store.created, tracker.links;
    qasLink := QasCreateSharingLink(store, tracker, ids.qas, password, QasFolder, now);
    ghost var c4, l4 := store.created, tracker.links;
    pssLink := FlatPathCreateSharingLink(store, tracker, ids.pss, password, PssFolder, now);
    ghost var c5, l5 := store.created, tracker.links;

    var has := tracker.hasDocument;
    IssuedThen(store.origin, c3, c4, c5, has, l3, l4, l5, p3, p4, password, now);
    IssuedThen(store.origin, c2, c3, c5, has, l2, l3, l5, p2, p3 + p4, password, now);
    IssuedThen(store.origin, c1, c2, c5, has, l1, l2, l5, p1, p2 + (p3 + p4), password, now);
    IssuedThen(store.origin, c0, c1, c5, has, l0, l1, l5, p0, p1 + (p2 + (p3 + p4)), password, now);
    BundlePlan(hits);
    BundleSlots(store.origin, hits, |c0|, |c1|, |c2|, |c3|, |c4|);
  }

  /**
   * `fm_get_dmr_details(doc, pkg_or_mfg, part)`: a fresh password, then the
   * drawing-package link (shared by five slots), the instruction link, the
   * setup-sheet, specification and post-sterilization links, and three
   * text-only slots.
   */
  method FmGetDmrDetails(store: Store, tracker: LinkTracker, doc: Record, kind: Collection, part: string,
                         draws: seq<nat>, now: int) returns (details: DmrDetails, password: string)
    requires ValidDraws(draws) && |draws| == PasswordLength
    modifies store, tracker
    ensures password == RandomizedPassword(draws) && ValidPassword(password)
    ensures var hits := BundleHits(store.listing, kind, part, DocumentIdsOf(doc, kind));
            && Issued(store.origin, old(store.created), store.created, tracker.hasDocument, old(tracker.links), tracker.links,
                      PlanAll(hits, BundleMinutes), password, now)
            && DocumentLinks(details) == SlotLinks(store.origin, |old(store.created)|, hits)
    ensures details.shipperLabel.link == details.contentLabel.link == details.dispenserLabel.link
         == details.printMat.link == details.dmr.link
    ensures details.dco.link.None? && details.ink.link.None? && details.specialInstructions.link.None?
    ensures SlotNames(details) == NamesFor(doc, kind, part)
    ensures store.deletedIds == old(store.deletedIds) && tracker.hasDocument == old(tracker.hasDocument)
  {
    password := RandomizedPassword(draws);
    var ids := DocumentIdsOf(doc, kind);
    var names := NamesFor(doc, kind, part);
    var dmrLink, miLink, mssLink, qasLink, pssLink := ShareDocuments(store, tracker, kind, part, ids, password, now);
    details := Assemble(names, dmrLink, miLink, mssLink, qasLink, pssLink);
  }

  /**
   * The twelve slots from their names and the five document links: the
   * drawing-package link goes to the five slots of the drawing package and
   * its labels, the last three slots carry text only.
   */
  function Assemble(names: seq<string>, dmrLink: Option<string>, miLink: Option<string>, mssLink: Option<string>,
                    qasLink: Option<string>, pssLink: Option<string>): (d: DmrDetails)
    requires |names| == 12
    ensures SlotNames(d) == names
    ensures DocumentLinks(d) == [dmrLink, miLink, mssLink, qasLink, pssLink]
    ensures d.shipperLabel.link == d.contentLabel.link == d.dispenserLabel.link == d.printMat.link == d.dmr.link
    ensures d.dco.link.None? && d.ink.link.None? && d.specialInstructions.link.None?
  {
    var d := DmrDetails(
      Slot(names[0], mssLink), Slot(names[1], miLink), Slot(names[2], qasLink), Slot(names[3], pssLink),
      Slot(names[4], dmrLink), Slot(names[5], dmrLink), Slot(names[6], dmrLink), Slot(names[7], dmrLink),
      Slot(names[8], dmrLink), Slot(names[9], None), Slot(names[10], None), Slot(names[11], None));
    assert SlotNames(d) == names;
    d
  }

  // ----- Unrolling the five-document bundle -----

  lemma PlanAllStep(hits: seq<Option<FileEntry>>, minutes: seq<int>, k: nat)
    requires |hits| == |minutes| && k < |hits|
    ensures PlanAll(hits[k..], minutes[k..]) == PlanOf(hits[k], minutes[k]) + PlanAll(hits[k + 1..], minutes[k + 1..])
  {
    assert hits[k..][1..] == hits[k + 1..] && minutes[k..][1..] == minutes[k + 1..];
  }

  /** The bundle's plan, unrolled: the drawing package for five minutes, the other four for thirty. */
  lemma BundlePlan(hits: seq<Option<FileEntry>>)
    requires |hits| == 5
    ensures PlanAll(hits, BundleMinutes)
         == PlanOf(hits[0], DmrMinutes) + (PlanOf(hits[1], LinkMinutes) + (PlanOf(hits[2], LinkMinutes)
          + (PlanOf(hits[3], LinkMinutes) + PlanOf(hits[4], LinkMinutes))))
  {
    var m := BundleMinutes;
    var p4 := PlanOf(hits[4], LinkMinutes);
    PlanAllStep(hits, m, 4);
    assert PlanAll(hits[5..], m[5..]) == [];
    assert PlanAll(hits[4..], m[4..]) == p4 + [] == p4;
    PlanAllStep(hits, m, 3);
    PlanAllStep(hits, m, 2);
    PlanAllStep(hits, m, 1);
    PlanAllStep(hits, m, 0);
    assert hits[0..] == hits && m[0..] == m;
  }

  /**
   * The slot links of the bundle, given where the server's count stood
   * before each of the five shares.
   */
  lemma BundleSlots(origin: string, hits: seq<Option<FileEntry>>, c0: nat, c1: nat, c2: nat, c3: nat, c4: nat)
    requires |hits| == 5
    requires c1 == c0 + Taken(hits[0]) && c2 == c1 + Taken(hits[1]) && c3 == c2 + Taken(hits[2])
    requires c4 == c3 + Taken(hits[3])
    ensures SlotLinks(origin, c0, hits)
         == [LinkFor(origin, c0, hits[0]), LinkFor(origin, c1, hits[1]), LinkFor(origin, c2, hits[2]),
             LinkFor(origin, c3, hits[3]), LinkFor(origin, c4, hits[4])]
  {
    var counts := [c0, c1, c2, c3, c4];
    forall k | 0 <= k < 5
      ensures c0 + Found(hits[..k]) == counts[k]
    {
      SlotBase(c0, hits, counts, k);
    }
  }

  lemma {:induction false} SlotBase(base: nat, hits: seq<Option<FileEntry>>, counts: seq<nat>, k: nat)
    requires |hits| == 5 && |counts| == 5 && counts[0] == base
    requires forall k :: 0 <= k < 4 ==> counts[k + 1] == counts[k] + Taken(hits[k])
    requires k < 5
    ensures base + Found(hits[..k]) == counts[k]
  {
    if k == 0 {
      assert hits[..0] == [];
    } else {
      SlotBase(base, hits, counts, k - 1);
      FoundStep(hits, k - 1);
    }
  }
}
