/**
 * The three document finders: each lists a folder on the file server,
 * shares the first file whose name fits, records the link in the tracker
 * and returns the link without its port; none is shared when nothing fits.
 */
module Finders {
  import opened Shared
  import opened Text
  import opened FileStore
  import opened Tracker

  /** How a finder tests a file name: exact equality, or a case-insensitive search. */
  datatype Matcher = ExactName(name: string) | Pattern(pattern: string)

  predicate Hit(m: Matcher, name: string) {
    match m
    case ExactName(n) => name == n
    case Pattern(p) => ContainsIgnoreCase(name, p)
  }

  /** Server-side lifetime of a drawing-package link, in minutes. */
  const DmrMinutes: int := 5
  /** Server-side lifetime of every other link, in minutes. */
  const LinkMinutes: int := 30

  /** The default folders of the two sub-folder finders. */
  const DmrFolder: string := "Device Master Record (DMR) + Artwork"
  const QasFolder: string := "Quality Assurance Specification (QAS, QAS-R) PDF"

  // ----- Which file a finder shares -----

  /** The first entry of a listing whose name fits `m`. */
  function FirstMatch(entries: seq<FileEntry>, m: Matcher): (r: Option<FileEntry>)
    ensures r.Some? ==> r.value in entries && Hit(m, r.value.name)
  {
    if entries == [] then None
    else if Hit(m, entries[0].name) then Some(entries[0])
    else FirstMatch(entries[1..], m)
  }

  /** A listing yields no file exactly when no name in it fits. */
  lemma {:induction false} FirstMatchNone(entries: seq<FileEntry>, m: Matcher)
    ensures FirstMatch(entries, m).None? <==> forall i :: 0 <= i < |entries| ==> !Hit(m, entries[i].name)
  {
    if entries != [] {
      FirstMatchNone(entries[1..], m);
      assert forall i :: 1 <= i < |entries| ==> entries[i] == entries[1..][i - 1];
    }
  }

  /**
   * The file the sub-folder finders share: for each directory of the
   * listing in turn, the first fitting file among its children.
   */
  function FirstInSubfolders(listing: map<string, seq<FileEntry>>, entries: seq<FileEntry>, m: Matcher): (r: Option<FileEntry>)
    ensures r.Some? ==> Hit(m, r.value.name)
  {
    if entries == [] then None
    else if entries[0].isdir && FirstMatch(ChildrenOf(listing, entries[0].path), m).Some? then
      FirstMatch(ChildrenOf(listing, entries[0].path), m)
    else FirstInSubfolders(listing, entries[1..], m)
  }

  /** The sub-folder search yields no file exactly when no directory of the listing holds a fitting child. */
  lemma {:induction false} FirstInSubfoldersNone(listing: map<string, seq<FileEntry>>, entries: seq<FileEntry>, m: Matcher)
    ensures FirstInSubfolders(listing, entries, m).None?
            <==> forall i :: 0 <= i < |entries| && entries[i].isdir ==> FirstMatch(ChildrenOf(listing, entries[i].path), m).None?
  {
    if entries != [] {
      FirstInSubfoldersNone(listing, entries[1..], m);
      assert forall i :: 1 <= i < |entries| ==> entries[i] == entries[1..][i - 1];
    }
  }

  /** Nothing before the first fitting entry fits. */
  lemma {:induction false} FirstMatchIsFirst(entries: seq<FileEntry>, m: Matcher) returns (k: nat)
    requires FirstMatch(entries, m).Some?
    ensures k < |entries| && entries[k] == FirstMatch(entries, m).value
    ensures forall j :: 0 <= j < k ==> !Hit(m, entries[j].name)
  {
    if Hit(m, entries[0].name) {
      k := 0;
    } else {
      var k' := FirstMatchIsFirst(entries[1..], m);
      k := k' + 1;
    }
  }

  /**
   * The shared file is a child of the first directory holding a fitting
   * file: no directory before it holds one.
   */
  lemma {:induction false} FirstInSubfoldersIsFirst(listing: map<string, seq<FileEntry>>, entries: seq<FileEntry>, m: Matcher) returns (k: nat)
    requires FirstInSubfolders(listing, entries, m).Some?
    ensures k < |entries| && entries[k].isdir
    ensures FirstInSubfolders(listing, entries, m) == FirstMatch(ChildrenOf(listing, entries[k].path), m)
    ensures FirstInSubfolders(listing, entries[..k], m).None?
  {
    if entries[0].isdir && FirstMatch(ChildrenOf(listing, entries[0].path), m).Some? {
      k := 0;
      assert entries[..0] == [];
    } else {
      var rest := entries[1..];
      assert FirstInSubfolders(listing, entries, m) == FirstInSubfolders(listing, rest, m);
      var k' := FirstInSubfoldersIsFirst(listing, rest, m);
      k := k' + 1;
      assert entries[k] == rest[k'];
      var before := entries[..k];
      assert before[0] == entries[0] && before[1..] == rest[..k'];
    }
  }

  /** An empty search pattern fits every name, so the first entry of the folder is shared. */
  lemma EmptyPatternSharesFirstEntry(entries: seq<FileEntry>)
    requires entries != []
    ensures FirstMatch(entries, Pattern("")) == Some(entries[0])
  {
    assert OccursAt(Upper(entries[0].name), Upper(""), 0);
  }

  // ----- What a finder changes -----

  /** A file to share and the server-side lifetime its link gets. */
  datatype Planned = Planned(path: string, minutes: int)

  /** How many links a finder creates for its hit: one if it has one. */
  function Taken(hit: Option<FileEntry>): nat {
    if hit.Some? then 1 else 0
  }

  /** The link a finder creates for its hit, if it has one. */
  function PlanOf(hit: Option<FileEntry>, minutes: int): (plan: seq<Planned>)
    ensures |plan| == Taken(hit)
  {
    if hit.Some? then [Planned(hit.value.path, minutes)] else []
  }

  /** The shares the server holds after creating the planned links, numbered from `base`. */
  function NewShares(origin: string, base: nat, plan: seq<Planned>, password: string, now: int): (shares: seq<Share>)
    ensures |shares| == |plan|
    decreases |plan|
  {
    if plan == [] then []
    else [Share(LinkUrl(origin, base), plan[0].path, password, now + plan[0].minutes)]
         + NewShares(origin, base + 1, plan[1..], password, now)
  }

  /** The tracker entries pushed for `count` new shares numbered from `base`: their links, the same password, thirty minutes. */
  function NewTracked(origin: string, base: nat, count: nat, password: string, now: int): (tracked: seq<TrackedLink>)
    ensures |tracked| == count
    decreases count
  {
    if count == 0 then []
    else [TrackedLink(IssuedLink(origin, base), password, now + TrackedMinutes)] + NewTracked(origin, base + 1, count - 1, password, now)
  }

  /**
   * The server went from `created0` to `created1` and the tracker from
   * `links0` to `links1` by sharing exactly the planned files, in order.
   */
  predicate Issued(origin: string, created0: seq<Share>, created1: seq<Share>, hasDocument: bool,
                   links0: seq<TrackedLink>, links1: seq<TrackedLink>, plan: seq<Planned>, password: string, now: int)
  {
    && created1 == created0 + NewShares(origin, |created0|, plan, password, now)
    && links1 == links0 + (if hasDocument then NewTracked(origin, |created0|, |plan|, password, now) else [])
  }

  /** The link a finder hands out for the `n`-th share: the origin without its port token, then the share's path. */
  function IssuedLink(origin: string, n: nat): string {
    StripPort(origin) + "/sharing/" + Digits(n)
  }

  /** Removing the port token from a whole share URL only ever touches its origin. */
  lemma IssuedLinkIsStrippedUrl(origin: string, n: nat)
    ensures StripPort(LinkUrl(origin, n)) == IssuedLink(origin, n)
  {
    var id := Digits(n);
    assert ':' !in id;
    var path := "/sharing/" + id;
    assert path[0] == '/' && ':' !in path;
    StripPortAppendPath(origin, path);
    assert LinkUrl(origin, n) == origin + path;
    assert IssuedLink(origin, n) == StripPort(origin) + path;
  }

  /**
   * A server whose origin is a host followed by the port token hands out
   * links on the bare host: the URL loses exactly that token.
   */
  lemma PortedOriginLink(host: string, n: nat)
    requires !Contains(host, Port)
    ensures StripPort(LinkUrl(host + Port, n)) == host + "/sharing/" + Digits(n)
    ensures IssuedLink(host + Port, n) == host + "/sharing/" + Digits(n)
  {
    StripPortAfterHost(host, []);
    assert host + Port + [] == host + Port;
    IssuedLinkIsStrippedUrl(host + Port, n);
  }

  /** An `https://` origin whose host name has no colon holds no port token. */
  lemma HttpsHostHasNoPort(name: string)
    requires ':' !in name
    ensures !Contains("https://" + name, Port)
  {
    var scheme := "https://";
    var s := scheme + name;
    forall i | 0 <= i <= |s|
      ensures !OccursAt(s, Port, i)
    {
      if i + |Port| <= |s| {
        var w := s[i..i + |Port|];
        if i == 5 {
          assert w[1] == s[6] == scheme[6] == '/';
        } else if i < |scheme| {
          assert w[0] == s[i] == scheme[i] != ':';
        } else {
          assert w[0] == s[i] == name[i - |scheme|];
        }
      }
    }
  }

  /**
   * The links a server at `https://<name>:5001` hands out are on
   * `https://<name>`, followed by the share's path.
   */
  lemma HttpsLinkLosesPort(name: string, n: nat)
    requires ':' !in name
    ensures IssuedLink("https://" + name + Port, n) == "https://" + name + "/sharing/" + Digits(n)
  {
    HttpsHostHasNoPort(name);
    PortedOriginLink("https://" + name, n);
  }

  /** The link a finder returns for its hit, if it has one. */
  function LinkFor(origin: string, base: nat, hit: Option<FileEntry>): Option<string> {
    if hit.Some? then Some(IssuedLink(origin, base)) else None
  }

  lemma {:induction false} NewSharesAppend(origin: string, base: nat, p: seq<Planned>, q: seq<Planned>, password: string, now: int)
    ensures NewShares(origin, base, p + q, password, now)
         == NewShares(origin, base, p, password, now) + NewShares(origin, base + |p|, q, password, now)
    decreases |p|
  {
    if p == [] {
      assert p + q == q;
    } else {
      assert (p + q)[0] == p[0] && (p + q)[1..] == p[1..] + q;
      NewSharesAppend(origin, base + 1, p[1..], q, password, now);
    }
  }

  lemma {:induction false} NewTrackedAppend(origin: string, base: nat, m: nat, n: nat, password: string, now: int)
    ensures NewTracked(origin, base, m + n, password, now)
         == NewTracked(origin, base, m, password, now) + NewTracked(origin, base + m, n, password, now)
    decreases m
  {
    if m > 0 {
      NewTrackedAppend(origin, base + 1, m - 1, n, password, now);
    }
  }

  /** Two issuing steps in a row issue the concatenated plan. */
  lemma IssuedThen(origin: string, c0: seq<Share>, c1: seq<Share>, c2: seq<Share>, hasDocument: bool,
                   l0: seq<TrackedLink>, l1: seq<TrackedLink>, l2: seq<TrackedLink>,
                   p: seq<Planned>, q: seq<Planned>, password: string, now: int)
    requires Issued(origin, c0, c1, hasDocument, l0, l1, p, password, now)
    requires Issued(origin, c1, c2, hasDocument, l1, l2, q, password, now)
    ensures Issued(origin, c0, c2, hasDocument, l0, l2, p + q, password, now)
  {
    SharesThen(origin, c0, c1, c2, p, q, password, now);
    if hasDocument {
      TrackedThen(origin, |c0|, |c1|, l0, l1, l2, |p|, |q|, password, now);
    }
  }

  lemma SharesThen(origin: string, c0: seq<Share>, c1: seq<Share>, c2: seq<Share>,
                   p: seq<Planned>, q: seq<Planned>, password: string, now: int)
    requires c1 == c0 + NewShares(origin, |c0|, p, password, now)
    requires c2 == c1 + NewShares(origin, |c1|, q, password, now)
    ensures c2 == c0 + NewShares(origin, |c0|, p + q, password, now)
  {
    var sp, sq := NewShares(origin, |c0|, p, password, now), NewShares(origin, |c1|, q, password, now);
    assert |c1| == |c0| + |p|;
    NewSharesAppend(origin, |c0|, p, q, password, now);
    ConcatAssoc(c0, sp, sq);
  }

  lemma TrackedThen(origin: string, n0: nat, n1: nat, l0: seq<TrackedLink>, l1: seq<TrackedLink>, l2: seq<TrackedLink>,
                    a: nat, b: nat, password: string, now: int)
    requires n1 == n0 + a
    requires l1 == l0 + NewTracked(origin, n0, a, password, now)
    requires l2 == l1 + NewTracked(origin, n1, b, password, now)
    ensures l2 == l0 + NewTracked(origin, n0, a + b, password, now)
  {
    var tp, tq := NewTracked(origin, n0, a, password, now), NewTracked(origin, n1, b, password, now);
    NewTrackedAppend(origin, n0, a, b, password, now);
    ConcatAssoc(l0, tp, tq);
  }

  /** The `k`-th new share is the `k`-th planned file under the `k`-th minted URL. */
  lemma {:induction false} NewShareAt(origin: string, base: nat, plan: seq<Planned>, password: string, now: int, k: nat)
    requires k < |plan|
    ensures NewShares(origin, base, plan, password, now)[k]
         == Share(LinkUrl(origin, base + k), plan[k].path, password, now + plan[k].minutes)
    decreases k
  {
    if k > 0 {
      var rest := NewShares(origin, base + 1, plan[1..], password, now);
      NewShareAt(origin, base + 1, plan[1..], password, now, k - 1);
      assert NewShares(origin, base, plan, password, now)[k] == rest[k - 1];
    }
  }

  /** The `k`-th tracker entry carries the `k`-th issued link. */
  lemma {:induction false} NewTrackedAt(origin: string, base: nat, count: nat, password: string, now: int, k: nat)
    requires k < count
    ensures NewTracked(origin, base, count, password, now)[k] == TrackedLink(IssuedLink(origin, base + k), password, now + TrackedMinutes)
    decreases k
  {
    if k > 0 {
      NewTrackedAt(origin, base + 1, count - 1, password, now, k - 1);
    }
  }

  /** The id after the last slash of an issued link is the share's own id. */
  lemma IssuedLinkId(origin: string, n: nat)
    ensures LastSegment(IssuedLink(origin, n)) == Digits(n)
  {
    var id := Digits(n);
    assert '/' !in id;
    assert IssuedLink(origin, n) == (StripPort(origin) + "/sharing") + "/" + id;
    LastSegmentAfterSlash(StripPort(origin) + "/sharing", id);
  }

  /**
   * Every tracked entry of an issue names the share at the same position:
   * its link is that share's URL without the port, with the same password,
   * and the sweep will delete, on the server, exactly that share's own id.
   */
  lemma TrackedIdIsShareId(origin: string, base: nat, plan: seq<Planned>, password: string, now: int, k: nat)
    requires k < |plan|
    ensures var share := NewShares(origin, base, plan, password, now)[k];
            var entry := NewTracked(origin, base, |plan|, password, now)[k];
            && entry.link == StripPort(share.url)
            && entry.password == share.password
            && LastSegment(entry.link) == Digits(base + k)
  {
    var n := base + k;
    NewShareAt(origin, base, plan, password, now, k);
    NewTrackedAt(origin, base, |plan|, password, now, k);
    IssuedLinkIsStrippedUrl(origin, n);
    IssuedLinkId(origin, n);
  }

  // ----- The finders -----

  /**
   * The common tail of every finder: create the link, drop the port token
   * from its URL, track it, return it.
   */
  method ShareAndTrack(store: Store, tracker: LinkTracker, path: string, password: string, minutes: int, now: int)
    returns (link: string)
    modifies store, tracker
    ensures link == IssuedLink(store.origin, |old(store.created)|)
    ensures Issued(store.origin, old(store.created), store.created, tracker.hasDocument,
                   old(tracker.links), tracker.links, [Planned(path, minutes)], password, now)
    ensures store.deletedIds == old(store.deletedIds) && tracker.hasDocument == old(tracker.hasDocument)
  {
    var url := store.CreateSharingLink(path, password, now + minutes);
    link := StripPort(url);
    IssuedLinkIsStrippedUrl(store.origin, |old(store.created)|);
    tracker.UpdateLinkTracker(link, password, now);
  }

  /**
   * The loop every finder runs over one folder's entries: the first entry
   * the matcher accepts is shared, and the search stops there.
   */
  method ShareFirstMatch(store: Store, tracker: LinkTracker, entries: seq<FileEntry>, m: Matcher, minutes: int,
                         password: string, now: int) returns (link: Option<string>)
    modifies store, tracker
    ensures var hit := FirstMatch(entries, m);
            && link == LinkFor(store.origin, |old(store.created)|, hit)
            && Issued(store.origin, old(store.created), store.created, tracker.hasDocument,
                      old(tracker.links), tracker.links, PlanOf(hit, minutes), password, now)
    ensures link.None? ==> store.created == old(store.created) && tracker.links == old(tracker.links)
    ensures store.deletedIds == old(store.deletedIds) && tracker.hasDocument == old(tracker.hasDocument)
  {
    var i := 0;
    while i < |entries|
      invariant 0 <= i <= |entries|
      invariant FirstMatch(entries[i..], m) == FirstMatch(entries, m)
      invariant store.created == old(store.created) && store.deletedIds == old(store.deletedIds)
      invariant tracker.links == old(tracker.links) && tracker.hasDocument == old(tracker.hasDocument)
    {
      if Hit(m, entries[i].name) {
        var shared := ShareAndTrack(store, tracker, entries[i].path, password, minutes, now);
        return Some(shared);
      }
      assert entries[i..][1..] == entries[i + 1..];
      i := i + 1;
    }
    return None;
  }

  /**
   * The sub-folder search the drawing-package and specification finders
   * share: the directories of `path` in order, the children of each in
   * order, the first fitting child shared.
   */
  method ShareFirstInSubfolders(store: Store, tracker: LinkTracker, path: string, m: Matcher, minutes: int,
                                password: string, now: int) returns (link: Option<string>)
    modifies store, tracker
    ensures var hit := FirstInSubfolders(store.listing, ChildrenOf(store.listing, FolderPath(path)), m);
            && link == LinkFor(store.origin, |old(store.created)|, hit)
            && Issued(store.origin, old(store.created), store.created, tracker.hasDocument,
                      old(tracker.links), tracker.links, PlanOf(hit, minutes), password, now)
    ensures store.deletedIds == old(store.deletedIds) && tracker.hasDocument == old(tracker.hasDocument)
  {
    var files := ChildrenOf(store.listing, FolderPath(path));
    var i := 0;
    while i < |files|
      invariant 0 <= i <= |files|
      invariant FirstInSubfolders(store.listing, files[i..], m) == FirstInSubfolders(store.listing, files, m)
      invariant store.created == old(store.created) && store.deletedIds == old(store.deletedIds)
      invariant tracker.links == old(tracker.links) && tracker.hasDocument == old(tracker.hasDocument)
    {
      var file := files[i];
      if file.isdir {
        link := ShareFirstMatch(store, tracker, ChildrenOf(store.listing, file.path), m, minutes, password, now);
        if link.Some? {
          return;
        }
      }
      assert files[i..][1..] == files[i + 1..];
      i := i + 1;
    }
    return None;
  }

  /**
   * `dmr_create_sharing_link(part, password, path)`: the first file named
   * exactly `part` in a sub-folder of the drawing-package folder, shared for
   * five minutes.
   */
  method DmrCreateSharingLink(store: Store, tracker: LinkTracker, part: string, password: string, path: string, now: int)
    returns (link: Option<string>)
    modifies store, tracker
    ensures var hit := FirstInSubfolders(store.listing, ChildrenOf(store.listing, FolderPath(path)), ExactName(part));
            && link == LinkFor(store.origin, |old(store.created)|, hit)
            && Issued(store.origin, old(store.created), store.created, tracker.hasDocument,
                      old(tracker.links), tracker.links, PlanOf(hit, DmrMinutes), password, now)
    ensures store.deletedIds == old(store.deletedIds) && tracker.hasDocument == old(tracker.hasDocument)
  {
    link := ShareFirstInSubfolders(store, tracker, path, ExactName(part), DmrMinutes, password, now);
  }

  /**
   * `qas_create_sharing_link(qas_id, password, path)`: the first file whose
   * name contains `qasId`, ignoring case, in a sub-folder of the
   * specification folder, shared for thirty minutes.
   */
  method QasCreateSharingLink(store: Store, tracker: LinkTracker, qasId: string, password: string, path: string, now: int)
    returns (link: Option<string>)
    modifies store, tracker
    ensures var hit := FirstInSubfolders(store.listing, ChildrenOf(store.listing, FolderPath(path)), Pattern(qasId));
            && link == LinkFor(store.origin, |old(store.created)|, hit)
            && Issued(store.origin, old(store.created), store.created, tracker.hasDocument,
                      old(tracker.links), tracker.links, PlanOf(hit, LinkMinutes), password, now)
    ensures store.deletedIds == old(store.deletedIds) && tracker.hasDocument == old(tracker.hasDocument)
  {
    link := ShareFirstInSubfolders(store, tracker, path, Pattern(qasId), LinkMinutes, password, now);
  }

  /**
   * `flat_path_create_sharing_link(filename_partial, password, path)`: the
   * first entry of the folder itself, directory or not, whose name contains
   * `partial`, ignoring case, shared for thirty minutes.
   */
  method FlatPathCreateSharingLink(store: Store, tracker: LinkTracker, partial: string, password: string, path: string, now: int)
    returns (link: Option<string>)
    modifies store, tracker
    ensures var hit := FirstMatch(ChildrenOf(store.listing, FolderPath(path)), Pattern(partial));
            && link == LinkFor(store.origin, |old(store.created)|, hit)
            && Issued(store.origin, old(store.created), store.created, tracker.hasDocument,
                      old(tracker.links), tracker.links, PlanOf(hit, LinkMinutes), password, now)
    ensures store.deletedIds == old(store.deletedIds) && tracker.hasDocument == old(tracker.hasDocument)
  {
    link := ShareFirstMatch(store, tracker, ChildrenOf(store.listing, FolderPath(path)), Pattern(partial), LinkMinutes, password, now);
  }
}
