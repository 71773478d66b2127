/**
 * The link tracker: one stored document holding every outstanding sharing
 * link with its password and tracked expiry, appended to on each creation
 * and rewritten with the survivors on each sweep.
 */
module Tracker {
  import opened Shared
  import opened Text
  import opened FileStore

  /** One tracked link; `expiresAt` is in minutes on the same clock as `now`. */
  datatype TrackedLink = TrackedLink(link: string, password: string, expiresAt: int)

  /** How long a tracked link lives, whatever expiry the server was given. */
  const TrackedMinutes: int := 30

  /** The entries a sweep at `now` keeps, in their original order. */
  function Survivors(links: seq<TrackedLink>, now: int): (kept: seq<TrackedLink>)
    ensures |kept| <= |links|
  {
    if links == [] then []
    else
      var last := links[|links| - 1];
      Survivors(links[..|links| - 1], now) + (if last.expiresAt > now then [last] else [])
  }

  /** The entries a sweep at `now` revokes, in their original order. */
  function Expired(links: seq<TrackedLink>, now: int): (gone: seq<TrackedLink>)
    ensures |gone| <= |links|
  {
    if links == [] then []
    else
      var last := links[|links| - 1];
      Expired(links[..|links| - 1], now) + (if last.expiresAt > now then [] else [last])
  }

  /** `link.split("/")[-1]` of each entry: the ids the server is asked to delete. */
  function IdsOf(links: seq<TrackedLink>): (ids: seq<string>)
    ensures |ids| == |links|
  {
    if links == [] then []
    else IdsOf(links[..|links| - 1]) + [LastSegment(links[|links| - 1].link)]
  }

  /**
   * `delete_shared_link(link)`: the server deletes the id after the URL's
   * last slash; that id is returned.
   */
  method DeleteSharedLink(store: Store, link: string) returns (linkId: string)
    modifies store
    ensures linkId == LastSegment(link)
    ensures store.deletedIds == old(store.deletedIds) + [linkId]
    ensures store.created == old(store.created)
  {
    linkId := LastSegment(link);
    store.DeleteSharedLink(linkId);
  }

  /** The tracking collection, reduced to its single document. */
  class LinkTracker {
    /** Whether the tracking document exists at all. */
    var hasDocument: bool
    var links: seq<TrackedLink>

    constructor (hasDocument: bool, links: seq<TrackedLink>)
      ensures this.hasDocument == hasDocument && this.links == links
    {
      this.hasDocument := hasDocument;
      this.links := links;
    }

    /**
     * `update_link_tracker(link, password)`: one entry expiring thirty
     * minutes from now is pushed at the end, if the document exists.
     */
    method UpdateLinkTracker(link: string, password: string, now: int)
      modifies this
      ensures hasDocument == old(hasDocument)
      ensures links == if hasDocument then old(links) + [TrackedLink(link, password, now + TrackedMinutes)] else old(links)
    {
      if hasDocument {
        links := links + [TrackedLink(link, password, now + TrackedMinutes)];
      }
    }

    /**
     * `loop_over_links()`: every entry that has expired at `now` is deleted
     * on the server, in order, and the document is rewritten with the rest.
     */
    method LoopOverLinks(store: Store, now: int)
      modifies this, store
      ensures hasDocument == old(hasDocument)
      ensures store.created == old(store.created)
      ensures links == if hasDocument then Survivors(old(links), now) else old(links)
      ensures store.deletedIds == old(store.deletedIds) + (if hasDocument then IdsOf(Expired(old(links), now)) else [])
    {
      if !hasDocument {
        return;
      }
      var entries := links;
      var notExpired: seq<TrackedLink> := [];
      ghost var before := store.deletedIds;
      var i := 0;
      while i < |entries|
        invariant 0 <= i <= |entries|
        invariant hasDocument
        invariant notExpired == Survivors(entries[..i], now)
        invariant store.deletedIds == before + IdsOf(Expired(entries[..i], now))
        invariant store.created == old(store.created)
      {
        var entry := entries[i];
        ghost var revoked := IdsOf(Expired(entries[..i], now));
        SurvivorsStep(entries, now, i);
        RevokedStep(entries, now, i);
        if entry.expiresAt > now {
          notExpired := notExpired + [entry];
        } else {
          var linkId := DeleteSharedLink(store, entry.link);
          ConcatAssoc(before, revoked, [linkId]);
        }
        i := i + 1;
      }
      assert entries[..|entries|] == entries;
      links := notExpired;
    }
  }

  // ----- What a sweep keeps and what it revokes -----

  /** One more entry is kept after everything before it, if it is still live. */
  lemma SurvivorsStep(links: seq<TrackedLink>, now: int, i: nat)
    requires i < |links|
    ensures Survivors(links[..i + 1], now) == Survivors(links[..i], now) + (if links[i].expiresAt > now then [links[i]] else [])
  {
    assert links[..i + 1][..i] == links[..i];
  }

  /** One more entry is revoked after everything before it, if it has expired. */
  lemma RevokedStep(links: seq<TrackedLink>, now: int, i: nat)
    requires i < |links|
    ensures IdsOf(Expired(links[..i + 1], now))
         == IdsOf(Expired(links[..i], now)) + (if links[i].expiresAt > now then [] else [LastSegment(links[i].link)])
  {
    var prefix := links[..i + 1];
    assert prefix[..i] == links[..i] && prefix[i] == links[i];
    if links[i].expiresAt <= now {
      var gone := Expired(links[..i], now);
      var more := gone + [links[i]];
      assert Expired(prefix, now) == more;
      assert more[..|more| - 1] == gone && more[|more| - 1] == links[i];
      assert IdsOf(more) == IdsOf(gone) + [LastSegment(links[i].link)];
    } else {
      var gone := Expired(links[..i], now);
      assert Expired(prefix, now) == gone + [];
      assert gone + [] == gone;
      var ids := IdsOf(gone);
      assert ids + [] == ids;
    }
  }

  /** A sweep splits the entries: every entry is kept or revoked, and none is both. */
  lemma {:induction false} SweepPartitions(links: seq<TrackedLink>, now: int)
    ensures multiset(Survivors(links, now)) + multiset(Expired(links, now)) == multiset(links)
    ensures |Survivors(links, now)| + |Expired(links, now)| == |links|
  {
    if links != [] {
      var init := links[..|links| - 1];
      var last := links[|links| - 1];
      SweepPartitions(init, now);
      assert links == init + [last];
      if last.expiresAt > now {
        assert Survivors(links, now) == Survivors(init, now) + [last];
        assert Expired(links, now) == Expired(init, now);
      } else {
        assert Survivors(links, now) == Survivors(init, now);
        assert Expired(links, now) == Expired(init, now) + [last];
      }
    }
  }

  /** An entry is kept exactly when it expires after `now`. */
  lemma {:induction false} SurvivorsExactly(links: seq<TrackedLink>, now: int, e: TrackedLink)
    ensures e in Survivors(links, now) <==> e in links && e.expiresAt > now
    ensures e in Expired(links, now) <==> e in links && e.expiresAt <= now
  {
    if links != [] {
      var init := links[..|links| - 1];
      SurvivorsExactly(init, now, e);
      assert links == init + [links[|links| - 1]];
    }
  }

  /** Sweeping keeps the original order: the sweep of a concatenation is the concatenation of the sweeps. */
  lemma {:induction false} SweepAppend(a: seq<TrackedLink>, b: seq<TrackedLink>, now: int)
    ensures Survivors(a + b, now) == Survivors(a, now) + Survivors(b, now)
    ensures Expired(a + b, now) == Expired(a, now) + Expired(b, now)
    decreases |b|
  {
    if b == [] {
      assert a + b == a;
    } else {
      var init := b[..|b| - 1];
      var last := b[|b| - 1];
      SweepAppend(a, init, now);
      assert (a + b)[..|a + b| - 1] == a + init;
      assert (a + b)[|a + b| - 1] == last;
      var tail := if last.expiresAt > now then [last] else [];
      var tailGone := if last.expiresAt > now then [] else [last];
      assert Survivors(a + b, now) == Survivors(a + init, now) + tail;
      assert Survivors(b, now) == Survivors(init, now) + tail;
      assert Expired(a + b, now) == Expired(a + init, now) + tailGone;
      assert Expired(b, now) == Expired(init, now) + tailGone;
    }
  }

  /** Every kept entry expires after `now`; every revoked one at or before it. */
  lemma {:induction false} SweepBounds(links: seq<TrackedLink>, now: int)
    ensures forall i :: 0 <= i < |Survivors(links, now)| ==> Survivors(links, now)[i].expiresAt > now
    ensures forall i :: 0 <= i < |Expired(links, now)| ==> Expired(links, now)[i].expiresAt <= now
  {
    if links != [] {
      SweepBounds(links[..|links| - 1], now);
    }
  }

  /** A second sweep at the same time keeps everything and revokes nothing. */
  lemma {:induction false} SweepIdempotent(links: seq<TrackedLink>, now: int)
    ensures Survivors(Survivors(links, now), now) == Survivors(links, now)
    ensures Expired(Survivors(links, now), now) == []
  {
    var kept := Survivors(links, now);
    SweepBounds(links, now);
    AllLiveKept(kept, now);
  }

  lemma {:induction false} AllLiveKept(links: seq<TrackedLink>, now: int)
    requires forall i :: 0 <= i < |links| ==> links[i].expiresAt > now
    ensures Survivors(links, now) == links && Expired(links, now) == []
  {
    if links != [] {
      AllLiveKept(links[..|links| - 1], now);
      assert links == links[..|links| - 1] + [links[|links| - 1]];
    }
  }

  /** Sweeping at `t1` and then at a later `t2` leaves what one sweep at `t2` leaves. */
  lemma {:induction false} SweepLater(links: seq<TrackedLink>, t1: int, t2: int)
    requires t1 <= t2
    ensures Survivors(Survivors(links, t1), t2) == Survivors(links, t2)
  {
    if links != [] {
      var init := links[..|links| - 1];
      var last := links[|links| - 1];
      SweepLater(init, t1, t2);
      SweepAppend(Survivors(init, t1), if last.expiresAt > t1 then [last] else [], t2);
    }
  }

  /**
   * A link tracked at time `t` outlives every sweep before `t + 30` and is
   * revoked by the first sweep at or after it.
   */
  lemma TrackedLifetime(links: seq<TrackedLink>, link: string, password: string, t: int, now: int)
    ensures var pushed := links + [TrackedLink(link, password, t + TrackedMinutes)];
            && (now < t + TrackedMinutes ==> Survivors(pushed, now) == Survivors(links, now) + [pushed[|links|]])
            && (now >= t + TrackedMinutes ==> Expired(pushed, now) == Expired(links, now) + [pushed[|links|]])
  {
    var pushed := links + [TrackedLink(link, password, t + TrackedMinutes)];
    assert pushed[..|pushed| - 1] == links;
  }

  /**
   * The id a sweep deletes for a tracked link is the id the server issued:
   * removing the port token from the URL leaves its last segment alone.
   */
  lemma SweptIdIsIssuedId(origin: string, n: nat)
    ensures LastSegment(StripPort(LinkUrl(origin, n))) == Digits(n)
  {
    var id := Digits(n);
    assert ':' !in id && '/' !in id;
    var path := "/sharing/" + id;
    assert path[0] == '/';
    assert ':' !in path;
    StripPortAppendPath(origin, path);
    assert LinkUrl(origin, n) == origin + path;
    assert StripPort(origin) + path == (StripPort(origin) + "/sharing") + "/" + id;
    LastSegmentAfterSlash(StripPort(origin) + "/sharing", id);
  }
}
