/**
 * The remote file server, as far as the core uses it: a folder listing,
 * sharing-link creation and sharing-link deletion.
 */
module FileStore {

  /** One child of a folder listing. */
  datatype FileEntry = FileEntry(name: string, path: string, isdir: bool)

  /** A sharing link the server created: its URL, the file, the password and the remote expiry. */
  datatype Share = Share(url: string, path: string, password: string, expiresAt: int)

  /** The folder every document category hangs under. */
  const RootPath: string := "/Document Control/Document Control @ Busse/PDF Controlled Documents"

  /** `root_path + f"/{path}"`. */
  function FolderPath(path: string): string {
    RootPath + "/" + path
  }

  /** The decimal digits of `n`. */
  function Digits(n: nat): (r: string)
    ensures |r| > 0
    ensures forall i :: 0 <= i < |r| ==> '0' <= r[i] <= '9'
  {
    (if n < 10 then [] else Digits(n / 10)) + [('0' as int + n % 10) as char]
  }

  /** The URL of the `n`-th link the server creates: its origin, then `/sharing/` and the link id. */
  function LinkUrl(origin: string, n: nat): string {
    origin + "/sharing/" + Digits(n)
  }

  /** The children the server lists for a folder; a folder it does not know has none. */
  function ChildrenOf(listing: map<string, seq<FileEntry>>, folder: string): seq<FileEntry> {
    if folder in listing then listing[folder] else []
  }

  /**
   * The file server. The listing is fixed; `created` and `deletedIds` record
   * every link created and every link id deleted, in order.
   */
  class Store {
    const listing: map<string, seq<FileEntry>>
    const origin: string
    var created: seq<Share>
    var deletedIds: seq<string>

    constructor (listing: map<string, seq<FileEntry>>, origin: string)
      ensures this.listing == listing && this.origin == origin
      ensures created == [] && deletedIds == []
    {
      this.listing := listing;
      this.origin := origin;
      created := [];
      deletedIds := [];
    }

    /** `create_sharing_link(path, password, date_expired)`: a new link, its URL returned. */
    method CreateSharingLink(path: string, password: string, expiresAt: int) returns (url: string)
      modifies this
      ensures url == LinkUrl(origin, |old(created)|)
      ensures created == old(created) + [Share(url, path, password, expiresAt)]
      ensures deletedIds == old(deletedIds)
    {
      url := LinkUrl(origin, |created|);
      created := created + [Share(url, path, password, expiresAt)];
    }

    /** `delete_shared_link(link_id)`. */
    method DeleteSharedLink(id: string)
      modifies this
      ensures deletedIds == old(deletedIds) + [id]
      ensures created == old(created)
    {
      deletedIds := deletedIds + [id];
    }
  }
}
