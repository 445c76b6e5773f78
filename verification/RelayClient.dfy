/** The client's half of a download: nothing enters the archive that is not the claimed content. */
module RelayClient {
  import opened Basics

  predicate HasFile(files: map<string, Bytes>, id: string, sha: Digest) {
    id in files && Sha256(files[id]) == sha
  }

  /** What `pull` accepts of a body: the digest of the claim, and for a new file its size as well. */
  predicate IsGenuine(files: map<string, Bytes>, id: string, body: Bytes, size: nat, sha: Digest) {
    Sha256(body) == sha && (HasFile(files, id, sha) || |body| == size)
  }

  /** A file saved before is kept if it has the right digest; otherwise the new one replaces it. */
  function WithFile(files: map<string, Bytes>, id: string, body: Bytes, sha: Digest): map<string, Bytes> {
    if HasFile(files, id, sha) then files else files[id := body]
  }

  class Archive {
    var files: map<string, Bytes>
    var partial: map<string, Bytes>

    constructor ()
      ensures files == map[] && partial == map[]
    {
      files, partial := map[], map[];
    }

    /** One item of `pull`, from the open response to the file in place. The body goes to a partial
        file block by block; whatever happens, the partial file does not stay. */
    method Receive(id: string, blocks: seq<Bytes>, size: nat, sha: Digest) returns (ok: bool)
      modifies this
      ensures ok <==> IsGenuine(old(files), id, Joined(blocks), size, sha)
      ensures files == if ok then WithFile(old(files), id, Joined(blocks), sha) else old(files)
      ensures partial == if HasFile(old(files), id, sha) then old(partial) else old(partial) - {id}
      ensures ok ==> HasFile(files, id, sha)
    {
      var read: Bytes := [];
      var i := 0;
      var known := HasFile(files, id, sha);
      if !known { partial := partial[id := []]; }
      while i < |blocks|
        invariant 0 <= i <= |blocks| && read == Joined(blocks[..i]) && files == old(files)
        invariant if known then partial == old(partial) else partial == old(partial)[id := read]
        invariant known || |read| <= size
      {
        JoinedSplit(blocks, i + 1);
        JoinedSplit(blocks[..i + 1], i);
        assert blocks[..i + 1][..i] == blocks[..i] && Joined(blocks[..i + 1][i..]) == blocks[i];
        read := read + blocks[i];
        if !known {
          if |read| > size {
            partial := partial - {id};
            return false;
          }
          partial := partial[id := read];
        }
        i := i + 1;
      }
      assert blocks[..i] == blocks;
      if Sha256(read) != sha || (!known && |read| != size) {
        if !known { partial := partial - {id}; }
        return false;
      }
      if !known {
        files, partial := files[id := partial[id]], partial - {id};
      }
      return true;
    }
  }
}
