/** The two kinds of output binding the relay's stages write to: a blob
    container (a map from blob name to bytes) and a queue collector (the
    messages enqueued so far, in order). Whether a write to the storage service
    or read succeeds is decided outside the relay, so each call takes that
    answer as a parameter. */
module Storage {
  import opened Wrappers

  newtype byte = x: int | 0 <= x < 256

  /** A blob container such as "images" or "publicimages". */
  class BlobContainer {
    /** The container's absolute address; a blob's address is this, '/', and its name. */
    const Uri: string
    var blobs: map<string, seq<byte>>

    constructor (uri: string, initial: map<string, seq<byte>>)
      ensures Uri == uri && blobs == initial
    {
      Uri := uri;
      blobs := initial;
    }

    /** `GetBlockBlobReference(name).ExistsAsync()`: whether the blob is
        there, or a failed request. */
    method Exists(name: string, succeeds: bool) returns (r: Result<bool>)
      ensures r == if succeeds then Ok(name in blobs) else Err(StorageRead)
    {
      if succeeds {
        r := Ok(name in blobs);
      } else {
        r := Err(StorageRead);
      }
    }

    /** `DownloadToByteArrayAsync`: the blob's bytes, or a failed request
        (which a missing blob also gives). */
    method Download(name: string, succeeds: bool) returns (r: Result<seq<byte>>)
      ensures r.Ok? <==> succeeds && name in blobs
      ensures r.Ok? ==> r.value == blobs[name]
      ensures r.Err? ==> r.error == StorageRead
    {
      if succeeds && name in blobs {
        r := Ok(blobs[name]);
      } else {
        r := Err(StorageRead);
      }
    }

    /** `UploadFromByteArrayAsync`: create or overwrite the blob `name`. */
    method Upload(name: string, bytes: seq<byte>, succeeds: bool) returns (r: Outcome)
      modifies this
      ensures r == if succeeds then Pass else Fail(StorageWrite)
      ensures blobs == if succeeds then old(blobs)[name := bytes] else old(blobs)
    {
      if succeeds {
        blobs := blobs[name := bytes];
        r := Pass;
      } else {
        r := Fail(StorageWrite);
      }
    }
  }

  /** The public address of blob `name` in the container at `containerUri`. */
  function BlobUri(containerUri: string, name: string): string
  {
    containerUri + "/" + name
  }

  /** An `IAsyncCollector<T>` bound to an output queue. */
  class Collector<T> {
    var items: seq<T>

    constructor ()
      ensures items == []
    {
      items := [];
    }

    /** `AddAsync(item)`: append `item` to the queue, or fail and append nothing. */
    method AddAsync(item: T, succeeds: bool) returns (r: Outcome)
      modifies this
      ensures r == if succeeds then Pass else Fail(QueueWrite)
      ensures items == if succeeds then old(items) + [item] else old(items)
    {
      if succeeds {
        items := items + [item];
        r := Pass;
      } else {
        r := Fail(QueueWrite);
      }
    }
  }
}
