/** The relay's four queue-triggered stages, without their hosting plumbing:
    each stage is a function of its inbound message, or a method that writes
    to the blob containers and queue collectors it is bound to. Whatever the
    storage services, the HTTP client and `Guid.NewGuid` answer is passed in. */
module Functions {
  import opened Wrappers
  import opened Text
  import opened Decimals
  import opened EnumerableExtensions
  import opened Contracts
  import opened ProductUpdateMessageConverter
  import opened Storage

  /** The message of an "optproductimage" task: the working-store blob to
      optimize, which image of the product it is, and the product. */
  datatype OptimizeUpateImage = OptimizeUpateImage(BlobName: string, ImageType: string, ProductId: string)

  /** A decoded "productimage" request: three absolute image addresses and a product. */
  datatype ImageUpdateRequest = ImageUpdateRequest(
    BrandImageUri: string,
    LogoImageUri: string,
    ProductImageUri: string,
    ProductId: string)

  /** How many single updates the batch stage enqueues before waiting. */
  const BatchSize: nat := 250

  /** The tenant every relayed update is attributed to. */
  function GetCustomerId(): (id: string)
    ensures id == "JoesFoodHouse"
  {
    "JoesFoodHouse"
  }

  // ---------------------------------------------------------------------------
  // Single update stage: "update" queue -> "productupdate" queue

  /** Decode one partner message and attach the tenant: it fails exactly
      when decoding fails, with the same exception; otherwise the update
      carries the decoded branch, product, quantity, units and reason code
      and the constant tenant. */
  function ProductUpdateSingle(productUpdateMessage: string): (r: Result<ProductUpdate>)
    ensures r.Err? <==> From(productUpdateMessage).Err?
    ensures r.Err? ==> r.error == From(productUpdateMessage).error
    ensures r.Ok? ==>
      var updateMessage := From(productUpdateMessage).value;
      && r.value.CustomerId == "JoesFoodHouse"
      && r.value.BranchId == updateMessage.BranchId
      && r.value.ProductId == updateMessage.ProductId
      && r.value.Adjustment.Quantity == updateMessage.AdjustmentQuantity
      && r.value.Adjustment.Units == updateMessage.AdjustmentUnits
      && r.value.ReasonCode == updateMessage.ReasonCode
  {
    match From(productUpdateMessage)
    case Err(e) => Err(e)
    case Ok(updateMessage) =>
      Ok(ProductUpdate(
        CustomerId := GetCustomerId(),
        BranchId := updateMessage.BranchId,
        ProductId := updateMessage.ProductId,
        Adjustment := QuantityUnits(updateMessage.AdjustmentQuantity, updateMessage.AdjustmentUnits),
        ReasonCode := updateMessage.ReasonCode))
  }

  /** The single update stage fails exactly when decoding fails, with the same
      error; otherwise the update carries the constant tenant and wire tokens
      0, 1, 3 and 4 and the parsed token 2. */
  lemma {:induction false} SingleUpdateFromTokens(tokens: seq<string>)
    requires |tokens| >= 5
    requires forall k :: 0 <= k < |tokens| ==> NoneOf(tokens[k], " ")
    ensures Parse(tokens[2]).None? ==> ProductUpdateSingle(Join(tokens, ' ')) == Err(Format)
    ensures Parse(tokens[2]).Some? ==>
      ProductUpdateSingle(Join(tokens, ' '))
        == Ok(ProductUpdate("JoesFoodHouse", tokens[0], tokens[1],
                            QuantityUnits(Parse(tokens[2]).value, tokens[3]), tokens[4]))
  {
    FromTokens(tokens);
    SplitJoin(tokens, ' ', " ");
  }

  /** A message the partner encoded with `To` is relayed with all five of its
      fields and the constant tenant. */
  lemma {:induction false} SingleUpdateOfEncoded(message: ProductUpdateMessage)
    requires SpaceFree(message)
    ensures ProductUpdateSingle(To(message))
      == Ok(ProductUpdate("JoesFoodHouse", message.BranchId, message.ProductId,
                          QuantityUnits(message.AdjustmentQuantity, message.AdjustmentUnits),
                          message.ReasonCode))
  {
    RoundTrip(message);
  }

  // ---------------------------------------------------------------------------
  // Batch update stage: "batchupdate" queue -> "update" queue

  /** What a batch run did: whether it completed, the value of its counter,
      and the pieces it enqueued, in order. */
  datatype BatchRun = BatchRun(ok: bool, count: nat, enqueued: seq<string>)

  /** Every enqueue of pieces `base` to `base + n - 1` was accepted. */
  predicate AllAccepted(base: nat, n: nat, refused: set<nat>)
  {
    forall i :: base <= i < base + n ==> i !in refused
  }

  /** The pieces of `chunk`, the first of which is piece number `base` of the
      batch, whose enqueue the queue accepted (`i !in refused` is the queue's
      answer to the enqueue of piece i). */
  function Accepted(chunk: seq<string>, base: nat, refused: set<nat>): (r: seq<string>)
    ensures |r| <= |chunk|
    ensures |r| == |chunk| <==> AllAccepted(base, |chunk|, refused)
    ensures (AllAccepted(base, |chunk|, refused)) ==> r == chunk
    decreases |chunk|
  {
    if chunk == [] then []
    else
      var last := |chunk| - 1;
      assert chunk[..last] + [chunk[last]] == chunk;
      Accepted(chunk[..last], base, refused) + (if (base + last !in refused) then [chunk[last]] else [])
  }

  /** The batch loop over `chunks`, the first piece of which is piece number
      `base`: every piece of a chunk is enqueued; if any of them failed the run
      stops there without counting that chunk, otherwise the chunk is counted
      and the next one starts. */
  function RelayChunks(chunks: seq<seq<string>>, base: nat, refused: set<nat>): BatchRun
    decreases |chunks|
  {
    if chunks == [] then BatchRun(true, 0, [])
    else
      var sent := Accepted(chunks[0], base, refused);
      if |sent| < |chunks[0]| then BatchRun(false, 0, sent)
      else
        var rest := RelayChunks(chunks[1..], base + |chunks[0]|, refused);
        BatchRun(rest.ok, |chunks[0]| + rest.count, chunks[0] + rest.enqueued)
  }

  /** The whole batch stage on `batchUpdate`, split on the characters of the
      platform's `newLine` and cut into chunks of `BatchSize`. */
  function RelayBatch(batchUpdate: string, newLine: string, refused: set<nat>): BatchRun
    requires newLine != []
  {
    RelayChunks(Chunked(Split(batchUpdate, newLine), BatchSize), 0, refused)
  }

  /** `run` preceded by `count` already counted pieces that enqueued `sent`. */
  function After(count: nat, sent: seq<string>, run: BatchRun): BatchRun
  {
    BatchRun(run.ok, count + run.count, sent + run.enqueued)
  }

  /** `BatchProductUpdateAsync`. `newLine` is `Environment.NewLine`, which is
      never empty. The source chunks the lazily started enqueue tasks; since
      every task of a chunk has started before the wait on that chunk, and none
      of the next chunk before the wait ends, that is the same as chunking the
      pieces and enqueueing every piece of a chunk before waiting on it. */
  method BatchProductUpdate(batchUpdate: string, newLine: string, singleUpdateCollector: Collector<string>,
                            refused: set<nat>)
    returns (r: Outcome, count: nat)
    requires newLine != []
    modifies singleUpdateCollector
    ensures var run := RelayBatch(batchUpdate, newLine, refused);
      && r == (if run.ok then Pass else Fail(QueueWrite))
      && count == run.count
      && singleUpdateCollector.items == old(singleUpdateCollector.items) + run.enqueued
  {
    var pieces := Split(batchUpdate, newLine);
    var chunked := Chunk(pieces, BatchSize);
    r, count := EnqueueChunks(chunked.value, singleUpdateCollector, refused);
    RelayLoopChunks(chunked.value, 0, 0, [], refused);
    assert chunked.value[0..] == chunked.value;
  }

  /** The `foreach` loop of the batch stage over its chunks: wait for each
      chunk's enqueues, stop at the first chunk with a failure, and otherwise
      add the chunk's size to `count`. */
  method EnqueueChunks(batches: seq<seq<string>>, singleUpdateCollector: Collector<string>, refused: set<nat>)
    returns (r: Outcome, count: nat)
    modifies singleUpdateCollector
    ensures var run := RelayLoop(batches, 0, 0, [], refused);
      && r == (if run.ok then Pass else Fail(QueueWrite))
      && count == run.count
      && singleUpdateCollector.items == old(singleUpdateCollector.items) + run.enqueued
  {
    count := 0;
    ghost var sent: seq<string> := [];
    var b := 0;
    while b < |batches|
      invariant 0 <= b <= |batches|
      invariant RelayLoop(batches, b, count, sent, refused) == RelayLoop(batches, 0, 0, [], refused)
      invariant singleUpdateCollector.items == old(singleUpdateCollector.items) + sent
    {
      var batch := batches[b];
      var allAdded := EnqueueChunk(batch, count, singleUpdateCollector, refused);
      if !allAdded {
        assert (old(singleUpdateCollector.items) + sent) + Accepted(batch, count, refused)
          == old(singleUpdateCollector.items) + (sent + Accepted(batch, count, refused));
        sent := sent + Accepted(batch, count, refused);
        return Fail(QueueWrite), count;
      }
      assert (old(singleUpdateCollector.items) + sent) + batch == old(singleUpdateCollector.items) + (sent + batch);
      sent := sent + batch;
      count := count + |batch|;
      b := b + 1;
    }
    return Pass, count;
  }

  /** `RelayChunks` as the loop computes it: from chunk `b` on, with `count`
      pieces counted and `sent` enqueued so far. */
  function RelayLoop(chunks: seq<seq<string>>, b: nat, count: nat, sent: seq<string>, refused: set<nat>): BatchRun
    requires b <= |chunks|
    decreases |chunks| - b
  {
    if b == |chunks| then BatchRun(true, count, sent)
    else
      var accepted := Accepted(chunks[b], count, refused);
      if |accepted| < |chunks[b]| then BatchRun(false, count, sent + accepted)
      else RelayLoop(chunks, b + 1, count + |chunks[b]|, sent + chunks[b], refused)
  }

  lemma {:induction false} RelayLoopChunks(chunks: seq<seq<string>>, b: nat, count: nat, sent: seq<string>,
                                           refused: set<nat>)
    requires b <= |chunks|
    ensures RelayLoop(chunks, b, count, sent, refused) == After(count, sent, RelayChunks(chunks[b..], count, refused))
    decreases |chunks| - b
  {
    if b == |chunks| {
      assert sent + [] == sent;
    } else {
      assert chunks[b..][0] == chunks[b] && chunks[b..][1..] == chunks[b + 1..];
      if |Accepted(chunks[b], count, refused)| == |chunks[b]| {
        RelayLoopChunks(chunks, b + 1, count + |chunks[b]|, sent + chunks[b], refused);
        AfterAfter(count, sent, |chunks[b]|, chunks[b], RelayChunks(chunks[b + 1..], count + |chunks[b]|, refused));
      }
    }
  }

  lemma {:induction false} AfterAfter(count: nat, sent: seq<string>, count': nat, sent': seq<string>, run: BatchRun)
    ensures After(count, sent, After(count', sent', run)) == After(count + count', sent + sent', run)
  {
    assert sent + (sent' + run.enqueued) == (sent + sent') + run.enqueued;
  }

  /** `Task.WhenAll(batch)` on the enqueues of one chunk, whose first piece is
      piece number `base`: every piece is enqueued, whatever happens to the
      others, and the wait fails if any of them failed. */
  method EnqueueChunk(batch: seq<string>, base: nat, singleUpdateCollector: Collector<string>,
                      refused: set<nat>)
    returns (allAdded: bool)
    modifies singleUpdateCollector
    ensures allAdded <==> AllAccepted(base, |batch|, refused)
    ensures allAdded <==> |Accepted(batch, base, refused)| == |batch|
    ensures singleUpdateCollector.items == old(singleUpdateCollector.items) + Accepted(batch, base, refused)
    ensures allAdded ==> singleUpdateCollector.items == old(singleUpdateCollector.items) + batch
  {
    allAdded := true;
    for j := 0 to |batch|
      invariant singleUpdateCollector.items == old(singleUpdateCollector.items) + Accepted(batch[..j], base, refused)
      invariant allAdded <==> AllAccepted(base, j, refused)
    {
      var added := singleUpdateCollector.AddAsync(batch[j], (base + j !in refused));
      allAdded := allAdded && added.Pass?;
      assert batch[..j + 1][..j] == batch[..j];
      assert Accepted(batch[..j + 1], base, refused)
        == Accepted(batch[..j], base, refused) + (if base + j !in refused then [batch[j]] else []);
      assert AllAccepted(base, j + 1, refused) <==> AllAccepted(base, j, refused) && base + j !in refused;
    }
    assert batch[..|batch|] == batch;
  }

  /** If every piece is accepted, the run completes, counts every piece and
      enqueues them all, in order. */
  lemma {:induction false} RelayChunksDelivered(chunks: seq<seq<string>>, base: nat, refused: set<nat>)
    requires AllAccepted(base, |Flatten(chunks)|, refused)
    ensures RelayChunks(chunks, base, refused) == BatchRun(true, |Flatten(chunks)|, Flatten(chunks))
    decreases |chunks|
  {
    if chunks != [] {
      RelayChunksDelivered(chunks[1..], base + |chunks[0]|, refused);
    }
  }

  /** A completed run means every piece was accepted. */
  lemma {:induction false} RelayChunksOk(chunks: seq<seq<string>>, base: nat, refused: set<nat>)
    requires RelayChunks(chunks, base, refused).ok
    ensures AllAccepted(base, |Flatten(chunks)|, refused)
    decreases |chunks|
  {
    if chunks != [] {
      RelayChunksOk(chunks[1..], base + |chunks[0]|, refused);
    }
  }

  /** For batches, `ChunkStart` is `f` rounded down to a multiple of `BatchSize`. */
  lemma {:induction false} BatchChunkStart(f: nat)
    ensures ChunkStart(f, BatchSize) == f / BatchSize * BatchSize
    decreases f
  {
    if f >= BatchSize {
      BatchChunkStart(f - BatchSize);
    }
  }

  /** When the pieces of the first `k` chunks are all accepted, the loop
      reaches chunk `k` having counted and enqueued exactly those pieces. */
  lemma {:induction false} RelayLoopReaches(chunks: seq<seq<string>>, k: nat, refused: set<nat>)
    requires k <= |chunks|
    requires AllAccepted(0, |FlattenTo(chunks, k)|, refused)
    ensures RelayLoop(chunks, 0, 0, [], refused)
      == RelayLoop(chunks, k, |FlattenTo(chunks, k)|, FlattenTo(chunks, k), refused)
    decreases k
  {
    if k > 0 {
      var before := FlattenTo(chunks, k - 1);
      assert AllAccepted(0, |before|, refused);
      RelayLoopReaches(chunks, k - 1, refused);
      assert AllAccepted(|before|, |chunks[k - 1]|, refused);
    }
  }

  /** A refusal within chunk `k`, after every earlier piece was accepted, stops
      the loop there: it counts the earlier chunks and enqueues their pieces,
      then the accepted pieces of chunk `k`. */
  lemma {:induction false} RelayLoopStops(chunks: seq<seq<string>>, k: nat, refused: set<nat>)
    requires k < |chunks|
    requires AllAccepted(0, |FlattenTo(chunks, k)|, refused)
    requires !AllAccepted(|FlattenTo(chunks, k)|, |chunks[k]|, refused)
    ensures RelayLoop(chunks, 0, 0, [], refused)
      == BatchRun(false, |FlattenTo(chunks, k)|,
                  FlattenTo(chunks, k) + Accepted(chunks[k], |FlattenTo(chunks, k)|, refused))
  {
    RelayLoopReaches(chunks, k, refused);
  }

  /** The batch completes exactly when every piece is accepted, and then it
      counts and enqueues every piece, in order, empty pieces included. */
  lemma {:induction false} BatchDeliversAll(batchUpdate: string, newLine: string, refused: set<nat>)
    requires newLine != []
    ensures var pieces := Split(batchUpdate, newLine);
      var run := RelayBatch(batchUpdate, newLine, refused);
      run.ok <==> forall i :: 0 <= i < |pieces| ==> i !in refused
    ensures var pieces := Split(batchUpdate, newLine);
      var run := RelayBatch(batchUpdate, newLine, refused);
      run.ok ==> run.count == |pieces| && run.enqueued == pieces
  {
    var pieces := Split(batchUpdate, newLine);
    var chunks := Chunked(pieces, BatchSize);
    ChunkedFlatten(pieces, BatchSize);
    if forall i :: 0 <= i < |pieces| ==> i !in refused {
      RelayChunksDelivered(chunks, 0, refused);
    }
    if RelayChunks(chunks, 0, refused).ok {
      RelayChunksOk(chunks, 0, refused);
      RelayChunksDelivered(chunks, 0, refused);
    }
  }

  /** When piece `f` is the first one the queue refuses, the batch fails; its
      counter holds only the pieces of the chunks before the failing chunk,
      and what was enqueued is those pieces, then the accepted pieces of the
      failing chunk, and no piece of a later chunk. */
  lemma {:induction false} BatchStopsAtFailedChunk(batchUpdate: string, newLine: string, refused: set<nat>, f: nat)
    requires newLine != []
    requires var pieces := Split(batchUpdate, newLine); f < |pieces|
    requires f in refused && forall i :: 0 <= i < f ==> i !in refused
    ensures var pieces := Split(batchUpdate, newLine);
      var run := RelayBatch(batchUpdate, newLine, refused);
      var start := f / BatchSize * BatchSize;
      && !run.ok
      && run.count == start <= f < start + BatchSize
      && run.enqueued == pieces[..start] + Accepted(ChunkFrom(pieces, start, BatchSize), start, refused)
  {
    var pieces := Split(batchUpdate, newLine);
    var chunks := Chunked(pieces, BatchSize);
    var k := ChunkIndex(f, BatchSize);
    var start := ChunkStart(f, BatchSize);
    ChunkedAt(pieces, BatchSize, f);
    assert AllAccepted(0, start, refused);
    assert !AllAccepted(start, |chunks[k]|, refused);
    RelayLoopStops(chunks, k, refused);
    RelayLoopChunks(chunks, 0, 0, [], refused);
    assert chunks[0..] == chunks;
    assert [] + RelayChunks(chunks, 0, refused).enqueued == RelayChunks(chunks, 0, refused).enqueued;
    BatchChunkStart(f);
  }

  // ---------------------------------------------------------------------------
  // Image update stage: "productimage" queue -> "images" container and "optproductimage" queue

  predicate IsAlpha(c: char) { 'a' <= c <= 'z' || 'A' <= c <= 'Z' }

  predicate IsSchemeChar(c: char) { IsAlpha(c) || IsDigit(c) || c == '+' || c == '-' || c == '.' }

  /** A URI scheme (section 3.1 of RFC 3986) starts `text` and the ':' after
      it is at `k`: a letter, then letters, digits, '+', '-' or '.'. */
  predicate SchemeEndsAt(text: string, k: nat)
  {
    && 0 < k < |text| && text[k] == ':' && IsAlpha(text[0])
    && forall i :: 0 <= i < k ==> IsSchemeChar(text[i])
  }

  /** Whether `new Uri(text, UriKind.Absolute)` accepts `text`: the text before
      its first ':' is a URI scheme, and a ':' follows it. */
  predicate IsAbsoluteUri(text: string)
    ensures IsAbsoluteUri(text) <==> exists k :: SchemeEndsAt(text, k)
  {
    var parts := Split(text, ":");
    SchemeBeforeColon(text);
    |parts| >= 2 && parts[0] != [] && IsAlpha(parts[0][0])
    && forall i :: 0 <= i < |parts[0]| ==> IsSchemeChar(parts[0][i])
  }

  /** The first ':'-separated token is a scheme followed by ':' exactly when
      some scheme ends at a ':'; that ':' is then the first one. */
  lemma {:induction false} SchemeBeforeColon(text: string)
    ensures var parts := Split(text, ":");
      (|parts| >= 2 && parts[0] != [] && IsAlpha(parts[0][0])
       && forall i :: 0 <= i < |parts[0]| ==> IsSchemeChar(parts[0][i]))
      <==> exists k :: SchemeEndsAt(text, k)
  {
    var parts := Split(text, ":");
    var scheme := parts[0];
    SplitFirst(text, ":");
    assert forall i :: 0 <= i < |scheme| ==> scheme[i] == text[i];
    if exists k: nat :: SchemeEndsAt(text, k) {
      var k: nat :| SchemeEndsAt(text, k);
      if |scheme| != k {
        assert false;
      }
    }
    if |parts| >= 2 && scheme != [] && IsAlpha(scheme[0]) && forall i :: 0 <= i < |scheme| ==> IsSchemeChar(scheme[i]) {
      assert SchemeEndsAt(text, |scheme|);
    }
  }

  /** The parsing half of `ProductImageUpdateAsync`: split on ' ', build an
      absolute `Uri` from tokens 0, 1 and 2 in turn, then read token 3. A
      request is accepted exactly when it has at least four tokens and the
      first three are absolute URIs; tokens after the fourth are ignored. */
  function ParseImageUpdate(imageUpdateMessage: string): (r: Result<ImageUpdateRequest>)
    ensures var parts := Split(imageUpdateMessage, " ");
      r.Ok? <==> (|parts| >= 4 && IsAbsoluteUri(parts[0]) && IsAbsoluteUri(parts[1]) && IsAbsoluteUri(parts[2]))
    ensures var parts := Split(imageUpdateMessage, " ");
      r.Ok? ==> r.value == ImageUpdateRequest(parts[0], parts[1], parts[2], parts[3])
  {
    var updateParts := Split(imageUpdateMessage, " ");
    if !IsAbsoluteUri(updateParts[0]) then Err(UriFormat)
    else if |updateParts| < 2 then Err(IndexOutOfRange)
    else if !IsAbsoluteUri(updateParts[1]) then Err(UriFormat)
    else if |updateParts| < 3 then Err(IndexOutOfRange)
    else if !IsAbsoluteUri(updateParts[2]) then Err(UriFormat)
    else if |updateParts| < 4 then Err(IndexOutOfRange)
    else Ok(ImageUpdateRequest(updateParts[0], updateParts[1], updateParts[2], updateParts[3]))
  }

  /** A request written as three space-free absolute URIs and a space-free
      product id, separated by single spaces, decodes to those four values. */
  lemma {:induction false} ImageRequestOfTokens(brand: string, logo: string, image: string, productId: string)
    requires NoneOf(brand, " ") && NoneOf(logo, " ") && NoneOf(image, " ") && NoneOf(productId, " ")
    requires IsAbsoluteUri(brand) && IsAbsoluteUri(logo) && IsAbsoluteUri(image)
    ensures ParseImageUpdate(Join([brand, logo, image, productId], ' '))
      == Ok(ImageUpdateRequest(brand, logo, image, productId))
  {
    SplitJoin([brand, logo, image, productId], ' ', " ");
  }

  /** The first token that is not an absolute URI decides the error, before
      any missing later token is noticed. */
  lemma {:induction false} ImageRequestRejected(tokens: seq<string>, k: nat)
    requires 1 <= |tokens| && k < 3 && k < |tokens|
    requires forall i :: 0 <= i < |tokens| ==> NoneOf(tokens[i], " ")
    requires forall i :: 0 <= i < k ==> IsAbsoluteUri(tokens[i])
    requires !IsAbsoluteUri(tokens[k])
    ensures ParseImageUpdate(Join(tokens, ' ')) == Err(UriFormat)
  {
    SplitJoin(tokens, ' ', " ");
  }

  /** What the services answer for one of the three images: the name
      `Guid.NewGuid()` produced for its working blob, and whether its upload
      and its enqueue succeed. */
  datatype StagingIo = StagingIo(NewBlobName: string, UploadSucceeds: bool, EnqueueSucceeds: bool)

  /** An outcome together with the state of the "images" container and of the
      "optproductimage" queue after it. */
  datatype StagingRun = StagingRun(outcome: Outcome, images: map<string, seq<byte>>, tasks: seq<OptimizeUpateImage>)

  /** One `SendOptimizeAsync` on the container holding `images` and the queue
      holding `tasks`: download, upload under the new name, enqueue the task.
      A failure keeps whatever the earlier steps wrote. */
  function StageImage(images: map<string, seq<byte>>, tasks: seq<OptimizeUpateImage>, imageUri: string,
                      productId: string, imageType: string, download: string -> Option<seq<byte>>,
                      io: StagingIo): StagingRun
  {
    var bytes := download(imageUri);
    if bytes.None? then StagingRun(Fail(HttpRequest), images, tasks)
    else if !io.UploadSucceeds then StagingRun(Fail(StorageWrite), images, tasks)
    else
      var stored := images[io.NewBlobName := bytes.value];
      if !io.EnqueueSucceeds then StagingRun(Fail(QueueWrite), stored, tasks)
      else StagingRun(Pass, stored, tasks + [OptimizeUpateImage(io.NewBlobName, imageType, productId)])
  }

  /** What awaiting `Task.WhenAll` reports once every task has run: success,
      or the failure of the first failed task in task order. */
  function WhenAll(outcomes: seq<Outcome>): (r: Outcome)
    ensures r.Pass? <==> forall i :: 0 <= i < |outcomes| ==> outcomes[i].Pass?
    ensures r.Fail? ==> exists i :: 0 <= i < |outcomes| && outcomes[i] == r && forall j :: 0 <= j < i ==> outcomes[j].Pass?
  {
    if outcomes == [] then Pass
    else if outcomes[0].Fail? then outcomes[0]
    else
      var rest := WhenAll(outcomes[1..]);
      if rest.Fail? then
        var i :| 0 <= i < |outcomes[1..]| && outcomes[1..][i] == rest && forall j :: 0 <= j < i ==> outcomes[1..][j].Pass?;
        assert outcomes[i + 1] == rest && forall j :: 0 <= j < i + 1 ==> outcomes[j].Pass?;
        rest
      else
        assert forall i :: 1 <= i < |outcomes| ==> outcomes[i] == outcomes[1..][i - 1];
        rest
  }

  /** The image stage on a decoded request, with the container holding
      `images` and the queue holding `queued`: the brand, logo and product
      images in turn, each running to its end whatever happened to the others. */
  function StageImages(request: ImageUpdateRequest, images: map<string, seq<byte>>, queued: seq<OptimizeUpateImage>,
                       download: string -> Option<seq<byte>>, ios: seq<StagingIo>): StagingRun
    requires |ios| == 3
  {
    var brand := StageImage(images, queued, request.BrandImageUri, request.ProductId, "brand", download, ios[0]);
    var logo := StageImage(brand.images, brand.tasks, request.LogoImageUri, request.ProductId, "logo", download, ios[1]);
    var image := StageImage(logo.images, logo.tasks, request.ProductImageUri, request.ProductId, "image", download, ios[2]);
    StagingRun(WhenAll([brand.outcome, logo.outcome, image.outcome]), image.images, image.tasks)
  }

  /** `DownloadImageLocalAsync`: fetch the image and store it unmodified in the
      working container under a fresh name. */
  method DownloadImageLocal(container: BlobContainer, imageUri: string,
                            download: string -> Option<seq<byte>>, io: StagingIo)
    returns (r: Result<string>)
    modifies container
    ensures download(imageUri).None? ==> r == Err(HttpRequest) && container.blobs == old(container.blobs)
    ensures download(imageUri).Some? && !io.UploadSucceeds ==>
      r == Err(StorageWrite) && container.blobs == old(container.blobs)
    ensures download(imageUri).Some? && io.UploadSucceeds ==>
      r == Ok(io.NewBlobName) && container.blobs == old(container.blobs)[io.NewBlobName := download(imageUri).value]
  {
    var bytes := download(imageUri);
    if bytes.None? {
      return Err(HttpRequest);
    }
    var randomImageBlobName := io.NewBlobName;
    var uploaded := container.Upload(randomImageBlobName, bytes.value, io.UploadSucceeds);
    if uploaded.Fail? {
      return Err(uploaded.error);
    }
    return Ok(randomImageBlobName);
  }

  /** `SetupOptimizeAsync`: store the image and describe the task for it. */
  method SetupOptimize(container: BlobContainer, imageUri: string, productId: string, imageType: string,
                       download: string -> Option<seq<byte>>, io: StagingIo)
    returns (r: Result<OptimizeUpateImage>)
    modifies container
    ensures download(imageUri).None? ==> r == Err(HttpRequest) && container.blobs == old(container.blobs)
    ensures download(imageUri).Some? && !io.UploadSucceeds ==>
      r == Err(StorageWrite) && container.blobs == old(container.blobs)
    ensures download(imageUri).Some? && io.UploadSucceeds ==>
      && r == Ok(OptimizeUpateImage(io.NewBlobName, imageType, productId))
      && container.blobs == old(container.blobs)[io.NewBlobName := download(imageUri).value]
  {
    var blob := DownloadImageLocal(container, imageUri, download, io);
    if blob.Err? {
      return Err(blob.error);
    }
    return Ok(OptimizeUpateImage(blob.value, imageType, productId));
  }

  /** `SendOptimizeAsync`: set the task up and enqueue it. */
  method SendOptimize(container: BlobContainer, imageUri: string, productId: string, imageType: string,
                      optimizeCollector: Collector<OptimizeUpateImage>,
                      download: string -> Option<seq<byte>>, io: StagingIo)
    returns (r: Outcome)
    modifies container, optimizeCollector
    ensures StagingRun(r, container.blobs, optimizeCollector.items)
      == StageImage(old(container.blobs), old(optimizeCollector.items), imageUri, productId, imageType, download, io)
  {
    var setup := SetupOptimize(container, imageUri, productId, imageType, download, io);
    if setup.Err? {
      return Fail(setup.error);
    }
    r := optimizeCollector.AddAsync(setup.value, io.EnqueueSucceeds);
  }

  /** `ProductImageUpdateAsync`: decode the request, then stage the brand,
      logo and product images (`ios[0]`, `ios[1]` and `ios[2]` say what the
      services answer for each). */
  method ProductImageUpdate(imageUpdateMessage: string, container: BlobContainer,
                            optimizeCollector: Collector<OptimizeUpateImage>,
                            download: string -> Option<seq<byte>>, ios: seq<StagingIo>)
    returns (r: Outcome)
    requires |ios| == 3
    modifies container, optimizeCollector
    ensures ParseImageUpdate(imageUpdateMessage).Err? ==>
      && r == Fail(ParseImageUpdate(imageUpdateMessage).error)
      && container.blobs == old(container.blobs)
      && optimizeCollector.items == old(optimizeCollector.items)
    ensures ParseImageUpdate(imageUpdateMessage).Ok? ==>
      StagingRun(r, container.blobs, optimizeCollector.items)
        == StageImages(ParseImageUpdate(imageUpdateMessage).value, old(container.blobs), old(optimizeCollector.items),
                       download, ios)
  {
    var request := ParseImageUpdate(imageUpdateMessage);
    if request.Err? {
      return Fail(request.error);
    }
    var productId := request.value.ProductId;
    var brand := SendOptimize(container, request.value.BrandImageUri, productId, "brand", optimizeCollector, download, ios[0]);
    var logo := SendOptimize(container, request.value.LogoImageUri, productId, "logo", optimizeCollector, download, ios[1]);
    var image := SendOptimize(container, request.value.ProductImageUri, productId, "image", optimizeCollector, download, ios[2]);
    r := WhenAll([brand, logo, image]);
  }

  /** The image stage succeeds exactly when every download, upload and
      enqueue does; it then stores the three images under their new names and
      enqueues one task per image, typed "brand", "logo" and "image", all for
      the requested product. */
  lemma {:induction false} StageImagesSucceeds(request: ImageUpdateRequest, images: map<string, seq<byte>>,
                                               queued: seq<OptimizeUpateImage>,
                                               download: string -> Option<seq<byte>>, ios: seq<StagingIo>)
    requires |ios| == 3
    ensures var uris := [request.BrandImageUri, request.LogoImageUri, request.ProductImageUri];
      (StageImages(request, images, queued, download, ios).outcome.Pass? <==>
        forall i :: 0 <= i < 3 ==> download(uris[i]).Some? && ios[i].UploadSucceeds && ios[i].EnqueueSucceeds)
    ensures var run := StageImages(request, images, queued, download, ios);
      run.outcome.Pass? ==>
        && run.tasks == queued + [OptimizeUpateImage(ios[0].NewBlobName, "brand", request.ProductId),
                                  OptimizeUpateImage(ios[1].NewBlobName, "logo", request.ProductId),
                                  OptimizeUpateImage(ios[2].NewBlobName, "image", request.ProductId)]
        && run.images == images[ios[0].NewBlobName := download(request.BrandImageUri).value]
                               [ios[1].NewBlobName := download(request.LogoImageUri).value]
                               [ios[2].NewBlobName := download(request.ProductImageUri).value]
  {
    var uris := [request.BrandImageUri, request.LogoImageUri, request.ProductImageUri];
    var brand := StageImage(images, queued, request.BrandImageUri, request.ProductId, "brand", download, ios[0]);
    var logo := StageImage(brand.images, brand.tasks, request.LogoImageUri, request.ProductId, "logo", download, ios[1]);
    var image := StageImage(logo.images, logo.tasks, request.ProductImageUri, request.ProductId, "image", download, ios[2]);
    var outcomes := [brand.outcome, logo.outcome, image.outcome];
    assert StageImages(request, images, queued, download, ios).outcome == WhenAll(outcomes);
    assert WhenAll(outcomes).Pass? <==> outcomes[0].Pass? && outcomes[1].Pass? && outcomes[2].Pass?;
    assert brand.outcome.Pass? <==> download(uris[0]).Some? && ios[0].UploadSucceeds && ios[0].EnqueueSucceeds;
    assert logo.outcome.Pass? <==> download(uris[1]).Some? && ios[1].UploadSucceeds && ios[1].EnqueueSucceeds;
    assert image.outcome.Pass? <==> download(uris[2]).Some? && ios[2].UploadSucceeds && ios[2].EnqueueSucceeds;
    if WhenAll(outcomes).Pass? {
      assert (queued + [OptimizeUpateImage(ios[0].NewBlobName, "brand", request.ProductId)]
                     + [OptimizeUpateImage(ios[1].NewBlobName, "logo", request.ProductId)])
                     + [OptimizeUpateImage(ios[2].NewBlobName, "image", request.ProductId)]
          == queued + [OptimizeUpateImage(ios[0].NewBlobName, "brand", request.ProductId),
                       OptimizeUpateImage(ios[1].NewBlobName, "logo", request.ProductId),
                       OptimizeUpateImage(ios[2].NewBlobName, "image", request.ProductId)];
    }
  }

  /** Whatever happens, the image stage only adds to the queue, at most one
      task per image; every task it adds is for the requested product and
      names a blob now in the container; and it touches no blob other than the
      three new names. */
  lemma {:induction false} StageImagesFrame(request: ImageUpdateRequest, images: map<string, seq<byte>>,
                                            queued: seq<OptimizeUpateImage>,
                                            download: string -> Option<seq<byte>>, ios: seq<StagingIo>)
    requires |ios| == 3
    ensures var run := StageImages(request, images, queued, download, ios);
      && |queued| <= |run.tasks| <= |queued| + 3
      && run.tasks[..|queued|] == queued
      && forall i :: |queued| <= i < |run.tasks| ==>
           run.tasks[i].ProductId == request.ProductId && run.tasks[i].BlobName in run.images
    ensures var run := StageImages(request, images, queued, download, ios);
      forall name :: name != ios[0].NewBlobName && name != ios[1].NewBlobName && name != ios[2].NewBlobName ==>
        (name in run.images <==> name in images) && (name in images ==> run.images[name] == images[name])
  {
    var brand := StageImage(images, queued, request.BrandImageUri, request.ProductId, "brand", download, ios[0]);
    var logo := StageImage(brand.images, brand.tasks, request.LogoImageUri, request.ProductId, "logo", download, ios[1]);
    StageImageFrame(images, queued, request.BrandImageUri, request.ProductId, "brand", download, ios[0]);
    StageImageFrame(brand.images, brand.tasks, request.LogoImageUri, request.ProductId, "logo", download, ios[1]);
    StageImageFrame(logo.images, logo.tasks, request.ProductImageUri, request.ProductId, "image", download, ios[2]);
  }

  /** One image: the queue gains at most the one task, which names a stored
      blob; every blob stored before is still stored; only the new name changes. */
  lemma {:induction false} StageImageFrame(images: map<string, seq<byte>>, tasks: seq<OptimizeUpateImage>,
                                           imageUri: string, productId: string, imageType: string,
                                           download: string -> Option<seq<byte>>, io: StagingIo)
    ensures var run := StageImage(images, tasks, imageUri, productId, imageType, download, io);
      && (run.tasks == tasks || run.tasks == tasks + [OptimizeUpateImage(io.NewBlobName, imageType, productId)])
      && (run.tasks != tasks ==> io.NewBlobName in run.images)
      && images.Keys <= run.images.Keys
      && forall name :: name != io.NewBlobName ==>
           (name in run.images <==> name in images) && (name in images ==> run.images[name] == images[name])
  {
  }

  // ---------------------------------------------------------------------------
  // Optimize stage: "optproductimage" queue -> "publicimages" container and
  // the central system's "productimageupdate" queue

  /** `OptimizeImageBytesAsync`: the image is published as it was received. */
  function OptimizeImageBytes(imageToOptimize: seq<byte>): (optimized: seq<byte>)
    ensures optimized == imageToOptimize
  {
    imageToOptimize
  }

  /** What the services answer during one optimize run: whether the working
      blob's existence check, its download, the public upload and the enqueue
      succeed. */
  datatype OptimizeIo = OptimizeIo(ExistsSucceeds: bool, DownloadSucceeds: bool, UploadSucceeds: bool,
                                   EnqueueSucceeds: bool)

  /** An outcome together with the public container and the central system's
      image queue after it. */
  datatype OptimizeRun = OptimizeRun(outcome: Outcome, publicImages: map<string, seq<byte>>,
                                     updates: seq<Contracts.ProductImageUpdate>)

  /** The optimize stage on `task`, with the working container holding
      `images`, the public container at `publicUri` holding `publicImages`
      and the central queue holding `updates`. */
  function Optimize(task: OptimizeUpateImage, images: map<string, seq<byte>>,
                    publicImages: map<string, seq<byte>>, publicUri: string,
                    updates: seq<Contracts.ProductImageUpdate>, io: OptimizeIo): OptimizeRun
  {
    if !io.ExistsSucceeds then OptimizeRun(Fail(StorageRead), publicImages, updates)
    else if task.BlobName !in images then
      OptimizeRun(Fail(InvalidOperation("Specified blob does not exist! " + task.BlobName)), publicImages, updates)
    else if !io.DownloadSucceeds then OptimizeRun(Fail(StorageRead), publicImages, updates)
    else if !io.UploadSucceeds then OptimizeRun(Fail(StorageWrite), publicImages, updates)
    else
      var published := publicImages[task.BlobName := OptimizeImageBytes(images[task.BlobName])];
      var update := Contracts.ProductImageUpdate(
        CustomerId := GetCustomerId(),
        ImageType := task.ImageType,
        ImageUri := BlobUri(publicUri, task.BlobName),
        ProductId := task.ProductId);
      if !io.EnqueueSucceeds then OptimizeRun(Fail(QueueWrite), published, updates)
      else OptimizeRun(Pass, published, updates + [update])
  }

  /** `OptimizeProductImageAsync`: copy the task's working blob, optimized,
      to the public container under the same name and tell the central system
      where it now is. */
  method OptimizeProductImage(optimizeMessage: OptimizeUpateImage, container: BlobContainer,
                              publicContainer: BlobContainer,
                              imageUpdateCollector: Collector<Contracts.ProductImageUpdate>,
                              io: OptimizeIo)
    returns (r: Outcome)
    modifies publicContainer, imageUpdateCollector
    ensures OptimizeRun(r, publicContainer.blobs, imageUpdateCollector.items)
      == Optimize(optimizeMessage, old(container.blobs), old(publicContainer.blobs), publicContainer.Uri,
                  old(imageUpdateCollector.items), io)
  {
    var blobExists := container.Exists(optimizeMessage.BlobName, io.ExistsSucceeds);
    if blobExists.Err? {
      return Fail(blobExists.error);
    }
    if !blobExists.value {
      return Fail(InvalidOperation("Specified blob does not exist! " + optimizeMessage.BlobName));
    }
    var downloaded := container.Download(optimizeMessage.BlobName, io.DownloadSucceeds);
    if downloaded.Err? {
      return Fail(downloaded.error);
    }
    var originalBytes := downloaded.value;
    var optimizedBytes := OptimizeImageBytes(originalBytes);
    var uploaded := publicContainer.Upload(optimizeMessage.BlobName, optimizedBytes, io.UploadSucceeds);
    if uploaded.Fail? {
      return uploaded;
    }
    r := imageUpdateCollector.AddAsync(
      Contracts.ProductImageUpdate(
        CustomerId := GetCustomerId(),
        ImageType := optimizeMessage.ImageType,
        ImageUri := BlobUri(publicContainer.Uri, optimizeMessage.BlobName),
        ProductId := optimizeMessage.ProductId),
      io.EnqueueSucceeds);
  }

  /** The optimize stage succeeds exactly when the existence check succeeds and
      finds the working blob and the download, the upload and the enqueue
      succeed. Then the public container holds the working blob's bytes under
      the same name, and the central queue gains one update with the blob's
      public address, the task's image type and product and the constant
      tenant. A failed read, a missing blob or a failed upload writes nothing;
      a failed enqueue leaves the public blob written. */
  lemma {:induction false} OptimizePublishes(task: OptimizeUpateImage, images: map<string, seq<byte>>,
                                             publicImages: map<string, seq<byte>>, publicUri: string,
                                             updates: seq<Contracts.ProductImageUpdate>, io: OptimizeIo)
    ensures var run := Optimize(task, images, publicImages, publicUri, updates, io);
      run.outcome.Pass? <==> && io.ExistsSucceeds && task.BlobName in images && io.DownloadSucceeds
                             && io.UploadSucceeds && io.EnqueueSucceeds
    ensures var run := Optimize(task, images, publicImages, publicUri, updates, io);
      run.outcome.Pass? ==>
        && run.publicImages == publicImages[task.BlobName := images[task.BlobName]]
        && run.updates == updates + [Contracts.ProductImageUpdate(publicUri + "/" + task.BlobName, task.ImageType,
                                                                  task.ProductId, "JoesFoodHouse")]
    ensures var run := Optimize(task, images, publicImages, publicUri, updates, io);
      && (!io.ExistsSucceeds ==>
            run.outcome == Fail(StorageRead) && run.publicImages == publicImages && run.updates == updates)
      && (io.ExistsSucceeds && task.BlobName !in images ==>
            run.outcome == Fail(InvalidOperation("Specified blob does not exist! " + task.BlobName))
            && run.publicImages == publicImages && run.updates == updates)
      && (io.ExistsSucceeds && task.BlobName in images && !io.DownloadSucceeds ==>
            run.outcome == Fail(StorageRead) && run.publicImages == publicImages && run.updates == updates)
      && (io.ExistsSucceeds && task.BlobName in images && io.DownloadSucceeds && !io.UploadSucceeds ==>
            run.outcome == Fail(StorageWrite) && run.publicImages == publicImages && run.updates == updates)
      && (io.ExistsSucceeds && task.BlobName in images && io.DownloadSucceeds && io.UploadSucceeds
          && !io.EnqueueSucceeds ==>
            run.outcome == Fail(QueueWrite) && run.updates == updates
            && run.publicImages == publicImages[task.BlobName := images[task.BlobName]])
  {
    assert BlobUri(publicUri, task.BlobName) == publicUri + "/" + task.BlobName;
  }

  /** Every public blob is a copy of the working blob of the same name. */
  ghost predicate Mirrors(images: map<string, seq<byte>>, publicImages: map<string, seq<byte>>)
  {
    forall name :: name in publicImages ==> name in images && publicImages[name] == images[name]
  }

  /** The optimize stage keeps the public container a mirror of the working
      one, whatever the services answer. */
  lemma {:induction false} OptimizeKeepsMirror(task: OptimizeUpateImage, images: map<string, seq<byte>>,
                                               publicImages: map<string, seq<byte>>, publicUri: string,
                                               updates: seq<Contracts.ProductImageUpdate>, io: OptimizeIo)
    requires Mirrors(images, publicImages)
    ensures Mirrors(images, Optimize(task, images, publicImages, publicUri, updates, io).publicImages)
  {
    var run := Optimize(task, images, publicImages, publicUri, updates, io);
    forall name | name in run.publicImages
      ensures name in images && run.publicImages[name] == images[name]
    {
      if name != task.BlobName {
        assert name in publicImages;
      }
    }
  }

  /** Staging, then optimizing, when every download, upload and enqueue
      succeeds and the three new names differ: the task the image stage enqueued for image `k` finds its
      blob, publishes exactly the bytes downloaded from that image's address
      under the new name, and tells the central system the product, the image
      type and the public address. */
  lemma {:induction false} StagedImagePublished(request: ImageUpdateRequest, images: map<string, seq<byte>>,
                                                queued: seq<OptimizeUpateImage>,
                                                download: string -> Option<seq<byte>>, ios: seq<StagingIo>, k: nat,
                                                publicImages: map<string, seq<byte>>, publicUri: string,
                                                updates: seq<Contracts.ProductImageUpdate>)
    requires |ios| == 3 && k < 3
    requires download(request.BrandImageUri).Some? && download(request.LogoImageUri).Some?
    requires download(request.ProductImageUri).Some?
    requires forall i :: 0 <= i < 3 ==> ios[i].UploadSucceeds && ios[i].EnqueueSucceeds
    requires ios[0].NewBlobName != ios[1].NewBlobName && ios[1].NewBlobName != ios[2].NewBlobName && ios[0].NewBlobName != ios[2].NewBlobName
    ensures var run := StageImages(request, images, queued, download, ios);
      var uri := [request.BrandImageUri, request.LogoImageUri, request.ProductImageUri][k];
      var imageType := ["brand", "logo", "image"][k];
      && |queued| + k < |run.tasks|
      && Optimize(run.tasks[|queued| + k], run.images, publicImages, publicUri, updates,
                  OptimizeIo(true, true, true, true))
         == OptimizeRun(Pass, publicImages[ios[k].NewBlobName := download(uri).value],
                        updates + [Contracts.ProductImageUpdate(publicUri + "/" + ios[k].NewBlobName, imageType,
                                                                request.ProductId, "JoesFoodHouse")])
  {
    var run := StageImages(request, images, queued, download, ios);
    var uris := [request.BrandImageUri, request.LogoImageUri, request.ProductImageUri];
    var types := ["brand", "logo", "image"];
    StageImagesSucceeds(request, images, queued, download, ios);
    assert run.tasks[|queued| + k] == OptimizeUpateImage(ios[k].NewBlobName, types[k], request.ProductId);
    assert ios[k].NewBlobName in run.images && run.images[ios[k].NewBlobName] == download(uris[k]).value;
    OptimizePublishes(run.tasks[|queued| + k], run.images, publicImages, publicUri, updates,
                      OptimizeIo(true, true, true, true));
  }

  /** Whatever the services answer, a task the image stage enqueued never
      meets the optimize stage's missing-blob error while the working
      container is as staging left it: it fails only on a failed read, upload
      or enqueue. */
  lemma {:induction false} StagedTaskFindsBlob(request: ImageUpdateRequest, images: map<string, seq<byte>>,
                                               queued: seq<OptimizeUpateImage>,
                                               download: string -> Option<seq<byte>>, ios: seq<StagingIo>, i: nat,
                                               publicImages: map<string, seq<byte>>, publicUri: string,
                                               updates: seq<Contracts.ProductImageUpdate>,
                                               io: OptimizeIo)
    requires |ios| == 3
    requires |queued| <= i < |StageImages(request, images, queued, download, ios).tasks|
    ensures var run := StageImages(request, images, queued, download, ios);
      var optimized := Optimize(run.tasks[i], run.images, publicImages, publicUri, updates, io);
      && optimized.outcome == (if !io.ExistsSucceeds || !io.DownloadSucceeds then Fail(StorageRead)
                               else if !io.UploadSucceeds then Fail(StorageWrite)
                               else if !io.EnqueueSucceeds then Fail(QueueWrite) else Pass)
      && (optimized.outcome.Pass? ==> optimized.updates[|updates|].ProductId == request.ProductId)
  {
    var run := StageImages(request, images, queued, download, ios);
    StageImagesFrame(request, images, queued, download, ios);
    OptimizePublishes(run.tasks[i], run.images, publicImages, publicUri, updates, io);
  }
}
