# Joe's Food House relay, modelled in Dafny

The relay sits between a food retailer's partner systems and a central
inventory system. It has four queue-triggered stages:

- **Single update.** A partner sends one space-separated update line. The
  stage decodes it with `ProductUpdateMessageConverter.From` and forwards a
  `ProductUpdate`, attributed to the constant tenant "JoesFoodHouse".
- **Batch update.** A batch message is split on the newline characters. Its
  pieces are enqueued one by one on the "update" queue, in groups of 250 built
  by `EnumerableExtensions.Chunk`. The stage waits for every enqueue of a group
  before it starts the next group.
- **Image request.** The stage decodes three absolute image addresses and a
  product id. It downloads each image, stores it in the working "images"
  container under a fresh name and enqueues one optimize task per image,
  typed "brand", "logo" and "image".
- **Optimize.** The stage copies the task's blob, through an optimiser that is
  the identity, to the "publicimages" container under the same name. It then
  sends the central system a `ProductImageUpdate` naming the public address.

## How it is modelled

- **Modules.**
  - `Wrappers`: results and the .NET exceptions the stages can raise.
  - `Text`: `String.Split` and its inverse.
  - `Decimals`: `decimal.Parse` and `decimal.ToString`.
  - `EnumerableExtensions`: `Chunk`.
  - `Contracts`: the records exchanged.
  - `ProductUpdateMessageConverter`: the wire codec.
  - `Storage`: blob containers and queue collectors, as classes whose fields
    the stages update.
  - `Functions`: the stages themselves.
- **Stages that write.** `BatchProductUpdate`, `ProductImageUpdate` and
  `OptimizeProductImage` are methods with `modifies` clauses. Each is proved
  equal to a specification function of the old state: `RelayBatch`,
  `StageImages` and `Optimize`. The lemmas prove what the relay promises
  about those functions.
- **Failures.** A call that throws returns `Err`/`Fail` with the exception's
  kind. The storage and queue services report success or failure, and their
  answers are parameters:
  - a boolean per read or write;
  - for the batch, the set of piece numbers whose enqueue fails.

## Model

| member | source | states |
|---|---|---|
| EnumerableExtensions.Chunk | Utility/EnumerableExtensions.cs:20-41 | a negative size is `ArgumentOutOfRange` (the list's capacity); otherwise the result is a chunking of the input (concatenates back, no empty chunk, at most `size` each, all but the last exactly `size`), equals `Chunked`, is empty exactly for empty input, and with size 0 is one chunk of everything |
| EnumerableExtensions.ChunkedFlatten | Utility/EnumerableExtensions.cs:20-38 | the chunks concatenate back to the input, in order |
| EnumerableExtensions.ChunkedShape | Utility/EnumerableExtensions.cs:26-37 | no chunk is empty; with a positive size each has at most `size` items and all but the last exactly `size`; with size 0 there is at most one chunk |
| EnumerableExtensions.ChunkedIsChunking | Utility/EnumerableExtensions.cs:20-38 | the loop's chunks satisfy the declarative description of a chunking |
| EnumerableExtensions.ChunkingUnique | Utility/EnumerableExtensions.cs:20-38 | any sequence meeting that description is the loop's result, so the description determines the chunks |
| EnumerableExtensions.ChunkedCount | Utility/EnumerableExtensions.cs:24-38 | with a positive size and n items there are ceil(n / size) chunks |
| Text.Split | JoesFoodHouseFunctions/ProductUpdateMessageConverter.cs:7 | splitting yields at least one token and no token holds a separator |
| Text.SplitJoin | JoesFoodHouseFunctions/ProductUpdateMessageConverter.cs:7 | splitting separator-free tokens joined by a separator gives back exactly those tokens, empty ones included |
| Text.SplitFirst | JoesFoodHouseFunctions/Functions.cs:116-118 | the first token is the text up to its first separator; it is the whole text exactly when there is only one token |
| Text.JoinSplit | JoesFoodHouseFunctions/ProductUpdateMessageConverter.cs:7 | joining the pieces split on one character gives back the text, so no character is lost |
| Text.JoinSplitWith | JoesFoodHouseFunctions/Functions.cs:82 | splitting on several separator characters gives one token more than the text has separators, and putting each separator back between its two tokens gives back the text |
| Text.SplitJoinWith | JoesFoodHouseFunctions/Functions.cs:82 | separator-free tokens joined by any separator characters split back into exactly those tokens, empty ones included |
| Text.SplitCrLf | JoesFoodHouseFunctions/Functions.cs:82 | on a Windows line break each of '\r' and '\n' separates, so two lines give three pieces with an empty one between them |
| Decimals.Parse | JoesFoodHouseFunctions/ProductUpdateMessageConverter.cs:12 | text is accepted exactly when it is `NumberText`: an optional '-', digits, and optionally '.' and more digits; accepted text has more characters than decimal places, and a negative value starts with '-' |
| Decimals.ParseUnsignedAccepts | JoesFoodHouseFunctions/ProductUpdateMessageConverter.cs:12 | the checks on the '.'-separated tokens hold exactly when the text is an unsigned number, in both directions |
| Decimals.ParseParts | JoesFoodHouseFunctions/ProductUpdateMessageConverter.cs:12 | an optional '-', digits and an optional fraction parse to the signed number the digits spell, with one decimal place per fractional digit |
| Decimals.ToString | JoesFoodHouseFunctions/ProductUpdateMessageConverter.cs:20 | the printed text is not empty, holds no space, and starts with '-' exactly when the value is negative |
| Decimals.NatDigits | JoesFoodHouseFunctions/ProductUpdateMessageConverter.cs:20 | the printed digits of a natural number are digits and spell it |
| Decimals.Padded | JoesFoodHouseFunctions/ProductUpdateMessageConverter.cs:20 | the zero-padded digits are longer than the scale and still spell the number |
| Decimals.ParseUnsignedParts | JoesFoodHouseFunctions/ProductUpdateMessageConverter.cs:12 | digits with an optional fraction parse to the number they spell, with one decimal place per fractional digit |
| Decimals.ParseToStringUnsigned | JoesFoodHouseFunctions/ProductUpdateMessageConverter.cs:12-20 | the unsigned text of a magnitude and scale parses back to them |
| Decimals.ParseToString | JoesFoodHouseFunctions/ProductUpdateMessageConverter.cs:12-20 | every decimal prints to text that parses back to it, scale included |
| ProductUpdateMessageConverter.From | JoesFoodHouseFunctions/ProductUpdateMessageConverter.cs:5-16 | decoding fails exactly when there are fewer than five tokens or token 2 is not a number (`NumberText`); the branch comes from token 0 and the reason code from token 4 |
| ProductUpdateMessageConverter.FromTokens | JoesFoodHouseFunctions/ProductUpdateMessageConverter.cs:7-14 | for five or more space-free tokens, decoding succeeds exactly when token 2 parses, and then tokens 0 to 4 fill the five fields in order, later tokens ignored, empty tokens counted |
| ProductUpdateMessageConverter.FewTokensRejected | JoesFoodHouseFunctions/ProductUpdateMessageConverter.cs:7-14 | fewer than five tokens are rejected: `IndexOutOfRange` below three tokens, `Format` for a bad quantity even when tokens 3 and 4 are missing, `IndexOutOfRange` otherwise |
| ProductUpdateMessageConverter.To | JoesFoodHouseFunctions/ProductUpdateMessageConverter.cs:18-21 | when the string fields hold no space, the encoding splits on spaces into exactly the five fields in declaration order, the quantity printed |
| ProductUpdateMessageConverter.RoundTrip | JoesFoodHouseFunctions/ProductUpdateMessageConverter.cs:5-21 | `From(To(m)) == Ok(m)` when the string fields hold no space |
| ProductUpdateMessageConverter.DecodeEncodeDecode | JoesFoodHouseFunctions/ProductUpdateMessageConverter.cs:5-21 | whatever decodes, re-encodes to text that decodes to the same message |
| Functions.GetCustomerId | JoesFoodHouseFunctions/Functions.cs:212-216 | the tenant is always "JoesFoodHouse" |
| Functions.ProductUpdateSingle | JoesFoodHouseFunctions/Functions.cs:41-61 | the stage fails exactly when decoding fails, with the same exception; otherwise it forwards the decoded branch, product, quantity, units and reason code with the constant tenant |
| Functions.SingleUpdateFromTokens | JoesFoodHouseFunctions/Functions.cs:47-60 | the single update stage fails with `Format` exactly when token 2 is not a number, and otherwise forwards tokens 0, 1, 3 and 4, the parsed quantity and the constant tenant |
| Functions.SingleUpdateOfEncoded | JoesFoodHouseFunctions/Functions.cs:47-60 | an encoded message is forwarded with all five of its fields and the constant tenant |
| Functions.Accepted | JoesFoodHouseFunctions/Functions.cs:83-86 | of a chunk's enqueues, the accepted ones are at most the chunk, are all of it exactly when none was refused, and then are the chunk itself |
| Functions.EnqueueChunk | JoesFoodHouseFunctions/Functions.cs:83-86 | every piece of a chunk is enqueued whatever happens to the others; the wait succeeds exactly when none was refused; the queue gains the accepted pieces in order |
| Functions.EnqueueChunks | JoesFoodHouseFunctions/Functions.cs:85-88 | the loop over chunks yields the outcome, counter and queue contents of the accumulator specification `RelayLoop` |
| Functions.BatchProductUpdate | JoesFoodHouseFunctions/Functions.cs:75-91 | the stage's outcome, counter and queue contents are those of `RelayBatch` on its input |
| Functions.RelayLoopChunks | JoesFoodHouseFunctions/Functions.cs:82-88 | the loop's accumulator form equals the chunk-by-chunk specification `RelayChunks` |
| Functions.RelayChunksDelivered | JoesFoodHouseFunctions/Functions.cs:82-88 | when no enqueue is refused the run completes, counts every piece and enqueues them all in order |
| Functions.RelayChunksOk | JoesFoodHouseFunctions/Functions.cs:82-88 | a completed run means no enqueue was refused |
| Functions.RelayLoopReaches | JoesFoodHouseFunctions/Functions.cs:85-88 | when the first k chunks are all accepted, the loop reaches chunk k having counted and enqueued exactly their pieces |
| Functions.RelayLoopStops | JoesFoodHouseFunctions/Functions.cs:85-88 | a refusal within chunk k stops the loop there, counting only the earlier chunks |
| EnumerableExtensions.ChunkedAt | Utility/EnumerableExtensions.cs:24-38 | piece f lies in chunk `ChunkIndex(f)`, which starts at `ChunkStart(f)`, and the chunks before it hold exactly the earlier pieces |
| EnumerableExtensions.ChunkStart | Utility/EnumerableExtensions.cs:27-31 | the chunk holding piece f starts at most at f and less than one chunk before it |
| Functions.BatchChunkStart | JoesFoodHouseFunctions/Functions.cs:84 | for groups of 250 that start is f rounded down to a multiple of 250 |
| Functions.BatchDeliversAll | JoesFoodHouseFunctions/Functions.cs:82-90 | the batch completes exactly when no piece is refused, and then counts and enqueues every piece in order, empty pieces included |
| Functions.BatchStopsAtFailedChunk | JoesFoodHouseFunctions/Functions.cs:82-88 | when piece f is the first refused, the batch fails, counts only the pieces before f's group of 250, and enqueues those pieces and the accepted pieces of that group, none later |
| Functions.IsAbsoluteUri | JoesFoodHouseFunctions/Functions.cs:116-118 | text is accepted exactly when it has a ':' after a non-empty scheme that starts with a letter and holds only letters, digits, '+', '-' and '.' |
| Functions.SchemeBeforeColon | JoesFoodHouseFunctions/Functions.cs:116-118 | the check on the first ':'-separated token agrees with that description of a scheme, in both directions |
| Functions.ParseImageUpdate | JoesFoodHouseFunctions/Functions.cs:114-120 | a request is accepted exactly when it has at least four tokens and the first three are absolute URIs; the fields are tokens 0 to 3 |
| Functions.ImageRequestOfTokens | JoesFoodHouseFunctions/Functions.cs:114-120 | three space-free absolute URIs and a product id joined by spaces decode to those four values |
| Functions.ImageRequestRejected | JoesFoodHouseFunctions/Functions.cs:114-120 | the first of tokens 0 to 2 that is not an absolute URI makes the request a `UriFormat` error, before any missing later token is noticed |
| Functions.WhenAll | JoesFoodHouseFunctions/Functions.cs:122-125 | the joint outcome is success exactly when every task succeeded, and otherwise the first failure in task order |
| Functions.DownloadImageLocal | JoesFoodHouseFunctions/Functions.cs:202-210 | a failed download or upload is reported and writes nothing; otherwise the downloaded bytes are stored under the fresh name, which is returned |
| Functions.SetupOptimize | JoesFoodHouseFunctions/Functions.cs:191-200 | the task names the fresh blob, the image type and the product |
| Functions.SendOptimize | JoesFoodHouseFunctions/Functions.cs:185-189 | the new container and queue states and the outcome are those of `StageImage` |
| Functions.ProductImageUpdate | JoesFoodHouseFunctions/Functions.cs:109-126 | a malformed request fails with its parse error and writes nothing; otherwise the outcome, container and queue are those of `StageImages` |
| Functions.StageImagesSucceeds | JoesFoodHouseFunctions/Functions.cs:122-124 | the image stage succeeds exactly when every download, upload and enqueue does; it then stores the three images under their fresh names and enqueues three tasks typed "brand", "logo" and "image" for the product |
| Functions.StageImagesFrame | JoesFoodHouseFunctions/Functions.cs:122-125 | whatever happens, the queue only gains at most three tasks, each for the product and naming a stored blob, and no blob other than the three fresh names changes |
| Functions.StageImageFrame | JoesFoodHouseFunctions/Functions.cs:185-210 | one image adds at most its own task, which names a stored blob, and changes only the fresh name |
| Functions.OptimizeProductImage | JoesFoodHouseFunctions/Functions.cs:149-177 | the outcome, public container and central queue are those of `Optimize` |
| Functions.OptimizeImageBytes | JoesFoodHouseFunctions/Functions.cs:179-183 | the image is published as it was received |
| Functions.OptimizePublishes | JoesFoodHouseFunctions/Functions.cs:156-183 | the stage succeeds exactly when the existence check finds the blob and the download and both writes succeed; then the public blob holds the original bytes under the same name and one update with the public address, image type, product and tenant is sent; a failed read (`StorageRead`), a missing blob (`InvalidOperation`) or a failed upload writes nothing; a failed enqueue leaves the public blob written |
| Functions.OptimizeKeepsMirror | JoesFoodHouseFunctions/Functions.cs:162-168 | every public blob stays a copy of the working blob of the same name |
| Functions.StagedTaskFindsBlob | JoesFoodHouseFunctions/Functions.cs:156-160 | a task the image stage enqueued never meets the missing-blob error: it fails only on a failed read, upload or enqueue, and its update carries the requested product |
| Functions.StagedImagePublished | JoesFoodHouseFunctions/Functions.cs:156-176 | after a successful image stage with distinct fresh names, optimizing image k publishes exactly the bytes downloaded for it and announces its public address, type and product |
| Storage.BlobContainer.Exists | JoesFoodHouseFunctions/Functions.cs:156-157 | a failed request is `StorageRead`; otherwise the answer is whether the name is in the container |
| Storage.BlobContainer.Download | JoesFoodHouseFunctions/Functions.cs:162-163 | downloading succeeds exactly when the request succeeds and the blob is there, and then returns the stored bytes; otherwise it is `StorageRead` |
| Storage.BlobContainer.Upload | JoesFoodHouseFunctions/Functions.cs:207-208 | a successful upload creates or overwrites exactly the named blob; a failed one changes nothing |
| Storage.Collector.AddAsync | JoesFoodHouseFunctions/Functions.cs:188 | a successful enqueue appends the item; a failed one appends nothing |

## Left out

- Hosting plumbing is not modelled: triggers, binding attributes, connection names and `TraceWriter` logging. This includes the log line that reports the batch counter.
- The HTTP download is a parameter `download` from an address to bytes, or to nothing when the request fails.
- `Guid.NewGuid` names are parameters (`StagingIo.NewBlobName`). The model does not require them to be fresh. The one lemma that needs distinct names (`StagedImagePublished`) requires them.
- Concurrency is not modelled. The enqueues of a chunk and the three image tasks run in task order. Each task runs to completion regardless of the others, and the first failure in task order is reported. Interleavings and the orphaned blobs a failed sibling leaves are outside the model.
- The laziness of `Chunk` and of `Select` is not modelled as such. Each `AddAsync` starts when `Chunk` pulls its piece, so all enqueues of a chunk have started before the stage waits on that chunk, and none of the next chunk starts before that wait ends. The model enqueues a chunk's pieces in order and then waits on them, which gives the same enqueues and the same outcome.
- EnumerableExtensions.Chunk: the default `size` of 100 is not modelled, since Dafny has no default arguments; every caller passes the size, and the relay passes 250.
- EnumerableExtensions.Chunk: the counter and the list count are unbounded integers.
  - With size 0, the source's 32-bit `innerCounter` would wrap back to 0 after 2^32 items and close a chunk there.
  - Inputs of that size are not modelled.
- Functions.BatchProductUpdate: `count` is an unbounded integer; the source's 32-bit counter would overflow past 2^31 pieces.
- Decimals.Parse: accepts only `[-]digits[.digits]`, in a culture whose decimal separator is '.' and whose negative sign is '-'.
  - The source parses with `NumberStyles.Number` and the current culture. That style also accepts text the model rejects: leading or trailing white space, a leading '+', a trailing sign ("5-"), thousands separators, and a fraction or whole part that is empty (".5", "5.").
  - Other cultures' separators and signs are not modelled.
  - The 96-bit mantissa and 28-digit scale limits are not modelled. A magnitude too large for a decimal, an `OverflowException` in the source, parses here.
  - Text with more digits than a decimal holds, for example more than 28 decimal places, is rounded by the source; the model keeps every digit and the full scale.
- Decimals.ToString: prints with '.' and '-', the current culture's symbols being taken to be those. Other cultures are not modelled.
- Text.Split: requires at least one separator. With no separator .NET splits on white space; the relay always passes ' ' or the characters of `Environment.NewLine`.
- Functions.IsAbsoluteUri: approximates `new Uri(text, UriKind.Absolute)` by a check for a scheme followed by ':', as section 3.1 of RFC 3986 defines the scheme.
  - The rest of `System.Uri` validation is not modelled.
  - Neither are its normalisation and escaping of the public address (`publicBlob.Uri.AbsoluteUri`). The address is the container's address, '/', and the name.
- Null strings are not modelled. Every message is a string, so the `NullReferenceException` paths of the source do not arise.
- The `:D2` format in `To` applies to a string and has no effect, so it is not modelled.
- A real optimiser is not modelled: `OptimizeImageBytesAsync` is the identity in the source.
- `Contracts` and `ProductUpdateMessage` declare the records only, because the source gives them no behaviour. The interfaces are type synonyms of the records.
- A negative size does not give a single chunk. `Chunk` with a negative `size` throws on `new List<T>(size)` before reading any item. Only a size of 0 yields one chunk holding everything.
