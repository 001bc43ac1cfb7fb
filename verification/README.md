# A verified model of justoci's transfer pipeline

This project models, in Dafny 4.11, how justoci moves content-addressed OCI images: how a
layout directory is validated, published to a static directory or a registry, pulled back,
attested and verified, and how the parsers and printers around it undo each other. Each
operation is proved against a specification, and what the program promises is proved of the
specification: over every run, every interleaving, every trace of replies and every input.
Where such a specification is a function, what it must compute is written out a second time, as
rules on the documents and the replies themselves (`VerdictFacts`, `SpecRules`, `DocumentRules`,
`RetryFacts`), and proved of it.

## How the world is modelled

- **Directories** are maps from paths to bytes (`Oci.Files`). `FileSystems.Fs` has create,
  append, rename and remove, each of which may fail, with chunk sizes at the system's whim;
  it remembers every state it has been in, so "after a crash" means "in some remembered
  state". Several publishers share a directory as an interleaved state machine
  (`HttpPublishers`), one operation at a time.
- **Registries** answer every request as a function of the request, its number and the
  `Authorization` header (`Wire.Server`), which covers every trace because the client is
  deterministic. The honest registry that is published to is a state machine with blobs,
  manifests, tags and upload sessions (`Registry`), behind a connection on which any reply may
  be a 5xx, may be lost before or after its effect, or may be any other status.
- **SHA-256 and JSON text** are functions of `Oci.Codec`. All that is assumed of them is
  `Codec.Lawful`: hashes are 64 lowercase hex digits, and parsing undoes printing. SHA-256 is
  never assumed to be injective; where a property needs that no two byte strings in play share
  a digest, it says so of those byte strings. A codec that keeps these laws is built in
  `LawfulCodecs`, and `Instances` gives layouts, registries and servers, down to their bytes, at
  which a promise fails or the hypotheses of a theorem hold together.
- **Values** are trees (`Json`, `Toml`); floats are IEEE 754 bit patterns, so nothing depends
  on rounding. Sizes are below 2^64 where they are written and read back.

## What the code does that its comments do not say

- `send_with_retry` does reach its final `expect` with no stored error, on one trace
  (`Wire.PanicsExactly`; `Wire.PanicHappens` is a server that provokes it). The comment there
  says every failure stores one.
- `digests_pushed` and `digests_skipped` are not always disjoint. Through `publish_registry` a
  referrer that is listed twice and was not in the registry is in both
  (`RegistryFacts.DisjointExactly`); when 5xx replies exhaust the retries of its first HEAD, so
  is one that was there (`RegistrySink.PushListedTwice`). Through `push_artifact_streaming` a
  layer whose bytes are the empty config is in both when the registry lacked it, and when it
  had it but 5xx replies exhaust the retries of the first HEAD
  (`StreamingSink.StreamDisjointExactly`, `StreamingSink.PushEmptyLayer`); no other layer ever
  is (`StreamingSink.StreamDisjoint`).
- A second `write_referrers_into_image_dir` appends its index entries again; its comment says
  it re-emits the same index (`RewireFacts.RewireIdempotent`).
- A pull whose registry lists one of the image's own layers as a referrer succeeds without
  fetching that referrer's children, and `ImageDir::open` refuses the result
  (`PullFacts.ListedButNotClosed`; `Instances.ListedButNotClosedApplies` is such a registry). A
  referrer is fetched exactly when it was unseen at its turn (`PullFacts.FetchedExactly`), and
  the result of any successful pull opens exactly when it has the shape of an image and the
  referrers that were not fetched have their content there (`PullFacts.PullOpens`).
- A layout whose primary manifest is also somebody's layer is accepted, and then the primary is
  not appended to `referenced_blobs` (`ImageDirFacts.PrimaryLastExactly`);
  `Instances.PrimaryNotLast` is such a layout.
- A manifest that is also somebody's layer or config is published as a manifest only. Pulled
  back, the image is complete exactly when that manifest is the primary or the referrers API
  lists it no later than the manifest that names it; otherwise the pull fails on a blob the
  registry does not have (`RoundTrip.PublishThenPull`, `RoundTrip.OrderDecides`).
- A blob upload whose reply is lost after it took effect is tried again on an upload session
  that is gone; the publication fails although the blob is there
  (`RegistrySink.PushBlobWithSkip`, `Registry.UploadLost`).
- A pull writes `oci-layout` in place. A crash may leave a part of it, which every later pull
  keeps and `ImageDir::open` refuses (`PullFacts.RerunRecovers`).

## Files

| file | holds |
|---|---|
| `Wrappers`, `Text`, `Utf8`, `Json`, `Toml` | results, string operations, UTF-8, value trees |
| `Oci`, `DocumentRules`, `ImageDirs`, `ImageDirFacts` | digests and documents; how they are read, written out; `ImageDir::open`; closure, order, mirrors |
| `FileSystems`, `Staging` | fallible files with a history; writing beside a layout and renaming |
| `HttpPublishers`, `HttpSink`, `HttpFacts`, `Sinks` | concurrent publishers; `publish_http`; what a reader sees meanwhile; outcomes |
| `Retries`, `Wire`, `RetryFacts`, `Deliveries` | what is tried again; `send_with_retry`; what it comes to on every trace; the registries a pull can rely on |
| `Pull`, `PullFacts` | `execute_pull`; what it leaves |
| `Registry`, `RegistrySink`, `RegistryFacts`, `RoundTrip`, `StreamingSink` | the honest registry; `publish_registry`; conservation and commit; publish then pull; the streaming sink |
| `Specs`, `Validate`, `SpecRules`, `Canonicalize`, `PythonProjection` | specs; validation; its rules, written out; the projection and its inverse; the Python projection |
| `Attest`, `Referrers`, `VerifyEngine`, `VerdictFacts` | attestations; referrers; `verify`; its verdict, read off the bytes |
| `AttestFacts`, `RewireFacts`, `PulledVerdict` | attesting and verifying together; the second run; `verify` on an image that was pulled back |
| `RefParser`, `BearerChallenge`, `BasicAuth` | references and sink URIs; challenges and token URLs; base64 and Basic credentials |
| `LawfulCodecs`, `Instances`, `AttestInstances` | a codec that keeps the laws; concrete layouts, registries and attestations |

## Model

| member | source | states |
|---|---|---|
| `ImageDirs.Open` | main/features/publish/src/api/image_dir.rs:203-396 | Accepts exactly the directories that satisfy the declarative predicate `WellFormed`; the value is `View`, and every error names a defect of the directory: of the marker or the index, of an index entry, or of a config or layer that a listed manifest names |
| `ImageDirs.DefectRefutes` | main/features/publish/src/api/image_dir.rs:203-396 | A directory with a defect that an error names is none the reader may accept |
| `ImageDirs.LoadManifest` | main/features/publish/src/api/image_dir.rs:253-290 | Succeeds exactly for an entry of the OCI manifest type whose blob is there and parses; an error names what is wrong with that entry |
| `ImageDirs.RequireChildren` | main/features/publish/src/api/image_dir.rs:510-524 | Succeeds exactly when config and every layer are there; an error names one that is not |
| `ImageDirs.CheckReferrers` | main/features/publish/src/api/image_dir.rs:321-350 | Succeeds exactly when every referrer names the primary as its subject and has its content |
| `ImageDirs.SplitEntries` | main/features/publish/src/api/image_dir.rs:250-296 | The entries without and with a subject, each in index order |
| `ImageDirs.BucketMembers` | main/features/publish/src/api/image_dir.rs:291-295 | An index entry is in one bucket or the other according to its subject, and nothing else is |
| `ImageDirs.CollectReferenced` | main/features/publish/src/api/image_dir.rs:352-380 | The blob list keeps the first descriptor of each digest of the closure |
| `ImageDirFacts.FirstOccurrences` | main/features/publish/src/api/image_dir.rs:360-380 | `referenced_blobs` is duplicate-free and in first-occurrence order |
| `ImageDirFacts.ManifestsAfterContent` | main/features/publish/src/api/image_dir.rs:352-380 | If no manifest is also content, every referrer manifest comes after its children and the primary is last |
| `ImageDirFacts.PrimaryLastExactly` | main/features/publish/src/api/image_dir.rs:352-380 | In every accepted layout the primary is appended after everything else exactly when it is no layer and no config of any manifest |
| `Instances.PrimaryNotLast` | main/features/publish/src/api/image_dir.rs:352-380 | A layout, down to its bytes, that is accepted although its referrer has the primary as a layer, and whose blob list does not end with the primary |
| `ImageDirFacts.ReferencedPresent` | main/features/publish/src/api/image_dir.rs:311-350 | Every referenced blob of an accepted layout is on disk |
| `ImageDirFacts.ReferencedAre` | main/features/publish/src/api/image_dir.rs:360-380 | The referenced digests are exactly the manifests and their configs and layers |
| `ImageDirFacts.MirrorOpens` | main/features/publish/src/api/image_dir.rs:203-396 | A directory with the same marker, index and referenced blobs opens as the same image |
| `DocumentRules.DigestExactly` | main/features/publish/src/api/image_dir.rs:457-508 | A digest names a file exactly when it is `sha256:` and 64 lowercase hex digits; an error names what is wrong with it |
| `DocumentRules.DescriptorExactly` | main/features/publish/src/api/image_dir.rs:118-128 | A descriptor is read exactly from an object with a media type, a digest, a size that fits u64, and an artifact type or none |
| `DocumentRules.ManifestExactly` | main/features/publish/src/api/image_dir.rs:132-143 | The same for manifests: a config, layers or none, and a subject or none |
| `DocumentRules.StoredExactly` | main/features/publish/src/api/image_dir.rs:253-290 | A manifest is loaded exactly from the file its digest names, read by these rules |
| `DocumentRules.FilesExactly` | main/features/publish/src/api/image_dir.rs:145-155 | The marker and the index are read by these rules |
| `Oci.HexOfText` | main/features/publish/src/api/image_dir.rs:457-508 | Well-formed digests and blob file names correspond one to one |
| `Oci.DescriptorRoundTrip` | main/features/publish/src/api/image_dir.rs:129-155 | A printed descriptor whose size fits u64 reads back as itself |
| `HttpPublishers.StepOwn` | main/features/publish/src/core/http_sink.rs:124-174 | A publisher's own step keeps what it has achieved: its temporary file is a prefix of the content, finished stages stay finished |
| `HttpPublishers.NextKeepsInv` | main/features/publish/src/core/http_sink.rs:56-98 | Any step of any publisher keeps the joint invariant: sound index, complete stages, distinct temporaries |
| `HttpPublishers.ConcurrentPublishersSafe` | main/features/publish/src/core/http_sink.rs:56-98 | In every interleaving of any number of publishers, with any failures, the visible index has all its blobs, complete, no published name disappears, and the blobs that were there keep their bytes |
| `HttpPublishers.BytesStay` | main/features/publish/src/core/http_sink.rs:124-174 | Once a blob is visible its bytes never change, in any interleaving, if publishers agree on what a name holds |
| `HttpFacts.AlwaysOpens` | main/features/publish/src/core/http_sink.rs:56-98 | From a valid directory, at every step of every interleaving and wherever publishers crash, the directory opens, as the image that was there or as the image of a publisher |
| `HttpFacts.CrashOpens` | main/features/publish/src/core/http_sink.rs:56-98 | Every state a crash of one publication may leave opens as the old image or as the published one |
| `HttpPublishers.DistinctPids` | main/features/publish/src/core/http_sink.rs:112-145 | Distinct process ids keep the temporary names of two publishers apart |
| `HttpSink.CrashSafe` | main/features/publish/src/core/http_sink.rs:56-98 | After any prefix of operations the index is the old one or the new one with everything in place; old blobs keep their bytes, new ones have the source's |
| `HttpSink.RerunConverges` | main/features/publish/src/core/http_sink.rs:56-98 | A rerun from any crash state ends in the visible directory of an uninterrupted publication |
| `HttpSink.RerunAbsorbed` | main/features/publish/src/core/http_sink.rs:124-174 | Stages already done are absorbed when they are repeated |
| `HttpSink.Transfer` | main/features/publish/src/core/http_sink.rs:177-196 | The chunked copy writes a growing prefix and leaves the whole content ready to rename, whatever the chunk sizes |
| `HttpSink.Finalize` | main/features/publish/src/core/http_sink.rs:246-263 | One rename places the finished content under its name |
| `HttpSink.CopyBlobAtomic` | main/features/publish/src/core/http_sink.rs:124-174 | A blob is placed by rename or the stage fails; a failed copy removes its temporary file |
| `HttpSink.WriteSmall` | main/features/publish/src/core/http_sink.rs:201-240 | The marker is rewritten only when it differs, the index always, each by rename |
| `HttpSink.CopyBlobs` | main/features/publish/src/core/http_sink.rs:77-92 | The outcome after the loop is the split of the blobs by what the destination had |
| `HttpSink.PublishHttp` | main/features/publish/src/core/http_sink.rs:56-98 | Its operations are a run of the state machine, so every crash is covered; on success the directory shows the publication and the outcome counts it |
| `HttpSink.OutcomeConserves` | main/features/publish/src/api/sink.rs:93-112 | Each digest is reported once: copied when missing, skipped when there |
| `HttpSink.ValidatedSource` | main/features/publish/src/core/http_sink.rs:70-92 | A validated layout meets the demands of the sink: every blob there, no name twice |
| `HttpSink.PublishedOpens` | main/features/publish/src/core/http_sink.rs:56-98 | The published directory opens as the very image that was published |
| `Wire.Client.SendWithRetry` | main/features/cli/src/registry/pull.rs:796-899 | The loop computes the specification `Call` for every server, and leaves the session it says; what `Call` is on every trace of replies is stated by the `RetryFacts` rows |
| `RetryFacts.FirstAnswer` | main/features/cli/src/registry/pull.rs:796-899 | Lost replies and 5xx replies are waited out, up to three in any mix; the next reply, unless it is a challenge, is what the call returns, after that many GETs, 0, 200, 600 or 1400 ms and no token request |
| `RetryFacts.FourFaults` | main/features/cli/src/registry/pull.rs:840-898 | After four lost or 5xx replies and 1400 ms the call ends: a lost last reply is the transport error, a 5xx is returned |
| `RetryFacts.NoHeader` | main/features/cli/src/registry/pull.rs:825-838 | A GET whose credentials cannot be had or sent ends the call with an authentication error |
| `RetryFacts.TokenDenied` | main/features/cli/src/registry/auth.rs:232-298 | A challenge without a realm, or a token endpoint that issues no token to the credentials of the challenged GET, ends the call with an error |
| `RetryFacts.TokenUsed` | main/features/cli/src/registry/pull.rs:847-883 | After a challenge that brings a token, the remaining tries go on with it, and a second challenge is returned; with none left a lost reply is the error and without one the call panics |
| `RetryFacts.EveryTrace` | main/features/cli/src/registry/pull.rs:796-899 | Every call of every server goes in one of these ways |
| `Wire.Client.FetchBearerToken` | main/features/cli/src/registry/auth.rs:232-298 | At most one token request, at the URL of the challenge; a token is a non-empty `token`, else `access_token` |
| `Wire.CallBounds` | main/features/cli/src/registry/pull.rs:796-907 | At most 4 GETs, 1 token request and 1400 ms of back-off on every trace |
| `Wire.PanicsExactly` | main/features/cli/src/registry/pull.rs:897-898 | The final `expect` fires exactly on 5xx, 5xx, 5xx, then a 401 challenge whose token request succeeds (its comment says never) |
| `Wire.PanicHappens` | main/features/cli/src/registry/pull.rs:897-898 | A server that answers 503 three times, then challenges, and issues a token makes a fresh client panic on any target |
| `Wire.ResponseIsReply` | main/features/cli/src/registry/pull.rs:846-887 | A returned response is the server's reply to the call's last GET of that target |
| `Wire.HonouredCall` | main/features/cli/src/registry/auth.rs:95-126 | Against a fault-free registry that honours its tokens, successive calls share one token request |
| `Pull.FetchManifest` | main/features/cli/src/registry/pull.rs:463-515 | Success exactly for a successful status, a whole body and a digest header that is absent or right; the digest returned is that of the bytes |
| `Pull.FetchReferrers` | main/features/cli/src/registry/pull.rs:537-593 | The answer is `ReadReferrers` of the response the registry delivers; what that comes to in a pull is stated on the response itself by `Pull.ExecutePull` |
| `Pull.StreamBody` | main/features/cli/src/registry/pull.rs:646-673 | The temporary file and the hasher see exactly the body; on a failure the file is removed |
| `Pull.SaveBody` | main/features/cli/src/registry/pull.rs:641-698 | A body gets its name exactly when it arrived whole and hashes to it; otherwise no temporary file is left |
| `Pull.PullBlobStreamed` | main/features/cli/src/registry/pull.rs:608-698 | The blob is there on success and nothing else was added, every state keeps the store correct; with working files it succeeds exactly when the blob was there or the registry serves it |
| `Pull.WriteBlobAtomically` | main/features/cli/src/registry/pull.rs:703-730 | As for streamed blobs, for bytes in memory |
| `Pull.WriteMarker` | main/features/cli/src/registry/pull.rs:732-739 | An existing marker is kept, a missing one becomes the fixed document, after a state in which it is empty; in every state a new marker is a prefix of the document |
| `Pull.WriteIndex` | main/features/cli/src/registry/pull.rs:746-788 | The index is replaced in the last step, by primary and listed referrers |
| `Pull.PullListed` | main/features/cli/src/registry/pull.rs:406-439 | A digest that is unseen at its turn is fetched with its children; one seen before is listed and nothing is fetched |
| `Pull.PullReferrers` | main/features/cli/src/registry/pull.rs:397-440 | All listed referrers are materialised, exactly those unseen at their turn are fetched, and exactly the fetched manifests and their children are seen |
| `Pull.ExecutePull` | main/features/cli/src/registry/pull.rs:322-456 | For every server and every file failure: each state keeps the store content-correct, errors leave the index as it was, success leaves the closure `Pulled`; with working files a pull succeeds exactly when the registry has the image, blob by blob and referrer by referrer in the order of the list; a 404 for the referrers is an empty list, or `ReferrersNotSupported` when the API is required, and any other unsuccessful status, a broken body or an unreadable list is its own error (`ListHeeded`); a whole pull fetches at most one token from a registry that honours it |
| `Pull.OffersObtainable` | main/features/cli/src/registry/pull.rs:322-456 | A registry that offers the primary and every listed referrer as manifests, each with its config and layers as blobs, has the image in that sense, for every directory pulled into |
| `PullFacts.FetchedExactly` | main/features/cli/src/registry/pull.rs:406-411 | After a successful pull a manifest was fetched exactly when it is the primary or was unseen at a turn of its own |
| `PullFacts.PullCloses` | main/features/cli/src/registry/pull.rs:390-456 | Every digest of the written index is on disk, and one is on disk as a fetched manifest with its config and layers exactly when it was fetched |
| `PullFacts.ListedButNotClosed` | main/features/cli/src/registry/pull.rs:406-411 | A layer that is also listed as a referrer is pulled with success, its children are not fetched, and the result is refused by the reader |
| `Instances.ListedButNotClosedApplies` | main/features/cli/src/registry/pull.rs:406-411 | A registry, a server and a session at which the hypotheses of `PullFacts.ListedButNotClosed` hold together |
| `PullFacts.RerunRecovers` | main/features/cli/src/registry/pull.rs:732-739 | A pull that succeeds after an earlier one crashed at any point opens exactly when it brought an image and the crash left no marker or a whole one; a part of one is kept |
| `PullFacts.PullOpens` | main/features/cli/src/registry/pull.rs:390-456 | `ImageDir::open` accepts the result of a successful pull with the pulled primary exactly when marker, media types and subjects are as an OCI layout needs them and the listed referrers that were not fetched have their content there |
| `PullFacts.LegacyOpens` | main/features/cli/src/registry/pull.rs:560-576 | Pulled without a referrers API, the index lists exactly the primary, and the directory opens without referrers exactly when marker and primary are as an image needs them |
| `PullFacts.FetchedOpens` | main/features/cli/src/registry/pull.rs:390-456 | When every listed referrer was fetched, this can be read off the fetched manifests |
| `Registry.Connection.Send` | main/features/publish/src/core/registry_sink.rs:316-533 | Lost and 5xx replies are tried again three times, and nothing else is; the reply and the content are those of exactly these exchanges: the old content or the one with the request's one effect, and the truth when a fault without effect is followed by an answer |
| `Registry.UploadLost` | main/features/publish/src/core/registry_sink.rs:435-494 | An upload whose reply is lost after it took effect is answered 404 on the retry, with the blob there |
| `RegistrySink.PushBlobWithSkip` | main/features/publish/src/core/registry_sink.rs:232-269 | The blob is in the registry on success, skipped exactly when it was there; no tag moves; it succeeds when every request gets through, and fails when the reply to the upload is lost after it took effect |
| `RegistrySink.PushManifestWithSkip` | main/features/publish/src/core/registry_sink.rs:274-314 | Only a manifest addressed by its digest may be skipped; content changes by that one manifest at most |
| `RegistrySink.PushContent` | main/features/publish/src/core/registry_sink.rs:120-131 | Every blob that is no manifest is pushed or skipped, and the registry gains exactly those |
| `RegistrySink.PushReferrers` | main/features/publish/src/core/registry_sink.rs:137-148 | Referrer manifests are pushed or skipped under their digests, and the registry gains exactly those |
| `RegistrySink.PublishRegistry` | main/features/publish/src/core/registry_sink.rs:91-161 | For every trace of faults: the tag changes only in a state that has the whole image, a success accounts for every digest, the primary is pushed last, and the registry holds exactly the old content and the image; when every request gets through on some try it succeeds, with the outcome spelled out |
| `RegistryFacts.OutcomeConserves` | main/features/publish/src/api/sink.rs:93-112 | Pushed and skipped digests together are exactly the referenced ones, whatever was replied |
| `RegistryFacts.OutcomeDisjoint` | main/features/publish/src/api/sink.rs:98-103 | Without a repeated referrer the two lists are disjoint and duplicate-free |
| `RegistryFacts.DisjointExactly` | main/features/publish/src/api/sink.rs:103 | When every request gets through, the lists are disjoint exactly when no missing referrer is listed twice (the comment says always) |
| `RegistrySink.PushListedTwice` | main/features/publish/src/core/registry_sink.rs:137-148 | A referrer that is listed twice and is in the registry ends in both lists when 5xx replies exhaust the retries of its first HEAD |
| `RegistryFacts.CommitIsClosed` | main/features/publish/src/core/registry_sink.rs:150-160 | In every state the tag is as it was, or names the primary with all configs, layers and referrers there, when no manifest is also content |
| `RegistryFacts.OpenValidates` | main/features/publish/src/api/image_dir.rs:360-396 | A validated layout meets the demands of the registry sink |
| `RoundTrip.PublishThenPull` | main/features/cli/src/registry/pull.rs:322-456 | Publish to an empty honest registry; whenever that succeeds, through whatever 5xx replies and lost replies, a pull into an empty directory succeeds exactly when the referrers are listed in order (`Retrievable`: a manifest that is also content is the primary or listed no later than the manifest that names it), and then its result opens as the same image, byte for byte; the publication succeeds whenever every request gets through on some try, and the pull may meet any server that delivers (`Deliveries`) |
| `RoundTrip.PlainRetrievable` | main/features/cli/src/registry/pull.rs:390-440 | An image in which no manifest is also content can be pulled back whatever the order of the list |
| `RoundTrip.OrderedExactly` | main/features/cli/src/registry/pull.rs:397-440 | Every turn of the referrer loop, with what it has seen by then, finds its content exactly when the list is in order |
| `RoundTrip.OrderDecides` | main/features/cli/src/registry/pull.rs:397-440 | Two referrers of which one has the other as a layer are in order one way round and not the other |
| `Instances.RoundTripApplies` | main/features/cli/src/registry/pull.rs:322-456 | An image with a referrer, a tag and a server that answers one GET in four, at which the hypotheses of the round trip hold together |
| `RoundTrip.PublicationHosts` | main/features/publish/src/core/registry_sink.rs:91-161 | The registry then holds exactly the image's manifests, the content that is no manifest, and the tag |
| `RoundTrip.ObtainableExactly` | main/features/cli/src/registry/pull.rs:390-440 | From such a registry a directory without blobs can be filled exactly when the referrers are listed in order |
| `RoundTrip.PulledIsSame` | main/features/cli/src/registry/pull.rs:390-456 | A pull of the image's data opens as the image: same primary, config, layers, referrer set, referenced set and bytes |
| `Deliveries.OpenDelivers` | main/features/cli/src/registry/pull.rs:796-899 | A registry that asks for no token delivers its response to every call exactly when, of any four GETs in a row, one is neither lost nor met by a 5xx |
| `Deliveries.TokenDelivers` | main/features/cli/src/registry/pull.rs:796-899 | A registry that wants a token it issues delivers exactly when two in any four are answered, the challenge and the response |
| `StreamingSink.PushArtifactStreaming` | main/features/publish/src/core/streaming_sink.rs:71-108 | On every trace a success accounts for config, layer and manifest once each and tags change with the last request only; a success against an honest registry leaves what `publish_registry` leaves for the one-layer image; without faults, or with a server too busy for the first HEAD only, it succeeds, with the two lists spelled out |
| `StreamingSink.StreamDisjoint` | main/features/publish/src/api/sink.rs:98-103 | A layer that is not the empty config is never in both lists, whatever is replied |
| `StreamingSink.StreamDisjointExactly` | main/features/publish/src/api/sink.rs:103 | The two lists are disjoint exactly when the layer is not the empty config, or the registry had it and its first HEAD was answered |
| `StreamingSink.StreamDisjointAlways` | main/features/publish/src/api/sink.rs:103 | Over all registries, with or without a busy first HEAD, disjointness is guaranteed exactly for layers that are not the empty config |
| `StreamingSink.PushEmptyLayer` | main/features/publish/src/core/streaming_sink.rs:110-201 | Whatever the registry holds there is an honest run that puts the empty config into both lists: without faults when it is missing, with a busy first HEAD when it is there |
| `StreamingSink.EmptyLayerInBoth` | main/features/publish/src/api/sink.rs:103 | Streaming `{}` to an empty registry puts its digest in both lists |
| `StreamingSink.StreamedAsPublished` | main/features/publish/src/core/streaming_sink.rs:71-108 | The streamed content, and the bytes uploaded, are those of `publish_registry` on the one-layer image |
| `StreamingSink.PushStreamed` | main/features/publish/src/core/streaming_sink.rs:110-201 | Without faults skipped exactly when the registry has the blob, else uploaded with the stated size, and uploaded too when a busy server answers the HEAD; a success against an honest registry leaves the blob there |
| `StreamingSink.OneLayerOpens` | main/features/publish/src/core/streaming_sink.rs:451-468 | A layout of that manifest opens as the one-layer image the theorem is about |
| `StreamingSink.ManifestReads` | main/features/publish/src/core/streaming_sink.rs:451-468 | The built manifest reads back as one config and one layer |
| `Attest.BuildStatementValue` | main/features/attest/src/core/slsa.rs:96-238 | The statement built step by step is the one `AttestFacts.EmittedStatement` and `AttestFacts.EmittedDependencies` read back |
| `AttestFacts.EmittedDependencies` | main/features/attest/src/core/slsa.rs:187-218 | Read from the emitted bytes, `resolvedDependencies` has one entry per layer, in order, each with that layer's digest, media type and name |
| `Attest.EmitSlsa` | main/features/attest/src/core/slsa.rs:62-81 | Nothing when the level is off, else the statement is stored and described |
| `Attest.SignWith` | main/features/attest/src/core/cosign.rs:390-430 | What is signed is the manifest digest, under the kind and identity of the settings; the stored bundle and the log index are the signer's answer to that, an unrecorded, failed or missing signer is its own error, off is nothing |
| `Attest.AttestWithInvoker` | main/features/attest/src/saf/attest.rs:73-108 | Without file faults it succeeds exactly when signing is off or recorded; the outputs are those of the enabled pillars and their blobs are stored |
| `Referrers.WriteReferrer` | main/features/cli/src/referrers.rs:196-233 | The manifest blob is stored and exactly its entry is pushed |
| `Referrers.WriteReferrers` | main/features/cli/src/referrers.rs:77-192 | Until the last step, and on every error, a reader sees the old index; success appends one entry an attestation and adds only those blobs |
| `AttestFacts.ReferrersOpen` | main/features/cli/src/referrers.rs:109-168 | Wiring in referrers keeps the layout valid, with the same primary, and appends the referrers |
| `AttestFacts.IndexAppends` | main/features/cli/src/referrers.rs:109-185 | The rewritten index reads as the old entries followed by the new ones |
| `AttestFacts.EmittedStatement` | main/features/cli/src/verify_engine.rs:490-583 | The emitted statement validates and gives back the spec hash, the builder and the level |
| `AttestFacts.EmittedSbomOk` | main/features/cli/src/verify_engine.rs:588-612 | The emitted SBOM has the format its media type announces, and neither media type names the other format |
| `AttestFacts.EmittedSbomBody` | main/features/attest/src/core/sbom_cyclonedx.rs:54-83 | An SBOM is the body made for the scope of the settings and the one field that names its format |
| `AttestFacts.PayloadsPlaced` | main/features/cli/src/verify_engine.rs:350-391 | Each attestation is classified into its own pillar |
| `AttestFacts.AttestThenVerify` | main/features/cli/src/verify_engine.rs:337-449 | From a referrer-free valid image: whatever file operations fail, once wiring succeeds, opening and verifying gives SLSA and SBOM found exactly when enabled with what was emitted, signature missing exactly when signing is off, and a policy passes exactly when that meets it; without file faults it succeeds exactly when signing is off or recorded; with a verifier that accepts a bundle for the manifest it was signed for and no other, the signature is found whenever signing is on, and a policy passes exactly when the settings of the build meet it (`JudgedBySettings`); every index entry states the size and type of its manifest |
| `AttestFacts.EmittedBuild` | main/features/attest/src/core/slsa.rs:96-185 | Read from the emitted bytes: an in-toto statement whose one subject is the manifest, named by the spec, of a build with the id, hash and kind of the spec |
| `AttestFacts.AttestedTruthful` | main/features/cli/src/referrers.rs:196-233 | Every referrer entry of an attested layout states the size of the manifest it names and the type written in it |
| `AttestInstances.SignerAgrees` | main/features/attest/src/core/cosign.rs:390-430 | A signer and a verifier that agree in this sense, and with which that run signs |
| `AttestInstances.AttestThenVerifyApplies` | main/features/cli/src/verify_engine.rs:337-449 | An image, a signer and a codec at which these hypotheses hold together, for a run that emits all three attestations |
| `RewireFacts.RewireIdempotent` | main/features/cli/src/referrers.rs:72-76 | A second run appends duplicate entries (the comment says the same index), but blobs, referenced blobs and every verification are unchanged |
| `RewireFacts.WireTwice` | main/features/cli/src/referrers.rs:77-192 | The same for the writers on files, whenever both runs succeed |
| `RewireFacts.RepeatedReferrers` | main/features/publish/src/api/image_dir.rs:360-380 | Listing referrers again leaves the deduplicated closure as it is |
| `RewireFacts.WalkedTwice` | main/features/cli/src/verify_engine.rs:350-391 | Walking the same referrers again finds the same payloads |
| `PulledVerdict.VerdictComesBack` | main/features/cli/src/verify_engine.rs:337-449 | An image that was published and pulled back has the verdict of the original under every policy, when each class has one referrer and types are listed as they were |
| `PulledVerdict.OrderMattersExactly` | main/features/cli/src/verify_engine.rs:383-390 | Two referrers may change places exactly when they do not claim one slot with different payloads: the last of a class wins |
| `VerifyEngine.Verify` | main/features/cli/src/verify_engine.rs:337-449 | A directory that does not open is refused with its defect; otherwise the verdict is `Verdict`, of which `VerdictFacts.VerdictExactly` says what it is |
| `VerdictFacts.VerdictExactly` | main/features/cli/src/verify_engine.rs:337-449 | On a valid layout whose referrers read: a report exactly when the last in-toto payload is provenance about the primary, the last SBOM has the format of its type and every gate of the policy is open, all read off the bytes; the report says what was found, and an error names what was wrong |
| `VerdictFacts.StatementExactly` | main/features/cli/src/verify_engine.rs:490-583 | A statement is accepted exactly when it is JSON of the provenance type with a subject that carries the hex digest under some algorithm and a string `spec_hash` among the external parameters; what is read of it is what those fields say |
| `VerdictFacts.ForeignIsRefused` | main/features/cli/src/verify_engine.rs:524-540 | Provenance emitted for another manifest is refused, whatever else the layout holds and whatever the policy |
| `VerdictFacts.SbomExactly` | main/features/cli/src/verify_engine.rs:588-612 | An SBOM is found exactly when it is JSON with the `bomFormat` or the `spdxVersion` its media type asks for |
| `VerdictFacts.ClassifiedExactly` | main/features/cli/src/verify_engine.rs:459-475 | The class of a payload in terms of the in-toto type, the cosign type and three substrings; the two SBOM types need no branch of their own |
| `VerdictFacts.ReferrerExactly` | main/features/cli/src/verify_engine.rs:350-381 | A referrer carries its first layer, under the type of the manifest, else of the index entry, else of the layer, and is refused exactly when that does not read |
| `VerdictFacts.UnreadIsRefused` | main/features/cli/src/verify_engine.rs:350-381 | One referrer that does not read refuses the whole |
| `VerifyEngine.ValidateSlsaStatement` | main/features/cli/src/verify_engine.rs:490-583 | The loops over subjects and algorithms compute `Statement`, of which `VerdictFacts.StatementExactly` says when it accepts |
| `VerifyEngine.DecideReport` | main/features/cli/src/verify_engine.rs:393-449 | The verdicts and the policy on the payloads found, the first defect reported |
| `VerifyEngine.ApplyPolicy` | main/features/cli/src/verify_engine.rs:614-706 | Passes exactly when `PolicyMet`, which `VerdictFacts.VerdictExactly` reads off the payloads |
| `Canonicalize.ValidatedIsChecked` | main/features/spec/src/core/validate.rs:31-95 | What `validate` accepts is checked as the projection needs it |
| `SpecRules.SpecFileExactly` | main/features/spec/src/core/raw.rs:15-79 | A spec file is read as a raw spec exactly when its tables say that, with the types the format asks for, and no key the format does not know |
| `SpecRules.ValidatesExactly` | main/features/spec/src/core/validate.rs:31-95 | `validate` accepts a raw spec exactly when it keeps every rule of the format, absent fields included; the spec it returns is what the rules make of it, with the stated defaults; an error names a broken rule and quotes what breaks it |
| `SpecRules.LayerExactly` | main/features/spec/src/core/validate.rs:170-268 | A layer is accepted exactly with one kind of source that exists, a media type and a known compression, and an error names what is wrong with it |
| `SpecRules.CompressionExactly` | main/features/spec/src/core/validate.rs:270-278 | Without a compression a media type that ends in `+gzip` means gzip, one that ends in `+zstd` zstd, and any other none |
| `SpecRules.AttestationExactly` | main/features/spec/src/core/validate.rs:337-390 | The attestation tables are accepted exactly when level, format, scope and kind are known and a key is named; what is absent is level 2, CycloneDX over layers, keyless |
| `Specs.ParseKind` | main/features/spec/src/api/spec.rs:55-71 | Parsing and printing a kind are inverse: a name parses exactly to the kind that prints it |
| `Specs.LevelFromInt` | main/features/spec/src/api/attestation.rs:44-63 | The same for SLSA levels |
| `Specs.ParseSbomFormat` | main/features/spec/src/api/attestation.rs:89-104 | The same for SBOM formats |
| `Specs.ParseSbomScope` | main/features/spec/src/api/attestation.rs:115-130 | The same for SBOM scopes |
| `Specs.ParseSignKind` | main/features/spec/src/api/attestation.rs:159-174 | The same for signing kinds |
| `Validate.CheckLayerOrder` | main/features/spec/src/core/validate.rs:280-300 | Succeeds exactly when every layer of a VM image has the marker of its position |
| `Validate.CheckAnnotations` | main/features/spec/src/core/validate.rs:304-333 | Succeeds exactly when the reserved annotations that are present are sensible |
| `Validate.FirstMissing` | main/features/spec/src/core/validate.rs:214-229 | Finds a missing file exactly when some listed file does not exist |
| `Canonicalize.ProjectionRoundTrip` | main/features/spec/src/saf/canonicalize.rs:73-216 | Validate, project and read back under the same file oracle gives the same spec exactly when no path has a backslash and the config has no null |
| `Canonicalize.ProjectionInjective` | main/features/spec/src/saf/canonicalize.rs:73-216 | Two such specs with the same projection are equal, whatever files each was validated against |
| `Canonicalize.SpecReads` | main/features/spec/src/saf/canonicalize.rs:73-210 | The projection reads back as the raw spec it denotes, defaults and omitted fields included |
| `Canonicalize.NormalisePath` | main/features/spec/src/saf/canonicalize.rs:212-216 | The result has no backslash, and is the input exactly when that had none |
| `Canonicalize.SpecToJson` | main/features/spec/src/saf/canonicalize.rs:73-106 | The object built step by step is the projection the round trip is about |
| `Canonicalize.AnnotationsToJson` | main/features/spec/src/saf/canonicalize.rs:168-174 | The object has exactly the annotations |
| `Toml.TomlToJson` | main/features/spec/src/core/validate.rs:398-419 | The loops over arrays and tables compute the value projection |
| `Toml.FromJsonToJson` | main/features/spec/src/core/validate.rs:398-419 | A null-free JSON value taken as TOML projects back to itself |
| `PythonProjection.PythonAgrees` | tests/fixtures/jcs/verify_python.py:48-208 | On every tree that validates, the Python projection exists and equals the Rust one exactly when the config has no non-finite float and no date-time the two print differently |
| `PythonProjection.ProjectSpec` | tests/fixtures/jcs/verify_python.py:48-73 | The dictionary built step by step is the projection compared |
| `PythonProjection.ProjectLayers` | tests/fixtures/jcs/verify_python.py:89-120 | As the loop over layers computes it, exceptions included |
| `PythonProjection.DefaultAgrees` | tests/fixtures/jcs/verify_python.py:199-204 | Python's default compression, from its own `endswith`, is the printed default of `validate` |
| `PythonProjection.NormaliseAgrees` | tests/fixtures/jcs/verify_python.py:207-208 | Python's path replacement is that of the projection |
| `Toml.ProjectionsAgree` | tests/fixtures/jcs/verify_python.py:132-156 | The two value projections agree exactly on portable values |
| `RefParser.ParsesExactly` | main/features/cli/src/registry/ref_parser.rs:75-302 | The parser accepts exactly the grammar host/repository(:tag or @digest), and returns the one decomposition that prints to its input |
| `RefParser.DecompositionUnique` | main/features/cli/src/registry/ref_parser.rs:75-179 | A reference decomposes in one way |
| `RefParser.SinkAgrees` | main/features/cli/src/cmd/publish.rs:273-317 | A tag reference and the sink URI made of it name the same host, repository and tag |
| `RefParser.SinksExactly` | main/features/cli/src/cmd/publish.rs:273-317 | A sink URI is accepted exactly when it is `http:` and a path, or `registry:` host/repository:tag, and names that sink |
| `BearerChallenge.ParseBearerChallenge` | main/features/cli/src/registry/auth.rs:159-221 | The consuming walk ends on every input and computes the challenge map |
| `BearerChallenge.ChallengeRoundTrip` | main/features/cli/src/registry/auth.rs:159-221 | Any spelling of a parameter list, with quoted and bare values, parses back to the map it denotes |
| `BearerChallenge.OtherScheme` | main/features/cli/src/registry/auth.rs:159-168 | A header of another scheme, or of none, is no bearer challenge |
| `BearerChallenge.ParamLookup` | main/features/cli/src/registry/auth.rs:159-221 | With distinct keys every parameter keeps its own value |
| `BearerChallenge.PercentEncode` | main/features/cli/src/registry/auth.rs:342-361 | The loop computes the encoding the decoder inverts |
| `BearerChallenge.UrlRoundTrip` | main/features/cli/src/registry/auth.rs:342-361 | Percent-decoding gives back every string |
| `BearerChallenge.EncodedIsPlain` | main/features/cli/src/registry/auth.rs:342-361 | Encoded text has no character that structures a query |
| `BearerChallenge.TokenUrlRecoverable` | main/features/cli/src/registry/auth.rs:243-255 | Realm, service and scope can be recovered from the token URL, whichever of the two are given |
| `BasicAuth.Base64Encode` | main/features/cli/src/registry/credential_provider.rs:309-331 | The 24-bit packing loop computes base64 |
| `BasicAuth.Alphabet` | main/features/cli/src/registry/credential_provider.rs:309-331 | The symbols are those of table 1 of RFC 4648 |
| `BasicAuth.Packing` | main/features/cli/src/registry/credential_provider.rs:309-331 | The packed group yields the four symbols of section 4 of RFC 4648 |
| `BasicAuth.Base64Length` | main/features/cli/src/registry/credential_provider.rs:309-331 | The length is 4*ceil(n/3) |
| `BasicAuth.Base64RoundTrip` | main/features/cli/src/registry/credential_provider.rs:309-331 | Decoding undoes encoding for all bytes |
| `BasicAuth.Base64Canonical` | main/features/cli/src/registry/credential_provider/docker_config.rs:370-420 | The decoder accepts canonical text only |
| `BasicAuth.BasicRoundTrip` | main/features/cli/src/registry/credential_provider/docker_config.rs:370-420 | A pair survives encoding and `decode_auth_field` exactly when both halves are non-empty and the user has no colon |
| `BasicAuth.AuthFieldUnique` | main/features/cli/src/registry/credential_provider/docker_config.rs:370-420 | An accepted field is the encoding of the pair it gives |

## Left out

- Sockets, TLS, redirects, timeouts, `reqwest` and real sleeping: a request is its reply and its effect, a pause is the number of milliseconds asked for.
- URL building for requests, `Location` resolution and the digest query parameter: an upload session is a number.
- SHA-256, JSON and TOML text, RFC 8785 serialisation and the spec hash: functions of the codec, or values.
- Duplicate keys in a JSON object, and serde reading a struct from an array: neither has a value tree here.
- The wording of error messages; errors are their kind and the value they report.
- Directories, links and permissions: a path is absent or a file, and reading a file that is there succeeds.
- Changes to the source layout while it is being published: a sink copies the directory that was opened.
- The remove-then-rename branches for Windows, which are documented as not atomic.
- `fsync` and reordering of writes by the operating system: every completed operation is on disk.
- A second puller in the same directory at the same time; only publishers are modelled concurrently.
- The existence and readiness check of the credential chain at construction; the chain is a function of the request number.
- Vault, docker-config file reading, `lookup_entry`, `map_entry_to_resolved`, environment variables and command-line parsing: look-ups with easy tables.
- The order of the parts of a `Bearer` map and of JSON objects: maps have none.
- SBOM bodies beyond the field that names their format, and `oci_build`: their outputs are parameters.
- The store's own temporary names: the `cas` crate is not part of this model; a put writes a temporary file and renames it.
- Cosign, sigstore, Fulcio and Rekor: signing and checking outcomes are functions of their arguments.
- Python's `int` on floats and numerals, and containers other than tables and lists where the projection iterates: no spec that validates has them, and they count as exceptions.
- Symbolic links and case folding in spec paths: the file oracle is a function of the path as written.
- BasicAuth.Base64Encode: shifts and masks of the 24-bit group are written as division and remainder by powers of two, which is the same on bytes.
- RoundTrip.PublishThenPull: the file operations of the pull are taken not to fail; what a failure leaves is stated by `Pull.ExecutePull`.
- ImageDirs.Open: errors of reading files that exist are not modelled.
- StreamingSink.PushArtifactStreaming: the source is read in full; a source shorter than the size the caller states fails its request in the HTTP client, which is not part of this model.
