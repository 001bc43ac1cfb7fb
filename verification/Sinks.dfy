/** The outcome every sink reports. */
module Sinks {
  datatype PublishOutcome = PublishOutcome(pushed: seq<string>, skipped: seq<string>, bytesUploaded: nat)

  datatype PublishError =
    | Destination
    | BlobUpload(digest: string)
    | ManifestUpload
    | Auth
    | RegistryRefused(status: nat)

  const EMPTY_OUTCOME := PublishOutcome([], [], 0)
}
