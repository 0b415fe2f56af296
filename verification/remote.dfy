/**
 * The remote services the readers call (object storage, repository hosting,
 * HTTP servers), as functions of their inputs. Each returns what the client
 * library returns, or the exception it raises.
 */
module Remote {
  import opened Common
  import opened Errors
  import opened FileSystem

  /** The arguments of `boto3.client('s3', ...)`. */
  datatype S3Client = S3Client(accessKeyId: Option<string>, secretAccessKey: Option<string>, region: string)

  /** One element of `list_objects_v2(...)['Contents']`; `LastModified` is not modelled. */
  datatype S3Object = S3Object(key: string, size: nat)

  /** What `httpx` returns after following redirects; header names are lower-case. */
  datatype HttpResponse = HttpResponse(status: int, headers: map<string, string>, body: Bytes)

  datatype Services = Services(
    /** `download_file(bucket, key, ...)`: the object's bytes. */
    s3Download: (S3Client, Option<string>, string) -> Result<Bytes>,
    /** `list_objects_v2(Bucket, Prefix)`: `Contents`, absent when nothing matches. */
    s3List: (S3Client, Option<string>, string) -> Result<Option<seq<S3Object>>>,
    /** `git.Repo.clone_from(url, dir, branch=..., depth=1)`: the file system with the clone. */
    gitClone: (string, string, string, Fs) -> Result<Fs>,
    /** `git.Repo(dir).remotes.origin.pull()`: the file system after the pull. */
    gitPull: (string, Fs) -> Result<Fs>,
    /** `client.get(url, headers=..., follow_redirects=True)`. */
    httpGet: (string, map<string, string>) -> Result<HttpResponse>,
    /** The `HTTPStatusError` that `raise_for_status` raises for a response. */
    httpStatusError: HttpResponse -> Error
  )
}
