/**
 * The provider returned by `init`: `upload` and `delete` over a caller-owned file record,
 * an object-storage transport and a digest function.
 */
module Provider {
  import opened Wrappers
  import opened FileLocation
  import opened Transport

  /** The file record the host hands to the provider; `upload` rewrites its `hash` and sets its `url`. */
  class File {
    var hash: string
    var ext: string
    var mime: string
    var buffer: Option<Bytes>
    var stream: Option<Bytes>
    var url: Option<string>

    constructor (hash: string, ext: string, mime: string, buffer: Option<Bytes>, stream: Option<Bytes>)
      ensures this.hash == hash && this.ext == ext && this.mime == mime
      ensures this.buffer == buffer && this.stream == stream && url == None
    {
      this.hash, this.ext, this.mime := hash, ext, mime;
      this.buffer, this.stream := buffer, stream;
      url := None;
    }
  }

  /** Why an upload or a delete did not complete. */
  datatype ProviderError =
    | DigestFailed                 // the hash library rejects the algorithm: `createHash` throws
    | PayloadMissing               // neither a stream nor a buffer: building the buffer throws
    | Transport(cause: TransportError)

  /** The digest algorithm: the configured one, or `md5` when none (or an empty name) is configured. */
  function HashAlgorithm(config: Config): (algo: string)
    ensures algo != ""
    ensures Truthy(config.hash) ==> algo == config.hash.value
    ensures !Truthy(config.hash) ==> algo == "md5"
  {
    if Truthy(config.hash) then config.hash.value else "md5"
  }

  /** The body sent to the transport: the stream when there is one, else the buffer's bytes. */
  function Payload(stream: Option<Bytes>, buffer: Option<Bytes>): (body: Option<Bytes>)
    ensures body.Some? <==> stream.Some? || buffer.Some?
    ensures body.Some? ==> body == stream || (stream.None? && body == buffer)
  {
    if stream.Some? then stream else buffer
  }

  /** A buffer and a stream holding the same bytes give the transport the same body. */
  lemma PayloadSourceIrrelevant(bytes: Bytes)
    ensures Payload(Some(bytes), None) == Payload(None, Some(bytes)) == Some(bytes)
  {
  }

  /** The two operations `init` returns, closed over the configuration, converter, store and digest. */
  class Uploader {
    const config: Config
    const uri: UriCodec
    const store: ObjectStore
    /**
     * `digest(algorithm, input)`: the hex digest of `input`, or None when the hash library throws
     * (an algorithm it does not support); the hash function itself is not modelled.
     */
    const digest: (string, string) -> Option<string>

    constructor Init(config: Config, uri: UriCodec, store: ObjectStore, digest: (string, string) -> Option<string>)
      ensures this.config == config && this.uri == uri && this.store == store && this.digest == digest
    {
      this.config := config;
      this.uri := uri;
      this.store := store;
      this.digest := digest;
    }

    /** The `FileLocationConverter` built from the configuration. */
    function Converter(): FileLocationConverter {
      FileLocationConverter(config, uri)
    }

    /** The key a file is stored under, from its current hash and extension. */
    function KeyOf(file: File): string
      reads file
    {
      Converter().GetKey(file.hash, file.ext)
    }

    /**
     * `upload`: re-hashes `file.hash`, then stores the payload under the key of the new hash in the
     * `space` bucket; only a successful put sets `file.url`. When hashing throws, nothing changes.
     */
    method Upload(file: File) returns (r: Outcome<ProviderError>)
      modifies file`hash, file`url, store`objects
      ensures var d := digest(HashAlgorithm(config), old(file.hash));
        d.None? ==> r == Fail(DigestFailed) && file.hash == old(file.hash) &&
                    store.objects == old(store.objects) && file.url == old(file.url)
      ensures var d := digest(HashAlgorithm(config), old(file.hash));
        d.Some? ==> file.hash == d.value
      ensures digest(HashAlgorithm(config), old(file.hash)).Some? && Payload(file.stream, file.buffer).None? ==>
        r == Fail(PayloadMissing) && store.objects == old(store.objects) && file.url == old(file.url)
      ensures digest(HashAlgorithm(config), old(file.hash)).Some? && Payload(file.stream, file.buffer).Some? ==>
        var id := ObjectId(config.space, KeyOf(file));
        var obj := StoredObject(Payload(file.stream, file.buffer).value, file.mime);
        (r.Pass? ==> store.objects == old(store.objects)[id := obj] &&
                     file.url == Some(Converter().GetUrl(UploadData(store.locate(id), id.key)))) &&
        (r.Fail? ==> r.error.Transport? && store.objects == old(store.objects) && file.url == old(file.url))
    {
      var digested := digest(HashAlgorithm(config), file.hash);
      if digested.None? {
        return Fail(DigestFailed);
      }
      file.hash := digested.value;
      var key := Converter().GetKey(file.hash, file.ext);
      var body := Payload(file.stream, file.buffer);
      if body.None? {
        return Fail(PayloadMissing);
      }
      var response := store.Put(ObjectId(config.space, key), StoredObject(body.value, file.mime));
      if response.Failure? {
        return Fail(Transport(response.error));
      }
      file.url := Some(Converter().GetUrl(UploadData(response.value.location, response.value.key)));
      r := Pass;
    }

    /** `delete`: removes the object under the key of the file's current hash from the `bucket` bucket. */
    method Delete(file: File) returns (r: Outcome<ProviderError>)
      modifies store`objects
      ensures var id := ObjectId(config.bucket, KeyOf(file));
        (r.Pass? ==> store.objects == old(store.objects) - {id}) &&
        (r.Fail? ==> r.error.Transport? && store.objects == old(store.objects))
    {
      var outcome := store.Remove(ObjectId(config.bucket, Converter().GetKey(file.hash, file.ext)));
      if outcome.Fail? {
        return Fail(Transport(outcome.error));
      }
      r := Pass;
    }
  }
}
