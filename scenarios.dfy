/**
 * Callers of the provider: what a host can conclude from the contracts of `upload` and `delete`
 * alone, following the scenarios of the repository's test suite.
 */
module Scenarios {
  import opened Wrappers
  import opened FileLocation
  import opened Transport
  import opened Provider

  /**
   * Upload, then delete the same record: the delete targets the key the upload stored under, so the
   * object is gone exactly when the `space` and `bucket` settings name the same bucket.
   */
  method UploadThenDelete(u: Uploader, file: File) returns (up: Outcome<ProviderError>, del: Outcome<ProviderError>)
    modifies file`hash, file`url, u.store`objects
    ensures up.Pass? && del.Pass? ==>
      var stored := ObjectId(u.config.space, u.KeyOf(file));
      (stored in u.store.objects <==> u.config.space != u.config.bucket) &&
      (u.config.space == u.config.bucket ==> u.store.objects == old(u.store.objects) - {stored})
  {
    ghost var before := u.store.objects;
    up := u.Upload(file);
    ghost var key := u.KeyOf(file);
    ghost var afterUpload := u.store.objects;
    del := u.Delete(file);
    if up.Pass? && del.Pass? {
      var stored := ObjectId(u.config.space, key);
      PutThenRemove(before, stored, afterUpload[stored], ObjectId(u.config.bucket, key));
    }
  }

  /** With directory `uploads` and no algorithm configured, a file is stored under `uploads/<md5 of hash>.jpg`. */
  method UploadIntoDirectory(uri: UriCodec, store: ObjectStore, digest: (string, string) -> Option<string>, space: string)
    returns (u: Uploader, file: File, r: Outcome<ProviderError>)
    modifies store`objects
    ensures r.Pass? ==>
      digest("md5", "testhash").Some? &&
      ObjectId(space, "uploads/" + digest("md5", "testhash").value + ".jpg") in store.objects &&
      file.hash == digest("md5", "testhash").value && file.url.Some?
  {
    var config := Config(space, space, Some("uploads"), None, None);
    u := new Uploader.Init(config, uri, store, digest);
    file := new File("testhash", ".jpg", "image/jpeg", Some([0x74, 0x65, 0x73, 0x74]), None);
    r := u.Upload(file);
    if r.Pass? {
      assert u.KeyOf(file) == "uploads/" + digest("md5", "testhash").value + ".jpg";
    }
  }

  /** With a CDN configured, the URL starts with `https://` and the CDN host, whatever the store reports. */
  method UploadBehindCdn(uri: UriCodec, store: ObjectStore, digest: (string, string) -> Option<string>, space: string)
    returns (file: File, r: Outcome<ProviderError>)
    requires WritesHttpsAuthorityFirst(uri)
    requires uri.parse("https://cdn.digitalocean.com").host == Some("cdn.digitalocean.com")
    requires uri.parse("https://cdn.digitalocean.com").userinfo.None?
    modifies store`objects
    ensures r.Pass? ==> file.url.Some? && "https://cdn.digitalocean.com" <= file.url.value
  {
    var config := Config(space, space, Some("uploads"), Some("https://cdn.digitalocean.com"), None);
    var u := new Uploader.Init(config, uri, store, digest);
    file := new File("cdntest", ".jpg", "image/jpeg", Some([0x63, 0x64, 0x6e]), None);
    r := u.Upload(file);
    if r.Pass? {
      var key := u.KeyOf(file);
      TestCdnPrefix(u.Converter(), UploadData(store.locate(ObjectId(space, key)), key));
    }
  }

  /** The test's CDN base, parsed as required above, yields URLs that start with it. */
  lemma TestCdnPrefix(conv: FileLocationConverter, data: UploadData)
    requires conv.config.cdn == Some("https://cdn.digitalocean.com") && WritesHttpsAuthorityFirst(conv.uri)
    requires conv.uri.parse("https://cdn.digitalocean.com").host == Some("cdn.digitalocean.com")
    requires conv.uri.parse("https://cdn.digitalocean.com").userinfo.None?
    ensures "https://cdn.digitalocean.com" <= conv.GetUrl(data)
  {
    assert "https://" + "cdn.digitalocean.com" == "https://cdn.digitalocean.com";
    assert IsLetter("cdn.digitalocean.com"[0]);
    assert IsDomainName("cdn.digitalocean.com");
    CdnUrlStartsWithHost(conv, data);
  }

  /** Without a CDN, the URL always begins with a scheme accepted by `assertUrlProtocol`. */
  method UploadWithoutCdn(u: Uploader, file: File) returns (r: Outcome<ProviderError>)
    requires !Truthy(u.config.cdn)
    modifies file`hash, file`url, u.store`objects
    ensures r.Pass? ==> file.url.Some? && AssertUrlProtocol(file.url.value)
  {
    r := u.Upload(file);
  }

  /** Uploading the same record twice: the hash afterwards is the digest applied twice to the original. */
  method UploadTwice(u: Uploader, file: File) returns (first: Outcome<ProviderError>, second: Outcome<ProviderError>)
    modifies file`hash, file`url, u.store`objects
    ensures var algo := HashAlgorithm(u.config);
      first.Pass? && second.Pass? ==>
        u.digest(algo, old(file.hash)).Some? &&
        u.digest(algo, u.digest(algo, old(file.hash)).value).Some? &&
        file.hash == u.digest(algo, u.digest(algo, old(file.hash)).value).value
  {
    first := u.Upload(file);
    second := u.Upload(file);
  }
}
