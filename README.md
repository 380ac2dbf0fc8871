# Digital Ocean Spaces upload provider — a Dafny model

This project models the core of a Strapi upload provider for Digital Ocean Spaces (an S3-compatible
object store). The core has two parts:

- the key and URL policy (`FileLocationConverter`). It decides the storage key of a file
  (`directory/hash.ext` or `hash.ext`) and the public URL of an uploaded object. The URL is the
  transport's location with `https://` added when it has no scheme, or it is rewritten through a
  CDN base URL;
- the provider that `init` returns. `upload` re-hashes the caller's `file.hash`, stores the payload
  under the key of the new hash and sets `file.url` on success. `delete` removes the object under the
  key of the file's current hash.

Files:

- `wrappers.dfy`: module `Wrappers`, with `Option`, `Result` and `Outcome`.
- `file_location.dfy`: module `FileLocation`. It holds the configuration, the `assertUrlProtocol`
  test, the direct and CDN URL policies, and the datatype `FileLocationConverter` with `GetKey` and
  `GetUrl`. The converter is a value because its configuration is set once, in its constructor.
- `transport.dfy`: module `Transport`. The object store is a class whose `objects` map, from
  (bucket, key) to body and content type, is changed by `Put` and `Remove`. Each of them either
  succeeds or fails, nondeterministically.
- `provider.dfy`: module `Provider`. It holds the mutable `File` record and the class `Uploader`,
  which stands for the pair of closures returned by `init`, with `Upload` and `Delete`.
- `scenarios.dfy`: module `Scenarios`. Its callers state what a host can conclude from the contracts
  alone, following the scenarios of `lib/index.test.js`.

Foreign collaborators are parameters of the model: the digest function `digest(algorithm, input)`
(None when the hash library throws),
the URI library's `parse` and `serialize` (a `UriCodec`), and the location the store reports for an
object (`ObjectStore.locate`). JavaScript truthiness of the optional settings `directory`, `cdn` and
`hash` is modelled as "present and non-empty" (`Truthy`).

## Model

| member | source | states |
|---|---|---|
| `FileLocation.WordPrefixLength` | lib/index.js:35 | the length of the longest word-character prefix (`[A-Za-z0-9_]`): every character before it is a word character and the one at it is not |
| `FileLocation.AssertUrlProtocol` | lib/index.js:33-36 | `assertUrlProtocol` accepts a string exactly when the regular expression `^\w*://` matches it (a prefix of zero or more word characters followed by `://`), both directions; its partner lemma AssertUrlProtocolMatchesPattern proves the greedy scan right |
| `FileLocation.AssertUrlProtocolMatchesPattern` | lib/index.js:35 | the greedy scan (skip every word character, then look for `://`) accepts a string exactly when some prefix of zero or more word characters is followed by `://` (both directions) |
| `FileLocation.SchemedIsAccepted` | lib/index.js:35 | any word-character scheme followed by `://` is accepted, whatever follows it |
| `FileLocation.EmptySchemeIsAccepted` | lib/index.js:35 | `://x` is accepted: the pattern's `\w*` also matches zero characters |
| `FileLocation.BareHostIsNotSchemed` | lib/index.js:20-21 | `s3.example/x` is not accepted, so the direct policy turns it into `https://s3.example/x` |
| `FileLocation.DirectUrl` | lib/index.js:19-25 | the direct-policy URL always passes `assertUrlProtocol`; it equals the location exactly when the location already passes; otherwise it is `https://` followed by the location; the location is always a suffix of the URL |
| `FileLocation.DirectUrlIdempotent` | lib/index.js:20-24 | normalising an already normalised location leaves it unchanged |
| `FileLocation.FileLocationConverter.GetUrl` | lib/index.js:18-25 | with no CDN configured, the URL carries a scheme, is the location unchanged exactly when the location has one, and is `https://` + location otherwise |
| `FileLocation.CdnComponents` | lib/index.js:27-29 | the rewritten record has scheme `https` and path equal to the key, and every other component is the parsed base's |
| `FileLocation.CdnPolicy` | lib/index.js:26-30 | with a CDN configured, the URL is the serialisation of a record with scheme `https`, path the key, and host, port, user information, query and fragment from the parsed CDN base; the transport location has no influence on it |
| `FileLocation.CdnUrlStartsWithHost` | lib/index.js:27-30 | with a CDN, and a serialiser that writes a record with scheme `https`, no user information and a plain domain-name host (letters, digits, `-`, `.`, at least one letter) starting with `https://host`: when the parsed base has such a host and no user information, the URL starts with `https://` and that host, whatever scheme was configured; other bases are not constrained |
| `FileLocation.FileLocationConverter.GetKey` | lib/index.js:11-16 | the key ends with `hash + ext`; with a truthy directory it is the directory, `/`, then `hash + ext`; without one it is exactly `hash + ext`, with no slash |
| `FileLocation.KeyDeterminesHash` | lib/index.js:11-16 | under one configuration and one extension, equal keys mean equal hashes, so files with distinct hashes never share a key |
| `Provider.HashAlgorithm` | lib/index.js:61 | the algorithm is the configured `hash` when it is truthy, else `md5`; never empty |
| `Provider.Payload` | lib/index.js:65 | the body is the stream when there is one, else the buffer; there is no body exactly when both are missing |
| `Provider.PayloadSourceIrrelevant` | lib/index.js:65 | a stream and a buffer holding the same bytes give the transport the same body |
| `Provider.Uploader.Init` | lib/index.js:43-45 | the provider keeps the configuration, the URI library, the store and the digest given to `init` |
| `Provider.Uploader.Upload` | lib/index.js:60-71 | when hashing throws (the digest is None): the call fails and `file.hash`, `file.url` and the store are unchanged. Otherwise `file.hash` becomes the digest of the old hash under the chosen algorithm, on every later path. With no payload: the call fails, and the store and `file.url` are unchanged. After a successful put: the object (body, mime) is stored under (space, key of the new hash), nothing else in the store changes, and `file.url` is `GetUrl` of the transport's reply. After a failed put: the store and `file.url` are unchanged |
| `Provider.Uploader.Delete` | lib/index.js:73-78 | on success, exactly the object under (bucket, key of the current hash) is removed; on failure, the store is unchanged; the file record is untouched |
| `Transport.ObjectStore.Put` | lib/index.js:63-67 | a successful put stores the object under its id and reports the store's location and the key; a failed one changes nothing |
| `Transport.ObjectStore.Remove` | lib/index.js:74-77 | a successful delete removes the id; a failed one changes nothing |
| `Scenarios.UploadThenDelete` | lib/index.test.js:101-124 | after a successful upload and delete of the same record, the uploaded object is gone exactly when `space` and `bucket` name the same bucket, and then the store is as before less that key |
| `Scenarios.UploadIntoDirectory` | lib/index.test.js:62-80 | with directory `uploads` and no algorithm set, a successful upload stores under `uploads/` + md5 digest of `testhash` + `.jpg` and sets the url |
| `Scenarios.UploadBehindCdn` | lib/index.test.js:127-137 | with CDN `https://cdn.digitalocean.com`, whose parse gives host `cdn.digitalocean.com` and no user information, the url of a successful upload starts with `https://cdn.digitalocean.com` |
| `Scenarios.TestCdnPrefix` | lib/index.test.js:136 | for that CDN base, every URL the converter gives starts with `https://cdn.digitalocean.com`, whatever the transport reports |
| `Scenarios.UploadWithoutCdn` | lib/index.test.js:139-152 | without a CDN, the url of a successful upload passes `assertUrlProtocol` |
| `Scenarios.UploadTwice` | lib/index.js:61 | after two successful uploads of one record, its hash is the digest applied twice to the original |

## Where the code departs from its comments and tests (modelled as the code is written)

- The comment at lib/index.js:34 speaks of a protocol "like http://, https://", but the test at
  lib/index.js:35 is `^\w*://`, so zero word characters count as a scheme: `://x` is kept unchanged
  (`EmptySchemeIsAccepted`).
- `upload` stores into `config.space` (lib/index.js:52), but `delete` targets `config.bucket`
  (lib/index.js:75). The two keys always agree, but the object is removed only when the two settings
  name the same bucket (`UploadThenDelete`).
- lib/index.js:27-30 never checks the result of `parse`: a CDN base that does not parse well is
  serialised all the same. The model's `parse` is total, so no such error exists in the model.
- The test at lib/index.test.js:151 expects `^https?://` without a CDN. The code guarantees only
  `assertUrlProtocol`: a location such as `ftp://host/x` or `://x` is returned unchanged.
- A record with neither `stream` nor `buffer` makes `Buffer.from` throw after `file.hash` has
  already been rewritten. The model returns `Fail(PayloadMissing)` with the hash rewritten and the
  store untouched.

## Left out

- The AWS SDK objects (`AWS.Endpoint`, `AWS.S3`, `S3.upload`, `S3.deleteObject`, `.promise()`): they stand as the abstract `ObjectStore`, whose calls succeed or fail nondeterministically, and whose reported location is the abstract `locate`.
- Promises and asynchrony: each call is one sequential method. Concurrent calls are not modelled; frames show that an upload touches only its own record's `hash` and `url`.
- The hash function behind `crypto.createHash(...).digest("hex")`: an uninterpreted parameter `digest`, whose None result stands for `createHash` throwing on an algorithm it does not support.
- Provider.Uploader.Upload: does not model `update` throwing on a `file.hash` that is not a string (lib/index.js:61), where the hash is also left unchanged, because `file.hash` is a string in the model.
- Provider.Uploader.Upload: does not model a `file.ext` (or `file.hash`) that is undefined, which lib/index.js:12 turns into the text `undefined` inside the key, because the record's fields are strings in the model.
- FileLocation.CdnUrlStartsWithHost: says nothing about the URL when the CDN base parses with no host, with user information, or with a host that is not a plain domain name (an IPv6 literal, which is written in brackets; a percent-escaped or IPv4 host, which may be rewritten), because what the foreign serialiser does with those is not modelled.
- The grammar of `fast-uri` `parse` and `serialize`: abstract parameters. Only the "scheme and host first" law used by `CdnUrlStartsWithHost` is assumed, and only where stated.
- `Buffer.from(..., "binary")` decoding: payload bytes are opaque `seq<bv8>`.
- The fixed credentials, ACL and cache-control parameters, and the static `provider` and `name` strings: fixed data with no logic.
- An absent `config.bucket`: what the SDK does with an undefined bucket parameter is outside the model, so `bucket` is a plain string.
- Non-string values of the settings and of `data.Location`: every setting is an optional string.
