/**
 * The key and URL policy of the Spaces upload provider (`FileLocationConverter`):
 * where an uploaded file is stored and which public URL it receives.
 */
module FileLocation {
  import opened Wrappers

  /** The provider's configuration, fixed when the provider is initialised. */
  datatype Config = Config(
    space: string,              // bucket that uploads go to
    bucket: string,             // bucket that deletions go to
    directory: Option<string>,  // key prefix
    cdn: Option<string>,        // base URL of a content delivery network
    hash: Option<string>)       // name of the digest algorithm

  /** JavaScript truthiness of an optional string setting: present and non-empty. */
  predicate Truthy(setting: Option<string>) {
    setting.Some? && setting.value != ""
  }

  /** What the storage transport reports after a successful upload (`data.Location`, `data.Key`). */
  datatype UploadData = UploadData(location: string, key: string)

  /** The component record of a parsed URI, as the URI library produces and consumes it. */
  datatype UriComponents = UriComponents(
    scheme: Option<string>,
    userinfo: Option<string>,
    host: Option<string>,
    port: Option<string>,
    path: string,
    query: Option<string>,
    fragment: Option<string>)

  /** The URI library: parsing and serialising are foreign, so they are parameters of the model. */
  datatype UriCodec = UriCodec(parse: string -> UriComponents, serialize: UriComponents -> string)

  /** A letter of the Latin alphabet. */
  predicate IsLetter(ch: char) {
    ('a' <= ch <= 'z') || ('A' <= ch <= 'Z')
  }

  /**
   * A plain domain name: letters, digits, `-` and `.` only, with at least one letter. It has no `:`,
   * `[` or `%`, so a serialiser writes it as it is (no brackets, no escapes) and it is no IPv4 literal.
   */
  predicate IsDomainName(host: string) {
    (forall i :: 0 <= i < |host| ==> IsLetter(host[i]) || ('0' <= host[i] <= '9') || host[i] in "-.") &&
    (exists i :: 0 <= i < |host| && IsLetter(host[i]))
  }

  /**
   * What the CDN policy relies on from the serialiser, for exactly the records the policy builds:
   * scheme `https`, no user information and a plain domain name as host are written out starting
   * with `https://host`.
   */
  ghost predicate WritesHttpsAuthorityFirst(codec: UriCodec) {
    forall c: UriComponents {:trigger codec.serialize(c)} ::
      c.scheme == Some("https") && c.userinfo.None? && c.host.Some? && IsDomainName(c.host.value) ==>
        "https://" + c.host.value <= codec.serialize(c)
  }

  /** A JavaScript regular-expression word character, `\w`. */
  predicate IsWordChar(ch: char) {
    ('a' <= ch <= 'z') || ('A' <= ch <= 'Z') || ('0' <= ch <= '9') || ch == '_'
  }

  /** Length of the longest prefix of `s` made of word characters (what a greedy `\w*` consumes). */
  function WordPrefixLength(s: string): (n: nat)
    ensures n <= |s|
    ensures forall i :: 0 <= i < n ==> IsWordChar(s[i])
    ensures n < |s| ==> !IsWordChar(s[n])
  {
    if s != [] && IsWordChar(s[0]) then 1 + WordPrefixLength(s[1..]) else 0
  }

  /**
   * `assertUrlProtocol`: the test `/^\w*:\/\//`, run greedily. It accepts exactly the strings the
   * regular expression matches (AssertUrlProtocolMatchesPattern proves the scan right).
   */
  predicate AssertUrlProtocol(url: string): (accepted: bool)
    ensures accepted <==> MatchesSchemePattern(url)
  {
    AssertUrlProtocolMatchesPattern(url);
    var n := WordPrefixLength(url);
    n + 3 <= |url| && url[n..n + 3] == "://"
  }

  /** Every character of `s` is a word character. */
  predicate AllWordChars(s: string) {
    forall i :: 0 <= i < |s| ==> IsWordChar(s[i])
  }

  /** The regular expression `^\w*://` read declaratively: some word-character prefix is followed by `://`. */
  ghost predicate MatchesSchemePattern(url: string) {
    exists k :: 0 <= k && k + 3 <= |url| && AllWordChars(url[..k]) && url[k..k + 3] == "://"
  }

  /** Direct policy: a location that already names a scheme is kept, any other gets `https://` in front. */
  function DirectUrl(location: string): (url: string)
    ensures AssertUrlProtocol(url)
    ensures url == location <==> AssertUrlProtocol(location)
    ensures !AssertUrlProtocol(location) ==> url == "https://" + location
    ensures |location| <= |url| && url[|url| - |location|..] == location
  {
    if !AssertUrlProtocol(location) then
      SchemedIsAccepted("https", location);
      assert "https" + "://" + location == "https://" + location;
      "https://" + location
    else
      location
  }

  /** CDN policy on the parsed base: the scheme is forced to `https` and the path becomes the key. */
  function CdnComponents(base: UriComponents, key: string): (c: UriComponents)
    ensures c.scheme == Some("https") && c.path == key
    ensures c.userinfo == base.userinfo && c.host == base.host && c.port == base.port
    ensures c.query == base.query && c.fragment == base.fragment
  {
    base.(scheme := Some("https"), path := key)
  }

  /** `FileLocationConverter`: the configuration it was built with and the URI library it calls. */
  datatype FileLocationConverter = FileLocationConverter(config: Config, uri: UriCodec) {

    /** `getKey`: the storage key of a file with this hash and extension. */
    function GetKey(hash: string, ext: string): (key: string)
      ensures |key| >= |hash| + |ext| && key[|key| - |hash| - |ext|..] == hash + ext
      ensures !Truthy(config.directory) ==> key == hash + ext
      ensures Truthy(config.directory) ==>
        var dir := config.directory.value;
        |key| == |dir| + 1 + |hash| + |ext| && key[..|dir|] == dir && key[|dir|] == '/'
    {
      var filename := hash + ext;
      if Truthy(config.directory) then config.directory.value + "/" + filename else filename
    }

    /**
     * `getUrl`: the public URL of an uploaded object. Without a CDN it is the transport location,
     * normalised so that it always carries a scheme (see CdnPolicy for the CDN branch).
     */
    function GetUrl(data: UploadData): (url: string)
      ensures !Truthy(config.cdn) ==> AssertUrlProtocol(url)
      ensures !Truthy(config.cdn) ==> (url == data.location <==> AssertUrlProtocol(data.location))
      ensures !Truthy(config.cdn) && !AssertUrlProtocol(data.location) ==> url == "https://" + data.location
    {
      if !Truthy(config.cdn) then
        DirectUrl(data.location)
      else
        uri.serialize(CdnComponents(uri.parse(config.cdn.value), data.key))
    }
  }

  /**
   * The greedy scan (skip all word characters, then look for `://`) and the declarative reading of
   * `^\w*://` agree on every string: a colon ends every word-character prefix.
   */
  lemma AssertUrlProtocolMatchesPattern(url: string)
    ensures (var n := WordPrefixLength(url); n + 3 <= |url| && url[n..n + 3] == "://") <==> MatchesSchemePattern(url)
  {
    var n := WordPrefixLength(url);
    if n + 3 <= |url| && url[n..n + 3] == "://" {
      assert AllWordChars(url[..n]);
    }
    if MatchesSchemePattern(url) {
      var k :| 0 <= k && k + 3 <= |url| && AllWordChars(url[..k]) && url[k..k + 3] == "://";
      PatternPrefixIsGreedy(url, k);
    }
  }

  /** A word-character prefix followed by a colon is exactly the prefix a greedy `\w*` consumes. */
  lemma PatternPrefixIsGreedy(url: string, k: nat)
    requires k < |url| && AllWordChars(url[..k]) && url[k] == ':'
    ensures WordPrefixLength(url) == k
  {
  }

  /** A word-character scheme followed by `://` is accepted, whatever follows. */
  lemma SchemedIsAccepted(scheme: string, rest: string)
    requires AllWordChars(scheme)
    ensures AssertUrlProtocol(scheme + "://" + rest)
  {
    var url := scheme + "://" + rest;
    var k := |scheme|;
    assert url[k..k + 3] == "://";
    assert url[..k] == scheme;
    assert MatchesSchemePattern(url);
  }

  /** A colon-slash-slash at the very start counts as a scheme: `\w*` also matches nothing. */
  lemma EmptySchemeIsAccepted(rest: string)
    ensures AssertUrlProtocol("://" + rest)
  {
    SchemedIsAccepted("", rest);
    assert "" + "://" + rest == "://" + rest;
  }

  /** A bare host and path is not schemed, so the direct policy puts `https://` in front of it. */
  lemma BareHostIsNotSchemed()
    ensures !AssertUrlProtocol("s3.example/x")
    ensures DirectUrl("s3.example/x") == "https://s3.example/x"
  {
    var s := "s3.example/x";
    assert s[0] == 's' && s[1] == '3' && s[2] == '.';
    assert !IsWordChar(s[2..][0]);
    assert WordPrefixLength(s[2..]) == 0;
    assert s[1..][1..] == s[2..];
    assert WordPrefixLength(s[1..]) == 1;
    assert WordPrefixLength(s) == 2;
    assert s[2..5][0] == '.';
    assert "https://" + s == "https://s3.example/x";
  }

  /** Normalising a location a second time changes nothing. */
  lemma DirectUrlIdempotent(location: string)
    ensures DirectUrl(DirectUrl(location)) == DirectUrl(location)
  {
  }

  /**
   * With a CDN the URL is the serialised CDN base with scheme `https` and path the key; the other
   * components come from the parsed base, and the transport location plays no part.
   */
  lemma CdnPolicy(conv: FileLocationConverter, data: UploadData, other: string)
    requires Truthy(conv.config.cdn)
    ensures var base := conv.uri.parse(conv.config.cdn.value);
      exists c: UriComponents {:trigger conv.uri.serialize(c)} ::
        conv.GetUrl(data) == conv.uri.serialize(c) &&
        c.scheme == Some("https") && c.path == data.key &&
        c.userinfo == base.userinfo && c.host == base.host && c.port == base.port &&
        c.query == base.query && c.fragment == base.fragment
    ensures conv.GetUrl(data) == conv.GetUrl(data.(location := other))
  {
    var c := CdnComponents(conv.uri.parse(conv.config.cdn.value), data.key);
    assert conv.GetUrl(data) == conv.uri.serialize(c);
  }

  /**
   * With a CDN, for a serialiser that writes the records of this policy authority first: when the
   * parsed base has a plain domain name as host and no user information, the URL starts with
   * `https://host`, whatever scheme the base was configured with.
   */
  lemma CdnUrlStartsWithHost(conv: FileLocationConverter, data: UploadData)
    requires Truthy(conv.config.cdn) && WritesHttpsAuthorityFirst(conv.uri)
    ensures var base := conv.uri.parse(conv.config.cdn.value);
      base.host.Some? && IsDomainName(base.host.value) && base.userinfo.None? ==>
        "https://" + base.host.value <= conv.GetUrl(data)
  {
    var c := CdnComponents(conv.uri.parse(conv.config.cdn.value), data.key);
    assert conv.GetUrl(data) == conv.uri.serialize(c);
  }

  /** Under one configuration and extension, the key determines the hash: distinct files never share a key. */
  lemma {:induction false} KeyDeterminesHash(conv: FileLocationConverter, hash1: string, hash2: string, ext: string)
    requires conv.GetKey(hash1, ext) == conv.GetKey(hash2, ext)
    ensures hash1 == hash2
  {
    var k1, k2 := conv.GetKey(hash1, ext), conv.GetKey(hash2, ext);
    assert |hash1| == |hash2|;
    var start := |k1| - |hash1| - |ext|;
    assert hash1 == k1[start..][..|hash1|];
    assert hash2 == k2[start..][..|hash2|];
  }
}
