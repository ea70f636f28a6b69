/**
 * The AWS KMS client: binding a client to an `aws-kms://` key URI, deciding
 * which URIs it serves, and the AEAD that forwards encrypt/decrypt to the
 * AWS KMS service with an encryption context derived from the associated data.
 */
module AwsKms {
  import opened Wrappers
  import opened Text
  import opened Hex
  import opened KmsCommon

  const AwsKeyUriPrefix: string := "aws-kms://"
  /** How every key ARN of the service begins. */
  const ArnPrefix: string := "arn:aws:kms:"
  /** The literal part of the pattern a bound client's key URI must start with. */
  const ArnKeyUriPrefix: string := AwsKeyUriPrefix + ArnPrefix
  const AssociatedDataKey: string := "associatedData"
  const DefaultSection: string := "default"
  const AccessKeyIdKey: string := "aws_access_key_id"
  const SecretAccessKeyKey: string := "aws_secret_access_key"

  // ---------------------------------------------------------------------------
  // Encryption context

  /**
   * `_encryption_context`: nothing for empty associated data, otherwise the one
   * entry `associatedData` holding the lowercase hex of the bytes.
   */
  function EncryptionContext(associatedData: bytes): (ctx: map<string, string>)
    ensures |associatedData| == 0 <==> ctx == map[]
    ensures |associatedData| > 0 ==>
      && ctx.Keys == {AssociatedDataKey}
      && ctx[AssociatedDataKey] == Hexlify(associatedData)
      && |ctx[AssociatedDataKey]| == 2 * |associatedData|
      && Unhexlify(ctx[AssociatedDataKey]) == Some(associatedData)
  {
    if |associatedData| > 0 then
      UnhexlifyHexlify(associatedData);
      var ctx := map[AssociatedDataKey := Hexlify(associatedData)];
      assert AssociatedDataKey in ctx;
      ctx
    else
      map[]
  }

  /** Different associated data never yields the same encryption context. */
  lemma EncryptionContextInjective(a: bytes, b: bytes)
    requires EncryptionContext(a) == EncryptionContext(b)
    ensures a == b
  {
    if |a| > 0 && |b| > 0 {
      assert EncryptionContext(a)[AssociatedDataKey] == EncryptionContext(b)[AssociatedDataKey];
      HexlifyInjective(a, b);
    }
  }

  // ---------------------------------------------------------------------------
  // Key URIs, ARNs and regions

  /** `_key_uri_to_key_arn`. */
  function KeyUriToKeyArn(keyUri: string): (r: Result<string, Error>)
    ensures r.Failure? <==> !StartsWith(keyUri, AwsKeyUriPrefix)
    ensures r.Failure? ==> r.error == InvalidKeyUri
    ensures r.Success? ==> AwsKeyUriPrefix + r.value == keyUri
  {
    StripPrefix(AwsKeyUriPrefix, keyUri)
  }

  lemma KeyUriToKeyArnRoundTrip(keyArn: string)
    ensures KeyUriToKeyArn(AwsKeyUriPrefix + keyArn) == Success(keyArn)
  {
    StripPrefixOfConcat(AwsKeyUriPrefix, keyArn);
  }

  /** `_get_region_from_key_arn`: segment 3 of the `:`-separated ARN. */
  function GetRegionFromKeyArn(keyArn: string): (r: Result<string, Error>)
    ensures r.Failure? <==> CountChar(keyArn, ':') < 5
    ensures r.Failure? ==> r.error == InvalidKeyId
    ensures r.Success? ==> ':' !in r.value
  {
    var parts := Split(keyArn, ':');
    if |parts| < 6 then Failure(InvalidKeyId) else Success(parts[3])
  }

  /** For an ARN assembled from colon-free segments, the region is segment 3. */
  lemma RegionOfSegments(segments: seq<string>)
    requires |segments| >= 1
    requires forall i :: 0 <= i < |segments| ==> ':' !in segments[i]
    ensures GetRegionFromKeyArn(Join(segments, ':')) ==
      if |segments| < 6 then Failure(InvalidKeyId) else Success(segments[3])
  {
    SplitJoin(segments, ':');
  }

  /** The ARN `arn:aws:kms:us-west-2:111122223333:key/1234abcd-12ab-34cd-56ef-1234567890ab`, segment by segment. */
  const ExampleKeyArn: string :=
    ArnPrefix + "us-west-2" + ":" + "111122223333" + ":" + "key/1234abcd-12ab-34cd-56ef-1234567890ab"

  /** Any ARN of the documented shape `arn:aws:kms:<region>:<account>:<key>` yields its region. */
  lemma RegionOfKmsArn(region: string, account: string, key: string)
    requires ':' !in region && ':' !in account && ':' !in key
    ensures GetRegionFromKeyArn(ArnPrefix + region + ":" + account + ":" + key) == Success(region)
  {
    SplitNoSeparator(key, ':');
    SplitAfterSegment(account, key, ':');
    SplitArn(region, account + [':'] + key);
    assert ArnPrefix + region + ":" + account + ":" + key == ArnPrefix + region + [':'] + (account + [':'] + key);
  }

  lemma ExampleRegion()
    ensures GetRegionFromKeyArn(ExampleKeyArn) == Success("us-west-2")
  {
    RegionOfKmsArn("us-west-2", "111122223333", "key/1234abcd-12ab-34cd-56ef-1234567890ab");
  }

  // ---------------------------------------------------------------------------
  // The key-URI pattern `aws-kms://arn:aws:kms:([a-z0-9-]+):` of `__init__`

  predicate IsRegionChar(c: char) {
    'a' <= c <= 'z' || '0' <= c <= '9' || c == '-'
  }

  /** Length of the longest prefix of `s` made of `[a-z0-9-]`. */
  function RegionRunLength(s: string): (n: nat)
    ensures n <= |s|
    ensures forall j :: 0 <= j < n ==> IsRegionChar(s[j])
    ensures n < |s| ==> !IsRegionChar(s[n])
  {
    if |s| == 0 || !IsRegionChar(s[0]) then 0 else 1 + RegionRunLength(s[1..])
  }

  /** A run of region characters ended by a non-region character is the longest run. */
  lemma {:induction false} RegionRunLengthUnique(s: string, k: nat)
    requires k < |s| && !IsRegionChar(s[k])
    requires forall j :: 0 <= j < k ==> IsRegionChar(s[j])
    ensures RegionRunLength(s) == k
  {
    if k > 0 {
      RegionRunLengthUnique(s[1..], k - 1);
    }
  }

  /** The pattern's meaning: the literal prefix, then some non-empty run of `[a-z0-9-]`, then `:`. */
  ghost predicate RegexMatches(keyUri: string) {
    && StartsWith(keyUri, ArnKeyUriPrefix)
    && RegionThenColon(keyUri[|ArnKeyUriPrefix|..])
  }

  /** Some non-empty prefix of `rest` is all `[a-z0-9-]` and is followed by `:`. */
  ghost predicate RegionThenColon(rest: string) {
    exists k :: 1 <= k < |rest| && rest[k] == ':' && forall j :: 0 <= j < k ==> IsRegionChar(rest[j])
  }

  /** The greedy run decides `RegionThenColon`: it holds iff the longest run is non-empty and followed by `:`. */
  lemma LongestRegionRunDecides(rest: string)
    ensures RegionThenColon(rest) <==>
      (1 <= RegionRunLength(rest) < |rest| && rest[RegionRunLength(rest)] == ':')
  {
    if RegionThenColon(rest) {
      var k :| 1 <= k < |rest| && rest[k] == ':' && forall j :: 0 <= j < k ==> IsRegionChar(rest[j]);
      RegionRunLengthUnique(rest, k);
    }
  }

  /** `re.match` of the pattern, computed from the longest region run; it agrees with `RegexMatches`. */
  predicate MatchesKeyUriPattern(keyUri: string): (r: bool)
    ensures r <==> RegexMatches(keyUri)
  {
    && StartsWith(keyUri, ArnKeyUriPrefix)
    && var rest := keyUri[|ArnKeyUriPrefix|..];
       var n := RegionRunLength(rest);
       LongestRegionRunDecides(rest);
       1 <= n < |rest| && rest[n] == ':'
  }

  /** The text the pattern's group captures. */
  function RegionGroup(keyUri: string): string
    requires MatchesKeyUriPattern(keyUri)
  {
    var rest := keyUri[|ArnKeyUriPrefix|..];
    rest[..RegionRunLength(rest)]
  }

  /** An ARN that starts `arn:aws:kms:<group>:` splits into those three words, the group, and the rest's pieces. */
  lemma SplitArn(group: string, tail: string)
    requires ':' !in group
    ensures Split(ArnPrefix + group + [':'] + tail, ':') == ["arn", "aws", "kms", group] + Split(tail, ':')
  {
    assert ArnPrefix == "arn" + [':'] + "aws" + [':'] + "kms" + [':'];
    SplitFourSegments("arn", "aws", "kms", group, tail, ':');
  }

  /** Region lookup on `arn:aws:kms:<group>:<tail>` returns the group exactly when `tail` holds another `:`. */
  lemma RegionAfterArnPrefix(group: string, tail: string)
    requires ':' !in group
    ensures GetRegionFromKeyArn(ArnPrefix + group + [':'] + tail) ==
      if ':' in tail then Success(group) else Failure(InvalidKeyId)
  {
    SplitArn(group, tail);
    CountCharZero(tail, ':');
  }

  /**
   * For a URI that passes the pattern, the ARN's segment 3 is the captured
   * region, and region extraction succeeds exactly when a further `:` follows.
   */
  lemma BoundArnRegion(keyUri: string)
    requires MatchesKeyUriPattern(keyUri)
    ensures
      var rest := keyUri[|ArnKeyUriPrefix|..];
      var tail := rest[RegionRunLength(rest) + 1..];
      GetRegionFromKeyArn(keyUri[|AwsKeyUriPrefix|..]) ==
        if ':' in tail then Success(RegionGroup(keyUri)) else Failure(InvalidKeyId)
  {
    var rest := keyUri[|ArnKeyUriPrefix|..];
    var n := RegionRunLength(rest);
    var group := rest[..n];
    var tail := rest[n + 1..];
    assert ':' !in group by {
      forall j | 0 <= j < |group| ensures group[j] != ':' {
        assert IsRegionChar(rest[j]);
      }
    }
    RegionAfterArnPrefix(group, tail);
    StartsWithDecompose(keyUri, ArnKeyUriPrefix);
    assert keyUri == AwsKeyUriPrefix + (ArnPrefix + group + [':'] + tail);
    StartsWithConcat(AwsKeyUriPrefix, ArnPrefix + group + [':'] + tail);
  }

  /** A key URI `aws-kms://arn:aws:kms:<region>:<rest>` with a non-empty `[a-z0-9-]` region passes the pattern and binds. */
  lemma KmsArnUriBinds(region: string, rest: string)
    requires |region| > 0 && forall j :: 0 <= j < |region| ==> IsRegionChar(region[j])
    ensures var keyUri := AwsKeyUriPrefix + (ArnPrefix + region + ":" + rest);
      && MatchesKeyUriPattern(keyUri)
      && RegionGroup(keyUri) == region
      && BindKeyUri(Some(keyUri)) == Success(Some(ArnPrefix + region + ":" + rest))
  {
    var keyArn := ArnPrefix + region + ":" + rest;
    var keyUri := AwsKeyUriPrefix + keyArn;
    assert keyUri == ArnKeyUriPrefix + (region + ":" + rest);
    StartsWithConcat(ArnKeyUriPrefix, region + ":" + rest);
    RegionRunLengthUnique(region + ":" + rest, |region|);
    StartsWithConcat(AwsKeyUriPrefix, keyArn);
  }

  lemma ExampleKeyUriBinds()
    ensures BindKeyUri(Some(AwsKeyUriPrefix + ExampleKeyArn)) == Success(Some(ExampleKeyArn))
  {
    var region := "us-west-2";
    assert forall j :: 0 <= j < |region| ==> IsRegionChar(region[j]);
    KmsArnUriBinds(region, "111122223333" + ":" + "key/1234abcd-12ab-34cd-56ef-1234567890ab");
    assert ExampleKeyArn == ArnPrefix + region + ":" + ("111122223333" + ":" + "key/1234abcd-12ab-34cd-56ef-1234567890ab");
  }

  /** `__init__`'s key-URI half: unbound, bound to the URI minus its prefix, or `InvalidKeyUri`. */
  function BindKeyUri(keyUri: Option<string>): (r: Result<Option<string>, Error>)
    ensures r.Failure? <==> NonEmpty(keyUri) && !RegexMatches(keyUri.value)
    ensures r.Failure? ==> r.error == InvalidKeyUri
    ensures r.Success? && !NonEmpty(keyUri) ==> r.value == None
    ensures r.Success? && NonEmpty(keyUri) ==>
      && r.value.Some?
      && AwsKeyUriPrefix + r.value.value == keyUri.value
      && StartsWith(r.value.value, ArnPrefix)
  {
    if !NonEmpty(keyUri) then Success(None)
    else
      if MatchesKeyUriPattern(keyUri.value) then
        StartsWithLonger(keyUri.value, AwsKeyUriPrefix, ArnPrefix);
        var keyArn := KeyUriToKeyArn(keyUri.value).value;
        StartsWithDecompose(keyUri.value, ArnKeyUriPrefix);
        var rest := keyUri.value[|ArnKeyUriPrefix|..];
        assert keyUri.value == AwsKeyUriPrefix + (ArnPrefix + rest);
        StartsWithConcat(AwsKeyUriPrefix, ArnPrefix + rest);
        StartsWithConcat(ArnPrefix, rest);
        Success(Some(keyArn))
      else
        Failure(InvalidKeyUri)
  }

  // ---------------------------------------------------------------------------
  // Credentials

  /** An INI file as read by `configparser`: section name to key/value entries. */
  type Config = map<string, map<string, string>>

  /** `_parse_config`'s checks on an already-read configuration. */
  function ParseConfig(config: Config): (r: Result<(string, string), Error>)
    ensures r.Success? <==>
      DefaultSection in config && AccessKeyIdKey in config[DefaultSection] && SecretAccessKeyKey in config[DefaultSection]
    ensures r.Success? ==>
      r.value == (config[DefaultSection][AccessKeyIdKey], config[DefaultSection][SecretAccessKeyKey])
    ensures DefaultSection !in config ==> r == Failure(InvalidConfig(DefaultSection))
    ensures DefaultSection in config && AccessKeyIdKey !in config[DefaultSection] ==>
      r == Failure(InvalidConfig(AccessKeyIdKey))
    ensures DefaultSection in config && AccessKeyIdKey in config[DefaultSection] && SecretAccessKeyKey !in config[DefaultSection] ==>
      r == Failure(InvalidConfig(SecretAccessKeyKey))
  {
    if DefaultSection !in config then Failure(InvalidConfig(DefaultSection))
    else
      var default := config[DefaultSection];
      if AccessKeyIdKey !in default then Failure(InvalidConfig(AccessKeyIdKey))
      else if SecretAccessKeyKey !in default then Failure(InvalidConfig(SecretAccessKeyKey))
      else
        var accessKeyId := default[AccessKeyIdKey];
        Success((accessKeyId, default[SecretAccessKeyKey]))
  }

  /** `__init__`'s credentials half: default credentials, or the two values from the config file. */
  function ResolveCredentials(credentialsPath: Option<string>, readConfig: string -> Config): (r: Result<(Option<string>, Option<string>), Error>)
    ensures !NonEmpty(credentialsPath) ==> r == Success((None, None))
    ensures NonEmpty(credentialsPath) ==>
      (r.Success? <==> ParseConfig(readConfig(credentialsPath.value)).Success?)
    ensures NonEmpty(credentialsPath) && r.Success? ==>
      var config := readConfig(credentialsPath.value)[DefaultSection];
      r.value == (Some(config[AccessKeyIdKey]), Some(config[SecretAccessKeyKey]))
    ensures r.Failure? ==> r.error.InvalidConfig?
    ensures NonEmpty(credentialsPath) && r.Failure? ==> r.error == ParseConfig(readConfig(credentialsPath.value)).error
  {
    if !NonEmpty(credentialsPath) then Success((None, None))
    else
      var pair :- ParseConfig(readConfig(credentialsPath.value));
      Success((Some(pair.0), Some(pair.1)))
  }

  // ---------------------------------------------------------------------------
  // The AWS KMS service as seen through its client library

  datatype EncryptRequest = EncryptRequest(keyId: string, plaintext: bytes, encryptionContext: map<string, string>)
  datatype DecryptRequest = DecryptRequest(keyId: string, ciphertextBlob: bytes, encryptionContext: map<string, string>)
  datatype DecryptResponse = DecryptResponse(plaintext: bytes, keyId: string)

  /** A KMS service client: its answers to encrypt and decrypt requests. */
  datatype KmsApi = KmsApi(
    encrypt: EncryptRequest -> Result<bytes, ClientError>,
    decrypt: DecryptRequest -> Result<DecryptResponse, ClientError>)

  /** The parameters a session is opened with. */
  datatype Session = Session(awsAccessKeyId: Option<string>, awsSecretAccessKey: Option<string>, regionName: string)

  /** A service that decrypts what it encrypted under `keyArn`, with the same context, and reports that key. */
  ghost predicate ConsistentService(api: KmsApi, keyArn: string) {
    forall plaintext: bytes, ctx: map<string, string> ::
      api.encrypt(EncryptRequest(keyArn, plaintext, ctx)).Success? ==>
        api.decrypt(DecryptRequest(keyArn, api.encrypt(EncryptRequest(keyArn, plaintext, ctx)).value, ctx))
          == Success(DecryptResponse(plaintext, keyArn))
  }

  // ---------------------------------------------------------------------------
  // `_AwsKmsAead`

  class AwsKmsAead {
    const client: KmsApi
    const keyArn: string

    constructor (client: KmsApi, keyArn: string)
      ensures this.client == client && this.keyArn == keyArn
    {
      this.client := client;
      this.keyArn := keyArn;
    }

    /** Encrypts under the bound ARN; a service error becomes `KmsOperationFailed`. */
    function Encrypt(plaintext: bytes, associatedData: bytes): (r: Result<bytes, Error>)
      ensures var answer := client.encrypt(EncryptRequest(keyArn, plaintext, EncryptionContext(associatedData)));
        && (r.Success? <==> answer.Success?)
        && (r.Success? ==> r.value == answer.value)
        && (r.Failure? ==> r.error == KmsOperationFailed(answer.error))
    {
      match client.encrypt(EncryptRequest(keyArn, plaintext, EncryptionContext(associatedData)))
      case Success(ciphertextBlob) => Success(ciphertextBlob)
      case Failure(e) => Failure(KmsOperationFailed(e))
    }

    /**
     * Decrypts under the bound ARN and returns the plaintext only when the
     * service reports that very ARN as the key it used.
     */
    function Decrypt(ciphertext: bytes, associatedData: bytes): (r: Result<bytes, Error>)
      ensures var answer := client.decrypt(DecryptRequest(keyArn, ciphertext, EncryptionContext(associatedData)));
        && (r.Success? <==> answer.Success? && answer.value.keyId == keyArn)
        && (r.Success? ==> r.value == answer.value.plaintext)
        && (answer.Failure? ==> r == Failure(KmsOperationFailed(answer.error)))
        && (answer.Success? && answer.value.keyId != keyArn ==> r == Failure(KeyIdMismatch(keyArn, answer.value.keyId)))
    {
      match client.decrypt(DecryptRequest(keyArn, ciphertext, EncryptionContext(associatedData)))
      case Success(response) =>
        if response.keyId != keyArn then Failure(KeyIdMismatch(keyArn, response.keyId))
        else Success(response.plaintext)
      case Failure(e) => Failure(KmsOperationFailed(e))
    }
  }

  /** Against a consistent service, decrypt undoes encrypt for the same associated data. */
  lemma EncryptDecryptRoundTrip(aead: AwsKmsAead, plaintext: bytes, associatedData: bytes)
    requires ConsistentService(aead.client, aead.keyArn)
    requires aead.Encrypt(plaintext, associatedData).Success?
    ensures aead.Decrypt(aead.Encrypt(plaintext, associatedData).value, associatedData) == Success(plaintext)
  {
    var ctx := EncryptionContext(associatedData);
    assert aead.client.encrypt(EncryptRequest(aead.keyArn, plaintext, ctx)).Success?;
  }

  /** A decrypt answer naming another key is refused even when it carries a plaintext. */
  lemma DecryptRejectsForeignKeyId(aead: AwsKmsAead, ciphertext: bytes, associatedData: bytes, response: DecryptResponse)
    requires aead.client.decrypt(DecryptRequest(aead.keyArn, ciphertext, EncryptionContext(associatedData))) == Success(response)
    requires response.keyId != aead.keyArn
    ensures aead.Decrypt(ciphertext, associatedData) == Failure(KeyIdMismatch(aead.keyArn, response.keyId))
  {
  }

  // ---------------------------------------------------------------------------
  // `AwsKmsClient`

  class AwsKmsClient {
    /** `_key_arn`: the ARN the client is bound to, or `None`. */
    const keyArn: Option<string>
    const awsAccessKeyId: Option<string>
    const awsSecretAccessKey: Option<string>

    /** Stores the state `__init__` assigns; `Create` is `__init__` itself. */
    constructor (keyArn: Option<string>, awsAccessKeyId: Option<string>, awsSecretAccessKey: Option<string>)
      ensures this.keyArn == keyArn
      ensures this.awsAccessKeyId == awsAccessKeyId && this.awsSecretAccessKey == awsSecretAccessKey
    {
      this.keyArn := keyArn;
      this.awsAccessKeyId := awsAccessKeyId;
      this.awsSecretAccessKey := awsSecretAccessKey;
    }

    /** `__init__`: the key URI is checked first, then the credentials file. */
    static method Create(keyUri: Option<string>, credentialsPath: Option<string>, readConfig: string -> Config)
      returns (r: Result<AwsKmsClient, Error>)
      ensures BindKeyUri(keyUri).Failure? ==> r == Failure(BindKeyUri(keyUri).error)
      ensures BindKeyUri(keyUri).Success? && ResolveCredentials(credentialsPath, readConfig).Failure? ==>
        r == Failure(ResolveCredentials(credentialsPath, readConfig).error)
      ensures r.Success? <==> BindKeyUri(keyUri).Success? && ResolveCredentials(credentialsPath, readConfig).Success?
      ensures r.Success? ==>
        && BindKeyUri(keyUri) == Success(r.value.keyArn)
        && ResolveCredentials(credentialsPath, readConfig) == Success((r.value.awsAccessKeyId, r.value.awsSecretAccessKey))
      ensures r.Success? && NonEmpty(keyUri) ==> NonEmpty(r.value.keyArn) && r.value.DoesSupport(keyUri.value)
      ensures r.Success? ==> fresh(r.value)
    {
      var binding := BindKeyUri(keyUri);
      if binding.Failure? {
        return Failure(binding.error);
      }
      var credentials := ResolveCredentials(credentialsPath, readConfig);
      if credentials.Failure? {
        return Failure(credentials.error);
      }
      var client := new AwsKmsClient(binding.value, credentials.value.0, credentials.value.1);
      return Success(client);
    }

    /**
     * `does_support`: only `aws-kms://` URIs; all of them when unbound, and
     * exactly the bound ARN's URI when bound.
     */
    function DoesSupport(keyUri: string): (supported: bool)
      ensures !StartsWith(keyUri, AwsKeyUriPrefix) ==> !supported
      ensures !NonEmpty(keyArn) ==> (supported <==> StartsWith(keyUri, AwsKeyUriPrefix))
      ensures NonEmpty(keyArn) ==> (supported <==> keyUri == AwsKeyUriPrefix + keyArn.value)
    {
      if !StartsWith(keyUri, AwsKeyUriPrefix) then
        StartsWithConcat(AwsKeyUriPrefix, if keyArn.Some? then keyArn.value else "");
        false
      else if NonEmpty(keyArn) then
        KeyUriToKeyArn(keyUri) == Success(keyArn.value)
      else
        true
    }

    /**
     * `get_aead`: refuses an unsupported URI with one of two reasons; otherwise
     * opens a session in the ARN's region and wraps its KMS client.
     */
    method GetAead(keyUri: string, connect: Session -> KmsApi) returns (r: Result<AwsKmsAead, Error>)
      ensures r.Failure? <==> !DoesSupport(keyUri) || GetRegionFromKeyArn(keyUri[|AwsKeyUriPrefix|..]).Failure?
      ensures !DoesSupport(keyUri) ==>
        r == Failure(UnsupportedKey(if NonEmpty(keyArn) then BoundToOtherKey(keyArn.value, keyUri) else NotSupported(keyUri)))
      ensures DoesSupport(keyUri) && GetRegionFromKeyArn(keyUri[|AwsKeyUriPrefix|..]).Failure? ==> r == Failure(InvalidKeyId)
      ensures r.Success? ==>
        && AwsKeyUriPrefix + r.value.keyArn == keyUri
        && (NonEmpty(keyArn) ==> r.value.keyArn == keyArn.value)
        && GetRegionFromKeyArn(r.value.keyArn).Success?
        && r.value.client == connect(Session(awsAccessKeyId, awsSecretAccessKey, GetRegionFromKeyArn(r.value.keyArn).value))
    {
      if !DoesSupport(keyUri) {
        if NonEmpty(keyArn) {
          return Failure(UnsupportedKey(BoundToOtherKey(keyArn.value, keyUri)));
        }
        return Failure(UnsupportedKey(NotSupported(keyUri)));
      }
      var arn := KeyUriToKeyArn(keyUri).value;
      var region := GetRegionFromKeyArn(arn);
      if region.Failure? {
        return Failure(region.error);
      }
      var session := Session(awsAccessKeyId, awsSecretAccessKey, region.value);
      var aead := new AwsKmsAead(connect(session), arn);
      return Success(aead);
    }
  }

  /** A bound client serves its own key URI and no other. */
  lemma BoundClientSupportsOnlyItsKey(client: AwsKmsClient, keyUri: string, otherUri: string)
    requires NonEmpty(client.keyArn)
    requires keyUri == AwsKeyUriPrefix + client.keyArn.value
    requires otherUri != keyUri
    ensures client.DoesSupport(keyUri) && !client.DoesSupport(otherUri)
  {
  }
}
