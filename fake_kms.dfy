/**
 * The fake KMS client used in tests: a `fake-kms://` key URI carries a
 * base64url-encoded serialized keyset, and the client's AEAD is that keyset's.
 */
module FakeKms {
  import opened Wrappers
  import opened Text
  import opened Hex
  import opened KmsCommon

  const FakeKmsPrefix: string := "fake-kms://"
  /** Appended to the key id so that the decoder never lacks padding. */
  const Padding: string := "==="

  /** `__init__`: unbound, bound to the whole `fake-kms://` URI, or `InvalidKeyUri`. */
  function BindKeyUri(keyUri: Option<string>): (r: Result<Option<string>, Error>)
    ensures r.Failure? <==> NonEmpty(keyUri) && !StartsWith(keyUri.value, FakeKmsPrefix)
    ensures r.Failure? ==> r.error == InvalidKeyUri
    ensures r.Success? && !NonEmpty(keyUri) ==> r.value == None
    ensures r.Success? && NonEmpty(keyUri) ==> r.value == keyUri && StartsWith(keyUri.value, FakeKmsPrefix)
  {
    if !NonEmpty(keyUri) then Success(None)
    else if StartsWith(keyUri.value, FakeKmsPrefix) then Success(keyUri)
    else Failure(InvalidKeyUri)
  }

  class FakeKmsClient {
    /** `_key_uri`: the URI the client is bound to, or `None`. */
    const boundKeyUri: Option<string>

    /** Stores the state `__init__` assigns; `Create` is `__init__` itself. */
    constructor (boundKeyUri: Option<string>)
      ensures this.boundKeyUri == boundKeyUri
    {
      this.boundKeyUri := boundKeyUri;
    }

    static method Create(keyUri: Option<string>) returns (r: Result<FakeKmsClient, Error>)
      ensures BindKeyUri(keyUri).Failure? ==> r == Failure(InvalidKeyUri)
      ensures r.Success? <==> BindKeyUri(keyUri).Success?
      ensures r.Success? ==> BindKeyUri(keyUri) == Success(r.value.boundKeyUri)
      ensures r.Success? && NonEmpty(keyUri) ==> r.value.DoesSupport(keyUri.value)
      ensures r.Success? ==> fresh(r.value)
    {
      var binding := BindKeyUri(keyUri);
      if binding.Failure? {
        return Failure(binding.error);
      }
      var client := new FakeKmsClient(binding.value);
      return Success(client);
    }

    /**
     * `does_support`: only `fake-kms://` URIs; all of them when unbound, and
     * exactly the bound URI when bound.
     */
    function DoesSupport(keyUri: string): (supported: bool)
      ensures !StartsWith(keyUri, FakeKmsPrefix) ==> !supported
      ensures !NonEmpty(boundKeyUri) ==> (supported <==> StartsWith(keyUri, FakeKmsPrefix))
      ensures NonEmpty(boundKeyUri) ==> (supported <==> StartsWith(keyUri, FakeKmsPrefix) && keyUri == boundKeyUri.value)
    {
      if !StartsWith(keyUri, FakeKmsPrefix) then false
      else if !NonEmpty(boundKeyUri) then true
      else keyUri == boundKeyUri.value
    }

    /**
     * `get_aead`: checks the prefix (and nothing else: the binding is not
     * consulted), decodes the key id with padding appended, reads the keyset
     * and returns its AEAD. Errors of the three collaborators propagate.
     *
     * `urlsafeB64Decode` stands for UTF-8 encoding followed by
     * `base64.urlsafe_b64decode` (section 5 of RFC 4648), `readKeyset` for
     * `cleartext_keyset_handle.read` and `primitive` for `handle.primitive(aead.Aead)`.
     */
    function GetAead<Handle, Aead>(
      keyUri: string,
      urlsafeB64Decode: string -> Result<bytes, Error>,
      readKeyset: bytes -> Result<Handle, Error>,
      primitive: Handle -> Result<Aead, Error>): (r: Result<Aead, Error>)
      ensures !StartsWith(keyUri, FakeKmsPrefix) ==> r == Failure(InvalidKeyUri)
      ensures StartsWith(keyUri, FakeKmsPrefix) ==>
        var decoded := urlsafeB64Decode(keyUri[|FakeKmsPrefix|..] + Padding);
        && (decoded.Failure? ==> r == Failure(decoded.error))
        && (decoded.Success? && readKeyset(decoded.value).Failure? ==> r == Failure(readKeyset(decoded.value).error))
        && (decoded.Success? && readKeyset(decoded.value).Success? ==> r == primitive(readKeyset(decoded.value).value))
    {
      var keyId :- StripPrefix(FakeKmsPrefix, keyUri);
      var serializedKey :- urlsafeB64Decode(keyId + Padding);
      var handle :- readKeyset(serializedKey);
      primitive(handle)
    }
  }

  /** A client bound to a `fake-kms://` URI serves that URI and no other. */
  lemma BoundClientSupportsOnlyItsUri(client: FakeKmsClient, otherUri: string)
    requires client.boundKeyUri.Some? && StartsWith(client.boundKeyUri.value, FakeKmsPrefix)
    ensures client.DoesSupport(client.boundKeyUri.value)
    ensures otherUri != client.boundKeyUri.value ==> !client.DoesSupport(otherUri)
  {
  }

  /** `get_aead` answers the same for every binding, even when `does_support` refuses the URI. */
  lemma GetAeadIgnoresBinding<Handle, Aead>(
    a: FakeKmsClient, b: FakeKmsClient, keyUri: string,
    urlsafeB64Decode: string -> Result<bytes, Error>,
    readKeyset: bytes -> Result<Handle, Error>,
    primitive: Handle -> Result<Aead, Error>)
    ensures a.GetAead(keyUri, urlsafeB64Decode, readKeyset, primitive) == b.GetAead(keyUri, urlsafeB64Decode, readKeyset, primitive)
  {
  }

  /** The decoder is handed exactly the text after `fake-kms://`, with `===` appended. */
  lemma GetAeadDecodesPaddedKeyId<Handle, Aead>(
    client: FakeKmsClient, keyId: string,
    urlsafeB64Decode: string -> Result<bytes, Error>,
    readKeyset: bytes -> Result<Handle, Error>,
    primitive: Handle -> Result<Aead, Error>,
    serializedKey: bytes, handle: Handle)
    requires urlsafeB64Decode(keyId + Padding) == Success(serializedKey)
    requires readKeyset(serializedKey) == Success(handle)
    ensures client.GetAead(FakeKmsPrefix + keyId, urlsafeB64Decode, readKeyset, primitive) == primitive(handle)
  {
    StripPrefixOfConcat(FakeKmsPrefix, keyId);
  }
}
