# Tink's Python KMS clients, modelled in Dafny

This project models how Tink's two Python KMS clients bind a key URI and dispatch on it. Both clients live in the Tink Python package.

- **AwsKmsClient** serves `aws-kms://` key URIs. It can be bound to one key ARN and can carry credentials read from an INI file. It hands out an `_AwsKmsAead` that sends encrypt and decrypt calls to the AWS KMS service. Each call carries an encryption context derived from the associated data.
- **FakeKmsClient** is the test double. It serves `fake-kms://` URIs whose remainder is a base64url-encoded serialized keyset, and its AEAD is that keyset's own primitive.

The model is pure logic over strings, byte sequences, options and results. Python exceptions become `Failure` values of one `Error` taxonomy (`KmsCommon.Error`). Python's truthiness test on an `Optional[str]` is `KmsCommon.NonEmpty`. The clients and the AEAD are classes whose fields are `const`: `__init__` assigns them once and nothing changes them afterwards. Both clients' `__init__` can raise, so each client class has a plain constructor that stores the fields and a `static method Create` that is `__init__` itself, returning a `Result`; the AEAD's `__init__` only stores its two fields, so it has just a plain constructor. `Create`'s checks are in the pure functions `BindKeyUri` (both clients) and `ResolveCredentials` (AWS only).

Files:
- `wrappers.dfy`: `Option` and `Result`.
- `text.dfy`: `startswith`, `str.split` for a one-character separator (`Split`), its inverse `Join`, and the lemmas connecting them.
- `hex.dfy`: bytes, `binascii.hexlify` (`Hexlify`), its inverse `Unhexlify`, and position-wise and injectivity lemmas.
- `kms_common.dfy`: the error taxonomy and prefix stripping.
- `aws_kms_client.dfy`: the AWS client, its AEAD, the encryption context, ARN and region parsing, the constructor's URI pattern, and credential parsing.
- `fake_kms.dfy`: the fake client.

Collaborators the code calls but does not define are parameters:
- `connect: Session -> KmsApi` stands for `boto3.session.Session(...).client('kms')`. `KmsApi` gives the service's answer to each encrypt and decrypt request.
- `readConfig: string -> Config` stands for `configparser` reading a file.
- `urlsafeB64Decode`, `readKeyset` and `primitive` stand for the base64url decoder, `cleartext_keyset_handle.read` and `handle.primitive`.

Three behaviours of the code are easy to miss, and the model keeps them:
- The constructor of `AwsKmsClient` checks only the prefix `aws-kms://arn:aws:kms:<region>:`. It does not check that the ARN has the six segments that region lookup needs. So a client can be bound to `aws-kms://arn:aws:kms:us-east-1:` and then refuse its own URI with `InvalidKeyId` in `get_aead`. `AwsKms.BoundArnRegion` states exactly when this happens.
- `FakeKmsClient.get_aead` checks only the prefix and does not consult the binding or `does_support`. `FakeKms.GetAeadIgnoresBinding` states this.
- A missing credentials section or key raises `ValueError` in the code. Here it is `InvalidConfig`, naming the missing section or key.

## Model

| member | source | states |
|---|---|---|
| `AwsKms.EncryptionContext` | python/tink/integration/awskms/_aws_kms_client.py:33-38 | Empty associated data gives the empty map. Otherwise the map has exactly the key `associatedData`, whose value is the lowercase hex of the bytes: twice as long, and decoding back to the bytes. |
| `AwsKms.EncryptionContextInjective` | python/tink/integration/awskms/_aws_kms_client.py:33-38 | Two associated-data strings with the same encryption context are equal. So the context sent on decrypt matches the one sent on encrypt only for the same associated data. |
| `Hex.Hexlify` | python/tink/integration/awskms/_aws_kms_client.py:35 | The hex text is twice as long as the bytes, and every character is a lowercase hex digit. |
| `Hex.HexlifyAt` | python/tink/integration/awskms/_aws_kms_client.py:35 | Characters 2i and 2i+1 are the high and low nibble of byte i. |
| `Hex.UnhexlifyHexlify` | python/tink/integration/awskms/_aws_kms_client.py:35 | Decoding the hex text gives back the original bytes. |
| `Hex.HexlifyInjective` | python/tink/integration/awskms/_aws_kms_client.py:35 | Equal hex texts come from equal bytes. |
| `KmsCommon.NonEmpty` | python/tink/integration/awskms/_aws_kms_client.py:123 | Python's `not key_uri` on an `Optional[str]`: false exactly for `None` and for the empty string. The same test is at lines 129 and 148 and in `fake_kms.py` at lines 33 and 43. |
| `KmsCommon.StripPrefix` | python/tink/testing/fake_kms.py:46-48 | Fails with `InvalidKeyUri` exactly when the URI lacks the prefix. Otherwise the prefix followed by the result is the URI. |
| `AwsKms.KeyUriToKeyArn` | python/tink/integration/awskms/_aws_kms_client.py:74-77 | Fails with `InvalidKeyUri` exactly when the URI lacks `aws-kms://`. Otherwise `aws-kms://` followed by the ARN is the URI. |
| `AwsKms.KeyUriToKeyArnRoundTrip` | python/tink/integration/awskms/_aws_kms_client.py:74-77 | Stripping the prefix from `aws-kms://` + s gives s, for every s. |
| `Text.Split` | python/tink/integration/awskms/_aws_kms_client.py:98 | `str.split(':')` returns one more piece than there are colons, and no piece contains a colon. |
| `Text.SplitJoin` | python/tink/integration/awskms/_aws_kms_client.py:98 | Splitting the join of colon-free pieces gives back those pieces. |
| `Text.JoinSplit` | python/tink/integration/awskms/_aws_kms_client.py:98 | Joining the pieces of a split gives back the string. |
| `AwsKms.GetRegionFromKeyArn` | python/tink/integration/awskms/_aws_kms_client.py:95-101 | Fails with `InvalidKeyId` exactly when the ARN has fewer than five colons, that is fewer than six parts. Otherwise the region it returns is colon-free. |
| `AwsKms.RegionOfSegments` | python/tink/integration/awskms/_aws_kms_client.py:95-101 | For an ARN joined from colon-free segments, the result is segment 3 when there are at least six segments, and `InvalidKeyId` otherwise. |
| `AwsKms.RegionOfKmsArn` | python/tink/integration/awskms/_aws_kms_client.py:95-101 | Every ARN `arn:aws:kms:<region>:<account>:<key>` with colon-free parts yields `<region>`. |
| `AwsKms.ExampleRegion` | python/tink/integration/awskms/_aws_kms_client.py:96-101 | The documented ARN `arn:aws:kms:us-west-2:111122223333:key/1234abcd-...` yields `us-west-2`. |
| `AwsKms.RegionRunLength` | python/tink/integration/awskms/_aws_kms_client.py:125 | The longest leading run of `[a-z0-9-]`: a prefix of that class that is followed by a character outside it, or by the end. |
| `AwsKms.MatchesKeyUriPattern` | python/tink/integration/awskms/_aws_kms_client.py:125 | The `re.match` test, computed from the longest leading region run. It holds exactly when the pattern's meaning `RegexMatches` does: the literal prefix, then some non-empty run of `[a-z0-9-]`, then `:`. |
| `AwsKms.LongestRegionRunDecides` | python/tink/integration/awskms/_aws_kms_client.py:125 | Some non-empty `[a-z0-9-]` run followed by `:` starts the tail exactly when the longest such run is non-empty and followed by `:`, so the greedy class with backtracking and the computed test agree. |
| `AwsKms.BoundArnRegion` | python/tink/integration/awskms/_aws_kms_client.py:125-126 | For a URI that passes the pattern, region lookup on its ARN returns the captured region when another `:` follows the region. Otherwise it fails with `InvalidKeyId`. |
| `AwsKms.BindKeyUri` | python/tink/integration/awskms/_aws_kms_client.py:123-128 | Three cases. An absent or empty URI gives an unbound client. A URI matching the pattern binds to the URI minus `aws-kms://`, an ARN starting `arn:aws:kms:`. Any other URI fails with `InvalidKeyUri`. |
| `AwsKms.KmsArnUriBinds` | python/tink/integration/awskms/_aws_kms_client.py:123-128 | Every `aws-kms://arn:aws:kms:<region>:<rest>` with a non-empty `[a-z0-9-]` region passes the pattern, captures `<region>`, and binds to its ARN. |
| `AwsKms.ExampleKeyUriBinds` | python/tink/integration/awskms/_aws_kms_client.py:123-128 | The documented key URI binds to the documented ARN. |
| `AwsKms.ParseConfig` | python/tink/integration/awskms/_aws_kms_client.py:84-92 | Succeeds exactly when section `default` holds both keys, and returns their two values unchanged, id first. Otherwise it fails with `InvalidConfig`, naming the first missing item in the source's order. |
| `AwsKms.ResolveCredentials` | python/tink/integration/awskms/_aws_kms_client.py:129-135 | An absent or empty path gives no credentials. Otherwise the result is the config's two values, or exactly `ParseConfig`'s error naming the first missing section or key. |
| `AwsKms.AwsKmsAead.constructor` | python/tink/integration/awskms/_aws_kms_client.py:44-46 | Stores the service client and the key ARN. |
| `AwsKms.AwsKmsAead.Encrypt` | python/tink/integration/awskms/_aws_kms_client.py:48-57 | Sends the bound ARN, the plaintext and the derived context. It returns the service's ciphertext, or `KmsOperationFailed` wrapping the service error, with no partial result. |
| `AwsKms.AwsKmsAead.Decrypt` | python/tink/integration/awskms/_aws_kms_client.py:59-71 | Sends the bound ARN and the same derived context. It returns the plaintext exactly when the service answers and reports the bound ARN as its key id. A different reported key id gives `KeyIdMismatch`. A service error gives `KmsOperationFailed`. |
| `AwsKms.EncryptDecryptRoundTrip` | python/tink/integration/awskms/_aws_kms_client.py:48-71 | Against a service that decrypts what it encrypted under the same key and context, decrypting an encryption with the same associated data returns the plaintext. |
| `AwsKms.DecryptRejectsForeignKeyId` | python/tink/integration/awskms/_aws_kms_client.py:66-68 | A decrypt answer that names another key is refused, even though it carries a plaintext. |
| `AwsKms.AwsKmsClient.constructor` | python/tink/integration/awskms/_aws_kms_client.py:124-135 | Stores the bound ARN (or none) and the two credential values. |
| `AwsKms.AwsKmsClient.Create` | python/tink/integration/awskms/_aws_kms_client.py:107-135 | Succeeds exactly when both the key-URI check and the credentials check succeed. The key URI is checked before the credentials, and the first failure is the error. On success the fields are the binding and the credentials. A client built from a non-empty URI is bound and supports that URI. |
| `AwsKms.AwsKmsClient.DoesSupport` | python/tink/integration/awskms/_aws_kms_client.py:137-148 | False without the `aws-kms://` prefix, whatever the binding. When unbound, true for every prefixed URI. When bound, true exactly for `aws-kms://` followed by the bound ARN. |
| `AwsKms.BoundClientSupportsOnlyItsKey` | python/tink/integration/awskms/_aws_kms_client.py:146-148 | A bound client supports its own key URI and no other. |
| `AwsKms.AwsKmsClient.GetAead` | python/tink/integration/awskms/_aws_kms_client.py:150-174 | Fails exactly when the URI is unsupported or its ARN has fewer than six `:`-separated parts. An unsupported URI gives `UnsupportedKey`: bound-to-other-key, naming both the bound ARN and the URI, for a bound client, and not-supported for an unbound one. Such an ARN gives `InvalidKeyId`. On success the AEAD holds the URI's ARN, which is the bound ARN when bound, and the service client of a session in that ARN's region with the client's credentials. |
| `FakeKms.BindKeyUri` | python/tink/testing/fake_kms.py:32-38 | Three cases. An absent or empty URI gives an unbound client. A `fake-kms://` URI binds to the whole URI. Anything else fails with `InvalidKeyUri`. |
| `FakeKms.FakeKmsClient.constructor` | python/tink/testing/fake_kms.py:33-38 | Stores the bound URI (or none). |
| `FakeKms.FakeKmsClient.Create` | python/tink/testing/fake_kms.py:32-38 | Succeeds exactly when `BindKeyUri` succeeds, and otherwise fails with `InvalidKeyUri`. On success the field is the binding, and a client built from a non-empty URI supports that URI. |
| `FakeKms.FakeKmsClient.DoesSupport` | python/tink/testing/fake_kms.py:40-43 | False without the `fake-kms://` prefix, whatever the binding. When unbound, true for every prefixed URI. When bound, true exactly for the bound URI. |
| `FakeKms.BoundClientSupportsOnlyItsUri` | python/tink/testing/fake_kms.py:40-43 | A client bound to a `fake-kms://` URI supports that URI and no other. |
| `FakeKms.FakeKmsClient.GetAead` | python/tink/testing/fake_kms.py:45-53 | Fails with `InvalidKeyUri` when the prefix is missing. Otherwise it decodes the key id with `===` appended, reads the keyset and returns its primitive, passing on the first collaborator error unchanged. |
| `FakeKms.GetAeadIgnoresBinding` | python/tink/testing/fake_kms.py:45-47 | Two clients answer `get_aead` identically whatever their bindings, so a bound client still proceeds for a different prefixed URI. |
| `FakeKms.GetAeadDecodesPaddedKeyId` | python/tink/testing/fake_kms.py:48-53 | For `fake-kms://` + k, the decoder receives exactly k + `===`, and the result is the primitive of the keyset it decodes to. |

## Left out

- The boto3 session and `session.client('kms')` are the `connect` parameter. The network encrypt and decrypt calls are the functions inside `KmsApi`. The service is therefore a fixed function of the request: AWS's randomized ciphertexts, throttling over time and retries are not modelled.
- botocore's `ClientError` is one opaque `ClientError(detail)` value.
- A service response that lacks `CiphertextBlob`, `KeyId` or `Plaintext` would raise `KeyError` in the source. This is not modelled: the response datatypes always carry those fields.
- Reading the credentials file with `configparser` is the `readConfig` parameter. Its special `DEFAULT` section, key case folding and interpolation are not modelled, and neither are `configparser`'s own parse errors (a malformed file raising `MissingSectionHeaderError`, or a repeated section raising `DuplicateSectionError` in strict mode): `readConfig` always returns a map. Only the section and key checks are modelled, over a map.
- `urlsafeB64Decode` stands for UTF-8 encoding followed by `base64.urlsafe_b64decode`. It is given key id + `===` as text, which encodes to the same bytes as the encoded key id followed by `b'==='`. Base64url decoding (section 5 of RFC 4648), `cleartext_keyset_handle.read` and `handle.primitive` are uninterpreted parameters. So the fake AEAD's own encrypt/decrypt round trip is outside this model.
- `register_client` in both files is not modelled. It hands a client to a process-wide registry that is not part of this model.
- Error messages are not modelled as text. Each `Error` variant carries the values its message mentions. The two `get_aead` messages are the two `Unsupported` reasons. `KeyIdMismatch(boundKeyArn, reportedKeyId)` names its values by role: the source's message labels the bound ARN "got" and the reported id "want". Python's `ValueError` and `TinkError` are not distinguished.
- The regular expression's captured group is never used by the source. `RegionGroup` exists only to state `BoundArnRegion`.
- AwsKms.AwsKmsAead.Encrypt, AwsKms.AwsKmsAead.Decrypt, AwsKms.AwsKmsClient.GetAead: only botocore's `ClientError` is wrapped as `KmsOperationFailed` in the source. Any other exception from the service client, and a `KeyError` from a response lookup, propagates unwrapped; the model has no such path, because `KmsApi` can fail only with `ClientError`. Likewise `connect` never fails, so opening a session or a KMS client cannot raise: `GetAead` returns an AEAD for any segment-3 region, the empty one included, where boto3 could refuse it.
