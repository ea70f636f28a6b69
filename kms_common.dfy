/**
 * What the two KMS clients share: the error taxonomy, Python's truthiness test
 * on an optional string, and stripping a key-URI scheme prefix.
 */
module KmsCommon {
  import opened Wrappers
  import opened Text

  /** An error raised by the remote backend's client library, kept opaque. */
  datatype ClientError = ClientError(detail: string)

  /** The two reasons `get_aead` gives for refusing a key URI. */
  datatype Unsupported =
    | BoundToOtherKey(boundKeyArn: string, requestedUri: string)
    | NotSupported(requestedUri: string)

  datatype Error =
    | InvalidKeyUri
    | InvalidKeyId
    | InvalidConfig(missing: string)
    | UnsupportedKey(reason: Unsupported)
    | KeyIdMismatch(boundKeyArn: string, reportedKeyId: string)
    | KmsOperationFailed(cause: ClientError)

  /** Python's `bool(s)` for an `Optional[str]`: present and not empty. */
  predicate NonEmpty(s: Option<string>): (r: bool)
    ensures !r <==> s == None || s == Some("")
  {
    s.Some? && s.value != ""
  }

  /** Removes a scheme prefix from a key URI, failing when the URI lacks it. */
  function StripPrefix(prefix: string, uri: string): (r: Result<string, Error>)
    ensures r.Failure? <==> !StartsWith(uri, prefix)
    ensures r.Failure? ==> r.error == InvalidKeyUri
    ensures r.Success? ==> prefix + r.value == uri
  {
    if !StartsWith(uri, prefix) then Failure(InvalidKeyUri)
    else
      StartsWithDecompose(uri, prefix);
      Success(uri[|prefix|..])
  }

  lemma StripPrefixOfConcat(prefix: string, rest: string)
    ensures StripPrefix(prefix, prefix + rest) == Success(rest)
  {
    StartsWithConcat(prefix, rest);
  }
}
