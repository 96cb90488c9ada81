/** The image URI check and list-key builder of lib/helpers/image.ts. */
module ImageHelpers {
  import Decimal
  import opened Strings

  /** A URI is accepted on its scheme prefix alone: "http" (so also "https"), "file://" or "data:". */
  predicate AcceptedPrefix(uri: string) {
    IsPrefix("http", uri) || IsPrefix("file://", uri) || IsPrefix("data:", uri)
  }

  function IsValidImageUri(uri: string): (valid: bool)
    ensures |uri| == 0 ==> !valid
    ensures valid <==> AcceptedPrefix(uri)
  {
    if |uri| == 0 then false
    else IsPrefix("http", uri) || IsPrefix("file://", uri) || IsPrefix("data:", uri)
  }

  /** Validity only looks at the beginning: anything may follow an accepted URI. */
  lemma ValidityIsPrefixClosed(uri: string, rest: string)
    requires IsValidImageUri(uri)
    ensures IsValidImageUri(uri + rest)
  {
    if IsPrefix("http", uri) {
      assert (uri + rest)[..4] == uri[..4];
    } else if IsPrefix("file://", uri) {
      assert (uri + rest)[..7] == uri[..7];
    } else {
      assert (uri + rest)[..5] == uri[..5];
    }
  }

  /** "https://..." and even "httpx" pass; a relative path does not. */
  lemma ValidityExamples()
    ensures IsValidImageUri("https://example.com/a.jpg")
    ensures IsValidImageUri("httpx")
    ensures IsValidImageUri("data:image/png;base64,AAAA")
    ensures !IsValidImageUri("")
    ensures !IsValidImageUri("images/a.jpg")
  {
    assert "https://example.com/a.jpg"[..4] == "http";
    assert "httpx"[..4] == "http";
    assert "data:image/png;base64,AAAA"[..5] == "data:";
    var relative := "images/a.jpg";
    assert relative[..4][0] == 'i';
    assert relative[..7][0] == 'i';
    assert relative[..5][0] == 'i';
  }

  /** `${uri}-${index}`: the key begins with the URI and a dash, and the rest reads back as the index. */
  function GenerateImageKey(uri: string, index: int): (key: string)
    ensures IsPrefix(uri + "-", key)
    ensures Decimal.ParseInt(key[|uri| + 1..]) == index
  {
    var key := uri + "-" + Decimal.IntToString(index);
    assert key[|uri| + 1..] == Decimal.IntToString(index);
    Decimal.ParseIntToString(index);
    assert key[..|uri| + 1] == uri + "-";
    key
  }

  /** For one URI, distinct indices give distinct keys. */
  lemma ImageKeysDistinct(uri: string, i: int, j: int)
    requires i != j
    ensures GenerateImageKey(uri, i) != GenerateImageKey(uri, j)
  {
  }
}
