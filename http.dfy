/** Endpoints, request headers and their masking for logs (client.py:53-58,
    209-214, 505-514, 543-544). */
module Http {
  import opened Text

  function ConnectionsUrl(baseUrl: string): string {
    baseUrl + "/v1/vault/connections"
  }

  function KnowledgeUrl(baseUrl: string): string {
    baseUrl + "/v1/knowledge"
  }

  function DefinitionsUrl(baseUrl: string): string {
    baseUrl + "/v1/public/connection-definitions?limit=500"
  }

  /** `_generate_headers()`: JSON content type and the client secret. */
  function GenerateHeaders(secret: string): (h: map<string, string>)
    ensures h.Keys == {"Content-Type", "x-pica-secret"}
    ensures h["Content-Type"] == "application/json" && h["x-pica-secret"] == secret
  {
    map["Content-Type" := "application/json", "x-pica-secret" := secret]
  }

  const Mask := "********"

  /** A header whose lower-cased name contains `secret` or `key` is logged masked. */
  predicate Sensitive(name: string) {
    Contains(Lower(name), "secret") || Contains(Lower(name), "key")
  }

  /** The header map as written to the request log. */
  function MaskHeaders(h: map<string, string>): (safe: map<string, string>)
    ensures safe.Keys == h.Keys
    ensures forall k :: k in h ==> safe[k] == if Sensitive(k) then Mask else h[k]
  {
    map k | k in h :: if Sensitive(k) then Mask else h[k]
  }

  /** The logged copy never shows a sensitive value unless it equals the mask,
      and shows every other value as it is. */
  lemma MaskingHidesExactlySensitive(h: map<string, string>, k: string)
    requires k in h
    ensures MaskHeaders(h)[k] == h[k] <==> (!Sensitive(k) || h[k] == Mask)
  {
  }

  /** A pattern whose first character does not occur in `s` does not occur in `s`. */
  lemma AbsentFirstChar(s: string, pat: string)
    requires |pat| > 0 && pat[0] !in s
    ensures !Contains(s, pat)
  {
    forall i: nat | i <= |s|
      ensures !OccursAt(s, pat, i)
    {
      if i + |pat| <= |s| {
        assert s[i..i + |pat|][0] == s[i];
      }
    }
  }

  /** A name none of whose characters lower-cases to `s` or `k` is not sensitive. */
  lemma NoKeyLetters(name: string)
    requires forall i :: 0 <= i < |name| ==> LowerChar(name[i]) != 's' && LowerChar(name[i]) != 'k'
    ensures !Sensitive(name)
  {
    var low := Lower(name);
    assert 's' !in low;
    assert 'k' !in low;
    AbsentFirstChar(low, "secret");
    AbsentFirstChar(low, "key");
  }

  /** The secret header `execute` sends is masked in the log. */
  lemma SecretHeaderMasked(name: string)
    requires name == "x-pica-secret"
    ensures Sensitive(name)
  {
    assert Lower(name)[7..13] == "secret";
    assert OccursAt(Lower(name), "secret", 7);
  }

  /** The connection key header `execute` sends is masked in the log. */
  lemma ConnectionKeyHeaderMasked(name: string)
    requires name == "x-pica-connection-key"
    ensures Sensitive(name)
  {
    assert Lower(name)[18..21] == "key";
    assert OccursAt(Lower(name), "key", 18);
  }

  /** The content type and action id headers `execute` sends are logged as they are. */
  lemma PlainHeadersShown(name: string)
    requires name == "Content-Type" || name == "x-pica-action-id"
    ensures !Sensitive(name)
  {
    NoKeyLetters(name);
  }

  /** The passthrough URL: the base, `/v1/passthrough`, then the path with a
      `/` put in front only when it has none. */
  function PassthroughUrl(baseUrl: string, path: string): (url: string)
    ensures StartsWith(path, "/") ==> url == baseUrl + "/v1/passthrough" + path
    ensures !StartsWith(path, "/") ==> url == baseUrl + "/v1/passthrough/" + path
  {
    baseUrl + "/v1/passthrough" + (if StartsWith(path, "/") then path else "/" + path)
  }

  /** Whatever the path, the URL is the base, `/v1/passthrough/` and the path
      without at most one leading slash. */
  lemma PassthroughUrlShape(baseUrl: string, path: string)
    ensures exists rest :: PassthroughUrl(baseUrl, path) == baseUrl + "/v1/passthrough/" + rest
                           && (path == rest || path == "/" + rest)
  {
    if StartsWith(path, "/") {
      var rest := path[1..];
      assert path == "/" + rest;
      assert baseUrl + "/v1/passthrough" + path == baseUrl + "/v1/passthrough/" + rest;
    } else {
      assert PassthroughUrl(baseUrl, path) == baseUrl + "/v1/passthrough/" + path;
    }
  }
}
