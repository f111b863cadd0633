/** The API-key guard in front of the recommendation endpoints: an ordered chain of
    checks over the `Authorization` header and the key table, ending either in the next
    handler or in an error response. The response is returned as a value. */
module Auth {
  import opened Wrappers
  import opened JsText
  import opened Schema
  import opened Seqs
  import opened Storage

  datatype AuthCode = NoApiKey | InvalidApiKey | InactiveApiKey | AuthError

  /** The `code` field of the error body. */
  function CodeName(c: AuthCode): string {
    match c
    case NoApiKey => "AUTH_NO_API_KEY"
    case InvalidApiKey => "AUTH_INVALID_API_KEY"
    case InactiveApiKey => "AUTH_INACTIVE_API_KEY"
    case AuthError => "AUTH_ERROR"
  }

  /** `next()`, or `res.status(status).json({status: 'error', message, code})`. */
  datatype AuthOutcome = Proceed | Reject(status: nat, code: AuthCode, message: string)

  const Scheme: string := "Bearer "

  const MissingKeyMessage: string :=
    "API key is required. Please provide a valid API key in the Authorization header."
  const InvalidKeyMessage: string := "Invalid API key."
  const InactiveKeyMessage: string := "API key is inactive."
  const ErrorMessage: string := "An error occurred during authentication."

  /** `!apiKeyExists.active` fails only for `true`: an `active` column the key was created
      without is `undefined` in the in-memory store, which is falsy. */
  predicate IsActive(k: ApiKey) {
    k.fields.active == Some(true)
  }

  /** The header is present and starts with the bearer scheme (an empty header is
      falsy and fails too). */
  predicate WellFormedHeader(header: Option<string>) {
    header.Some? && StartsWith(header.value, Scheme)
  }

  /** `authHeader.split(' ')[1]` for a well-formed header: the split of a string that
      starts with "Bearer " always has a second piece. */
  function BearerToken(h: string): (token: string)
    requires StartsWith(h, Scheme)
    ensures ' ' !in token
  {
    assert h == "Bearer" + [' '] + h[|Scheme|..];
    SplitAtFirst("Bearer", ' ', h[|Scheme|..]);
    Split(h, ' ')[1]
  }

  /** `apiKeyAuth`: a missing or malformed header, then an empty token, give 401
      `AUTH_NO_API_KEY` without a lookup; a failing lookup gives 500 `AUTH_ERROR`; an
      unknown key gives 401 `AUTH_INVALID_API_KEY`; a known but inactive key gives 401
      `AUTH_INACTIVE_API_KEY`; otherwise the request proceeds. */
  function ApiKeyAuth(header: Option<string>, b: Backend): (r: AuthOutcome)
    ensures r.Reject? ==> (r.status == 500 <==> r.code == AuthError)
    ensures r.Reject? ==> r.status == 401 || r.status == 500
  {
    if !WellFormedHeader(header) then Reject(401, NoApiKey, MissingKeyMessage)
    else
      var apiKey := BearerToken(header.value);
      if apiKey == "" then Reject(401, NoApiKey, MissingKeyMessage)
      else if b.Offline? then Reject(500, AuthError, ErrorMessage)
      else
        match GetApiKeyByKey(b.db, apiKey)
        case None => Reject(401, InvalidApiKey, InvalidKeyMessage)
        case Some(k) =>
          if !IsActive(k) then Reject(401, InactiveApiKey, InactiveKeyMessage)
          else Proceed
  }

  /** The token is the text after "Bearer " up to the next space, so "Bearer " alone
      and "Bearer  k" (two spaces) both give the empty token. */
  lemma BearerTokenIsFirstWord(h: string)
    requires StartsWith(h, Scheme)
    ensures BearerToken(h) == UpTo(h[|Scheme|..], ' ')
  {
    var rest := h[|Scheme|..];
    assert h == "Bearer" + [' '] + rest;
    SplitAtFirst("Bearer", ' ', rest);
    SplitFirstPiece(rest, ' ');
  }

  /** A header with one word after the scheme gives that word as the token. */
  lemma BearerTokenOfKey(key: string)
    requires ' ' !in key
    ensures BearerToken(Scheme + key) == key
  {
    assert Scheme + key == "Bearer" + [' '] + key;
    SplitAtFirst("Bearer", ' ', key);
    SplitWithoutSep(key, ' ');
  }

  /** The request proceeds exactly when the header is well formed, the token is not
      empty, the store answers, and the key is found and active. */
  lemma ProceedIff(header: Option<string>, b: Backend)
    ensures ApiKeyAuth(header, b) == Proceed <==>
      && WellFormedHeader(header)
      && UpTo(header.value[|Scheme|..], ' ') != ""
      && b.Online?
      && GetApiKeyByKey(b.db, UpTo(header.value[|Scheme|..], ' ')).Some?
      && IsActive(GetApiKeyByKey(b.db, UpTo(header.value[|Scheme|..], ' ')).value)
  {
    if WellFormedHeader(header) {
      BearerTokenIsFirstWord(header.value);
    }
  }

  /** A missing or malformed header, or an empty token, is rejected with 401
      `AUTH_NO_API_KEY` whatever the store holds and even when it fails: the store is not
      consulted. */
  lemma NoKeyWithoutLookup(header: Option<string>, b: Backend, b': Backend)
    requires !WellFormedHeader(header) || UpTo(header.value[|Scheme|..], ' ') == ""
    ensures ApiKeyAuth(header, b) == ApiKeyAuth(header, b') == Reject(401, NoApiKey, MissingKeyMessage)
  {
    if WellFormedHeader(header) {
      BearerTokenIsFirstWord(header.value);
    }
  }

  /** A key absent from the table is invalid, and a present one is judged only by its
      active flag: the lookup comes before the active check. */
  lemma KeyTableOutcome(s: Snapshot, key: string)
    requires key != "" && ' ' !in key
    ensures var r := ApiKeyAuth(Some(Scheme + key), Online(s));
      && (GetApiKeyByKey(s, key).None? ==> r == Reject(401, InvalidApiKey, InvalidKeyMessage))
      && (GetApiKeyByKey(s, key).Some? && !IsActive(GetApiKeyByKey(s, key).value) ==>
            r == Reject(401, InactiveApiKey, InactiveKeyMessage))
      && (GetApiKeyByKey(s, key).Some? && IsActive(GetApiKeyByKey(s, key).value) ==> r == Proceed)
  {
    assert StartsWith(Scheme + key, Scheme) by {
      assert (Scheme + key)[..|Scheme|] == Scheme;
    }
    BearerTokenOfKey(key);
  }

  /** A key created without the `active` column, under key text no earlier key has, is
      found but rejected as inactive. */
  lemma OmittedActiveIsInactive(s: Snapshot, data: ApiKeyFields)
    requires data.key != "" && ' ' !in data.key && data.active == None
    requires GetApiKeyByKey(s, data.key).None?
    ensures ApiKeyAuth(Some(Scheme + data.key), Online(AddApiKey(s, data).0)) ==
              Reject(401, InactiveApiKey, InactiveKeyMessage)
  {
    var (s', k) := AddApiKey(s, data);
    FindAppend(s.apiKeys, k, KeyIs(data.key));
    assert GetApiKeyByKey(s', data.key) == Some(k);
    KeyTableOutcome(s', data.key);
  }

  /** A failing lookup of a non-empty token is the only source of the 500 response. */
  lemma ErrorOnlyFromStoreFailure(header: Option<string>, b: Backend)
    ensures ApiKeyAuth(header, b).Reject? && ApiKeyAuth(header, b).code == AuthError <==>
      WellFormedHeader(header) && UpTo(header.value[|Scheme|..], ' ') != "" && b.Offline?
  {
    if WellFormedHeader(header) {
      BearerTokenIsFirstWord(header.value);
    }
  }

  /** The four error codes are distinct strings. */
  lemma CodeNamesDistinct(c: AuthCode, d: AuthCode)
    requires c != d
    ensures CodeName(c) != CodeName(d)
  {
    assert CodeName(c)[5] != CodeName(d)[5] || |CodeName(c)| != |CodeName(d)|;
  }
}
