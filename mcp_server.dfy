/** The gateway of mcp_server.py: the static API-key check that guards
    every tool call, and the reply the Contact/Lead lookup tool gives when
    nothing matches. The tools themselves forward to salesforce_functions.py
    (see module Salesforce). */
module McpServer {
  import opened Wrappers
  import opened Text
  import opened Salesforce

  // ---------------------------------------------------------------------
  // StaticApiKeyAuth

  const ClientId := "revops-mcp-client"

  /** The environment variable the server reads its one secret from. */
  const ApiKeyVariable := "MCP_API_KEY"

  /** What `verify_token` hands back on acceptance. */
  datatype AccessToken = AccessToken(token: string, clientId: string, scopes: seq<string>)

  /** The auth provider's state; it is set by the constructor and never
      updated afterwards. */
  datatype StaticApiKeyAuth = StaticApiKeyAuth(apiKey: string, baseUrl: Option<string>, requiredScopes: seq<string>)

  /** `StaticApiKeyAuth(api_key, base_url)`. */
  function NewStaticApiKeyAuth(apiKey: string, baseUrl: Option<string>): (auth: StaticApiKeyAuth)
    ensures auth.apiKey == apiKey && auth.baseUrl == baseUrl
    ensures auth.requiredScopes == []
  {
    StaticApiKeyAuth(apiKey, baseUrl, [])
  }

  /** The provider the server installs: the key is `MCP_API_KEY`, or the
      empty string when that variable is unset. */
  function ServerAuth(env: map<string, string>): (auth: StaticApiKeyAuth)
    ensures ApiKeyVariable in env ==> auth.apiKey == env[ApiKeyVariable]
    ensures ApiKeyVariable !in env ==> auth.apiKey == ""
    ensures auth.requiredScopes == [] && auth.baseUrl == None
  {
    NewStaticApiKeyAuth(if ApiKeyVariable in env then env[ApiKeyVariable] else "", None)
  }

  /** The scheme words accepted in front of the key, compared after
      lower-casing. */
  predicate IsScheme(w: string) {
    LowerEquals(w, "bearer") || LowerEquals(w, "token") || LowerEquals(w, "apikey")
  }

  /** `_normalize`: the whole header with surrounding whitespace removed,
      unless it is exactly two words of which the first is a scheme word, in
      which case only the second word. */
  function Normalize(token: Option<string>): (r: string)
    ensures token == None || token == Some("") ==> r == ""
    ensures NoEdgeSpace(r)
  {
    if token == None || token.value == "" then ""
    else
      var parts := Words(Strip(token.value));
      if |parts| == 2 && IsScheme(parts[0]) then parts[1] else Strip(token.value)
  }

  /** `secrets.compare_digest`, as plain equality. */
  function CompareDigest(a: string, b: string): bool {
    a == b
  }

  /** `verify_token`: admits exactly the headers that normalize to the
      configured key, and never when that key is empty. */
  function VerifyToken(auth: StaticApiKeyAuth, token: string): (r: Option<AccessToken>)
    ensures r.Some? <==> auth.apiKey != "" && Normalize(Some(token)) == auth.apiKey
    ensures r.Some? ==> r.value == AccessToken(auth.apiKey, ClientId, [])
  {
    var presented := Normalize(Some(token));
    if presented != "" && auth.apiKey != "" && CompareDigest(presented, auth.apiKey) then
      Some(AccessToken(presented, ClientId, []))
    else
      None
  }

  // ---------------------------------------------------------------------
  // Properties of Normalize

  /** Whitespace around a header never changes what it normalizes to. */
  lemma NormalizeIgnoresPadding(lead: string, u: string, trail: string)
    requires AllSpace(lead) && AllSpace(trail) && NoEdgeSpace(u)
    ensures Normalize(Some(lead + u + trail)) == Normalize(Some(u))
  {
    StripOfPadded(lead, u, trail);
    StripFixed(u);
  }

  /** A scheme word, any non-empty run of whitespace, and a key normalize
      to the key. */
  lemma NormalizeSchemePair(scheme: string, sep: string, key: string)
    requires IsWord(scheme) && IsScheme(scheme)
    requires AllSpace(sep) && sep != []
    requires IsWord(key)
    ensures Normalize(Some(scheme + sep + key)) == key
  {
    var u := scheme + sep + key;
    assert u[0] == scheme[0] && u[|u| - 1] == key[|key| - 1];
    StripFixed(u);
    WordsOfTwo(scheme, sep, key);
  }

  /** Every other header without edge whitespace is left as it is. */
  lemma NormalizeKeepsOthers(u: string)
    requires NoEdgeSpace(u)
    requires !(|Words(u)| == 2 && IsScheme(Words(u)[0]))
    ensures Normalize(Some(u)) == u
  {
    StripFixed(u);
  }

  /** A single word is already normalized. */
  lemma NormalizeOfWord(w: string)
    requires IsWord(w)
    ensures Normalize(Some(w)) == w
  {
    WordsOfWord(w);
    NormalizeKeepsOthers(w);
  }

  /** Normalizing twice is normalizing once. */
  lemma NormalizeIdempotent(token: Option<string>)
    ensures Normalize(Some(Normalize(token))) == Normalize(token)
  {
    if token.Some? && token.value != "" {
      var s := Strip(token.value);
      var parts := Words(s);
      if |parts| == 2 && IsScheme(parts[0]) {
        assert Normalize(token) == parts[1];
        NormalizeOfWord(parts[1]);
      } else {
        assert Normalize(token) == s;
        NormalizeKeepsOthers(s);
      }
    }
  }

  /** The strings `_normalize` leaves unchanged: those without edge
      whitespace that are not a scheme word followed by one more word. */
  lemma NormalizeFixedPoints(k: string)
    ensures Normalize(Some(k)) == k <==> NoEdgeSpace(k) && !(|Words(k)| == 2 && IsScheme(Words(k)[0]))
  {
    if NoEdgeSpace(k) && |Words(k)| == 2 && IsScheme(Words(k)[0]) {
      NormalizeMovesSchemePair(k);
    } else if NoEdgeSpace(k) {
      NormalizeKeepsOthers(k);
    }
  }

  /** A scheme word followed by one more word is never left as it is. */
  lemma NormalizeMovesSchemePair(k: string)
    requires NoEdgeSpace(k) && |Words(k)| == 2 && IsScheme(Words(k)[0])
    ensures Normalize(Some(k)) != k
  {
    StripFixed(k);
    var w := Words(k)[1];
    assert Normalize(Some(k)) == w;
    if w == k {
      WordsOfWord(k);
    }
  }

  /** Two words led by something other than a scheme word are kept whole. */
  lemma NormalizeKeepsTwoWords(w1: string, w2: string)
    requires IsWord(w1) && IsWord(w2) && !IsScheme(w1)
    ensures Normalize(Some(w1 + " " + w2)) == w1 + " " + w2
  {
    var u := w1 + " " + w2;
    assert AllSpace(" ");
    WordsOfTwo(w1, " ", w2);
    assert u[0] == w1[0] && u[|u| - 1] == w2[|w2| - 1];
    NormalizeKeepsOthers(u);
  }

  /** A header of nothing but whitespace normalizes to the empty string. */
  lemma NormalizeOfBlank(blank: string)
    requires AllSpace(blank)
    ensures Normalize(Some(blank)) == ""
  {
    assert blank == blank + [] + [];
    NormalizeIgnoresPadding(blank, [], []);
  }

  /** Which words count as a scheme: case does not matter. */
  lemma SchemeWords()
    ensures IsScheme("Bearer") && IsScheme("bearer") && IsScheme("BEARER")
    ensures IsScheme("token") && IsScheme("Token")
    ensures IsScheme("ApiKey") && IsScheme("APIKEY") && IsScheme("apikey")
    ensures !IsScheme("Basic") && !IsScheme("abc")
  {
    assert !FoldsTo("Basic"[0], "token"[0]);
  }

  // ---------------------------------------------------------------------
  // Properties of VerifyToken

  /** With `MCP_API_KEY` unset or empty, nothing gets through. */
  lemma EmptyKeyRejectsAll(env: map<string, string>, token: string)
    requires ApiKeyVariable !in env || env[ApiKeyVariable] == ""
    ensures VerifyToken(ServerAuth(env), token) == None
  {
  }

  /** Some header is admitted if and only if the key is non-empty and is a
      fixed point of normalization. */
  lemma KeyAdmittable(auth: StaticApiKeyAuth)
    ensures (exists token :: VerifyToken(auth, token).Some?)
            <==> auth.apiKey != "" && Normalize(Some(auth.apiKey)) == auth.apiKey
  {
    if exists token :: VerifyToken(auth, token).Some? {
      var token :| VerifyToken(auth, token).Some?;
      NormalizeIdempotent(Some(token));
    }
    if auth.apiKey != "" && Normalize(Some(auth.apiKey)) == auth.apiKey {
      assert VerifyToken(auth, auth.apiKey).Some?;
    }
  }

  /** A configured key with whitespace at an edge, or shaped like
      "<scheme> <word>", can never be presented successfully. */
  lemma UnreachableKeys(auth: StaticApiKeyAuth, token: string)
    requires !NoEdgeSpace(auth.apiKey) || (|Words(auth.apiKey)| == 2 && IsScheme(Words(auth.apiKey)[0]))
    ensures VerifyToken(auth, token) == None
  {
    NormalizeFixedPoints(auth.apiKey);
    KeyAdmittable(auth);
  }

  /** A one-word key is admitted both bare and behind any scheme word, and
      the returned token is the key, not the header. */
  lemma WordKeyAdmitted(auth: StaticApiKeyAuth, scheme: string)
    requires IsWord(auth.apiKey)
    requires IsWord(scheme) && IsScheme(scheme)
    ensures VerifyToken(auth, auth.apiKey) == Some(AccessToken(auth.apiKey, ClientId, []))
    ensures VerifyToken(auth, scheme + " " + auth.apiKey) == Some(AccessToken(auth.apiKey, ClientId, []))
  {
    NormalizeOfWord(auth.apiKey);
    assert AllSpace(" ");
    NormalizeSchemePair(scheme, " ", auth.apiKey);
  }

  // ---------------------------------------------------------------------
  // The find_salesforce_contact_or_lead tool

  const NotFound := "Not found"

  /** A tool reply: the lookup's dictionary, or `{"error": error}`. */
  datatype ToolReply = Found(person: Person) | Error(error: string)

  /** `result if result else {"error": "Not found"}`; a lookup result is a
      non-empty dictionary, hence truthy, whenever it is not `None`. */
  function ReplyOf(result: Option<Person>): (r: ToolReply)
    ensures r.Error? <==> result == None
    ensures r.Error? ==> r.error == NotFound
    ensures result.Some? ==> r == Found(result.value)
  {
    match result
    case Some(person) => Found(person)
    case None => Error(NotFound)
  }

  /** The tool: the lookup, with "nothing matched" and "no search key" both
      reported as the same "Not found" error. */
  method FindSalesforceContactOrLead(email: Option<string>, phone: Option<string>, query: string -> seq<SfRecord>)
    returns (reply: ToolReply, calls: seq<VendorCall>)
    ensures reply.Error? ==> reply.error == NotFound
    ensures reply.Error? <==>
      var w := WhereClause(email, phone);
      w == "" || (query(ContactQuery(w)) == [] && query(LeadQuery(w)) == [])
    ensures reply.Found? ==>
      var w := WhereClause(email, phone);
      var contacts := query(ContactQuery(w));
      reply.person == if contacts != [] then PersonOf(Contact, contacts[0])
                      else PersonOf(Lead, query(LeadQuery(w))[0])
    ensures WhereClause(email, phone) == "" ==> calls == []
  {
    var result;
    result, calls := FindContactOrLead(email, phone, query);
    reply := ReplyOf(result);
  }
}
