# RevOps MCP gateway: bearer-token gate and Salesforce request shaping

This project is a Dafny model of the two parts of the RevOps MCP server that hold logic of their own. Everything else in the server passes its arguments straight to a vendor SDK.

1. **The bearer-token gate** (`mcp_server.py`, class `StaticApiKeyAuth`).
   - `_normalize` turns the token string `verify_token` is given into a candidate key. When the trimmed value is exactly two whitespace-separated words and the first is `Bearer`, `Token` or `ApiKey` in any case, the candidate is the second word. Otherwise it is the whole trimmed value.
   - `verify_token` admits a caller when the candidate is non-empty, the one configured secret is non-empty, and the two are equal.
   - The `find_salesforce_contact_or_lead` tool turns a missing lookup result into `{"error": "Not found"}`.
2. **Salesforce request shaping** (`salesforce_functions.py`).
   - `find_contact_or_lead` builds SOQL conditions from an optional e-mail and phone, and asks for nothing when both are blank. It looks among Contacts first and among Leads only when no Contact matched.
   - `create_lead` fills in `LastName` and `Company` with "Unknown", in place on the caller's dictionary.
   - `log_sfdc_task` builds a fixed Task record and turns the vendor's answer into a success-or-error result.

Modules, one file each:

- `Wrappers` (wrappers.dfy) holds `Option` for Python's `None`. It also holds `Call`, for a Python call that either returns a value or raises.
- `Text` (text.dfy) holds the Python string operations these functions use: `strip()`, `split()`, `lower()` compared against ASCII words, and `join()`. Whitespace is exactly the set of characters for which Python's `str.isspace()` holds.
- `Salesforce` (salesforce.dfy) holds the three functions of salesforce_functions.py. The vendor client is replaced by parameters:
  - `sf.query` becomes a function from the SOQL string to the returned records.
  - `sf.Lead.create` and `sf.Task.create` become functions from the field map to the vendor's answer.
  - The outcome of `sfdc_connection()` in the task logger and `datetime.now()` become inputs.
  - The lookup also returns the list of vendor calls it made, in order. That list shows when no connection or query happens.
  - The caller's Lead dictionary is an object (`LeadFields`) whose map `CreateLead` updates, so the in-place change is visible to the caller.
- `McpServer` (mcp_server.dfy) holds the auth provider and the lookup tool's reply.

Two details of the code that the model keeps:

- `_normalize` compares a token of three or more words whole against the key (mcp_server.py:44-47).
- `record.get('FirstName', '')` gives `None` for a `FirstName` that is present but null. It gives `''` only when the key is missing (salesforce_functions.py:59,71).

## Model

| member | source | states |
|---|---|---|
| Text.Strip | mcp_server.py:42 | `strip()` returns a string no longer than its input, with no whitespace at either end |
| Text.StripOfPadded | mcp_server.py:47 | `strip()` removes exactly the surrounding whitespace: padding a string that has no edge whitespace and then stripping gives it back |
| Text.StripFixed | mcp_server.py:47 | a string without edge whitespace is its own `strip()`, so stripping is idempotent |
| Text.Words | mcp_server.py:42 | every element `split()` returns is a non-empty run of non-whitespace characters |
| Text.WordsOfWord | mcp_server.py:42 | one word splits into exactly itself |
| Text.WordsOfWordThen | mcp_server.py:42 | a word followed by whitespace or by nothing is split off whole |
| Text.WordsSkipSpace | mcp_server.py:42 | leading whitespace never changes what `split()` returns |
| Text.WordsOfSpace | mcp_server.py:42 | an all-whitespace string splits into no words |
| Text.WordsOfTwo | mcp_server.py:42-44 | two words separated by any non-empty run of whitespace split into exactly those two words |
| McpServer.NewStaticApiKeyAuth | mcp_server.py:33-36 | the provider keeps the key and base URL it was given; `required_scopes` is empty |
| McpServer.ServerAuth | mcp_server.py:62-65 | the server's key is `MCP_API_KEY`, or `""` when the variable is unset; scopes are empty |
| McpServer.Normalize | mcp_server.py:38-47 | `None` and `""` give `""`; no result has whitespace at either end |
| McpServer.NormalizeIgnoresPadding | mcp_server.py:42-47 | whitespace around a token never changes what it normalizes to |
| McpServer.NormalizeSchemePair | mcp_server.py:42-45 | a scheme word, any whitespace and a key normalize to the key |
| McpServer.NormalizeKeepsOthers | mcp_server.py:46-47 | a token without edge whitespace that is not "scheme word + one word" is returned unchanged |
| McpServer.NormalizeOfWord | mcp_server.py:46-47 | a single word, `"Bearer"` alone included, is returned unchanged |
| McpServer.NormalizeKeepsTwoWords | mcp_server.py:44-47 | two words whose first is not a scheme word (e.g. `"abc def"`) are kept whole |
| McpServer.NormalizeOfBlank | mcp_server.py:40-47 | an all-whitespace token normalizes to `""` |
| McpServer.NormalizeIdempotent | mcp_server.py:38-47 | normalizing twice gives the same result as normalizing once |
| McpServer.NormalizeFixedPoints | mcp_server.py:42-47 | `_normalize` leaves `k` unchanged iff `k` has no edge whitespace and is not a scheme word followed by one more word |
| McpServer.NormalizeMovesSchemePair | mcp_server.py:44-45 | a scheme word followed by one more word is never returned unchanged |
| McpServer.SchemeWords | mcp_server.py:44 | `Bearer`, `bearer`, `BEARER`, `token`, `Token`, `ApiKey`, `APIKEY` and `apikey` are scheme words; `Basic` and `abc` are not |
| McpServer.VerifyToken | mcp_server.py:50-58 | an access token is returned iff the key is non-empty and equals the normalized token `verify_token` is given; it carries the key itself (not the raw argument), client id `revops-mcp-client` and no scopes |
| McpServer.EmptyKeyRejectsAll | mcp_server.py:64 | with `MCP_API_KEY` unset or empty, the check at line 52 rejects every token |
| McpServer.KeyAdmittable | mcp_server.py:50-52 | some token is admitted iff the key is non-empty and a fixed point of `_normalize` |
| McpServer.UnreachableKeys | mcp_server.py:42-52 | a key with edge whitespace, or shaped like "scheme word + word", admits no token `verify_token` can be given |
| McpServer.WordKeyAdmitted | mcp_server.py:44-57 | a one-word key, given to `verify_token` bare or behind any scheme word, is admitted, and the returned access token holds the key |
| McpServer.ReplyOf | mcp_server.py:231 | the reply is `{"error": "Not found"}` iff the lookup gave `None`; otherwise it is the lookup result unchanged |
| McpServer.FindSalesforceContactOrLead | mcp_server.py:214-231 | "Not found" exactly when no search key is present or neither query returns a record; otherwise the first Contact, or else the first Lead; no vendor call without a search key |
| Salesforce.WhereClause | salesforce_functions.py:35-45 | the WHERE clause is empty iff neither e-mail nor phone is present |
| Salesforce.BuildConditions | salesforce_functions.py:35-39 | one condition per present key (present = not `None` and not blank after `strip()`); the e-mail condition comes first and the phone condition last, each on the stripped value; joined with `" OR "` they give the WHERE clause |
| Salesforce.ConditionIgnoresPadding | salesforce_functions.py:36-39 | whitespace around a search key does not reach the condition; a key counts as present iff something is left after stripping |
| Salesforce.FindContactOrLead | salesforce_functions.py:20-75 | no key: `None` with no connection and no query. Otherwise: connect, then run the Contact query. A Contact hit returns `type contact` and no Lead query is run. On a Contact miss the Lead query runs, giving `type lead` on a hit and `None` when both are empty |
| Salesforce.WithLeadDefaults | salesforce_functions.py:77-81 | the keys are the old keys plus `LastName` and `Company`; old values are kept; only keys that were missing get "Unknown" |
| Salesforce.CreateLead | salesforce_functions.py:77-84 | the caller's dictionary becomes `WithLeadDefaults` of its old value, and that same mutated dictionary is what `sf.Lead.create` receives |
| Salesforce.LeadDefaultsKeepValues | salesforce_functions.py:78-81 | existing `LastName`/`Company` values, empty strings included, survive; filling the defaults twice changes nothing |
| Salesforce.LeadDefaultsOfEmpty | salesforce_functions.py:78-81 | an empty dictionary becomes `{LastName: "Unknown", Company: "Unknown"}` |
| Salesforce.TaskFields | salesforce_functions.py:108-121 | the Task record has exactly its ten keys: the fixed RecordTypeId, Status `Completed`, OwnerId, and Type/TaskSubType `Call`, plus WhoId, Subject, Description, direction and date from the arguments |
| Salesforce.LogSfdcTask | salesforce_functions.py:86-127 | `direction` defaults to `Inbound`. A connection failure propagates. Once connected the call never raises. `success: True` with the vendor's `id` iff the create returned a response holding `id`. A raised create gives `success: False` with its message; a response without `id` gives the error `'id'` |

## Left out

- `gcal_functions.py` and `gmail_functions.py` are not part of this model. Their functions load credentials and make one SDK call each (calendar free/busy and event insert/update/delete, Gmail MIME building and send).
- `test_mcp.py` is not part of this model. It is an interactive network client.
- `sfdc_connection`, `get_gmail_service` and `get_calendar_service` are not modelled. They read the environment and files and build OAuth clients.
- How FastMCP takes the token out of the HTTP `Authorization` header before calling `verify_token` is not modelled. The model starts from the string `verify_token` receives.
- FastMCP tool registration and dispatch are not modelled. That includes unknown-tool errors, which the library raises. The `/info` and `/health` routes and `mcp.run` are framework plumbing and are left out too.
- The other tool wrappers (`send_email`, the calendar tools, `create_salesforce_lead`, `log_salesforce_task`) are not modelled separately. Each returns its callee's result unchanged.
- McpServer.CompareDigest: `secrets.compare_digest` is modelled as plain equality. Its constant-time behaviour is a timing property. It also raises `TypeError` for non-ASCII `str` arguments, and the model does not capture that.
- McpServer.IsScheme: `lower()` is modelled only as far as comparing with a lower-case ASCII word, through `Text.FoldsTo`. That covers ASCII letters and U+212A KELVIN SIGN, the one other character Python lower-cases to an ASCII letter. Full Unicode case mapping is not modelled because the comparison never needs it.
- Salesforce.FindContactOrLead: exceptions raised by `sfdc_connection()` or `sf.query` propagate in the source. The model's query function has no failure. A response with no `records`, or `records` set to `None`, is modelled as an empty list. Every record carries an `Id`, so the `KeyError` a record without one would raise is not modelled.
- Salesforce.CreateLead: the vendor's answer is returned as an opaque value. A failure of `sfdc_connection()` or `sf.Lead.create` would propagate after the dictionary has been mutated, and the model does not show that propagation.
- Salesforce.LogSfdcTask: `datetime.now().strftime('%Y-%m-%d')` is an input string. The clock and the date formatting are not modelled.
- SOQL escaping is not modelled, because the source does none: the stripped values are interpolated verbatim.
- Python's dynamic typing is not modelled. E-mail and phone are strings or `None`, and dictionary values are strings.
