# HubSpot integration: a Dafny model

This project models the backend of the HubSpot integration of a small
integrations service. Its source is `backend/integrations/hubspot.py`. The
module has three parts:

- **Record normalisation** (`create_hubspot_integration_item`). One HubSpot
  CRM v3 record becomes an `IntegrationItem`:
  - the id is prefixed;
  - the display name is chosen per object type, with fallbacks;
  - the creation timestamp is copied, and the modification timestamp falls
    back from one property to another.
- **Paginated reading and aggregation** (`fetch_hubspot_data`,
  `get_items_hubspot`). Each object endpoint is read page by page with an
  `after` cursor. The contacts, companies, deals and tickets are then
  concatenated, and an endpoint whose reading throws is skipped.
- **The OAuth 2.0 handshake** (`authorize_hubspot`, `oauth2callback_hubspot`,
  `get_hubspot_credentials`). This is the authorization code grant (section
  4.1 of RFC 6749), with the `state` check against request forgery (section
  10.12 of RFC 6749). It runs over a key-value store:
  - a state record is saved per organisation and user;
  - the callback checks the state, spends it and saves the credentials;
  - the credentials are handed out once.

Files:

- `json.dfy` (`Json`): decoded JSON scalars, objects and Python's `dict.get`,
  plus truthiness, f-string rendering (`None` for null) and handler outcomes.
  An outcome is a value, an `HTTPException`, or `Crash` for an exception
  nobody catches.
- `text.dfy` (`Text`): Python's `str.strip()` with the `str.isspace`
  character set, and `str.capitalize()`.
- `hubspot_items.dfy` (`HubSpotItems`): the pure record mapping and an inverse
  of the item id.
- `hubspot_fetch.dfy` (`HubSpotFetch`): the two loops, as methods.
  - The HTTP server is replaced by the sequence of replies it gives to the
    successive page requests of one endpoint.
  - Each method is proved against a recursive specification function
    (`Fetched`, `Requests`, `Aggregate`).
  - Lemmas characterise those functions.
- `hubspot_oauth.dfy` (`HubSpotOAuth`): the handlers as methods of a class
  `OAuthFlow`. The class holds the store as a `map` from keys to decoded JSON
  objects. Each method is tied to a step function on the store, and the
  handshake's properties are proved about those functions.

## Model

| member | source | states |
|---|---|---|
| HubSpotItems.CreateItem | backend/integrations/hubspot.py:170-203 | total on every record and type; the item keeps the type, has no parent id and the parent name `HubSpot`; the other fields are stated by the four lemmas below |
| HubSpotItems.CreateItemFields | backend/integrations/hubspot.py:191-203 | id is `hubspot_{type}_{id}`; type kept; parent id None; parent name `HubSpot`; creation time is `createdate` (None when absent); modification time is `lastmodifieddate` when truthy, else `hs_lastmodifieddate`, so it is truthy iff one of them is |
| HubSpotItems.ContactName | backend/integrations/hubspot.py:178-181 | stripped full name when the two parts are not all whitespace, and then it has no whitespace at its ends; otherwise the `email` value if the key exists (even null or empty); `Contact {id}` only when `email` is absent |
| HubSpotItems.NamedByProperty | backend/integrations/hubspot.py:182-187 | company/deal/ticket name is the value under `name`/`dealname`/`subject` whenever the key exists; `Company {id}`/`Deal {id}`/`Ticket {id}` only when it is absent |
| HubSpotItems.NamedByType | backend/integrations/hubspot.py:188-189 | any other type, the empty one included: `Capitalize` of the type (first letter upper-cased, the rest lower-cased), a space and the rendered id, whatever the properties |
| HubSpotItems.ItemIdRoundTrip | backend/integrations/hubspot.py:196 | for the four endpoint types the id parses back into the type and the rendered HubSpot id |
| HubSpotItems.ItemIdInjective | backend/integrations/hubspot.py:196 | two items of endpoint types with equal ids have the same type and rendered id |
| Text.StripSpec | backend/integrations/hubspot.py:179 | `strip()` returns the infix left after cutting whitespace at both ends; it starts and ends with non-whitespace; it is empty iff the input is all whitespace |
| Text.Capitalize | backend/integrations/hubspot.py:189 | same length; first character upper-cased; the rest lower-cased (ASCII letters) |
| Json.Get | backend/integrations/hubspot.py:192-193 | `d.get(k)`: the stored value when the key is present, null only when it is absent |
| Json.GetOr | backend/integrations/hubspot.py:174-187 | `d.get(k, default)`: the default only when the key is absent, never when it holds null or `''` |
| Json.Or | backend/integrations/hubspot.py:193 | Python `a or b`: truthy iff either is; `a` when `a` is truthy, else `b` |
| HubSpotFetch.AppendItems | backend/integrations/hubspot.py:158-159 | the inner loop appends exactly the page's results mapped through `create_hubspot_integration_item`, in order |
| HubSpotFetch.MapItemsSpec | backend/integrations/hubspot.py:158-159 | one item per result, the k-th made from the k-th result |
| HubSpotFetch.FetchData | backend/integrations/hubspot.py:133-168 | the while loop yields `Fetched(pages)` and sends exactly `Requests(pages)`, starting with no cursor and the `Bearer` header |
| HubSpotFetch.FetchedByFirstFinal | backend/integrations/hubspot.py:143-168 | reading ends at the first reply that throws, is non-200 or has no `next`; a throw loses everything; otherwise the result is the in-order items of every page before it, plus that page's own items when it is a 200 |
| HubSpotFetch.RequestsShape | backend/integrations/hubspot.py:143-149 | one request per reply up to the ending one; each uses the same endpoint, header and `limit=100`; the first has no `after`; each later one carries the previous reply's cursor, only if truthy |
| HubSpotFetch.FetchedTagged | backend/integrations/hubspot.py:158-159 | every fetched item carries the endpoint's type, a `hubspot_{type}_` id, no parent id and parent `HubSpot` |
| HubSpotFetch.FirstFinal | backend/integrations/hubspot.py:151-166 | the position of the reply that ends the loop: it ends it and no earlier reply does |
| HubSpotFetch.GetItems | backend/integrations/hubspot.py:101-131 | 400 `No access token found` when `access_token` is missing or falsy; otherwise the endpoints' contributions concatenated in order, a throwing endpoint contributing nothing |
| HubSpotFetch.EndpointsIndependent | backend/integrations/hubspot.py:113-128 | the aggregate is contacts, companies, deals, tickets in that order; the items of each type are exactly what that endpoint yielded, whatever the others did |
| HubSpotFetch.ContributionOfType | backend/integrations/hubspot.py:121-128 | an endpoint's contribution holds items of its own type only |
| HubSpotFetch.TypesDistinct | backend/integrations/hubspot.py:113-118 | the four endpoints produce four different item types |
| HubSpotOAuth.OAuthFlow.Authorize | backend/integrations/hubspot.py:27-36 | saves `{state, user_id, org_id}` under `hubspot_state:{org}:{user}`, changes nothing else, and redirects to the consent page with that state |
| HubSpotOAuth.OAuthFlow.Callback | backend/integrations/hubspot.py:38-89 | the new store and outcome are `CallbackStep` of the old store; a token request is sent exactly when the state check passes |
| HubSpotOAuth.OAuthFlow.GetCredentials | backend/integrations/hubspot.py:91-99 | the new store and outcome are `TakeCredentials` of the old store |
| HubSpotOAuth.StateCheck | backend/integrations/hubspot.py:39-56 | the check passes iff there is no truthy `error`, the state decodes, a saved state exists for its org and user, and the tokens are equal |
| HubSpotOAuth.CallbackRefusals | backend/integrations/hubspot.py:39-56 | refusal order and details: the `error` value; `Missing state parameter`; an uncaught exception for undecodable state; `State does not match.` for every decoded state that fails the check, whether no state is saved or the token differs |
| HubSpotOAuth.CallbackOutcomes | backend/integrations/hubspot.py:53-80 | a refused callback leaves the store unchanged; an accepted one deletes the state key even when the exchange fails; success iff accepted and the token reply is 200, and then the body is saved under the credentials key |
| HubSpotOAuth.CallbackIsLocal | backend/integrations/hubspot.py:74-80 | the callback touches no key but the state key and the credentials key of the same org and user |
| HubSpotOAuth.AuthorizeThenCallback | backend/integrations/hubspot.py:27-56 | right after authorizing, a callback for that org and user passes iff it carries the saved token |
| HubSpotOAuth.CallbackIsOneShot | backend/integrations/hubspot.py:53-75 | replaying an accepted callback is refused with `State does not match.` |
| HubSpotOAuth.ReauthorizeInvalidatesOldState | backend/integrations/hubspot.py:34-56 | re-authorizing the same org and user makes the first token fail the check |
| HubSpotOAuth.TakeCredentialsOneShot | backend/integrations/hubspot.py:91-99 | after a successful take the key is gone and a second take is refused with `No credentials found.` |
| HubSpotOAuth.CredentialsRoundTrip | backend/integrations/hubspot.py:27-99 | authorize, a callback with the redirect's state and a 200 reply, then one take returns the body; nothing of the handshake remains; a second take is refused |
| HubSpotOAuth.StateAndCredentialKeysDiffer | backend/integrations/hubspot.py:74-80 | a state key never equals a credentials key |
| HubSpotOAuth.StateKeyInjective | backend/integrations/hubspot.py:34 | when the organisation id has no colon, the state key determines org and user |
| HubSpotOAuth.StateKeyCollision | backend/integrations/hubspot.py:34 | with a colon in the organisation id, (`a:b`, `c`) and (`a`, `b:c`) share a state key |

## Left out

- The HTTP transport is not modelled:
  - `requests.get` and the HubSpot endpoints are replaced by a sequence of replies per endpoint.
  - The `httpx` token POST is replaced by its reply.
  - A transport failure of the token POST is not modelled.
  - Headers other than `Authorization`, such as `Content-Type`, are not modelled.
- Redis is a plain map. The 600-second expiry and async I/O are not modelled.
- The `asyncio.gather` of the token POST and the state deletion is modelled as running one after the other.
- `secrets.token_urlsafe(32)` is replaced by a token parameter.
- JSON encoding and decoding are not modelled:
  - The store holds decoded objects.
  - The callback's `state` parameter is absent, undecodable or a decoded object.
  - The redirect carries the state record rather than its text.
  - Property and state values are JSON null or strings. Numbers, booleans and nested values are not modelled.
  - `get_items_hubspot` receives decoded credentials rather than a JSON string, so a malformed string is not modelled.
  - `get_hubspot_credentials` refuses an empty object; other falsy JSON values (null, `[]`, `0`) are not modelled.
- A page whose `paging.next` has no `after` key raises a `KeyError` in the source. This case is not modelled: a `next` link always carries a cursor value.
- A reply that cannot be decoded is modelled only as a throw (`Raised`). Such a reply is not distinguished from a failed request.
- HubSpotFetch.FetchData requires that some reply ends the reading. The source loops forever on an endless chain of `next` links. One such chain needs no misbehaving pagination: a `next` link whose `after` is falsy makes the next request go out without `after`, so page one is asked for again, and a server that answers it the same way keeps the `while True` loop running for ever (an observation from reading the code, not executed).
- HubSpotFetch.AppendItems is the source's inner `for` loop, written as a method of its own.
- The `print` logging, the `HTMLResponse` window-close page and the environment loading are not modelled. Settings read from the environment are the `Config` values.
- Text.Capitalize covers ASCII letters only. Python's Unicode case mapping is not modelled.
- The frontend files `frontend/src/data-form.js` and `frontend/src/integration-form.js` are not part of this model. They are React UI with no logic beyond display strings.
