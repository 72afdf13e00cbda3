# Blacklist service: verified model of the request-handling contract

The service keeps an append-only table of blacklist entries. Each entry holds
an email, an application UUID, an optional reason and the caller's IP address.
The service has three endpoints:

- `POST /blacklists` (`add_blacklist`) validates a JSON body and appends one
  entry.
- `GET /blacklists/<email>` (`check_blacklist`) reports whether an entry with
  that email exists, and returns the blocked reason of the first such entry.
- `GET /health` (`health_check`) always answers `{"healthy": true}`.

The two `/blacklists` endpoints sit behind the `token_required` gate. It lets a
request through only when the `Authorization` header equals
`"Bearer blackSecretToken"`. Otherwise it answers 401 and the handler never
runs.

The model has three modules:

- `Uuid` (`uuid.dfy`) is the acceptance rule of CPython's `uuid.UUID(hex)`,
  which `add_blacklist` calls on `app_uuid`. It deletes every `urn:` and every
  `uuid:`, strips braces from both ends, deletes every hyphen, requires 32
  characters, and then requires `int(_, 16)` to succeed. For `int()` that
  means: leading and trailing whitespace, an optional sign, an optional
  `0x`/`0X` prefix, and hex digits with single underscores between them.
- `Application` (`application.dfy`) holds the rest:
  - the row type, the response type and the gate;
  - the validation chain, where the first failing check wins;
  - `Create`, POST as a pure transition of the table;
  - the first-match lookup and the health check;
  - the `Store` class. Its methods `AddBlacklist` and `CheckBlacklist` are the
    two protected endpoints, and they work on the table in place.
- `ApplicationProperties` (`application_properties.dfy`) holds the properties
  that span several requests. These are the create-then-lookup round trip,
  the fact that a create leaves every other email's lookup alone, a sequence
  of creates, and the scenarios of `test_application.py`.

How the request becomes parameters:

- The `Authorization` header is an `Option<string>`.
- The decoded body is an `Option<map<string, Option<string>>>`: a JSON object
  whose values are strings or null. `None` stands for every falsy decoded
  body that is not an object: JSON `null`, `false`, `0`, `""` and `[]`.
  `not data` rejects all of them with the "no data" 400, exactly as it
  rejects `{}`.
- `request.remote_addr` is an `Option<string>`.

Python truthiness is modelled exactly:

- An empty object counts as no data (`not data`).
- A field that is missing, `null` or `""` counts as missing (`not email`).
- An empty `remote_addr` falls back to `"0.0.0.0"`, like an absent one.

What the code accepts and answers, in the cases where one might expect
otherwise:

- `uuid.UUID` accepts more than the 36-character 8-4-4-4-12 form, and the
  model follows it:
  - 32 bare hex digits, and hyphens anywhere (`Uuid.HexOrHyphensValidIff`);
  - the braced form (`Uuid.BracedCanonicalIsValid`);
  - the `urn:uuid:` form (`Uuid.UrnCanonicalIsValid`);
  - a `0x` prefix (`Uuid.HexPrefixIsValid`);
  - a `+` sign (`Uuid.SignIsValid`);
  - leading whitespace (`Uuid.LeadingSpaceIsValid`);
  - an underscore between digits (`Uuid.UnderscoreIsValid`).

  The raw string is stored, so it can be longer than the `String(36)` column.
- Control characters such as U+001C are not whitespace to `int()` in an ASCII
  string. A UUID that starts with one is rejected
  (`Uuid.FileSeparatorIsRejected`).
- Only a falsy decoded body gets the "no data" 400. An unparseable body is
  rejected earlier, by Flask's own `get_json(force=True)`, with Flask's
  message.
- When several entries share an email, `.first()` runs with no ordering on an
  SQLite table without an index. SQLite then scans in rowid order, so the
  model answers with the first entry in insertion order.

## Model

| member | source | states |
|---|---|---|
| Application.Gate | application.py:32-41 | the request passes exactly when the header equals "Bearer blackSecretToken"; otherwise the result is 401 with "Token ausente o inválido" |
| Application.Validate | application.py:47-62 | the body is accepted exactly when it is a non-empty object with truthy email and app_uuid and the UUID check passes; an empty or null body gives NoData whatever the fields are; a missing field gives FieldsRequired whatever app_uuid holds; InvalidUuid arises only when both fields are present; an accepted body yields exactly the given email, app_uuid and blocked_reason |
| Application.IpAddress | application.py:64 | the stored address is remote_addr when it is non-empty and "0.0.0.0" otherwise, so it is never empty |
| Application.AppendKeepsWellFormed | application.py:64-68 | appending a row with the next rowid, a non-empty email and address, and an accepted non-empty app_uuid keeps the table well formed |
| Application.NewEntry | application.py:64-66 | the appended row takes the next rowid, the validated email, app_uuid and blocked_reason, and the address `IpAddress(remote_addr)` (remote_addr when non-empty, else "0.0.0.0"); appending it to a well-formed table keeps the table well formed |
| Application.Create | application.py:44-70 | without the token: 401 and the same table; on a validation failure: 400 with that failure's message and the same table; 201 exactly when authorised and accepted; a 201 appends exactly one row (next rowid, given fields, derived IP) after the untouched old rows; the row invariant is preserved |
| Application.FirstMatch | application.py:77 | returns the index of an entry with that email that no earlier entry shares, or None exactly when no entry has that email |
| Application.Lookup | application.py:76-81 | always 200; blacklisted exactly when some entry has the email; the reason is that of the first such entry in table order; null when there is none |
| Application.HealthCheck | application.py:84-87 | 200 with {"healthy": true}, taking neither the header nor the table |
| Application.Store.constructor | application.py:17-29 | a new store holds an empty table, which satisfies the row invariant |
| Application.Store.AddBlacklist | application.py:45-70 | the new table and the response are those of Create on the old table; every non-201 answer leaves the table unchanged; a 201 keeps the old rows as a prefix and adds one row; the row invariant is kept |
| Application.Store.CheckBlacklist | application.py:74-81 | without the token: 401; with it: Lookup on the current table; it has no modifies clause, so the table cannot change |
| ApplicationProperties.FirstMatchAppend | application.py:77 | appending a row changes the first match only when no earlier row has the email, and then the match is the new row |
| ApplicationProperties.LookupAfterAppend | application.py:66-79 | a lookup after an append answers as before if an earlier row has the email; otherwise it reports the new row or not-blacklisted |
| ApplicationProperties.RoundTrip | application.py:64-81 | after a 201 create, a lookup of the created email reports it blacklisted, with the given reason when no earlier entry had that email, and with the earlier answer when one did |
| ApplicationProperties.CreateRejections | application.py:48-62 | for every body: an authorised POST with no data answers the "no data" 400, one with data but a missing field answers the fields 400, and one with both fields but a rejected app_uuid answers the UUID 400; none of them changes the table |
| ApplicationProperties.CreateKeepsOtherLookups | application.py:47-81 | a create that fails, or that stores a different email, changes no lookup of the email in question |
| ApplicationProperties.ReplayAppendOnly | application.py:44-70 | over any sequence of POSTs the old table stays a prefix of the new one, and the row invariant is kept |
| ApplicationProperties.ReplayKeepsLookup | application.py:47-81 | over any sequence of POSTs none of which stores a given email, that email's lookup answers the same at the end as at the start |
| ApplicationProperties.TestUuidIsValid | test_application.py:28 | "12345678-1234-5678-1234-567812345678" passes the UUID check |
| ApplicationProperties.NotAValidUuidIsRejected | test_application.py:89 | "not-a-valid-uuid" fails the UUID check |
| ApplicationProperties.SpamBodyAccepted | test_application.py:26-30 | the tests' success body is accepted with its email, app_uuid and reason whenever its app_uuid passes the UUID check |
| ApplicationProperties.CreateThenLookupScenario | test_application.py:25-38 | the tests' authorised POST gives 201 with the success message, and the following GET of "test@example.com" gives blacklisted with "Spam activity" |
| ApplicationProperties.MissingFieldScenarios | test_application.py:67-84 | a body with only email, or only app_uuid, gives 400 "Se requieren los campos email y app_uuid" and the table is unchanged |
| ApplicationProperties.InvalidUuidScenario | test_application.py:86-98 | a body with app_uuid "not-a-valid-uuid" gives 400 "Formato inválido para app_uuid" and the table is unchanged |
| ApplicationProperties.SessionScenario | test_application.py:25-51 | on a fresh store and for any canonical app_uuid, through the class contracts alone: a POST without the header gets 401 and leaves the table empty, the authorised POST gets 201, and the GET then finds the reason |
| Uuid.ValidUuid | application.py:59-62 | the string passes the `uuid.UUID` check only if it has at least 32 characters |
| Uuid.IsHexInt | application.py:60 | `int(_, 16)` accepts a string only if it holds a hex digit |
| Uuid.Normalize | application.py:60 | the string that reaches int() is no longer than the argument and holds no hyphen |
| Uuid.AllHexIsHexInt | application.py:60 | any non-empty run of hex digits is accepted by int(_, 16) |
| Uuid.HexOrHyphensValidIff | application.py:59-62 | for a string of hex digits and hyphens, the UUID check passes exactly when it holds 32 hex digits, wherever the hyphens stand |
| Uuid.CanonicalIsValid | application.py:59-62 | every 8-4-4-4-12 hex string passes the UUID check |
| Uuid.BracedCanonicalIsValid | application.py:59-62 | the braced form of a canonical string passes the UUID check |
| Uuid.UrnCanonicalIsValid | application.py:59-62 | the "urn:uuid:" form of a canonical string (45 characters) passes the UUID check |
| Uuid.HexPrefixIsValid | application.py:59-62 | "0x" followed by 30 hex digits passes the UUID check |
| Uuid.SignIsValid | application.py:59-62 | "+" followed by 31 hex digits passes the UUID check |
| Uuid.LeadingSpaceIsValid | application.py:59-62 | a space followed by 31 hex digits passes the UUID check |
| Uuid.UnderscoreIsValid | application.py:59-62 | 31 hex digits with one underscore strictly inside them pass the UUID check |
| Uuid.FileSeparatorIsRejected | application.py:59-62 | U+001C followed by 31 hex digits fails the UUID check, which with `ApplicationProperties.CreateRejections` makes the authorised POST of such an app_uuid answer the UUID 400 |

## Left out

- Flask routing, the decorator mechanics and `jsonify` are left out. The
  request becomes method parameters and the JSON reply a `Response` value.
- `request.get_json(force=True)` failing on an empty or malformed body is left
  out. That is Flask's own 400, not one of the code's messages.
- Field values that are not strings or null, and truthy bodies that are not
  objects, are left out, because the model's `JsonObject` maps every field
  to a string or null and so cannot express them. In the code:
  - a truthy body that is not an object (a non-empty list or string, a
    non-zero number, `true`) raises `AttributeError` on `data.get`, a 500;
  - a falsy non-string `email` or `app_uuid` (`0`, `false`, `[]`, `{}`)
    gets the fields 400;
  - when `email` is truthy, a truthy non-string `app_uuid` (a number,
    `true`, a non-empty list or object) raises `AttributeError` on
    `hex.replace` inside `uuid.UUID`, a 500;
  - with a valid `app_uuid`, a number or boolean `email` (a truthy one) or
    `blocked_reason` is stored as its text form and the POST answers 201.
    The `String` columns have TEXT affinity, so `5` becomes `'5'` and `true`
    becomes `'1'`;
  - with a valid `app_uuid`, a list or object `email` (a truthy one) or
    `blocked_reason` makes the commit fail, because sqlite3 cannot bind it.
    That is a 500, and nothing is stored.
- The SQLAlchemy session, commit and SQLite storage are left out. The table is
  an in-memory sequence, so failures of the store (the 5xx case) are not
  modelled.
- `created_at` is left out, because the `datetime.utcnow` default reads the
  clock.
- Column length limits (`String(255)`, `String(36)`, `String(45)`) are left
  out. SQLite does not enforce them and no code path checks them.
- The `__main__` block (`db.create_all`, `app.run`) and the pytest fixture are
  left out.
- Concurrency between requests is left out. Each call to a method is one whole
  request.
- Uuid.ValidUuid: CPython's `int()` first maps non-ASCII whitespace and
  non-ASCII decimal digits to their ASCII forms. The model does not, so it
  rejects the strings that `uuid.UUID` accepts only through such characters.
  For an ASCII string, `int()` skips exactly space, tab, line feed, vertical
  tab, form feed and carriage return, and so does the model.
