# pc-config: hostname resolution and camera lookup

A PC asks the pc-config service, by hostname, for its room and control group
and for the cameras of that group. This project models the CouchDB-backed configuration service of that system
(`couch/couch.go`) and proves what its two lookups do.

- **RoomAndControlGroup** resolves a PC's hostname to a room and a control
  group through the pc-mapping database. The hostname is looked up as a
  document ID. On "not found" (HTTP 404), one byte is dropped from the end
  and the lookup is repeated. The search ends at the first document found,
  on any other failure, or after a key shorter than four bytes was not found.
  When it ends without a document, the error returned wraps the last failure.
- **Cameras** fetches the room's ui-configuration document and returns the
  camera list of the first control group whose ID equals the requested one.
  A fetch or decode failure is one error. A document with no matching group
  is another: "no matching control group found".

Files:

- `pcconfig.dfy`: Go strings as byte sequences. The `Camera` and
  `CameraPreset` records (data.go).
- `goerrors.dfy`: Go errors as the service sees them. A datastore failure
  carries an HTTP status, a plain error comes from `errors.New`, and a
  wrapped error comes from `fmt.Errorf("...: %w")`. `StatusCode` follows the
  client's status classification. `Is` follows `errors.Is`.
- `couch.dfy`: the document types (couch/structs.go) and both methods. Each
  database is an oracle `Store<T> = GoString -> Fetch<T>` that gives the
  decoded document or the error. `RoomAndControlGroup` keeps the source's
  loop, with its three-way test on the status code and its `break`. Its ghost
  out-parameter `tried` records the keys looked up. The loop is proved
  against two recursive functions: `Lookups` gives the keys asked for, and
  `Resolve` gives the result. The lemmas after them characterise both
  functions without recursion.
- `couch_test.dfy`: the scenarios of couch/couch_test.go, stated as lemmas
  over `Lookups` and `Resolve`. The camera tests are small methods that call
  `Cameras` and state each test's result.

Two details of the code are worth stating:

- The length test comes after the lookup, so the 3-byte key is also tried.
  A hostname of n >= 3 bytes gets up to n - 2 lookups.
  couch/couch_test.go:261-270 expects 10 lookups for a 12-byte hostname,
  ending at "TEC" (`LookupCountBound`, `CouchTest.TooShort`).
- A found mapping's fields are returned verbatim. The code does not check
  that they are non-empty.

## Model

| member | source | states |
|---|---|---|
| `Couch.RoomAndControlGroup` | couch/couch.go:54-78 | The keys looked up, in order, are exactly `Lookups(hostname)`. The result is `Resolve(hostname)`. On error both strings are empty. |
| `Couch.Code` | couch/couch.go:60-61 | The status code read from a fetch is 0 exactly when the document was found and decoded. |
| `Couch.Conclude` | couch/couch.go:61-68 | The lookup that ends the search returns a found mapping's `uiConfig` and `controlGroup` verbatim. A failure is wrapped, so `errors.Is` still finds it and its status code is unchanged. |
| `Couch.LookupsAreTruncations` | couch/couch.go:59-75 | The i-th key looked up is the hostname minus its last i bytes. Each key is the previous one minus one byte, and the first is the full hostname. |
| `Couch.LookupCountBound` | couch/couch.go:70-74 | A hostname shorter than 4 bytes, the empty one included, gets exactly one lookup. A hostname of n >= 3 bytes gets at most n - 2 lookups, and every key tried has at least 3 bytes. |
| `Couch.OnlyLastLookupAnswers` | couch/couch.go:59-77 | Every lookup but the last was "not found" for a key of at least 4 bytes. The last lookup found a document, failed some other way, or was a "not found" on a key shorter than 4 bytes. The result is the last lookup's answer. |
| `Couch.ResolvedFromLongestPrefix` | couch/couch.go:60-63 | On success the room and group are the verbatim fields of the mapping at the last key tried. That key is a prefix of the hostname, and every longer prefix was "not found". |
| `Couch.StopsAtFirstAnswer` | couch/couch.go:59-68 | Suppose the first i keys are "not found" with at least 4 bytes and the (i+1)-th key is not. Then exactly i + 1 lookups are made and the (i+1)-th answer is the result: a found mapping, or a non-404 error returned at once. |
| `Couch.NotFoundEverywhere` | couch/couch.go:64-77 | The result is an error with status 404 if and only if every key down to 3 bytes, or the whole hostname when shorter, was "not found". The error then wraps the last 404 answer, and n - 2 keys were tried (one for hostnames under 4 bytes). |
| `Couch.Cameras` | couch/couch.go:80-95 | A failed fetch gives an empty list and the failure wrapped as "unable to get/scan ui config". Otherwise the call succeeds if and only if some group ID equals the requested one. It then returns the camera list of the first such group in document order, which may be empty. With no match it returns an empty list and "no matching control group found". |
| `CouchTest.ExactMatch` | couch/couch_test.go:126-156 | A hostname with its own mapping is resolved with one lookup, to that mapping's room and group. |
| `CouchTest.FirstLookupFails` | couch/couch_test.go:158-179 | A non-404 failure on the first lookup ends the search after one lookup, with an error that `errors.Is` matches to the failure. |
| `CouchTest.RetryFindsPrefix` | couch/couch_test.go:181-220 | "TEC-ITB-1101-NEW" is looked up, then "-NE", "-N" and "-" variants, then "TEC-ITB-1101", whose mapping is returned. |
| `CouchTest.RetryStopsOnOtherFailure` | couch/couch_test.go:222-249 | Two 404 answers and then another failure at "TEC-ITB-1101-N" give three lookups and an error that `errors.Is` matches to that failure. |
| `CouchTest.TooShort` | couch/couch_test.go:251-284 | With no mapping, "TEC-ITB-1101" gets ten lookups, the last at "TEC". The error's status code is still 404. |
| `CouchTest.CameraFound` | couch/couch_test.go:286-323 | Asking for group "Camera" of room "ITB-1101" succeeds with exactly the mock camera, unchanged. |
| `CouchTest.CameraGroupEmpty` | couch/couch.go:88-92 | A matching group with no cameras is a success with an empty list. |
| `CouchTest.CameraMissing` | couch/couch_test.go:360-389 | Asking for "Invalid Preset" in a room without that group gives an empty list and the error "no matching control group found". |
| `CouchTest.CameraInvalidConfig` | couch/couch_test.go:325-358 | A room document that cannot be decoded gives an empty list and an error whose text starts with "unable to get/scan ui config" and wraps the decode error. |

## Left out

- The datastore is an oracle from document ID to decoded document or error. The CouchDB client, JSON decoding (`ScanDoc`) and the client's database handles are not modelled.
- `Couch.RoomAndControlGroup`: the method receives the pc-mapping database as a parameter. The service's stored client and configurable database names are not modelled.
- `New`, `NewWithClient` and the options in couch/options.go are not modelled. They only build the datastore client, authenticate it and choose the default database names.
- Store failures carry a status from 100 to 599, so a non-nil error never reads as status 0. What the real client reports for an error that claims status 0 is not modelled.
- `GoErrors.Is` compares errors by value. Go compares pointer errors by identity, so two distinct errors with the same text are equal here.
- The request context, its cancellation and its timeouts are not modelled.
- `Couch.Cameras`: camera lists are sequences, so a nil list and an empty list are not distinguished. A matching group without a "cameras" field yields a nil slice (JSON `null`), while both error paths return an empty non-nil slice (JSON `[]`).
- handlers/handlers.go is not part of this model. It is an HTTP handler that runs two lookups concurrently under a 5-second deadline. It calls `RoomAndPreset` and uses `Config`, and neither exists in data.go, so its behaviour is not fixed by the code.
- keys/keys.go is not part of this model. It makes one outbound HTTP request for a control key and decodes one JSON field.
- cmd/pc-config/main.go is not part of this model. It parses flags, builds the logger and starts the server.
