# API gateway and course store — a Dafny model

This project models the decision logic of a small FastAPI reverse-proxy gateway that fronts a
student service and a course service, and the course service's in-memory store.

Gateway side (`gateway/main.py`):

- **Forwarding** (`forwarding.dfy`): `forward_request` checks the service registry
  (`student` → `http://localhost:8001`, `course` → `http://localhost:8002`), then the HTTP method,
  then sorts the outcome of the one backend call into exactly one gateway result. A backend
  404 becomes `RESOURCE_NOT_FOUND` (404), a 422 becomes `VALIDATION_ERROR` (422), any status
  of 500 or more becomes `SERVICE_ERROR` (502), and anything else is passed through with its
  status. The transport faults are a connect failure (`SERVICE_UNAVAILABLE`, 503), a timeout
  (`GATEWAY_TIMEOUT`, 504) and any other request error (`REQUEST_FAILED`, 503). The backend's
  outcome is an input of the model. The result also records which request, if any, went out.
  A JSON body given with GET or DELETE makes the HTTP client's call itself fail (its `get` and
  `delete` take no `json` argument): nothing is sent and the error escapes as `Unhandled`. No
  handler does this.
- **Errors** (`errors.dfy`): the uniform envelope holds the error code, the HTTP status and the
  kind-specific field (`available_services`, `path`, `details` or `service_url`). For
  backend failures the statuses are the gateway statuses of section 15.6 of RFC 9110.
- **Auth** (`auth.dfy`): `create_access_token` adds an `exp` claim (section 4.1.4 of RFC 7519)
  30 minutes after issue. `verify_token` maps the JWT library's decode outcome to the subject,
  `TOKEN_EXPIRED` or `INVALID_TOKEN`. `login` checks the fixed user table.
- **Routes** (`routes.dfy`): the ten protected handlers. Each one verifies the token and then
  forwards to the backend's REST path. Create handlers send the whole record. Update handlers
  send only the fields that were set (`dict(exclude_unset=True)`).

Course service (`course-service/data_service.py`, `course-service/models.py`):

- **CourseStore** (`course_store.dfy`, `models.dfy`): a `seq<Course>` in insertion order plus the
  `nextId` counter. It supports list, get-first-match, add, partial update and delete. Its
  invariant `Valid` says ids strictly increase along the list and are all below `nextId`.
  Because every add appends the counter's value, increasing id order is insertion order.

Helpers: `wrappers.dfy` (Option/Result), `json_model.dfy` (JSON values) and `decimal.dfy`.
`decimal.dfy` prints an integer in decimal, as the f-string path `/api/courses/{course_id}` does,
and proves the printing reversible, so distinct ids give distinct paths.

In these places the model follows the code:

- A pass-through (and the `details` of a 422) calls `response.json()`. A non-empty body that is
  not JSON therefore raises a decode error that nothing in the gateway catches. The model
  returns `Unhandled` for it. The rule "a gateway 5xx is always 502, 503 or 504" is proved for
  every response the gateway itself produces. `Classify` states exactly when `Unhandled` happens.
- `verify_token` rejects only a `sub` claim that is missing or null. An empty-string subject is
  accepted.
- `REQUEST_FAILED` carries the fault's description only inside its human-readable message. That
  message is not modelled.

## Model

| member | source | states |
|---|---|---|
| `Forwarding.Lookup` | gateway/main.py:165-177 | the base URL is the first registry entry with that name; there is none exactly when the name is not a registry key |
| `Forwarding.ServiceNames` | gateway/main.py:172 | `available_services` lists the registry's names, one per entry, in registry order |
| `Forwarding.ConfiguredServices` | gateway/main.py:49-52 | the registry lists `student` then `course`, at ports 8001 and 8002 |
| `Forwarding.Forward` | gateway/main.py:161-198 | an unknown service gives 404 `SERVICE_NOT_FOUND` listing the registry keys, whatever the path, method or backend; for a known service any method but GET/POST/PUT/DELETE gives 405 `METHOD_NOT_ALLOWED`; a JSON body with GET or DELETE sends nothing and escapes unhandled; otherwise the backend is called exactly when both checks pass, at base URL + path, with the given method and body; every envelope's status matches its code |
| `Forwarding.RejectionIgnoresBackend` | gateway/main.py:164-198 | the two early rejections send nothing and do not depend on the backend outcome |
| `Forwarding.Classify` | gateway/main.py:200-266 | a pass-through keeps the backend status and is never 404, 422 or 5xx; every envelope is well formed; a gateway 5xx is 502, 503 or 504; transport faults always give 503 or 504; an unhandled decode error happens exactly for a non-JSON body with status not 404 and below 500 |
| `Forwarding.ClassifyKinds` | gateway/main.py:200-266 | each result kind arises exactly from its outcome, in both directions: 404 → `RESOURCE_NOT_FOUND` with the path; decodable 422 → `VALIDATION_ERROR` with details = body or None when empty; ≥500 → 502 `SERVICE_ERROR`; connect failure → 503 `SERVICE_UNAVAILABLE` with the base URL; timeout → 504; other request error → 503 `REQUEST_FAILED`; otherwise a pass-through of the body, or None when empty |
| `Forwarding.GatewayServerErrors` | gateway/main.py:201-266 | no forwarded call answers with a raw backend 5xx, and any 5xx the gateway raises is 502, 503 or 504 |
| `Errors.NamesDistinct` | gateway/main.py:124-312 | distinct error kinds carry distinct "error" strings |
| `Auth.CreateAccessToken` | gateway/main.py:117-122 | the issued claims are the given ones plus `exp` = issue time + 30 minutes |
| `Auth.VerifyToken` | gateway/main.py:124-156 | the subject is returned exactly when decoding succeeds with a non-null `sub`; an expired token gives 401 `TOKEN_EXPIRED`, and every other failure gives 401 `INVALID_TOKEN` |
| `Auth.RejectedTokens` | gateway/main.py:139-156 | expired and undecodable tokens, and tokens without `sub`, get the envelopes named above |
| `Auth.Login` | gateway/main.py:282-312 | login succeeds iff the pair is admin/password123 or student/student123, and otherwise gives 401 `INVALID_CREDENTIALS`; on success the token's `sub` is the user name, `exp` is issue time + 1800 s, `token_type` is "bearer" and `expires_in` is "30 minutes" |
| `Auth.IssuedTokenVerifies` | gateway/main.py:117-138 | a token issued at login that decodes to its own claims is accepted with the user name as subject, and it expires strictly after issue |
| `Routes.ExcludeUnset` | gateway/main.py:360-363 | the forwarded update body holds an entry for every set field (an explicit null included) and nothing else; no field name appears twice; it is empty exactly when no field was set |
| `Routes.Describe` | gateway/main.py:317-368 | every handler targets a configured service; course routes go to the course backend; lists and reads are GET, creates POST, updates PUT, deletes DELETE; collection routes use `/api/students` or `/api/courses` and the others that path plus the id; only create and update send a body, so the client always accepts it; a create body is the whole record and an update body only the set fields |
| `Routes.Handle` | gateway/main.py:317-368 | a refused token stops the request with its 401 envelope before any backend call; an accepted one always sends exactly the route's method and body to base URL + path, and the backend outcome decides the result; a handler never answers `SERVICE_NOT_FOUND` or `METHOD_NOT_ALLOWED` |
| `Routes.SubjectIsNotConsulted` | gateway/main.py:345-368 | any two accepted tokens get identical results: there is no per-subject authorisation |
| `Routes.ResourcePathsDistinct` | gateway/main.py:350-353 | distinct ids give distinct backend paths |
| `Routes.EmptyUpdateSendsEmptyBody` | gateway/main.py:360-363 | an update with no field set forwards an empty JSON object |
| `Routes.TitleOnlyUpdate` | gateway/main.py:360-363 | an update that sets only the title forwards only the title, even when it is null |
| `Routes.ListCoursesPassesThrough` | gateway/main.py:345-348 | with a valid token, listing courses sends GET to `http://localhost:8002/api/courses` and returns the backend's 200 list unchanged |
| `Routes.MissingCourseIsNotFound` | gateway/main.py:350-353 | with a valid token, a backend 404 for course 999 gives 404 `RESOURCE_NOT_FOUND` with path `/api/courses/999` |
| `Decimal.IntToString` | gateway/main.py:350-353 | the decimal text of an id is non-empty and starts with '-' exactly for a negative id |
| `Decimal.IntToStringInjective` | gateway/main.py:350-353 | two ids with the same decimal text are equal |
| `Decimal.ParseIntToString` | gateway/main.py:350-353 | the decimal text used in a path reads back as the same integer |
| `CourseStore.Init` | course-service/data_service.py:5-11 | the initial store is valid, holds ids 1, 2 and 3 in that order, and its counter is 4 |
| `CourseStore.GetAll` | course-service/data_service.py:13-14 | the listing and the lookup by id agree: every listed course's id is found, and every course found by id is listed; in a valid store the listing has one entry per stored course, in increasing id order (the order of insertion), each entry being exactly the course its id finds |
| `CourseStore.ListedAreFound` | course-service/data_service.py:13-17 | in a valid store every listed course is the one its id finds |
| `CourseStore.FirstIndex` | course-service/data_service.py:16-17 | the position found is the first one with the id; there is none exactly when no course has it |
| `CourseStore.GetById` | course-service/data_service.py:16-17 | returns the first course with the id, or None exactly when no course has it |
| `CourseStore.GetByIdFindsEach` | course-service/data_service.py:16-17 | in a valid store every course is found by its own id |
| `CourseStore.Add` | course-service/data_service.py:13-23 | the new course gets the old counter as id and the submitted fields; the list is the old list with the new course at the end; the counter goes up by one |
| `CourseStore.AddListsAtEnd` | course-service/data_service.py:13-22 | the listing after an add is the earlier listing followed by the new course |
| `CourseStore.AddAppendsInOrder` | course-service/data_service.py:19-23 | the new course's id exceeds every listed id, so ids still increase along the list and stay below the counter |
| `CourseStore.AddKeepsValid` | course-service/data_service.py:19-23 | adding keeps the store valid; the new course is found by its id; every other id is found as before |
| `CourseStore.ApplyUpdate` | course-service/data_service.py:28-30 | each set field takes its new value, each unset field and the id keep theirs |
| `CourseStore.ApplyUpdateIdempotent` | course-service/data_service.py:28-30 | applying an update twice equals applying it once; an update that sets nothing changes nothing |
| `CourseStore.Update` | course-service/data_service.py:25-32 | an absent id gives None and the same store; a present one replaces only the first course with that id by its updated version; length, order, the other courses and the counter are unchanged |
| `CourseStore.UpdateKeepsValid` | course-service/data_service.py:25-32 | updating keeps the store valid, and the id then finds the updated course (or nothing, for an absent id) |
| `CourseStore.FirstEqual` | course-service/data_service.py:37 | the position found holds the first element equal to the course; there is none exactly when the course is absent |
| `CourseStore.RemoveFirst` | course-service/data_service.py:37 | removing a present course drops the first equal element and keeps the others in order, one shorter; removing an absent one changes nothing |
| `CourseStore.RemoveFirstAt` | course-service/data_service.py:35-37 | removing by equality the first course with an id removes exactly its position |
| `CourseStore.Delete` | course-service/data_service.py:34-39 | returns True exactly when the id is present; then it removes that first course and keeps the rest in order; otherwise the store is unchanged; the counter never changes |
| `CourseStore.RemoveAtKeepsValid` | course-service/data_service.py:36-37 | dropping one position keeps ids strictly increasing and leaves no course with the dropped id |
| `CourseStore.DeleteKeepsValid` | course-service/data_service.py:34-39 | deleting keeps the store valid, and afterwards the id is not found |
| `CourseStore.StepKeepsValid` | course-service/data_service.py:19-39 | add, update and delete each keep the store valid |
| `CourseStore.RunKeepsValid` | course-service/data_service.py:19-39 | any sequence of calls keeps the store valid |
| `CourseStore.AssignedIdsConsecutive` | course-service/data_service.py:11-23 | across any sequence of calls, adds hand out consecutive ids from the starting counter, and the counter ends just past the last one |
| `CourseStore.IdsNeverReused` | course-service/data_service.py:19-39 | the ids handed out are distinct and never the id of a course already present; the counter never decreases |

## Left out

- Networking: the httpx client, its `async with` lifecycle, the 10-second timeout and the
  concurrency model. The backend's outcome is an input (`BackendOutcome`). Which httpx exception
  a fault raises is httpx's business: a connect timeout, for one, is a timeout, not a connect
  error. httpx is not part of this model.
- JWT cryptography: HS256 signing with the fixed secret, and PyJWT's decoding. A token is
  represented by its claims and decoding by its outcome (`DecodeOutcome`). Whether a token at
  exactly `now == exp` is expired is decided inside the library and is not stated.
- Clock: `datetime.utcnow()` is the integer parameter `now`, in whole seconds. PyJWT drops the
  sub-second part when it encodes `exp`.
- Error timestamps and human-readable messages, including the fault description in
  `REQUEST_FAILED`'s message.
- The request-logging middleware (gateway/main.py:90-112). It logs, adds the `X-Process-Time`
  header and re-raises handler errors unchanged, so it changes no result when the request has a
  client address. Line 95 reads `request.client.host` before its `try`. When the server sees no
  client address, for example on a Unix socket, `request.client` is `None`, and every request fails
  there before any handler runs. That case is not modelled.
- FastAPI routing, dependency injection and the `HTTPBearer` scheme (including its reply when
  the Authorization header is missing); pydantic parsing and validation of request bodies and
  path parameters; the root route. The framework turns `Unhandled` into its own
  internal-error response, which is not modelled.
- The student backend, and the course service's HTTP layer. Only its data store is modelled.
- `CourseStore.Update`: an update field explicitly set to null cannot be expressed. Pydantic
  counts it as set, and the store would then write None into a non-optional field. In the
  gateway's own update bodies an explicit null is modelled and forwarded.
- `get_all_courses` returns the live list object, so later mutations show through it. The model
  returns values, so aliasing is not represented.
