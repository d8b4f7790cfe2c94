# Request construction of the generic Python API client

This project models the request-construction engine of `PythonClient`, a
generic REST client. The client builds a URL path from chained attribute
access (`client.consoles.update`). When called, it turns that path and the
keyword arguments into the tuple `(url, method, data, params)` that it
passes to the HTTP layer.

The model has five modules:

- `PythonClient` (`client.dfy`) is the core.
  - `Client` is an immutable datatype. No field of a `PythonClient` is reassigned after `__init__`, so a request is always built from a copy of the stored path.
  - `Extend` is `__getattr__`. `ExtendAll` is a chain of attribute accesses.
  - `NewClient` is `__init__`, with the environment token and the login name passed in as parameters.
  - `ConstructRequest` is `construct_request`, written the way the source runs it: a local copy of the path and of the kwargs, changed by a `while` loop over the identifiers. It is proved equal to the function `BuildRequest`, which `ResolveMethod`, `SpliceStep`/`SpliceIdentifiers` and `Url` build up. The lemmas about request construction are stated about `BuildRequest`.
- `PyValues` (`py_values.dfy`) models the Python values a caller passes as keyword arguments: `None`, bools, ints, strings and flat str-to-str dicts. It gives their truthiness (`if value:`) and `str()`. `str()` of an int is decimal, and its round trip is proved.
- `Builtins` (`builtins.dfy`) models the built-ins the code calls: `dict.pop`, `list.index`, `list.insert` and `str.join`. It also gives `str.split`, used to state that a joined path keeps its segments and their order.
- `Wrappers` (`wrappers.dfy`) holds the `Option` and `Result` types. `Result` carries the exceptions the code raises as values.
- `ClientExamples` (`client_examples.dfy`) states the request-building cases from the test suite as lemmas, plus two consequences of the code as written.

Two things about the model:

- Kwargs are a `map<string, Value>`. The identifiers dict is a sequence of `(keyword, anchor)` pairs in dict iteration order, because each insertion shifts later positions. `UniqueKeys` says its keys are distinct, as a dict's are.
- The endpoint base is the already formatted `PYTHON_WRAPPER_API_ENDPOINT.format(user)`, taken as a string parameter.

Behaviours of the code worth noting:

- The module-level `IDENTIFIERS` table (`console_id` at `consoles`, `domain_name` at `webapps`, `static_id` at `static_files`) is never read by the client.
  - The `identifiers` argument of `__init__` defaults to `{}`.
  - The docstring of `construct_request` says those three keywords are placed into the URL. That holds only for a client given `identifiers=IDENTIFIERS`.
  - A default client sends them as query parameters (`ClientExamples.DefaultClientKeepsConsoleId` and `ClientExamples.TableClientSplicesConsoleId`).
- A path that holds only a canonical verb (`client.create()`) does not fail. The verb is popped, and the URL is the base followed by `"/"` (`ClientExamples.VerbOnlyPath`).
- A missing anchor raises `ValueError` from `list.index`. The model calls this `AnchorMissing`. An empty path raises `IndexError`, which the model calls `EmptyPath`.
- The body is `kwargs["data"]` only when `"data"` is not also an identifier key. If it is, the identifier loop pops it first and the body is `None` (`PythonClient.ParamsAndBody`).
- Identifiers that share an anchor appear in the URL in reverse dict order. Each one is inserted right after the anchor, in front of the earlier ones (`ClientExamples.SharedAnchorReversesOrder`).
- `PythonClient.AnchorErrors` gives a sufficient condition for success and a necessary condition for failure. It is not an if-and-only-if, because a value inserted for an earlier identifier can itself serve as the anchor of a later one.

## Model

| member | source | states |
|---|---|---|
| `PythonClient.NewClient` | python_wrapper/client.py:39-56 | construction fails exactly when neither an api key nor API_TOKEN is available; a given api key or user is kept; a falsy api key is replaced by the API_TOKEN value and a falsy user by the login name; path, verb table and identifiers are stored as given |
| `PythonClient.VerbTable` | python_wrapper/client.py:9-14 | `VERBS` maps exactly create, read, update and delete, to exactly POST, GET, PUT and DELETE, each verb to a different method |
| `PythonClient.Extend` | python_wrapper/client.py:58-71 | attribute access yields a client whose path is the old path plus the attribute name, with api key, user, additional verbs and identifiers unchanged |
| `PythonClient.ExtendRebuildsClient` | python_wrapper/client.py:52-71 | `__getattr__` calls the constructor again on the parent's fields; with the same API_TOKEN and login name that call succeeds and gives exactly `Extend` of the parent |
| `PythonClient.ExtendAll` | python_wrapper/client.py:58-71 | a chain `c.a.b...` yields path `c.path + [a, b, ...]` and leaves every other field unchanged |
| `PythonClient.ExtendAllConcat` | python_wrapper/client.py:58-71 | taking a chain in two parts gives the same client as taking it at once |
| `PythonClient.ResolveMethod` | python_wrapper/client.py:82-90 | a last segment in VERBS sets the method to VERBS[last] and is removed; otherwise an additional verb sets the method and stays; otherwise GET with the path unchanged; VERBS wins over an additional verb of the same name |
| `PythonClient.SpliceStep` | python_wrapper/client.py:94-96 | one identifier: fails exactly when its value is truthy and its anchor is not in the path; a falsy value leaves the path alone; a truthy one puts its str() right after the first occurrence of the anchor, with the segments before and after kept |
| `PythonClient.SpliceIdentifiers` | python_wrapper/client.py:93-96 | the identifier loop only fails with a missing anchor, never shortens the path, and leaves the kwargs minus every identifier key |
| `PythonClient.Lookup` | python_wrapper/client.py:94 | `kwargs.pop(identifier, None)` gives the passed value, or None when the keyword was not passed |
| `PythonClient.PrepareRequestOutcome` | python_wrapper/client.py:80-96 | `PrepareRequest`: IndexError exactly on an empty path, otherwise only a missing-anchor ValueError; on success the method is VERBS[last], else the additional verb, else GET; at most the verb segment is dropped; the kwargs lose exactly the identifier keys |
| `PythonClient.BuildRequestOutcome` | python_wrapper/client.py:73-105 | `BuildRequest`: on a non-empty path the only error is a missing anchor; a request's URL starts with the base and ends in '/', its method comes from VERBS, the additional verbs or is GET, and its params are the kwargs minus the identifier keys and "data" |
| `PythonClient.ConstructRequest` | python_wrapper/client.py:73-105 | the in-place loop over a copy of the path and kwargs returns exactly the request (or error) that BuildRequest defines |
| `PythonClient.EmptyPathFails` | python_wrapper/client.py:84 | building fails with the empty-path error exactly when the client's path is empty |
| `PythonClient.CanonicalVerbRequest` | python_wrapper/client.py:84-86 | a trailing create/read/update/delete gives POST/GET/PUT/DELETE, and with no truthy identifier the URL is built from the path without that segment |
| `PythonClient.AdditionalVerbRequest` | python_wrapper/client.py:84-88 | a trailing additional verb gives its method and stays in the URL, unless it is also a canonical verb, which then takes priority |
| `PythonClient.DefaultGetRequest` | python_wrapper/client.py:89-90 | a last segment in neither table gives GET, and with no truthy identifier the URL is built from the path unchanged |
| `PythonClient.ParamsAndBody` | python_wrapper/client.py:93-105 | params are the kwargs minus every identifier key and minus "data", with their values unchanged; the body is kwargs["data"] when present and not an identifier key, else None |
| `PythonClient.SpliceAddsInsertedSegments` | python_wrapper/client.py:93-96 | with distinct identifier keys the spliced path holds the old segments plus exactly the str() of each truthy identifier value (as a multiset), and its length grows by their number |
| `PythonClient.IdentifierSegments` | python_wrapper/client.py:93-96 | the request path is the resolved path plus one str() segment per truthy identifier value, and the resolved segments keep their relative order |
| `PythonClient.SpliceWithoutTruthyValues` | python_wrapper/client.py:93-96 | when no identifier value is truthy the loop leaves the path unchanged and only removes the identifier keys |
| `PythonClient.FalsyIdentifiersIgnored` | python_wrapper/client.py:93-96 | falsy or absent identifier values add nothing: the request path is the resolved path |
| `PythonClient.SpliceSucceedsWhenAnchorsPresent` | python_wrapper/client.py:93-96 | when every truthy identifier's anchor is in the path the loop cannot fail |
| `PythonClient.SpliceFailureNamesMissingAnchor` | python_wrapper/client.py:96 | a failed loop names an anchor that is absent from the starting path and that some identifier with a truthy value needs |
| `PythonClient.SpliceKeepsOrder` | python_wrapper/client.py:96 | inserting identifier values keeps every earlier subsequence of the path in order |
| `PythonClient.AnchorErrors` | python_wrapper/client.py:93-96 | building succeeds when all truthy identifiers' anchors are in the resolved path; a failure is a missing anchor that a truthy identifier needs and the resolved path lacks |
| `PythonClient.UrlShape` | python_wrapper/client.py:101-103 | `Url`: the URL starts with the base and ends in '/'; if the path is non-empty and no segment holds '/', splitting the part between them on '/' gives back the path; an empty path gives base + "/" |
| `Builtins.FirstIndex` | python_wrapper/client.py:96 | `list.index`: a position holding the item, with no earlier occurrence |
| `Builtins.InsertAt` | python_wrapper/client.py:96 | `list.insert`: the item lands at the position, earlier items stay, later ones move up one, and the multiset gains exactly the item |
| `Builtins.DictPop` | python_wrapper/client.py:94 | `dict.pop(key, default)`: the stored value or the default, and the dict without the key |
| `Builtins.SplitJoin` | python_wrapper/client.py:103 | `Join` (`"/".join`): joining segments that contain no separator can be split back into the same segments, in order |
| `PyValues.NatToDecimal` | python_wrapper/client.py:96 | `str()` of a non-negative int is a non-empty string of digits with no leading zero |
| `PyValues.DecimalRoundTrip` | python_wrapper/client.py:96 | reading the decimal digits back gives the number |
| `PyValues.IntToStringRoundTrip` | python_wrapper/client.py:96 | `str()` of any int, sign included, parses back to that int |
| `PyValues.StrCases` | python_wrapper/client.py:96 | `Str` (`str(value)`): None and the bools give their names; an int gives signed decimal digits that read back as the int; a string gives itself; a dict gives a repr in braces |
| `PyValues.TruthyStrNonEmpty` | python_wrapper/client.py:95-96 | a truthy value's str() is never empty, so no empty segment is spliced in |
| `PyValues.FalsyValues` | python_wrapper/client.py:95 | `Truthy` (`if value:`): exactly None, False, 0, "" and {} are falsy |
| `ClientExamples.ChainBuildsPath` | python_wrapper/client.py:58-71 | `root.a.b.c` has path ["a", "b", "c"] |
| `ClientExamples.ReadByDefault` | tests/test_client.py:52-57 | `details()` is GET to base + "details/" |
| `ClientExamples.CanonicalVerb` | tests/test_client.py:45-71 | for each verb in VERBS, `details.<verb>()` is VERBS[verb], i.e. POST/GET/PUT/DELETE to base + "details/" |
| `ClientExamples.AdditionalVerbKept` | tests/test_client.py:73-78 | with additional verb reload=POST, `details.reload()` is POST to base + "details/reload/" |
| `ClientExamples.IdentifierSpliced` | tests/test_client.py:80-85 | with identifier detail_id at details, `details(detail_id=123)` is GET to base + "details/123/" with no params |
| `ClientExamples.FalsyIdentifierDropped` | python_wrapper/client.py:94-95 | `details(detail_id=0, page=2)` is GET to base + "details/" with params {page: 2} |
| `ClientExamples.DataBecomesBody` | tests/test_client.py:87-99 | `details.create(data=form)` is POST to base + "details/" with the form as body and no params |
| `ClientExamples.VerbOnlyPath` | python_wrapper/client.py:84-103 | `create()` on the root is POST to base + "/" rather than an error |
| `ClientExamples.DefaultClientKeepsConsoleId` | python_wrapper/client.py:73-78 | with the default empty identifiers, `consoles(console_id=7)` is GET to base + "consoles/" with params {console_id: 7}, not spliced as the docstring says |
| `ClientExamples.TableClientSplicesConsoleId` | python_wrapper/client.py:18-22 | a client given the `IDENTIFIERS` table splices `console_id=7` after "consoles": GET to base + "consoles/7/" with no params |
| `ClientExamples.SharedAnchorReversesOrder` | python_wrapper/client.py:93-96 | identifiers a and b both anchored at x, with the string values "1" and "2", give URL base + "x/2/1/" |

## Left out

- `make_request` and `__call__` (python_wrapper/client.py:107-138) are not modelled: they are one HTTP call through the `requests` library plus the Authorization/User-Agent headers and the `ok` check on the response.
- `os.environ["API_TOKEN"]` and `getpass.getuser()` are process lookups; `NewClient` takes their results as parameters (`getpass` failing is not modelled).
- `Extend`: does not model the environment changing between construction and attribute access. Each `__getattr__` re-runs the constructor, so a client whose stored key is `""` raises KeyError if API_TOKEN has since been removed; `ExtendRebuildsClient` covers the unchanged environment.
- `PYTHON_WRAPPER_API_ENDPOINT.format(self.user)`: the constant lives in `python_wrapper/__init__.py`, which is not part of this model; the formatted base is an opaque string parameter. The test fixture passes an `api_endpoint` keyword that `__init__` does not accept; the model does not try to reconcile the two.
- Python's attribute lookup: names that are real attributes of a client (`api_key`, `path`, `user`, `additional_verbs`, `identifiers`, `client`, the methods and the dunder names) never reach `__getattr__`, so they cannot become path segments; `Extend` accepts any name.
- Keyword values other than None, bool, int, str and flat str-to-str dicts (floats, lists, nested dicts, objects) are not modelled; `str()` of a dict is its repr without the escaping of quotes inside keys and values.
- Segment normalisation does not occur in python_wrapper/client.py and is not modelled.
- Idempotence of building is not a separate member: `BuildRequest` is a function, so equal inputs give equal requests.
