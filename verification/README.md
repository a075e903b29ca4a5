# Game catalog proxy: the record reshaping of `GET /api/games`

The backend serves one route, `GET /api/games`. It fetches a page of raw game
records from the RAWG catalog service and reshapes each record into a game
summary. The answer is `{"data": [...]}`. This project models that reshaping
and the handler's error paths in Dafny, and proves what the handler promises:

- one summary per raw record, in the same order;
- `title`, `release_date` and `cover_url` are copied verbatim from the record;
- `description` and `review_score` follow Python's `or`-defaulting;
- `player_count` is always 1;
- `platforms` maps each normalised platform name to `true`;
- a failed fetch answers 500 with the error text and no data.

Modules:

- `Wrappers` (`wrappers.dfy`): `Option` (a missing or null JSON value) and `Result` (a value or a raised exception).
- `PlatformNames` (`platform_names.dfy`): `name.lower().replace(" ", "_")`, with case folding restricted to ASCII.
- `Catalog` (`catalog.dfy`): the raw record and the summary, the platform dict comprehension, the per-record mapping and its list-wide specification.
- `Handler` (`handler.dfy`): the response, the failure branch, the handler as a function (`Handle`), and the imperative loop (`Index`) proved equal to it.

The upstream fetch is the `upstream` parameter of `Handle` and `Index`: either the raw records, or the text of the exception the fetch raised. The ids that `uuid4()` generates are the `ids` parameter, one per record. An exception raised while reshaping is not caught by the handler. The framework turns it into a bare 500; the model writes that answer as `Crash`.

## Model

| member | source | states |
|---|---|---|
| `PlatformNames.Lower` | src/api/main.py:70 | `.lower()` keeps the length, lower-cases each ASCII upper-case letter in place, and leaves no upper-case ASCII letter |
| `PlatformNames.ReplaceChar` | src/api/main.py:70 | `.replace(target, replacement)` keeps the length, rewrites exactly the positions holding `target`, and leaves no `target` when the two differ |
| `PlatformNames.NormalizeName` | src/api/main.py:70 | a platform key has the name's length, contains no space and no upper-case ASCII letter, and position i is name[i] lower-cased, or `_` for a space |
| `PlatformNames.NormalizeIdempotent` | src/api/main.py:70 | normalising a key again leaves it unchanged |
| `PlatformNames.SameKeyIff` | src/api/main.py:70 | two names share a key if and only if they have equal length and agree position by position up to ASCII case and space versus `_` |
| `PlatformNames.NormalizeExample` | src/api/main.py:70 | "PlayStation 5" becomes "playstation_5" |
| `Catalog.PlatformFlags` | src/api/main.py:70 | the comprehension succeeds if and only if every entry has `platform` and `name`; the key set is exactly the set of normalised names; every value is `true`; otherwise the KeyError is that of the first unreadable entry |
| `Catalog.KeySetSize` | src/api/main.py:70 | there are never more keys than platform entries |
| `Catalog.DuplicateNamesCollapse` | src/api/main.py:70 | two names that normalise alike give a map with a single key |
| `Catalog.PlatformMap` | src/api/main.py:70 | a missing or empty `platforms` list gives an empty map; a null one raises TypeError; a list gives the comprehension's result; every key has no space and every value is `true` |
| `Catalog.Summarize` | src/api/main.py:64-73 | a record maps if and only if its platforms can be read; then `id` is the generated id; `title`, `release_date` and `cover_url` equal `name`, `released` and `background_image` (None stays None); `description` is the slug when present and non-empty, else ""; `review_score` is `metacritic` when present, else 0; `player_count` is 1 |
| `Catalog.MapRecords` | src/api/main.py:62-73 | the list maps if and only if every record maps; then it has one summary per record, and entry i is the summary of record i; otherwise the error is that of the first record that fails |
| `Handler.FailureResponse` | src/api/main.py:56-59 | a failed fetch answers an HTTP error with status 500 whose detail is the exception's text |
| `Handler.FailureResponseAsWritten` | src/api/main.py:59 | as written, the failure branch raises NameError for `HTTPException`, which becomes a bare 500 |
| `Handler.MissingImportLosesDetail` | src/api/main.py:1-8 | both failure answers have status 500, but the as-written one is the same for every error text, while the intended one distinguishes them |
| `Handler.Handle` | src/api/main.py:56-75 | a failed fetch gives the 500 error and no data; otherwise the answer is `data` if and only if every record maps, with as many entries as raw records and entry i the summary of record i; when a record cannot be reshaped, the answer is the uncaught `Crash` carrying the first failing record's error (the `try` covers only the fetch); every other answer has status 500 |
| `Handler.Index` | src/api/main.py:56-75 | the loop that appends one summary per record returns exactly what `Handle` specifies |
| `Handler.FirstFailureDecides` | src/api/main.py:63-73 | when records before k map and record k fails, the whole list fails with record k's error |
| `Handler.UnreadablePlatformFailsRequest` | src/api/main.py:70 | one platform entry without `platform` or `name` in any record makes the whole request end in an unhandled 500, with no default key |
| `Handler.Portal2Scenario` | src/api/main.py:61-75 | a "Portal 2" record with platform "PC" becomes the summary with description "portal-2", score 95, platforms {"pc": true} and player count 1 |

## Left out

- Lower: folds only ASCII letters. Python's `str.lower()` also folds non-ASCII letters ("É" becomes "é"); the model leaves those characters unchanged.
- The fetch (`rawg_client.get_games`, src/api/services/rawg_client.py): HTTP, JSON decoding and the API-key lookup are I/O. Their outcome is the `upstream` parameter. src/api/services/rawg_client.py is not part of this model.
- The query the handler sends (`page=page_number`, default 10, client page size 10): it only feeds the fetch, which is not modelled.
- `uuid4()` ids: randomness. They are the `ids` parameter, one per record; no uniqueness is claimed.
- Key order of the `platforms` object: Python dicts keep insertion order; the model uses an unordered `map`.
- Inside a platform entry, a null `platform` or `name` is not told apart from a missing key. Both stand as None. Python raises TypeError or AttributeError for null and KeyError for missing; every one of them ends the request in the same bare 500.
- JSON values of unexpected types (a numeric `name`, a float `metacritic` such as `0.0`, a `platforms` value that is an object): fields are typed as strings, integers and lists.
- The text of the framework's bare 500 answer (`Crash`): the model keeps the exception, not the rendered body.
- Async suspension, FastAPI routing, CORS configuration and the commented-out database code: framework configuration or dead code.
- The front-end fetch wrapper (src/app/src/lib/api/games.ts): network I/O and error rewrapping only.

## Findings

| source | as written | input that shows it | evidently intended | confidence | as-written member | corrected member |
|---|---|---|---|---|---|---|
| src/api/main.py:59 | `raise HTTPException(status_code=500, detail=str(e))`, but `HTTPException` is never imported (lines 1-8), so this line raises `NameError` | any failed fetch, e.g. a fetch raising "RAWG API request failed: 503" | a 500 whose `detail` is the error text | high (not executed) | `Handler.FailureResponseAsWritten` | `Handler.FailureResponse` |
