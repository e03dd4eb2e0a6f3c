# Gist search, modelled in Dafny

This project models the search endpoint of a small Flask service
(`gistapi/gistapi.py`). The endpoint takes a username and a regular
expression pattern and lists the user's public gists. It then searches each
gist for the pattern and answers with the public links of the gists that
match.

The model covers three pieces:

- the argument check `valid_arguments`;
- the listing call `gists_for_user`, stated only as its contract;
- the decision and aggregation logic of `search`.

That logic is a loop over the listed gists. For each gist it fetches the
detail and records a truncation warning. A match on the raw detail body
records the gist's link and moves on to the next gist (`continue`),
whatever the status code. Otherwise a non-200 detail stops the whole
search (`break`). Otherwise each truncated file's raw content is fetched.
A non-200 file response ends that gist's file loop (`break`). Each matching
raw file adds the gist's link.

The outside world is a value of type `GistApi.Env`:

- `fetch`: HTTP GET, a total function from URL to (status, body);
- `listing`: the already-decoded JSON of a listing body;
- `files`: the already-decoded `files` of a detail body, as an ordered
  sequence of (truncated, raw URL) records;
- `search(pattern, text)`: an uninterpreted predicate standing for
  `re.search(pattern, text)` returning a match.

The search method also returns `fetched`, the URLs it requested, in order.
This makes "which fetches happen" part of what is proved.

Structure:

- `gistapi.dfy`, module `GistApi`: the data model, the specification
  functions `ScanFiles` (file loop), `VisitGist` (one gist) and `Walk`
  (the gist loop), and the imperative methods `SearchFiles`, `SearchGist`,
  `SearchGists` and `Search`. Each method is proved equal to
  its specification function. The source's single `search` function is split
  into methods along its loops: `SearchGists` is the gist loop, `SearchGist`
  its body (the source's `continue` is an early return there, and its `break`
  is the `halt` result that ends the loop), and `SearchFiles` the nested file
  loop with its own `break`.
- `gistapi_properties.dfy`, module `GistApiProperties`: reference definitions
  (`RawUrls`, `Hits`, `FirstFailedFetch`, `Processed`, `Visits`,
  `TruncationWarnings`) and the lemmas tying the loops to them.

Behaviour the model follows because the code does it, although a reader of
the docstrings might expect otherwise:

- The file loop does not stop after a hit. A gist with several matching
  truncated files adds its link several times (`SeveralEntriesForOneGist`).
- The file loop matches only truncated files, against their fetched raw
  content. Non-truncated files are never matched on their own. Their text
  is only seen through the raw detail body.
- The pattern is never compiled during validation.
- A failed listing still answers with `matches: []`, `username` and
  `pattern` (and no `warnings`).
- The truncation warning of a gist is recorded before the fast-path check
  and before the status check. So the gist whose detail stops the search
  still gets its warning.

## Model

| member | source | states |
|---|---|---|
| GistApi.ValidArguments | gistapi/gistapi.py:57-61 | a request is valid exactly when it is the two-key map `{username: string, pattern: string}`; extra keys, missing keys or non-string values make it invalid (both directions) |
| GistApi.GistsForUser | gistapi/gistapi.py:41-54 | the listing call yields no list exactly when the listing URL answers non-200, and otherwise the decoded listing body |
| GistApi.ScanFiles | gistapi/gistapi.py:120-128 | the file loop produces no warnings, adds at most one entry per fetch and fetches at most once per file |
| GistApi.VisitGist | gistapi/gistapi.py:103-128 | one gist: the detail URL is fetched first; the warning is recorded iff the listing entry is truncated; the search halts iff the raw body does not match and the status is non-200, and then adds no entry and fetches nothing more; a raw-body match adds exactly one entry and fetches no file |
| GistApi.Walk | gistapi/gistapi.py:95-128 | the gist loop records at most one warning per listed gist |
| GistApi.SearchFiles | gistapi/gistapi.py:121-128 | the imperative file loop with its `break` computes exactly the entries and fetches of `ScanFiles` |
| GistApi.SearchGist | gistapi/gistapi.py:103-128 | the imperative body of the gist loop, with the source's `continue` as an early return and its `break` as `halt`, computes exactly the entries, warning, fetches and halt of `VisitGist` |
| GistApi.SearchGists | gistapi/gistapi.py:95-128 | the imperative gist loop, left by `break` when a visit halts, computes exactly the matches, warnings and fetches of `Walk` |
| GistApi.Search | gistapi/gistapi.py:77-139 | invalid arguments give exactly `{status: 'arguments not valid'}` and fetch nothing; a non-200 listing gives `failure` with `matches: []`, echoed username and pattern, no warnings, and only the listing fetch; otherwise `success` with the walk's matches, echoed arguments, `warnings` present only when non-empty, and the listing fetch followed by the walk's fetches |
| GistApiProperties.FirstFailedFetch | gistapi/gistapi.py:121-126 | the position it returns is the first truncated file whose raw fetch is non-200: every truncated file before it answers 200 |
| GistApiProperties.ScanFilesFetches | gistapi/gistapi.py:121-126 | the file loop fetches exactly the raw URLs of the truncated files, in order, up to and including the first one whose fetch is not a 200 |
| GistApiProperties.ScanFilesMatches | gistapi/gistapi.py:121-128 | the file loop adds one copy of the gist's link per truncated file whose raw content matches, counting only files before the first failed fetch |
| GistApiProperties.UntruncatedFilesNotFetched | gistapi/gistapi.py:121-123 | a gist whose files are all untruncated costs no file request and adds no entry in the file loop |
| GistApiProperties.Processed | gistapi/gistapi.py:95-115 | the number of gists reached is the position just after the first halting gist, or the whole listing; no earlier gist halts |
| GistApiProperties.WalkIsVisitsOfProcessed | gistapi/gistapi.py:95-128 | the walk's matches, warnings and fetches are exactly the concatenated visits of the gists reached, in listing order; later gists contribute nothing |
| GistApiProperties.HaltIgnoresLaterGists | gistapi/gistapi.py:113-115 | when gist `k` halts, the walk of the listing equals the walk of its first `k + 1` gists |
| GistApiProperties.WalkAppend | gistapi/gistapi.py:95-128 | without a halt in the front part, walking `front + back` is walking `front` then `back` |
| GistApiProperties.EarlierResultsKept | gistapi/gistapi.py:110-128 | matches, warnings and fetches from a prefix of the listing are prefixes of those for the longer listing: a later stop loses nothing found before it |
| GistApiProperties.FastPathContinues | gistapi/gistapi.py:109-111 | a raw-body match adds exactly one link and one fetch for that gist and the walk goes on with the next gist, whatever the status code |
| GistApiProperties.WarningsOfProcessedGists | gistapi/gistapi.py:103-106 | `warnings` is one "Gist(id): More than 300 files" per reached gist with a truncated listing entry, in listing order, including the halting gist |
| GistApiProperties.VisitEntriesAreLinks | gistapi/gistapi.py:110-128 | every entry one gist adds, on the fast path or in the file loop, is `https://gist.github.com/{username}/{id}` for that gist |
| GistApiProperties.MatchesInListingOrder | gistapi/gistapi.py:95-128 | each entry of `matches` is the link of a reached gist, and the entries are grouped by gist in listing order (the owning positions never decrease) |
| GistApiProperties.SeveralEntriesForOneGist | gistapi/gistapi.py:121-128 | a gist with two matching truncated files appears twice in `matches` |

## Left out

- HTTP transport (`requests.get`): modelled only as the total function `Env.fetch`. There are no timeouts, retries, network errors or exceptions.
- Flask wiring: the `app` object, the `/ping` route, the route decorators, reading `request.json`, `jsonify` and `app.run`. `Search` takes the decoded request object and returns the envelope as a datatype.
- Request bodies that are not JSON objects. The source answers these with `False` or an exception. `Search` takes a `map<string, Json>`.
- Regular-expression semantics: `re.search` is the uninterpreted predicate `Env.search`. The exception an uncompilable pattern raises is not modelled.
- JSON decoding of the listing and detail responses (`response.json()`) and UTF-8 decoding of bodies. These are the functions `Env.listing` and `Env.files`, and bodies are already strings. A body that is not valid JSON or not valid UTF-8 raises in the source and is not modelled.
- Python dict iteration order of a gist's `files`: the files are an ordered sequence, taken as given.
- The numeric JSON values in `Json` are integers only; floating point is not modelled. It plays no part in the validation, which only asks whether a value is a string.
