/**
 * A model of the gist search service: argument validation, the listing
 * call, and the search loop that walks a user's gists, fetches each
 * gist's detail and the raw content of its truncated files, and collects
 * match links and truncation warnings into a result envelope.
 *
 * The outside world is an `Env` value: HTTP is a total function from URL
 * to (status, body), JSON decoding of the listing and detail bodies is a
 * pair of functions from body to already-parsed records, and the regular
 * expression search is an uninterpreted predicate on (pattern, text).
 */
module GistApi {

  datatype Option<+T> = None | Some(value: T)

  /** A JSON value, as the service receives it in the request body. */
  datatype Json =
    | JNull
    | JBool(b: bool)
    | JNumber(n: int)
    | JString(s: string)
    | JArray(items: seq<Json>)
    | JObject(fields: map<string, Json>)

  /** An HTTP response: status code and the decoded body text. */
  datatype Response = Response(status: int, body: string)

  /** One entry of the listing returned by the user's gists endpoint. */
  datatype GistSummary = GistSummary(id: string, url: string, truncated: bool)

  /** One entry of a gist detail's `files` object. */
  datatype FileEntry = FileEntry(truncated: bool, rawUrl: string)

  /**
   * Everything the search consumes from outside: `fetch` is the HTTP GET,
   * `listing` and `files` decode a listing body and a detail body, and
   * `search(pattern, text)` says whether the pattern occurs in the text.
   */
  datatype Env = Env(
    fetch: string -> Response,
    listing: string -> seq<GistSummary>,
    files: string -> seq<FileEntry>,
    search: (string, string) -> bool)

  datatype Status = Success | Failure | ArgumentsNotValid

  /**
   * The response envelope. A field that is `None` is a key that is absent
   * from the JSON object the service answers with.
   */
  datatype SearchResult = SearchResult(
    status: Status,
    matches: Option<seq<string>>,
    username: Option<string>,
    pattern: Option<string>,
    warnings: Option<seq<string>>)

  /** Matches, warnings and fetched URLs, in the order they are produced. */
  datatype Tally = Tally(matches: seq<string>, warnings: seq<string>, fetched: seq<string>)

  /** What visiting one gist adds, and whether it ends the whole search. */
  datatype Visit = Visit(tally: Tally, halt: bool)

  const UsernameKey := "username"
  const PatternKey := "pattern"

  /** The text of the `status` field. */
  function StatusText(s: Status): string
  {
    match s
    case Success => "success"
    case Failure => "failure"
    case ArgumentsNotValid => "arguments not valid"
  }

  function ListingUrl(username: string): string
  {
    "https://api.github.com/users/" + username + "/gists"
  }

  /** The public link recorded for a matching gist. */
  function GistLink(username: string, id: string): string
  {
    "https://gist.github.com/" + username + "/" + id
  }

  function TruncationWarning(id: string): string
  {
    "Gist(" + id + "): More than 300 files"
  }

  function Join(a: Tally, b: Tally): Tally
  {
    Tally(a.matches + b.matches, a.warnings + b.warnings, a.fetched + b.fetched)
  }

  /**
   * A request is accepted exactly when it carries the two keys and
   * nothing else, and both values are strings.
   */
  function ValidArguments(arguments: map<string, Json>): (valid: bool)
    ensures valid <==>
      exists u: string, p: string {:trigger JString(u), JString(p)} ::
        arguments == map[UsernameKey := JString(u), PatternKey := JString(p)]
  {
    var ok := arguments.Keys == {UsernameKey, PatternKey}
      && arguments[UsernameKey].JString? && arguments[PatternKey].JString?;
    if ok then
      var u, p := arguments[UsernameKey].s, arguments[PatternKey].s;
      assert arguments == map[UsernameKey := JString(u), PatternKey := JString(p)];
      ok
    else
      ok
  }

  /** The listing call: a non-200 answer is no listing at all. */
  function GistsForUser(env: Env, username: string): (gists: Option<seq<GistSummary>>)
    ensures gists.None? <==> env.fetch(ListingUrl(username)).status != 200
    ensures gists.Some? ==> gists.value == env.listing(env.fetch(ListingUrl(username)).body)
  {
    var response := env.fetch(ListingUrl(username));
    if response.status != 200 then None else Some(env.listing(response.body))
  }

  /**
   * The file loop of one gist: only truncated files are fetched; a non-200
   * file response ends the loop; every matching file adds `link` once.
   */
  function ScanFiles(env: Env, pattern: string, link: string, files: seq<FileEntry>): (t: Tally)
    ensures t.warnings == []
    ensures |t.matches| <= |t.fetched| <= |files|
    decreases |files|
  {
    if files == [] then
      Tally([], [], [])
    else
      var rest := ScanFiles(env, pattern, link, files[1..]);
      if !files[0].truncated then
        rest
      else
        var response := env.fetch(files[0].rawUrl);
        if response.status != 200 then
          Tally([], [], [files[0].rawUrl])
        else
          Tally((if env.search(pattern, response.body) then [link] else []) + rest.matches,
                [], [files[0].rawUrl] + rest.fetched)
  }

  /**
   * One iteration of the gist loop. The detail is fetched first and the
   * truncation warning recorded; a match on the raw detail body records the
   * link and moves on whatever the status; otherwise a non-200 status halts
   * the search, and a 200 status goes on to the file loop.
   */
  function VisitGist(env: Env, username: string, pattern: string, gist: GistSummary): (v: Visit)
    ensures v.tally.warnings == if gist.truncated then [TruncationWarning(gist.id)] else []
    ensures |v.tally.fetched| > 0 && v.tally.fetched[0] == gist.url
    ensures v.halt <==>
      !env.search(pattern, env.fetch(gist.url).body) && env.fetch(gist.url).status != 200
    ensures v.halt ==> v.tally.matches == [] && v.tally.fetched == [gist.url]
    ensures env.search(pattern, env.fetch(gist.url).body) ==>
      v.tally.matches == [GistLink(username, gist.id)] && v.tally.fetched == [gist.url]
  {
    var response := env.fetch(gist.url);
    var warning := if gist.truncated then [TruncationWarning(gist.id)] else [];
    var link := GistLink(username, gist.id);
    if env.search(pattern, response.body) then
      Visit(Tally([link], warning, [gist.url]), false)
    else if response.status != 200 then
      Visit(Tally([], warning, [gist.url]), true)
    else
      var scan := ScanFiles(env, pattern, link, env.files(response.body));
      Visit(Tally(scan.matches, warning, [gist.url] + scan.fetched), false)
  }

  /** The whole gist loop, as a fold over the listing that a halt cuts short. */
  function Walk(env: Env, username: string, pattern: string, gists: seq<GistSummary>): (t: Tally)
    ensures |t.warnings| <= |gists|
    decreases |gists|
  {
    if gists == [] then
      Tally([], [], [])
    else
      var v := VisitGist(env, username, pattern, gists[0]);
      if v.halt then
        v.tally
      else
        var rest := Walk(env, username, pattern, gists[1..]);
        Join(v.tally, rest)
  }

  lemma JoinAssociative(a: Tally, b: Tally, c: Tally)
    ensures Join(Join(a, b), c) == Join(a, Join(b, c))
  {
  }

  /** One turn of the gist loop: the walk from `i` on is visit `i`, then the rest unless it halts. */
  lemma WalkStep(env: Env, username: string, pattern: string, gists: seq<GistSummary>, i: nat)
    requires i < |gists|
    ensures Walk(env, username, pattern, gists[i..]) ==
      var v := VisitGist(env, username, pattern, gists[i]);
      if v.halt then v.tally else Join(v.tally, Walk(env, username, pattern, gists[i + 1..]))
  {
  }

  /** One turn of the file loop, read off the definition of `ScanFiles`. */
  lemma ScanStep(env: Env, pattern: string, link: string, files: seq<FileEntry>, j: nat)
    requires j < |files|
    ensures ScanFiles(env, pattern, link, files[j..]) ==
      var rest := ScanFiles(env, pattern, link, files[j + 1..]);
      if !files[j].truncated then rest
      else
        var response := env.fetch(files[j].rawUrl);
        if response.status != 200 then Tally([], [], [files[j].rawUrl])
        else Join(Tally(if env.search(pattern, response.body) then [link] else [], [], [files[j].rawUrl]), rest)
  {
  }

  /**
   * The file loop for one gist: `break` on a non-200 file response, and one
   * `link` per truncated file whose raw content matches.
   */
  method SearchFiles(env: Env, pattern: string, link: string, files: seq<FileEntry>)
    returns (matches: seq<string>, fetched: seq<string>)
    ensures Tally(matches, [], fetched) == ScanFiles(env, pattern, link, files)
  {
    matches, fetched := [], [];
    ghost var total := ScanFiles(env, pattern, link, files);
    for j := 0 to |files|
      invariant Join(Tally(matches, [], fetched), ScanFiles(env, pattern, link, files[j..])) == total
    {
      ghost var before := Tally(matches, [], fetched);
      ghost var rest := ScanFiles(env, pattern, link, files[j + 1..]);
      ScanStep(env, pattern, link, files, j);
      if files[j].truncated {
        var fileResponse := env.fetch(files[j].rawUrl);
        fetched := fetched + [files[j].rawUrl];
        if fileResponse.status != 200 {
          assert Tally(matches, [], fetched) == Join(before, Tally([], [], [files[j].rawUrl]));
          break;
        }
        ghost var step := Tally(if env.search(pattern, fileResponse.body) then [link] else [], [], [files[j].rawUrl]);
        if env.search(pattern, fileResponse.body) {
          matches := matches + [link];
        }
        assert Tally(matches, [], fetched) == Join(before, step);
        JoinAssociative(before, step, rest);
      }
    }
    assert files[|files|..] == [];
  }

  /**
   * The body of the gist loop for one gist. The early `return` after a
   * raw-body match is the source's `continue`; `halt` is set where the
   * source leaves the gist loop with `break`.
   */
  method SearchGist(env: Env, username: string, pattern: string, gist: GistSummary)
    returns (matches: seq<string>, warnings: seq<string>, fetched: seq<string>, halt: bool)
    ensures Visit(Tally(matches, warnings, fetched), halt) == VisitGist(env, username, pattern, gist)
  {
    matches, warnings, fetched, halt := [], [], [], false;

    var response := env.fetch(gist.url);
    fetched := fetched + [gist.url];

    if gist.truncated {
      warnings := warnings + [TruncationWarning(gist.id)];
    }

    var link := GistLink(username, gist.id);
    if env.search(pattern, response.body) {
      matches := matches + [link];
      return;
    }

    if response.status != 200 {
      halt := true;
      return;
    }

    var found, requested := SearchFiles(env, pattern, link, env.files(response.body));
    matches, fetched := matches + found, fetched + requested;
  }

  /**
   * The gist loop of the search endpoint: the gists are visited in listing
   * order until one of them halts the search.
   */
  method SearchGists(env: Env, username: string, pattern: string, gists: seq<GistSummary>)
    returns (matches: seq<string>, warnings: seq<string>, fetched: seq<string>)
    ensures Tally(matches, warnings, fetched) == Walk(env, username, pattern, gists)
  {
    matches, warnings, fetched := [], [], [];
    ghost var total := Walk(env, username, pattern, gists);
    for i := 0 to |gists|
      invariant Join(Tally(matches, warnings, fetched), Walk(env, username, pattern, gists[i..])) == total
    {
      ghost var before := Tally(matches, warnings, fetched);
      WalkStep(env, username, pattern, gists, i);
      var found, warned, requested, halt := SearchGist(env, username, pattern, gists[i]);
      matches, warnings, fetched := matches + found, warnings + warned, fetched + requested;
      JoinAssociative(before, Tally(found, warned, requested), Walk(env, username, pattern, gists[i + 1..]));
      if halt {
        break;
      }
    }
    assert gists[|gists|..] == [];
  }

  /**
   * The search endpoint. `fetched` lists every URL requested, in order.
   * Invalid arguments give the bare `arguments not valid` envelope and no
   * request; a failed listing gives `failure` with empty matches and the
   * echoed arguments; otherwise the envelope carries what the walk found,
   * with `warnings` present only when there are some.
   */
  method Search(env: Env, postData: map<string, Json>) returns (result: SearchResult, fetched: seq<string>)
    ensures !ValidArguments(postData) ==>
      result == SearchResult(ArgumentsNotValid, None, None, None, None) && fetched == []
    ensures ValidArguments(postData) ==>
      var username, pattern := postData[UsernameKey].s, postData[PatternKey].s;
      match GistsForUser(env, username)
      case None =>
        && result == SearchResult(Failure, Some([]), Some(username), Some(pattern), None)
        && fetched == [ListingUrl(username)]
      case Some(gists) =>
        var t := Walk(env, username, pattern, gists);
        && result == SearchResult(Success, Some(t.matches), Some(username), Some(pattern),
                                  if t.warnings == [] then None else Some(t.warnings))
        && fetched == [ListingUrl(username)] + t.fetched
  {
    var status := true;
    var warnings: seq<string> := [];
    var matches: seq<string> := [];
    var outcome := Failure;
    var username, pattern := "", "";
    fetched := [];

    if !ValidArguments(postData) {
      status := false;
    }

    if status {
      username := postData[UsernameKey].s;
      pattern := postData[PatternKey].s;

      matches := [];
      var gists := GistsForUser(env, username);
      fetched := fetched + [ListingUrl(username)];
      if gists.Some? {
        var found, warned, requested := SearchGists(env, username, pattern, gists.value);
        matches, warnings, fetched := matches + found, warnings + warned, fetched + requested;
        assert matches == found && warnings == warned;
        outcome := Success;
      } else {
        outcome := Failure;
      }
    }

    if status {
      result := SearchResult(outcome, Some(matches), Some(username), Some(pattern),
                             if |warnings| > 0 then Some(warnings) else None);
    } else {
      result := SearchResult(ArgumentsNotValid, None, None, None, None);
    }
  }
}
