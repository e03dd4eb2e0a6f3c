/**
 * Properties of the search loop: which fetches the file loop performs,
 * which gists the gist loop reaches, and exactly which entries end up in
 * `matches` and `warnings`, each proved against an independent reference
 * definition.
 */
module GistApiProperties {
  import opened GistApi

  // ---------------------------------------------------------------------
  // The file loop
  // ---------------------------------------------------------------------

  /** The raw URLs of the truncated files, in order. */
  function RawUrls(files: seq<FileEntry>): seq<string>
  {
    if files == [] then []
    else (if files[0].truncated then [files[0].rawUrl] else []) + RawUrls(files[1..])
  }

  /** The number of truncated files whose fetched raw content matches. */
  function Hits(env: Env, pattern: string, files: seq<FileEntry>): nat
  {
    if files == [] then 0
    else
      (if files[0].truncated && env.search(pattern, env.fetch(files[0].rawUrl).body) then 1 else 0)
      + Hits(env, pattern, files[1..])
  }

  /** The position of the first truncated file whose fetch is not a 200, or |files|. */
  function FirstFailedFetch(env: Env, files: seq<FileEntry>): (n: nat)
    ensures n <= |files|
    ensures n < |files| ==> files[n].truncated && env.fetch(files[n].rawUrl).status != 200
    ensures forall k :: 0 <= k < n && files[k].truncated ==> env.fetch(files[k].rawUrl).status == 200
  {
    if files == [] then 0
    else if files[0].truncated && env.fetch(files[0].rawUrl).status != 200 then 0
    else 1 + FirstFailedFetch(env, files[1..])
  }

  lemma {:induction false} RawUrlsOfCons(f: FileEntry, files: seq<FileEntry>, k: nat)
    requires 0 < k <= |files| + 1
    ensures RawUrls(([f] + files)[..k]) == (if f.truncated then [f.rawUrl] else []) + RawUrls(files[..k - 1])
  {
    assert ([f] + files)[..k] == [f] + files[..k - 1];
    assert ([f] + files)[..k][1..] == files[..k - 1];
  }

  lemma {:induction false} HitsOfCons(env: Env, pattern: string, f: FileEntry, files: seq<FileEntry>, k: nat)
    requires 0 < k <= |files| + 1
    ensures Hits(env, pattern, ([f] + files)[..k]) ==
      (if f.truncated && env.search(pattern, env.fetch(f.rawUrl).body) then 1 else 0)
      + Hits(env, pattern, files[..k - 1])
  {
    assert ([f] + files)[..k] == [f] + files[..k - 1];
    assert ([f] + files)[..k][1..] == files[..k - 1];
  }

  /**
   * The file loop fetches exactly the raw URLs of the truncated files up to
   * and including the first one whose fetch is not a 200.
   */
  lemma {:induction false} ScanFilesFetches(env: Env, pattern: string, link: string, files: seq<FileEntry>)
    ensures var n := FirstFailedFetch(env, files);
      ScanFiles(env, pattern, link, files).fetched == RawUrls(files[..if n < |files| then n + 1 else n])
    decreases |files|
  {
    if files != [] {
      var f, tail := files[0], files[1..];
      assert files == [f] + tail;
      if f.truncated && env.fetch(f.rawUrl).status != 200 {
        RawUrlsOfCons(f, tail, 1);
        assert tail[..0] == [];
      } else {
        ScanFilesFetches(env, pattern, link, tail);
        var m := FirstFailedFetch(env, tail);
        var cut := if m < |tail| then m + 1 else m;
        assert FirstFailedFetch(env, files) == m + 1;
        RawUrlsOfCons(f, tail, cut + 1);
        var first := if f.truncated then [f.rawUrl] else [];
        assert ScanFiles(env, pattern, link, files).fetched
            == first + ScanFiles(env, pattern, link, tail).fetched;
      }
    } else {
      assert files[..0] == [];
    }
  }

  /**
   * The file loop adds one copy of the link per truncated file whose raw
   * content matches, counting only the files before the first failed fetch.
   */
  lemma {:induction false} ScanFilesMatches(env: Env, pattern: string, link: string, files: seq<FileEntry>)
    ensures ScanFiles(env, pattern, link, files).matches ==
      seq(Hits(env, pattern, files[..FirstFailedFetch(env, files)]), _ => link)
    decreases |files|
  {
    if files == [] {
    } else {
      var f, tail := files[0], files[1..];
      assert files == [f] + tail;
      if f.truncated && env.fetch(f.rawUrl).status != 200 {
        assert files[..0] == [];
      } else {
        ScanFilesMatches(env, pattern, link, tail);
        HitsOfCons(env, pattern, f, tail, FirstFailedFetch(env, tail) + 1);
      }
    }
  }

  /** Only truncated files are fetched: a file list with none of them costs no request. */
  lemma {:induction false} UntruncatedFilesNotFetched(env: Env, pattern: string, link: string, files: seq<FileEntry>)
    requires forall k :: 0 <= k < |files| ==> !files[k].truncated
    ensures ScanFiles(env, pattern, link, files) == Tally([], [], [])
    decreases |files|
  {
    if files != [] {
      UntruncatedFilesNotFetched(env, pattern, link, files[1..]);
    }
  }

  // ---------------------------------------------------------------------
  // The gist loop
  // ---------------------------------------------------------------------

  predicate Halts(env: Env, username: string, pattern: string, gist: GistSummary)
  {
    VisitGist(env, username, pattern, gist).halt
  }

  /** The visits of all the given gists, one after the other, ignoring halts. */
  function Visits(env: Env, username: string, pattern: string, gists: seq<GistSummary>): Tally
  {
    if gists == [] then Tally([], [], [])
    else Join(VisitGist(env, username, pattern, gists[0]).tally, Visits(env, username, pattern, gists[1..]))
  }

  /** How many gists the loop reaches: up to and including the first that halts. */
  function Processed(env: Env, username: string, pattern: string, gists: seq<GistSummary>): (r: nat)
    ensures r <= |gists|
    ensures gists != [] ==> 0 < r
    ensures forall k :: 0 <= k < r - 1 ==> !Halts(env, username, pattern, gists[k])
    ensures 0 < r < |gists| ==> Halts(env, username, pattern, gists[r - 1])
  {
    if gists == [] then 0
    else if Halts(env, username, pattern, gists[0]) then 1
    else 1 + Processed(env, username, pattern, gists[1..])
  }

  /** One warning per gist whose listing entry is truncated, in listing order. */
  function TruncationWarnings(gists: seq<GistSummary>): seq<string>
  {
    if gists == [] then []
    else (if gists[0].truncated then [TruncationWarning(gists[0].id)] else []) + TruncationWarnings(gists[1..])
  }

  lemma {:induction false} VisitsOfCons(env: Env, username: string, pattern: string,
                                        g: GistSummary, gists: seq<GistSummary>, k: nat)
    requires 0 < k <= |gists| + 1
    ensures Visits(env, username, pattern, ([g] + gists)[..k]) ==
      Join(VisitGist(env, username, pattern, g).tally, Visits(env, username, pattern, gists[..k - 1]))
  {
    assert ([g] + gists)[..k] == [g] + gists[..k - 1];
    assert ([g] + gists)[..k][1..] == gists[..k - 1];
  }

  /**
   * The walk is exactly the visits of the processed gists, in listing
   * order: the gists after the first halt contribute nothing, and the
   * halting gist itself contributes its fetch and its warning.
   */
  lemma {:induction false} WalkIsVisitsOfProcessed(env: Env, username: string, pattern: string, gists: seq<GistSummary>)
    ensures Walk(env, username, pattern, gists) ==
      Visits(env, username, pattern, gists[..Processed(env, username, pattern, gists)])
    decreases |gists|
  {
    if gists == [] {
      assert gists[..0] == [];
    } else {
      var g, tail := gists[0], gists[1..];
      assert gists == [g] + tail;
      var v := VisitGist(env, username, pattern, g);
      if v.halt {
        VisitsOfCons(env, username, pattern, g, tail, 1);
        assert tail[..0] == [];
        assert Join(v.tally, Tally([], [], [])) == v.tally;
      } else {
        WalkIsVisitsOfProcessed(env, username, pattern, tail);
        VisitsOfCons(env, username, pattern, g, tail, Processed(env, username, pattern, tail) + 1);
      }
    }
  }

  /** Once a gist halts the search, whatever is listed after it is irrelevant. */
  lemma {:induction false} HaltIgnoresLaterGists(env: Env, username: string, pattern: string,
                                                 gists: seq<GistSummary>, k: nat)
    requires k < |gists| && Halts(env, username, pattern, gists[k])
    ensures Walk(env, username, pattern, gists) == Walk(env, username, pattern, gists[..k + 1])
    decreases k
  {
    var g := gists[0];
    assert gists[..k + 1][0] == g;
    if !Halts(env, username, pattern, g) {
      assert 0 < k;
      assert gists[1..][k - 1] == gists[k];
      HaltIgnoresLaterGists(env, username, pattern, gists[1..], k - 1);
      assert gists[..k + 1][1..] == gists[1..][..k];
    } else if k > 0 {
      assert gists[..k + 1] != [];
    }
  }

  /** Without a halt among `front`, the walk of `front + back` is the two walks joined. */
  lemma {:induction false} WalkAppend(env: Env, username: string, pattern: string,
                                      front: seq<GistSummary>, back: seq<GistSummary>)
    requires forall k :: 0 <= k < |front| ==> !Halts(env, username, pattern, front[k])
    ensures Walk(env, username, pattern, front + back) ==
      Join(Walk(env, username, pattern, front), Walk(env, username, pattern, back))
    decreases |front|
  {
    if front == [] {
      assert front + back == back;
      var w := Walk(env, username, pattern, back);
      assert Join(Tally([], [], []), w) == w;
    } else {
      var g := front[0];
      assert (front + back)[0] == g;
      assert (front + back)[1..] == front[1..] + back;
      WalkAppend(env, username, pattern, front[1..], back);
      JoinAssociative(VisitGist(env, username, pattern, g).tally,
                      Walk(env, username, pattern, front[1..]), Walk(env, username, pattern, back));
    }
  }

  /**
   * Nothing found while walking a prefix of the listing is lost by listing
   * more gists after it: matches, warnings and fetches only grow at the end.
   */
  lemma {:induction false} EarlierResultsKept(env: Env, username: string, pattern: string,
                                              front: seq<GistSummary>, back: seq<GistSummary>)
    ensures var before, after := Walk(env, username, pattern, front), Walk(env, username, pattern, front + back);
      && before.matches <= after.matches
      && before.warnings <= after.warnings
      && before.fetched <= after.fetched
    decreases |front|
  {
    if front != [] {
      var g := front[0];
      assert (front + back)[0] == g;
      assert (front + back)[1..] == front[1..] + back;
      if !Halts(env, username, pattern, g) {
        EarlierResultsKept(env, username, pattern, front[1..], back);
      }
    }
  }

  /** A match on the raw detail body adds one link and lets the walk go on, whatever the status. */
  lemma {:induction false} FastPathContinues(env: Env, username: string, pattern: string,
                                             gist: GistSummary, rest: seq<GistSummary>)
    requires env.search(pattern, env.fetch(gist.url).body)
    ensures Walk(env, username, pattern, [gist] + rest) ==
      Join(Tally([GistLink(username, gist.id)],
                 if gist.truncated then [TruncationWarning(gist.id)] else [],
                 [gist.url]),
           Walk(env, username, pattern, rest))
  {
  }

  /** One warning per processed gist whose listing entry is truncated, in listing order. */
  lemma {:induction false} WarningsOfProcessedGists(env: Env, username: string, pattern: string, gists: seq<GistSummary>)
    ensures Walk(env, username, pattern, gists).warnings ==
      TruncationWarnings(gists[..Processed(env, username, pattern, gists)])
  {
    WalkIsVisitsOfProcessed(env, username, pattern, gists);
    VisitWarnings(env, username, pattern, gists[..Processed(env, username, pattern, gists)]);
  }

  lemma {:induction false} VisitWarnings(env: Env, username: string, pattern: string, gists: seq<GistSummary>)
    ensures Visits(env, username, pattern, gists).warnings == TruncationWarnings(gists)
    decreases |gists|
  {
    if gists != [] {
      VisitWarnings(env, username, pattern, gists[1..]);
    }
  }

  /**
   * Every match is the public link of a processed gist, and the matches are
   * grouped by gist in listing order: `owner[k]` is the position in the
   * listing of the gist that produced entry `k`.
   */
  lemma {:induction false} MatchesInListingOrder(env: Env, username: string, pattern: string, gists: seq<GistSummary>)
    returns (owner: seq<nat>)
    ensures var matches := Walk(env, username, pattern, gists).matches;
      && |owner| == |matches|
      && (forall k :: 0 <= k < |owner| ==>
            owner[k] < Processed(env, username, pattern, gists)
            && matches[k] == GistLink(username, gists[owner[k]].id))
      && (forall k, l :: 0 <= k <= l < |owner| ==> owner[k] <= owner[l])
  {
    var p := Processed(env, username, pattern, gists);
    WalkIsVisitsOfProcessed(env, username, pattern, gists);
    owner := VisitOwners(env, username, pattern, gists[..p]);
    forall k | 0 <= k < |owner|
      ensures gists[..p][owner[k]] == gists[owner[k]]
    {
    }
  }

  /** Every entry a gist adds is that gist's public link. */
  lemma VisitEntriesAreLinks(env: Env, username: string, pattern: string, gist: GistSummary)
    ensures forall m :: m in VisitGist(env, username, pattern, gist).tally.matches ==> m == GistLink(username, gist.id)
  {
    var response := env.fetch(gist.url);
    if !env.search(pattern, response.body) && response.status == 200 {
      ScanFilesMatches(env, pattern, GistLink(username, gist.id), env.files(response.body));
    }
  }

  lemma {:induction false} VisitOwners(env: Env, username: string, pattern: string, gists: seq<GistSummary>)
    returns (owner: seq<nat>)
    ensures var matches := Visits(env, username, pattern, gists).matches;
      && |owner| == |matches|
      && (forall k :: 0 <= k < |owner| ==>
            owner[k] < |gists| && matches[k] == GistLink(username, gists[owner[k]].id))
      && (forall k, l :: 0 <= k <= l < |owner| ==> owner[k] <= owner[l])
    decreases |gists|
  {
    if gists == [] {
      owner := [];
    } else {
      var tail := VisitOwners(env, username, pattern, gists[1..]);
      var first := VisitGist(env, username, pattern, gists[0]).tally.matches;
      owner := seq(|first|, _ => 0) + seq(|tail|, k requires 0 <= k < |tail| => tail[k] + 1);
      var matches := Visits(env, username, pattern, gists).matches;
      assert matches == first + Visits(env, username, pattern, gists[1..]).matches;
      forall k | 0 <= k < |owner|
        ensures owner[k] < |gists| && matches[k] == GistLink(username, gists[owner[k]].id)
      {
        if k < |first| {
          assert matches[k] == first[k];
          assert first[k] in first;
          VisitEntriesAreLinks(env, username, pattern, gists[0]);
        } else {
          assert matches[k] == Visits(env, username, pattern, gists[1..]).matches[k - |first|];
          assert gists[1..][tail[k - |first|]] == gists[owner[k]];
        }
      }
    }
  }

  // ---------------------------------------------------------------------
  // A gist can add several entries
  // ---------------------------------------------------------------------

  /**
   * The file loop does not stop after a hit: a gist with two matching
   * truncated files is listed twice in `matches`.
   */
  lemma SeveralEntriesForOneGist()
    ensures var env := Env(
                url => if url == "detail" then Response(200, "{}") else Response(200, "TODO"),
                body => [],
                body => [FileEntry(true, "raw1"), FileEntry(true, "raw2")],
                (pattern, text) => text == pattern);
      Walk(env, "alice", "TODO", [GistSummary("A", "detail", false)]).matches ==
        [GistLink("alice", "A"), GistLink("alice", "A")]
  {
  }
}
