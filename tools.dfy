/**
 * Bounded repository collection and the Cloud Run call guard (src/tools.py).
 *
 * GitHub is an in-memory value: accounts by login, each with its repositories
 * and their content trees. A PyGithub exception is an explicit failure
 * variant whose reason string stands for `str(e)`.
 */
module Tools {
  import opened Common
  import opened Strings
  import opened Env

  /** Repositories processed for the selector "all". */
  const MaxRepos: nat := 10
  /** Files counted per repository. */
  const MaxFiles: nat := 50
  /** Files larger than this many bytes are stored as a placeholder. */
  const MaxFileSize: nat := 100000

  /** Reason carried by a failed lookup of a user or repository. */
  const NotFound := "404 Not Found"

  /** What reading a file's `decoded_content` gives: text, or an exception. */
  datatype FileBody = Decoded(text: string) | Unreadable(reason: string)

  /** One item of a directory listing. */
  datatype Entry =
    | File(path: string, size: nat, body: FileBody)
    | Dir(path: string, children: seq<Entry>)
    /** A directory whose own listing raises. */
    | DeniedDir(path: string)

  /** The root listing `repo.get_contents("")`. */
  datatype Listing = Listed(entries: seq<Entry>) | ListingFailed(reason: string)

  datatype RepoMeta = RepoMeta(
    language: Option<string>, stars: nat, forks: nat, url: string, createdAt: string, updatedAt: string)

  datatype Repo = Repo(name: string, description: Option<string>, meta: RepoMeta, root: Listing)

  /** A user: the repositories `get_repos()` lists, or the reason that listing fails. */
  datatype Account = Account(repos: seq<Repo>, listingError: Option<string>)

  type GitHub = map<string, Account>

  /**
   * One element of the list the fetch tool returns. A successful record has a
   * name, description and metadata and no error; a repository-level error has
   * a name and description; a user-level error has only the error.
   */
  datatype RepoRecord = RepoRecord(
    name: Option<string>,
    description: Option<string>,
    meta: Option<RepoMeta>,
    error: Option<string>,
    files: map<string, string>,
    totalFilesProcessed: nat)

  function Min(a: nat, b: nat): nat { if a <= b then a else b }

  // ---------- selecting repositories ----------

  /** The names of a comma-separated selector: split on ",", each part stripped. */
  function SelectorNames(repoNames: string): (names: seq<string>)
    ensures |names| == |Split(repoNames, ",")|
    ensures forall i | 0 <= i < |names| :: names[i] == Strip(Split(repoNames, ",")[i])
  {
    var parts := Split(repoNames, ",");
    seq(|parts|, i requires 0 <= i < |parts| => Strip(parts[i]))
  }

  /** `user.get_repo(name)`: the first listed repository with that name. */
  function GetRepo(repos: seq<Repo>, name: string): (r: Result<Repo>)
    ensures r.Ok? <==> exists i | 0 <= i < |repos| :: repos[i].name == name
    ensures r.Ok? ==> r.value in repos && r.value.name == name
    ensures r.Err? ==> r.error == NotFound
  {
    if repos == [] then Err(NotFound)
    else if repos[0].name == name then Ok(repos[0])
    else GetRepo(repos[1..], name)
  }

  /** One lookup per name, in order; the first failing lookup aborts the whole list. */
  function GetRepos(repos: seq<Repo>, names: seq<string>): (r: Result<seq<Repo>>)
    ensures r.Ok? <==> forall i | 0 <= i < |names| :: GetRepo(repos, names[i]).Ok?
    ensures r.Ok? ==> |r.value| == |names|
    ensures r.Ok? ==> forall i | 0 <= i < |names| :: r.value[i] == GetRepo(repos, names[i]).value
  {
    if names == [] then Ok([])
    else match GetRepo(repos, names[0])
      case Err(e) => Err(e)
      case Ok(first) =>
        match GetRepos(repos, names[1..])
        case Err(e) => Err(e)
        case Ok(rest) => Ok([first] + rest)
  }

  /** The repositories a selector resolves to for a user, or the reason it fails. */
  function SelectRepos(github: GitHub, username: string, repoNames: string): (r: Result<seq<Repo>>)
  {
    if username !in github then Err(NotFound)
    else
      var account := github[username];
      if repoNames == "all" then
        match account.listingError
        case Some(e) => Err(e)
        case None => Ok(account.repos[..Min(MaxRepos, |account.repos|)])
      else GetRepos(account.repos, SelectorNames(repoNames))
  }

  /** "all" selects the first ten listed repositories, in listing order. */
  lemma {:induction false} SelectAllTakesFirstTen(github: GitHub, username: string)
    requires username in github && github[username].listingError.None?
    ensures SelectRepos(github, username, "all").Ok?
    ensures var listed := github[username].repos;
            var chosen := SelectRepos(github, username, "all").value;
            |chosen| <= MaxRepos && chosen == listed[..|chosen|] &&
            (|listed| >= MaxRepos ==> |chosen| == MaxRepos) &&
            (|listed| < MaxRepos ==> chosen == listed)
  {
  }

  /**
   * A selector other than "all" resolves to one repository per comma-separated
   * name, in order and with duplicates kept, each named by the stripped part.
   */
  lemma {:induction false} SelectNamesInOrder(github: GitHub, username: string, repoNames: string)
    requires repoNames != "all"
    requires SelectRepos(github, username, repoNames).Ok?
    ensures var chosen := SelectRepos(github, username, repoNames).value;
            var parts := Split(repoNames, ",");
            |chosen| == |parts| &&
            forall i | 0 <= i < |chosen| :: chosen[i].name == Strip(parts[i])
  {
  }

  // ---------- walking a repository's contents ----------

  function Size(e: Entry): nat {
    match e
    case Dir(_, children) => 1 + SizeAll(children)
    case _ => 1
  }

  /** Number of entries in a queue, counting every directory's descendants. */
  function SizeAll(es: seq<Entry>): nat {
    if es == [] then 0 else Size(es[0]) + SizeAll(es[1..])
  }

  lemma {:induction false} SizeAllAppend(a: seq<Entry>, b: seq<Entry>)
    ensures SizeAll(a + b) == SizeAll(a) + SizeAll(b)
  {
    if a == [] {
      assert a + b == b;
    } else {
      SizeAllAppend(a[1..], b);
      assert (a + b)[0] == a[0];
      assert (a + b)[1..] == a[1..] + b;
    }
  }

  /** Every entry is a file. */
  predicate AllFiles(es: seq<Entry>) {
    forall i | 0 <= i < |es| :: es[i].File?
  }

  /**
   * The files of a queue in the order a FIFO walk meets them: a file is taken
   * from the front, a directory's children go to the back, and a directory
   * that cannot be listed is dropped.
   */
  function Bfs(queue: seq<Entry>): (files: seq<Entry>)
    ensures AllFiles(files)
    decreases SizeAll(queue)
  {
    if queue == [] then []
    else
      assert SizeAll(queue) == Size(queue[0]) + SizeAll(queue[1..]);
      match queue[0]
      case File(_, _, _) => [queue[0]] + Bfs(queue[1..])
      case DeniedDir(_) => Bfs(queue[1..])
      case Dir(_, children) =>
        SizeAllAppend(queue[1..], children);
        Bfs(queue[1..] + children)
  }

  /** The placeholder stored instead of a file over the size limit. */
  function LargeFilePlaceholder(size: nat): string {
    "[Large file - " + NatToString(size) + " bytes - content truncated]"
  }

  /** The placeholder stored for a file that fails to read. */
  function ReadErrorPlaceholder(reason: string): string {
    "[Error reading file: " + reason + "]"
  }

  /** What the walk stores for one file. */
  function Stored(f: Entry): string
    requires f.File?
  {
    if f.size > MaxFileSize then LargeFilePlaceholder(f.size)
    else match f.body
      case Decoded(text) => text
      case Unreadable(reason) => ReadErrorPlaceholder(reason)
  }

  /** A file over the limit keeps none of its content: what is stored depends on its size alone. */
  lemma {:induction false} LargeFileKeepsNoContent(path: string, size: nat, b1: FileBody, b2: FileBody)
    requires size > MaxFileSize
    ensures Stored(File(path, size, b1)) == Stored(File(path, size, b2)) == LargeFilePlaceholder(size)
  {
  }

  /** The `files` dict after storing these files one after another (a later path overwrites). */
  function StoreFiles(fs: seq<Entry>): map<string, string>
    requires AllFiles(fs)
  {
    if fs == [] then map[]
    else StoreFiles(fs[..|fs| - 1])[fs[|fs| - 1].path := Stored(fs[|fs| - 1])]
  }

  /** The paths of the files in `fs`. */
  function PathSet(fs: seq<Entry>): set<string> {
    set i | 0 <= i < |fs| :: fs[i].path
  }

  /** The `files` dict has one key per distinct path stored, so never more keys than files counted. */
  lemma {:induction false} StoreFilesKeys(fs: seq<Entry>)
    requires AllFiles(fs)
    ensures StoreFiles(fs).Keys == PathSet(fs)
    ensures |StoreFiles(fs)| <= |fs|
  {
    if fs != [] {
      var init := fs[..|fs| - 1];
      var last := fs[|fs| - 1];
      StoreFilesKeys(init);
      PathsSnoc(fs);
      var m := StoreFiles(init);
      assert StoreFiles(fs).Keys == m.Keys + {last.path};
      KeysGrowByOne(m, last.path, Stored(last));
    }
  }

  /** Storing under one key adds at most one key. */
  lemma {:induction false} KeysGrowByOne(m: map<string, string>, k: string, v: string)
    ensures |m[k := v]| <= |m| + 1
  {
    if k in m {
      assert m[k := v].Keys == m.Keys;
    } else {
      assert m[k := v].Keys == m.Keys + {k};
    }
  }

  /** The paths of a non-empty `fs` are those of all but its last entry, plus the last one's. */
  lemma {:induction false} PathsSnoc(fs: seq<Entry>)
    requires fs != []
    ensures PathSet(fs) == PathSet(fs[..|fs| - 1]) + {fs[|fs| - 1].path}
  {
    var init := fs[..|fs| - 1];
    forall p | p in PathSet(fs) ensures p in PathSet(init) || p == fs[|fs| - 1].path {
      var i :| 0 <= i < |fs| && fs[i].path == p;
      if i < |init| {
        assert init[i].path == p;
      }
    }
    forall p | p in PathSet(init) ensures p in PathSet(fs) {
      var i :| 0 <= i < |init| && init[i].path == p;
      assert fs[i].path == p;
    }
  }

  /** One step of the walk: what popping the front entry does to the files still to meet. */
  lemma {:induction false} BfsStep(queue: seq<Entry>)
    requires queue != []
    ensures queue[0].File? ==> Bfs(queue) == [queue[0]] + Bfs(queue[1..])
    ensures queue[0].DeniedDir? ==> Bfs(queue) == Bfs(queue[1..])
    ensures queue[0].Dir? ==> Bfs(queue) == Bfs(queue[1..] + queue[0].children)
    ensures SizeAll(queue[1..]) < SizeAll(queue)
    ensures queue[0].Dir? ==> SizeAll(queue[1..] + queue[0].children) < SizeAll(queue)
  {
    assert SizeAll(queue) == Size(queue[0]) + SizeAll(queue[1..]);
    if queue[0].Dir? {
      SizeAllAppend(queue[1..], queue[0].children);
    }
  }

  /** Storing one more file updates its path and nothing else. */
  lemma {:induction false} StoreFilesSnoc(fs: seq<Entry>, f: Entry)
    requires AllFiles(fs)
    requires f.File?
    ensures AllFiles(fs + [f])
    ensures StoreFiles(fs + [f]) == StoreFiles(fs)[f.path := Stored(f)]
  {
    assert (fs + [f])[..|fs|] == fs;
  }

  /**
   * The content walk of one repository: a queue seeded with the root
   * listing, popped from the front until it is empty or `MaxFiles` files have
   * been counted. It counts and stores exactly the first `MaxFiles` files of
   * the breadth-first order (all of them when there are fewer).
   */
  method WalkContents(root: seq<Entry>) returns (files: map<string, string>, processed: nat)
    ensures processed == Min(MaxFiles, |Bfs(root)|)
    ensures files == StoreFiles(Bfs(root)[..processed])
  {
    var contents := root;
    files := map[];
    processed := 0;
    ghost var visited: seq<Entry> := [];
    while contents != [] && processed < MaxFiles
      invariant processed <= MaxFiles && |visited| == processed
      invariant Bfs(root) == visited + Bfs(contents)
      invariant AllFiles(visited)
      invariant files == StoreFiles(visited)
      decreases SizeAll(contents)
    {
      var file := contents[0];
      var rest := contents[1..];
      BfsStep(contents);
      if file.Dir? {
        contents := rest + file.children;
      } else if file.DeniedDir? {
        contents := rest;
      } else {
        StoreFilesSnoc(visited, file);
        AppendAssoc(visited, [file], Bfs(rest));
        files := files[file.path := Stored(file)];
        processed := processed + 1;
        visited := visited + [file];
        contents := rest;
      }
    }
    assert Bfs(root)[..processed] == visited;
  }

  /** The record of a successful repository. */
  function SuccessRecord(repo: Repo, files: map<string, string>, processed: nat): RepoRecord {
    RepoRecord(Some(repo.name), Some(DescriptionOf(repo)), Some(repo.meta), None, files, processed)
  }

  /** The record of a repository whose root listing failed. */
  function RepoErrorRecord(repo: Repo, reason: string): RepoRecord {
    RepoRecord(Some(repo.name), Some(DescriptionOf(repo)), None,
      Some("Could not access repository: " + reason), map[], 0)
  }

  /** The single record returned when the user or the selector fails. */
  function UserErrorRecord(username: string, reason: string): RepoRecord {
    RepoRecord(None, None, None,
      Some("Failed to fetch repositories for user " + username + ": " + reason), map[], 0)
  }

  /** `repo.description or ""`. */
  function DescriptionOf(repo: Repo): string {
    match repo.description
    case Some(d) => d
    case None => ""
  }

  /** The record collected for one repository. */
  function RepoRecordOf(repo: Repo): RepoRecord {
    match repo.root
    case ListingFailed(reason) => RepoErrorRecord(repo, reason)
    case Listed(entries) =>
      var n := Min(MaxFiles, |Bfs(entries)|);
      SuccessRecord(repo, StoreFiles(Bfs(entries)[..n]), n)
  }

  /** The list the fetch tool returns for a user and a selector. */
  function FetchResult(github: GitHub, username: string, repoNames: string): seq<RepoRecord> {
    match SelectRepos(github, username, repoNames)
    case Err(reason) => [UserErrorRecord(username, reason)]
    case Ok(repos) => seq(|repos|, i requires 0 <= i < |repos| => RepoRecordOf(repos[i]))
  }

  /** Collects one repository, catching a failing root listing as an error record. */
  method CollectRepo(repo: Repo) returns (record: RepoRecord)
    ensures record == RepoRecordOf(repo)
    ensures record.error.None? ==> record.totalFilesProcessed <= MaxFiles
    ensures record.error.Some? ==> record.files == map[] && record.totalFilesProcessed == 0
  {
    match repo.root {
      case ListingFailed(reason) =>
        record := RepoErrorRecord(repo, reason);
      case Listed(entries) =>
        var files, processed := WalkContents(entries);
        record := SuccessRecord(repo, files, processed);
    }
  }

  /**
   * `fetch_github_repos`: resolves the selector, then appends one record per
   * repository in order; a failing repository gives an error record and the
   * rest are still collected, a failing user or lookup gives one error record.
   */
  method FetchGithubRepos(github: GitHub, username: string, repoNames: string) returns (data: seq<RepoRecord>)
    ensures data == FetchResult(github, username, repoNames)
  {
    var selected := SelectRepos(github, username, repoNames);
    if selected.Err? {
      data := [UserErrorRecord(username, selected.error)];
      return;
    }
    var repos := selected.value;
    data := [];
    for i := 0 to |repos|
      invariant |data| == i
      invariant forall k | 0 <= k < i :: data[k] == RepoRecordOf(repos[k])
    {
      var record := CollectRepo(repos[i]);
      data := data + [record];
    }
  }

  /** Every record the fetch tool returns counts at most `MaxFiles` files, and error records none. */
  lemma {:induction false} FetchBounded(github: GitHub, username: string, repoNames: string)
    ensures var data := FetchResult(github, username, repoNames);
            forall i | 0 <= i < |data| ::
              data[i].totalFilesProcessed <= MaxFiles &&
              |data[i].files| <= data[i].totalFilesProcessed &&
              (data[i].error.Some? ==> data[i].files == map[] && data[i].totalFilesProcessed == 0)
  {
    var data := FetchResult(github, username, repoNames);
    forall i | 0 <= i < |data|
      ensures data[i].totalFilesProcessed <= MaxFiles
      ensures |data[i].files| <= data[i].totalFilesProcessed
    {
      var selected := SelectRepos(github, username, repoNames);
      if selected.Ok? {
        var repo := selected.value[i];
        if repo.root.Listed? {
          var fs := Bfs(repo.root.entries);
          var n := Min(MaxFiles, |fs|);
          StoreFilesKeys(fs[..n]);
        }
      }
    }
  }

  /** The selector "all" never yields more than `MaxRepos` records. */
  lemma {:induction false} FetchAllAtMostTen(github: GitHub, username: string)
    ensures |FetchResult(github, username, "all")| <= MaxRepos
  {
  }

  // ---------- Cloud Run ----------

  /** What `requests.post` plus `raise_for_status` and `.json()` produce. */
  datatype HttpOutcome =
    | TimedOut
    /** Any `requests.exceptions.RequestException`, an HTTP error status included. */
    | RequestFailed(reason: string)
    /** Any other exception. */
    | Crashed(reason: string)
    | Responded(status: int, data: string)

  datatype Request = Request(url: string, headers: seq<(string, string)>, payload: string)

  /** The dict `call_cloud_run` returns; every variant carries `success`. */
  datatype CloudReply = CloudReply(success: bool, data: Option<string>, statusCode: Option<int>, error: Option<string>)

  /** The request that would be sent, if any, and the reply. */
  datatype CloudCall = CloudCall(request: Option<Request>, reply: CloudReply)

  const NotConfigured := "Cloud Run not configured. Set CLOUD_RUN_URL and CLOUD_RUN_TOKEN in .env"

  /** Python's `s.rstrip("/")`. */
  function RStripSlash(s: string): (r: string)
    ensures |r| <= |s| && r == s[..|r|]
    ensures r == [] || r[|r| - 1] != '/'
    ensures forall k | |r| <= k < |s| :: s[k] == '/'
  {
    if s != [] && s[|s| - 1] == '/' then RStripSlash(s[..|s| - 1]) else s
  }

  predicate CloudRunConfigured(env: Environment) {
    IsSet(env, CloudRunUrl) && IsSet(env, CloudRunToken)
  }

  /**
   * `call_cloud_run(endpoint, payload)`: with the URL or the token unset it
   * sends nothing; otherwise it posts to the base URL without trailing
   * slashes followed by the endpoint, with a Bearer token, and `outcome` is
   * what the network did.
   */
  function CallCloudRun(env: Environment, endpoint: string, payload: string, outcome: HttpOutcome): (r: CloudCall)
    ensures r.request.None? <==> !CloudRunConfigured(env)
    ensures !CloudRunConfigured(env) ==> r.reply == CloudReply(false, None, None, Some(NotConfigured))
    ensures r.request.Some? ==>
      var base := env[CloudRunUrl];
      r.request.value.url == RStripSlash(base) + endpoint &&
      ("Authorization", "Bearer " + env[CloudRunToken]) in r.request.value.headers
    ensures r.reply.success <==> CloudRunConfigured(env) && outcome.Responded?
    ensures r.reply.success ==> r.reply.data == Some(outcome.data) && r.reply.statusCode == Some(outcome.status)
    ensures !r.reply.success ==> r.reply.error.Some? && r.reply.data.None?
  {
    if !CloudRunConfigured(env) then
      CloudCall(None, CloudReply(false, None, None, Some(NotConfigured)))
    else
      var url := RStripSlash(env[CloudRunUrl]) + endpoint;
      var headers := [("Authorization", "Bearer " + env[CloudRunToken]), ("Content-Type", "application/json")];
      var reply := match outcome
        case TimedOut => CloudReply(false, None, None, Some("Cloud Run request timed out after 30 seconds"))
        case RequestFailed(reason) => CloudReply(false, None, None, Some("Cloud Run request failed: " + reason))
        case Crashed(reason) => CloudReply(false, None, None, Some("Unexpected error calling Cloud Run: " + reason))
        case Responded(status, data) => CloudReply(true, Some(data), Some(status), None);
      CloudCall(Some(Request(url, headers, payload)), reply)
  }
}
