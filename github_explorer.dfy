/**
 * The repository browser: it lists the diagram files of a GitHub repository
 * (trying branch `main`, then `master`) and loads one of them.
 */
module GitHubExplorer {
  import opened Wrappers
  import Http
  import Text
  import RepoUrl

  /** One entry of a recursive git tree listing. */
  datatype TreeEntry = TreeEntry(path: string, url: string, sha: string)

  /** What is handed to the file-selection callback after a successful load. */
  datatype Selection = Selection(content: string, path: string, sha: string, repoUrl: string)

  const InvalidUrl := "Invalid GitHub URL"
  const ListingFailed := "Failed to fetch repository files. Check URL or rate limits."
  const ContentFailed := "Failed to fetch file content"
  const LoadPrefix := "Failed to load file: "

  /** The tree-listing endpoint for one branch. */
  function TreeUrl(owner: string, repo: string, branch: string): string {
    "https://api.github.com/repos/" + owner + "/" + repo + "/git/trees/" + branch + "?recursive=1"
  }

  predicate IsDiagramPath(path: string) {
    Text.EndsWith(path, ".excalidraw") || Text.EndsWith(path, ".json")
  }

  /**
   * `tree.filter(file => file.path.endsWith('.excalidraw') || file.path.endsWith('.json'))`:
   * each entry is kept as often as it occurs if its path is a diagram path, and dropped otherwise.
   */
  function DiagramFiles(tree: seq<TreeEntry>): (r: seq<TreeEntry>)
    ensures forall e :: e in r ==> IsDiagramPath(e.path)
    ensures forall e :: multiset(r)[e] == if IsDiagramPath(e.path) then multiset(tree)[e] else 0
    ensures |r| <= |tree|
  {
    if tree == [] then []
    else
      assert tree == [tree[0]] + tree[1..];
      (if IsDiagramPath(tree[0].path) then [tree[0]] else []) + DiagramFiles(tree[1..])
  }

  /** The filter distributes over concatenation, so it keeps the listing's order. */
  lemma {:induction false} DiagramFilesAppend(a: seq<TreeEntry>, b: seq<TreeEntry>)
    ensures DiagramFiles(a + b) == DiagramFiles(a) + DiagramFiles(b)
  {
    if a == [] {
      assert a + b == b;
    } else {
      assert (a + b)[1..] == a[1..] + b;
      DiagramFilesAppend(a[1..], b);
    }
  }

  /** On a single entry the filter keeps it exactly when its path is a diagram path. */
  lemma DiagramFilesSingle(e: TreeEntry)
    ensures DiagramFiles([e]) == if IsDiagramPath(e.path) then [e] else []
  {
    assert [e][1..] == [];
  }

  class Explorer {
    var repoUrl: string
    var files: seq<TreeEntry>
    var loading: bool
    var error: Option<string>

    /** The listing only ever shows diagram files. */
    ghost predicate Valid()
      reads this
    {
      forall f :: f in files ==> IsDiagramPath(f.path)
    }

    constructor ()
      ensures Valid()
      ensures repoUrl == "" && files == [] && !loading && error == None
    {
      repoUrl, files, loading, error := "", [], false, None;
    }

    /**
     * `fetchFiles`: `tree` gives the reply the server sends for each listing URL;
     * `requested` lists the URLs actually fetched, in order. The `master` listing is
     * requested only when the `main` listing came back not ok.
     */
    method FetchFiles(tree: string -> Http.Reply<seq<TreeEntry>>) returns (requested: seq<string>)
      requires Valid()
      modifies this`files, this`loading, this`error
      ensures Valid() && !loading
      ensures error.Some? ==> files == []
      ensures RepoUrl.MatchRepo(repoUrl).None? ==>
        requested == [] && files == [] && error == Some(InvalidUrl)
      ensures RepoUrl.MatchRepo(repoUrl).Some? ==>
        var m := RepoUrl.MatchRepo(repoUrl).value;
        var mainUrl, masterUrl := TreeUrl(m.owner, m.repo, "main"), TreeUrl(m.owner, m.repo, "master");
        var fallback := tree(mainUrl).Reply? && !tree(mainUrl).ok;
        var last := if fallback then tree(masterUrl) else tree(mainUrl);
        && requested == (if fallback then [mainUrl, masterUrl] else [mainUrl])
        && (last.Threw? ==> files == [] && error == Some(last.message))
        && (last.Reply? && !last.ok ==> files == [] && error == Some(ListingFailed))
        && (last.IsOk() ==> files == DiagramFiles(last.body) && error == None)
    {
      loading := true;
      error := None;
      files := [];
      requested := [];
      var found := RepoUrl.MatchRepo(repoUrl);
      if found.None? {
        error := Some(InvalidUrl);
        loading := false;
        return;
      }
      var owner, repo := found.value.owner, found.value.repo;
      var branch := "main";
      var url := TreeUrl(owner, repo, branch);
      var response := tree(url);
      requested := requested + [url];
      if response.Reply? && !response.ok {
        branch := "master";
        url := TreeUrl(owner, repo, branch);
        response := tree(url);
        requested := requested + [url];
      }
      if response.Threw? {
        error := Some(response.message);
      } else if !response.ok {
        error := Some(ListingFailed);
      } else {
        files := DiagramFiles(response.body);
      }
      loading := false;
    }

    /**
     * `handleFileClick`: `reply` is the server's answer for `file.url` (its body the
     * base64 `content` field) and `decode` is `atob`. A successful load selects the
     * decoded content together with the file's path and sha and the current URL.
     */
    method HandleFileClick(file: TreeEntry, reply: Http.Reply<string>, decode: string -> Result<string>)
      returns (selected: Option<Selection>)
      requires Valid()
      modifies this`loading, this`error
      ensures Valid() && !loading
      ensures reply.Threw? ==> selected == None && error == Some(LoadPrefix + reply.message)
      ensures reply.Reply? && !reply.ok ==> selected == None && error == Some(LoadPrefix + ContentFailed)
      ensures reply.IsOk() && decode(reply.body).Err? ==>
        selected == None && error == Some(LoadPrefix + decode(reply.body).message)
      ensures reply.IsOk() && decode(reply.body).Ok? ==>
        selected == Some(Selection(decode(reply.body).value, file.path, file.sha, repoUrl)) &&
        error == old(error)
    {
      loading := true;
      selected := None;
      if reply.Threw? {
        error := Some(LoadPrefix + reply.message);
      } else if !reply.ok {
        error := Some(LoadPrefix + ContentFailed);
      } else {
        var content := decode(reply.body);
        if content.Err? {
          error := Some(LoadPrefix + content.message);
        } else {
          selected := Some(Selection(content.value, file.path, file.sha, repoUrl));
        }
      }
      loading := false;
    }
  }
}
