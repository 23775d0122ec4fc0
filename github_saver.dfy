/**
 * The save form: it commits the current document to a path of a GitHub repository,
 * passing the file's last known content SHA for optimistic concurrency.
 */
module GitHubSaver {
  import opened Wrappers
  import Http
  import Text
  import RepoUrl

  datatype StatusKind = Success | Failure
  datatype Status = Status(kind: StatusKind, msg: string)

  /** The JSON body of the create-or-update request; `sha` is left out when absent. */
  datatype CommitBody = CommitBody(message: string, content: string, sha: Option<string>)

  /** The requests `handleSave` issues, with the bearer token they carry. */
  datatype ApiCall =
    | GetContents(url: string, token: string)
    | PutContents(url: string, token: string, body: CommitBody)

  /** The outcome of the create-or-update request. */
  datatype PutReply =
    | Committed(commitSha: string)            // ok; the response's `commit.sha`
    | Rejected(errorMessage: Option<string>)  // not ok; the error body's `message`, if any
    | PutThrew(thrown: string)                // the request or the decoding of its body threw

  const MissingFields := "Missing fields (Token, Path, Message, or Repo URL)"
  const InvalidRepoUrl := "Invalid Repo URL"
  const SaveFailed := "Failed to save"
  const SavedPrefix := "Saved! Commit: "

  /** The contents endpoint for one path. */
  function ContentsUrl(owner: string, repo: string, path: string): string {
    "https://api.github.com/repos/" + owner + "/" + repo + "/contents/" + path
  }

  /** JavaScript falsiness of an optional string: absent or empty. */
  predicate Falsy(s: Option<string>) {
    s.None? || s.value == ""
  }

  /** `!token || !path || !message || !repoUrl`. */
  predicate HasMissingField(token: string, path: string, message: string, repoUrl: string) {
    token == "" || path == "" || message == "" || repoUrl == ""
  }

  /** The lookup of the current SHA runs when no SHA is known or the path was changed. */
  predicate NeedsLookup(initialSha: Option<string>, path: string, initialPath: string) {
    Falsy(initialSha) || path != initialPath
  }

  /**
   * The SHA sent with the commit: the looked-up one when a lookup ran and came back
   * ok, and otherwise the SHA the form was opened with, even for a changed path.
   */
  function ChosenSha(initialSha: Option<string>, path: string, initialPath: string,
                     lookup: Http.Reply<Option<string>>): (sha: Option<string>)
    ensures !NeedsLookup(initialSha, path, initialPath) ==> sha == initialSha
    ensures NeedsLookup(initialSha, path, initialPath) && lookup.IsOk() ==> sha == lookup.body
    ensures !lookup.IsOk() ==> sha == initialSha
  {
    if NeedsLookup(initialSha, path, initialPath) && lookup.IsOk() then lookup.body else initialSha
  }

  /**
   * A changed path whose lookup fails (the 404 of a new file, or a thrown request)
   * still carries the SHA of the file the form was opened with.
   */
  lemma StaleShaForNewPath(initialSha: string, initialPath: string, path: string, lookup: Http.Reply<Option<string>>)
    requires initialSha != "" && path != initialPath && !lookup.IsOk()
    ensures NeedsLookup(Some(initialSha), path, initialPath)
    ensures ChosenSha(Some(initialSha), path, initialPath, lookup) == Some(initialSha)
  {
  }

  /** The message a failed commit reports: the server's, or a fixed one when it has none. */
  function RejectionMessage(message: Option<string>): (msg: string)
    ensures msg != ""
    ensures Falsy(message) ==> msg == SaveFailed
    ensures !Falsy(message) ==> msg == message.value
  {
    if Falsy(message) then SaveFailed else message.value
  }

  /** `Saved! Commit: ` followed by the first seven characters of the commit SHA. */
  function SavedMessage(commitSha: string): (msg: string)
    ensures SavedPrefix <= msg
    ensures msg[|SavedPrefix|..] <= commitSha
    ensures |msg| - |SavedPrefix| == if |commitSha| < 7 then |commitSha| else 7
  {
    SavedPrefix + Text.Take(commitSha, 7)
  }

  class Saver {
    // Properties passed in by the parent; `""` and `None` stand for `undefined`.
    var content: string
    var initialPath: string
    var initialSha: Option<string>
    var repoUrl: string
    // Form state.
    var token: string
    var path: string
    var message: string
    var loading: bool
    var status: Option<Status>

    /**
     * Mounting: the path starts as `initialPath`, and a token found in local storage
     * (`storedToken`, `""` when none) is taken over.
     */
    constructor (content: string, initialPath: string, initialSha: Option<string>, repoUrl: string, storedToken: string)
      ensures this.content == content && this.initialPath == initialPath
      ensures this.initialSha == initialSha && this.repoUrl == repoUrl
      ensures token == storedToken && path == initialPath && message == ""
      ensures !loading && status == None
    {
      this.content, this.initialPath, this.initialSha, this.repoUrl := content, initialPath, initialSha, repoUrl;
      token, path, message, loading, status := storedToken, initialPath, "", false, None;
    }

    /** The effect on `[initialPath]`: a new non-empty initial path replaces the edited path. */
    method ChangeInitialPath(newInitialPath: string)
      modifies this`initialPath, this`path
      ensures initialPath == newInitialPath
      ensures path == if newInitialPath != old(initialPath) && newInitialPath != "" then newInitialPath else old(path)
    {
      if newInitialPath != initialPath && newInitialPath != "" {
        path := newInitialPath;
      }
      initialPath := newInitialPath;
    }

    /**
     * The commit step of `handleSave` once the contents URL and the SHA are known:
     * the document is encoded and, when that succeeds, committed with the form's
     * message; `put` is the reply, and `call` the request made, if any.
     */
    method Commit(url: string, sha: Option<string>, encode: string -> Result<string>, put: PutReply)
      returns (call: seq<ApiCall>)
      modifies this`status, this`message
      ensures encode(content).Err? ==>
        call == [] && status == Some(Status(Failure, encode(content).message)) && message == old(message)
      ensures encode(content).Ok? ==>
        && call == [PutContents(url, token, CommitBody(old(message), encode(content).value, sha))]
        && (put.Committed? ==> status == Some(Status(Success, SavedMessage(put.commitSha))) && message == "")
        && (put.Rejected? ==> status == Some(Status(Failure, RejectionMessage(put.errorMessage))) && message == old(message))
        && (put.PutThrew? ==> status == Some(Status(Failure, put.thrown)) && message == old(message))
    {
      var encoded := encode(content);
      if encoded.Err? {
        status := Some(Status(Failure, encoded.message));
        return [];
      }
      call := [PutContents(url, token, CommitBody(message, encoded.value, sha))];
      match put {
        case Committed(commitSha) =>
          status := Some(Status(Success, SavedMessage(commitSha)));
          message := "";
        case Rejected(errorMessage) =>
          status := Some(Status(Failure, RejectionMessage(errorMessage)));
        case PutThrew(thrown) =>
          status := Some(Status(Failure, thrown));
      }
    }

    /**
     * `handleSave`: `lookup` is the reply to the SHA lookup (its body the response's
     * `sha` field), `encode` is `btoa` and `put` the reply to the commit request;
     * `calls` lists the requests made, in order.
     */
    method HandleSave(lookup: Http.Reply<Option<string>>, encode: string -> Result<string>, put: PutReply)
      returns (calls: seq<ApiCall>)
      modifies this`loading, this`status, this`message
      ensures status.Some?
      ensures HasMissingField(token, path, old(message), repoUrl) ==>
        calls == [] && status == Some(Status(Failure, MissingFields)) &&
        message == old(message) && loading == old(loading)
      ensures !HasMissingField(token, path, old(message), repoUrl) ==> !loading
      ensures !HasMissingField(token, path, old(message), repoUrl) && RepoUrl.MatchRepo(repoUrl).None? ==>
        calls == [] && status == Some(Status(Failure, InvalidRepoUrl)) && message == old(message)
      ensures !HasMissingField(token, path, old(message), repoUrl) && RepoUrl.MatchRepo(repoUrl).Some? ==>
        var m := RepoUrl.MatchRepo(repoUrl).value;
        var url := ContentsUrl(m.owner, m.repo, path);
        var lookups := if NeedsLookup(initialSha, path, initialPath) then [GetContents(url, token)] else [];
        var encoded := encode(content);
        && (encoded.Err? ==>
              calls == lookups && status == Some(Status(Failure, encoded.message)) && message == old(message))
        && (encoded.Ok? ==>
              && calls == lookups + [PutContents(url, token,
                   CommitBody(old(message), encoded.value, ChosenSha(initialSha, path, initialPath, lookup)))]
              && (put.Committed? ==> status == Some(Status(Success, SavedMessage(put.commitSha))) && message == "")
              && (put.Rejected? ==> status == Some(Status(Failure, RejectionMessage(put.errorMessage))) && message == old(message))
              && (put.PutThrew? ==> status == Some(Status(Failure, put.thrown)) && message == old(message)))
    {
      calls := [];
      if token == "" || path == "" || message == "" || repoUrl == "" {
        status := Some(Status(Failure, MissingFields));
        return;
      }
      loading := true;
      status := None;
      var found := RepoUrl.MatchRepo(repoUrl);
      if found.None? {
        status := Some(Status(Failure, InvalidRepoUrl));
      } else {
        var url := ContentsUrl(found.value.owner, found.value.repo, path);
        var shaToUse := initialSha;
        if Falsy(shaToUse) || path != initialPath {
          calls := calls + [GetContents(url, token)];
          if lookup.Reply? && lookup.ok {
            shaToUse := lookup.body;
          }
        }
        var commit := Commit(url, shaToUse, encode, put);
        calls := calls + commit;
      }
      loading := false;
    }
  }
}
