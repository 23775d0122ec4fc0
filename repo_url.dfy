/**
 * The repository-URL match `url.match(/github\.com\/([^\/]+)\/([^\/]+)/)` shared by
 * the repository browser and the saver: unanchored, leftmost match, greedy groups.
 */
module RepoUrl {
  import opened Wrappers

  /** The literal the pattern starts with (the dot is escaped, so it is a dot). */
  const Host := "github.com/"

  /** A successful match: where it starts and the two captured groups. */
  datatype Match = Match(index: nat, owner: string, repo: string)

  predicate NoSlash(s: string) {
    forall t :: 0 <= t < |s| ==> s[t] != '/'
  }

  /** No '/' among `s[lo..hi]`. */
  ghost predicate SlashFree(s: string, lo: nat, hi: nat)
    requires lo <= hi <= |s|
  {
    forall t :: lo <= t < hi ==> s[t] != '/'
  }

  /**
   * The pattern can match starting at `i` in some way: the host literal, a
   * non-empty run of non-'/' characters, a '/', and at least one non-'/' character.
   */
  ghost predicate CanMatchAt(s: string, i: nat) {
    var j := i + |Host|;
    j <= |s| && s[i..j] == Host &&
    exists k :: j < k < |s| - 1 && s[k] == '/' && s[k + 1] != '/' && SlashFree(s, j, k)
  }

  /**
   * The match the greedy groups produce at `i`: `owner` and `repo` are non-empty,
   * slash-free, and `repo` runs up to the next '/' or the end of the input.
   */
  ghost predicate MatchesAt(s: string, i: nat, owner: string, repo: string) {
    var w := Host + owner + "/" + repo;
    i + |w| <= |s| && s[i..i + |w|] == w &&
    owner != [] && NoSlash(owner) && repo != [] && NoSlash(repo) &&
    (i + |w| == |s| || s[i + |w|] == '/')
  }

  /** The end of what the greedy class `[^/]+` consumes from position `j`. */
  function RunEnd(s: string, j: nat): (k: nat)
    requires j <= |s|
    ensures j <= k <= |s|
    ensures SlashFree(s, j, k)
    ensures k == |s| || s[k] == '/'
    decreases |s| - j
  {
    if j == |s| || s[j] == '/' then j else RunEnd(s, j + 1)
  }

  /** Attempting the pattern at the single start position `i`. */
  function MatchAt(s: string, i: nat): (r: Option<(string, string)>)
    requires i <= |s|
    ensures r.Some? ==> MatchesAt(s, i, r.value.0, r.value.1)
    ensures r.None? ==> !CanMatchAt(s, i)
  {
    var j := i + |Host|;
    if j <= |s| && s[i..j] == Host then
      var k := RunEnd(s, j);
      if j < k < |s| then
        var m := RunEnd(s, k + 1);
        if k + 1 < m then
          GroupsMatch(s, i, k, m);
          Some((s[j..k], s[k + 1..m]))
        else
          None
      else
        None
    else
      None
  }

  lemma GroupsMatch(s: string, i: nat, k: nat, m: nat)
    requires i + |Host| < k < m <= |s| && s[i..i + |Host|] == Host
    requires SlashFree(s, i + |Host|, k) && s[k] == '/'
    requires k + 1 < m && SlashFree(s, k + 1, m) && (m == |s| || s[m] == '/')
    ensures MatchesAt(s, i, s[i + |Host|..k], s[k + 1..m])
  {
    var j := i + |Host|;
    var owner, repo := s[j..k], s[k + 1..m];
    assert NoSlash(owner) by {
      forall t | 0 <= t < |owner| ensures owner[t] != '/' { assert owner[t] == s[j + t]; }
    }
    assert NoSlash(repo) by {
      forall t | 0 <= t < |repo| ensures repo[t] != '/' { assert repo[t] == s[k + 1 + t]; }
    }
    assert s[k..m] == "/" + repo;
    assert s[j..m] == owner + s[k..m];
    assert s[i..m] == Host + s[j..m];
    assert Host + owner + "/" + repo == Host + (owner + ("/" + repo));
  }

  /** Scanning start positions from `i` upwards, as a regular-expression search does. */
  function MatchFrom(s: string, i: nat): (r: Option<Match>)
    requires i <= |s|
    ensures r.Some? ==> i <= r.value.index && MatchesAt(s, r.value.index, r.value.owner, r.value.repo)
    ensures r.Some? ==> forall j :: i <= j < r.value.index ==> !CanMatchAt(s, j)
    ensures r.None? ==> forall j: nat :: i <= j ==> !CanMatchAt(s, j)
    decreases |s| - i
  {
    match MatchAt(s, i)
    case Some((owner, repo)) => Some(Match(i, owner, repo))
    case None => if i == |s| then None else MatchFrom(s, i + 1)
  }

  /**
   * `url.match(...)`: the greedy match at the leftmost position where the pattern
   * can match at all, or no match when it can match nowhere.
   */
  function MatchRepo(url: string): (r: Option<Match>)
    ensures r.Some? ==> MatchesAt(url, r.value.index, r.value.owner, r.value.repo)
    ensures r.Some? ==> forall j :: 0 <= j < r.value.index ==> !CanMatchAt(url, j)
    ensures r.None? <==> forall j: nat :: !CanMatchAt(url, j)
  {
    var r := MatchFrom(url, 0);
    if r.Some? then
      GreedyMatchCanMatch(url, r.value.index, r.value.owner, r.value.repo);
      r
    else
      r
  }

  /** A greedy match is in particular a match. */
  lemma GreedyMatchCanMatch(s: string, i: nat, owner: string, repo: string)
    requires MatchesAt(s, i, owner, repo)
    ensures CanMatchAt(s, i)
  {
    var w := Host + owner + "/" + repo;
    var j := i + |Host|;
    var k := j + |owner|;
    assert s[i..i + |w|][|Host| + |owner|] == w[|Host| + |owner|] == '/';
    assert s[k + 1] == w[|Host| + |owner| + 1] == repo[0];
    assert s[i..j] == s[i..i + |w|][..|Host|] == Host;
    assert SlashFree(s, j, k) by {
      forall t | j <= t < k ensures s[t] != '/' {
        assert s[t] == s[i..i + |w|][t - i] == w[t - i] == owner[t - j];
      }
    }
  }

  /** What a greedy match at `i` says about the characters of `s`, one by one. */
  lemma MatchedChars(s: string, i: nat, owner: string, repo: string)
    requires MatchesAt(s, i, owner, repo)
    ensures i + |Host| + |owner| + 1 + |repo| <= |s|
    ensures forall t :: 0 <= t < |owner| ==> s[i + |Host| + t] == owner[t]
    ensures s[i + |Host| + |owner|] == '/'
    ensures forall t :: 0 <= t < |repo| ==> s[i + |Host| + |owner| + 1 + t] == repo[t]
  {
    var w := Host + owner + "/" + repo;
    var m := s[i..i + |w|];
    forall t | 0 <= t < |owner| ensures s[i + |Host| + t] == owner[t] {
      assert m[|Host| + t] == w[|Host| + t];
    }
    assert m[|Host| + |owner|] == w[|Host| + |owner|];
    forall t | 0 <= t < |repo| ensures s[i + |Host| + |owner| + 1 + t] == repo[t] {
      assert m[|Host| + |owner| + 1 + t] == w[|Host| + |owner| + 1 + t];
    }
  }

  /**
   * Two slash-free non-empty runs read from position `b` of `s` that each stop at
   * a '/' or at the end of `s` are the same run.
   */
  lemma SameRun(s: string, b: nat, x: string, y: string)
    requires b + |x| <= |s| && b + |y| <= |s|
    requires NoSlash(x) && NoSlash(y)
    requires forall t :: 0 <= t < |x| ==> s[b + t] == x[t]
    requires forall t :: 0 <= t < |y| ==> s[b + t] == y[t]
    requires b + |x| == |s| || s[b + |x|] == '/'
    requires b + |y| == |s| || s[b + |y|] == '/'
    ensures x == y
  {
    forall k | b <= k < b + |x| ensures s[k] != '/' {
      assert s[k] == x[k - b];
    }
    forall k | b <= k < b + |y| ensures s[k] != '/' {
      assert s[k] == y[k - b];
    }
  }

  /** At a given position the greedy groups are determined: there is one owner and one repo. */
  lemma GreedyMatchUnique(s: string, i: nat, o1: string, r1: string, o2: string, r2: string)
    requires MatchesAt(s, i, o1, r1) && MatchesAt(s, i, o2, r2)
    ensures o1 == o2 && r1 == r2
  {
    MatchedChars(s, i, o1, r1);
    MatchedChars(s, i, o2, r2);
    SameRun(s, i + |Host|, o1, o2);
    SameRun(s, i + |Host| + |o1| + 1, r1, r2);
  }
}
