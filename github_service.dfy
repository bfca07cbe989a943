/**
 * Turns a GitHub profile and its repositories into resume data: the top five
 * non-fork repositories by stars become projects, the languages of all
 * repositories become technical skills, and the profile fills the personal
 * information. The two fetches are inputs here; only the messages their
 * failures are reported with are modelled.
 */
module GitHubService {
  import opened Wrappers
  import opened Js
  import opened ResumeModel

  /** The fields of a repository the transform reads. */
  datatype Repo = Repo(
    name: string, description: OptStr, language: OptStr,
    htmlUrl: string, stars: int, fork: bool)

  /** The fields of a user profile the transform reads. */
  datatype Profile = Profile(
    login: string, name: OptStr, location: OptStr, blog: OptStr, bio: OptStr,
    htmlUrl: string, publicRepos: int, followers: int, following: int)

  datatype GitHubStats = GitHubStats(publicRepos: int, followers: int, following: int)

  /** The resume data built from a profile: personal information, summary, projects, technical skills and statistics. */
  datatype GitHubData = GitHubData(
    personalInfo: PersonalInfo, summary: string, projects: seq<Project>,
    technical: seq<string>, stats: GitHubStats)

  /** How many repositories become projects. */
  const TopCount := 5

  const NoDescription := "No description provided"

  // -----------------------------------------------------------------------
  // Languages

  /** A repository in the list has `l` as its (non-empty) language. */
  predicate UsesLanguage(repos: seq<Repo>, l: string) {
    exists i :: 0 <= i < |repos| && repos[i].language == Some(l) && l != ""
  }

  /** The languages of the repositories, each once, in the order they are first seen (a `Set`'s insertion order). */
  function Languages(repos: seq<Repo>): (langs: seq<string>)
    ensures Distinct(langs)
    ensures forall l :: l in langs <==> UsesLanguage(repos, l)
    decreases |repos|
  {
    if repos == [] then []
    else
      var init := repos[..|repos| - 1];
      var prev := Languages(init);
      var last := repos[|repos| - 1];
      assert forall l :: UsesLanguage(init, l) ==> UsesLanguage(repos, l) by {
        forall l | UsesLanguage(init, l) ensures UsesLanguage(repos, l) {
          var i :| 0 <= i < |init| && init[i].language == Some(l) && l != "";
          assert repos[i] == init[i];
        }
      }
      assert forall l :: UsesLanguage(repos, l) ==> UsesLanguage(init, l) || last.language == Some(l) by {
        forall l | UsesLanguage(repos, l) ensures UsesLanguage(init, l) || last.language == Some(l) {
          var i :| 0 <= i < |repos| && repos[i].language == Some(l) && l != "";
          if i < |init| {
            assert init[i] == repos[i];
          }
        }
      }
      if Truthy(last.language) && last.language.value !in prev then prev + [last.language.value] else prev
  }

  /** More repositories only add languages after the ones already seen: the order is that of first appearance. */
  lemma {:induction false} LanguagesFirstSeen(xs: seq<Repo>, ys: seq<Repo>)
    ensures Languages(xs) <= Languages(xs + ys)
    decreases |ys|
  {
    if ys != [] {
      var init := ys[..|ys| - 1];
      var all := xs + ys;
      LanguagesFirstSeen(xs, init);
      assert all[..|all| - 1] == xs + init;
      var a, b, c := Languages(xs), Languages(xs + init), Languages(all);
      assert b <= c;
      assert c[..|a|] == c[..|b|][..|a|];
    } else {
      assert xs + ys == xs;
    }
  }

  /** `extractLanguages`: one pass over the repositories, adding each non-empty language to a set that keeps insertion order. */
  method ExtractLanguages(repos: seq<Repo>) returns (langs: seq<string>)
    ensures langs == Languages(repos)
  {
    var seen: set<string> := {};
    langs := [];
    for i := 0 to |repos|
      invariant langs == Languages(repos[..i])
      invariant seen == set l | l in langs
    {
      assert repos[..i + 1][..i] == repos[..i];
      var language := repos[i].language;
      if Truthy(language) && language.value !in seen {
        seen := seen + {language.value};
        langs := langs + [language.value];
      }
    }
    assert repos[..|repos|] == repos;
  }

  // -----------------------------------------------------------------------
  // Top repositories

  /** `repos.filter(repo => !repo.fork)` */
  function NonForks(repos: seq<Repo>): (r: seq<Repo>)
    ensures forall x :: x in r <==> x in repos && !x.fork
    ensures |r| <= |repos|
  {
    if repos == [] then []
    else if repos[0].fork then NonForks(repos[1..])
    else [repos[0]] + NonForks(repos[1..])
  }

  predicate StarsDescending(s: seq<Repo>) {
    forall i, j :: 0 <= i < j < |s| ==> s[i].stars >= s[j].stars
  }

  /** Places `x` before the first repository with no more stars than it, so that equal counts keep their input order. */
  function InsertByStars(x: Repo, s: seq<Repo>): (r: seq<Repo>)
    ensures multiset(r) == multiset(s) + multiset{x}
    ensures forall y :: y in r <==> y in s || y == x
    ensures |r| == |s| + 1 && (r[0] == x || (s != [] && r[0] == s[0]))
  {
    if s == [] || x.stars >= s[0].stars then [x] + s
    else
      assert s == [s[0]] + s[1..];
      [s[0]] + InsertByStars(x, s[1..])
  }

  /** Inserting into a list sorted by stars keeps it sorted. */
  lemma {:induction false} InsertKeepsOrder(x: Repo, s: seq<Repo>)
    requires StarsDescending(s)
    ensures StarsDescending(InsertByStars(x, s))
  {
    if s != [] && x.stars < s[0].stars {
      InsertKeepsOrder(x, s[1..]);
      var rest := InsertByStars(x, s[1..]);
      assert s[0].stars >= rest[0].stars;
      var r := [s[0]] + rest;
      forall i, j | 0 <= i < j < |r| ensures r[i].stars >= r[j].stars {
        if i == 0 && j > 1 {
          assert r[j] == rest[j - 1];
        }
      }
    }
  }

  /** `sort((a, b) => b.stargazers_count - a.stargazers_count)`: the same repositories, most stars first. */
  function SortByStars(xs: seq<Repo>): (s: seq<Repo>)
    ensures multiset(s) == multiset(xs)
    ensures forall y :: y in s <==> y in xs
    ensures |s| == |xs|
    ensures StarsDescending(s)
  {
    if xs == [] then []
    else
      assert xs == [xs[0]] + xs[1..];
      InsertKeepsOrder(xs[0], SortByStars(xs[1..]));
      InsertByStars(xs[0], SortByStars(xs[1..]))
  }

  /** In a list sorted by stars, nothing after position `n` has more stars than anything before it. */
  lemma PrefixDominates(s: seq<Repo>, n: nat)
    requires StarsDescending(s) && n <= |s|
    ensures forall x, y :: x in s && x !in s[..n] && y in s[..n] ==> x.stars <= y.stars
  {
    forall x, y | x in s && x !in s[..n] && y in s[..n] ensures x.stars <= y.stars {
      var k :| 0 <= k < |s| && s[k] == x;
      var j :| 0 <= j < n && s[..n][j] == y;
    }
  }

  /** The repositories that become projects: the first five of the non-forks sorted by stars. */
  function TopRepos(repos: seq<Repo>): (top: seq<Repo>)
    ensures |top| <= TopCount
    ensures top <= SortByStars(NonForks(repos))
  {
    var sorted := SortByStars(NonForks(repos));
    if |sorted| <= TopCount then sorted else sorted[..TopCount]
  }

  /**
   * The top repositories are at most five, none a fork, most stars first, as
   * many as there are non-forks up to five, and no left-out non-fork
   * repository has more stars than a chosen one.
   */
  lemma TopReposSpec(repos: seq<Repo>)
    ensures |TopRepos(repos)| == TopCount || |TopRepos(repos)| == |NonForks(repos)|
    ensures forall x :: x in TopRepos(repos) ==> x in repos && !x.fork
    ensures StarsDescending(TopRepos(repos))
    ensures forall x, y :: x in NonForks(repos) && x !in TopRepos(repos) && y in TopRepos(repos) ==> x.stars <= y.stars
  {
    var candidates := NonForks(repos);
    var sorted := SortByStars(candidates);
    var top := TopRepos(repos);
    assert top == sorted[..|top|];
    PrefixDominates(sorted, |top|);
  }

  /** A repository as a project: a description always, its language as the only technology, its page as both links. */
  function RepoToProject(r: Repo): (p: Project)
    ensures p.name == Some(r.name)
    ensures Truthy(p.description)
    ensures Truthy(r.description) ==> p.description == r.description
    ensures !Truthy(r.description) ==> p.description == Some(NoDescription)
    ensures p.technologies.Some? && p.technologies.value.List?
    ensures Truthy(r.language) ==> p.technologies.value.items == [r.language.value]
    ensures !Truthy(r.language) ==> p.technologies.value.items == []
    ensures p.link == p.github == Some(r.htmlUrl)
  {
    Project(
      Some(r.name),
      Some(Or(r.description, NoDescription)),
      Some(List(if Truthy(r.language) then [r.language.value] else [])),
      Some(r.htmlUrl),
      Some(r.htmlUrl))
  }

  function ReposToProjects(repos: seq<Repo>): (ps: seq<Project>)
    ensures |ps| == |repos|
    ensures forall i :: 0 <= i < |repos| ==> ps[i] == RepoToProject(repos[i])
  {
    seq(|repos|, i requires 0 <= i < |repos| => RepoToProject(repos[i]))
  }

  // -----------------------------------------------------------------------
  // The transform

  /**
   * `parseGitHubData`: the profile's name (else its login), location, blog and
   * page; its bio as the summary; the top repositories as projects; and the
   * languages of every repository, forks included, as technical skills.
   */
  function ParseGitHubData(profile: Profile, repos: seq<Repo>): (d: GitHubData)
    ensures |d.projects| <= TopCount
    ensures SchemaShaped([], d.projects)
    ensures Distinct(d.technical)
    ensures forall l :: l in d.technical <==> UsesLanguage(repos, l)
    ensures d.personalInfo.fullName == Some(Or(profile.name, profile.login))
    ensures d.personalInfo.location == Some(Or(profile.location, ""))
    ensures d.personalInfo.portfolio == Some(Or(profile.blog, ""))
    ensures d.personalInfo.github == Some(profile.htmlUrl)
    ensures d.personalInfo.email.None? && d.personalInfo.phone.None? && d.personalInfo.linkedin.None?
    ensures d.summary == Or(profile.bio, "")
    ensures d.stats == GitHubStats(profile.publicRepos, profile.followers, profile.following)
  {
    GitHubData(
      PersonalInfo(
        Some(Or(profile.name, profile.login)), None, None,
        Some(Or(profile.location, "")), Some(Or(profile.blog, "")), None,
        Some(profile.htmlUrl)),
      Or(profile.bio, ""),
      ReposToProjects(TopRepos(repos)),
      Languages(repos),
      GitHubStats(profile.publicRepos, profile.followers, profile.following))
  }

  /** The projects are exactly the top repositories, in the same order. */
  lemma ProjectsAreTopRepos(profile: Profile, repos: seq<Repo>, i: nat)
    requires i < |ParseGitHubData(profile, repos).projects|
    ensures i < |TopRepos(repos)|
    ensures ParseGitHubData(profile, repos).projects[i] == RepoToProject(TopRepos(repos)[i])
  {
  }

  /** A fork never becomes a project, but its language still counts as a skill. */
  lemma ForkLanguageCounted(profile: Profile, repos: seq<Repo>, i: nat)
    requires i < |repos| && repos[i].fork && Truthy(repos[i].language)
    ensures repos[i].language.value in ParseGitHubData(profile, repos).technical
  {
    assert UsesLanguage(repos, repos[i].language.value);
  }

  // -----------------------------------------------------------------------
  // Fetch failures

  const RateLimitMessage := "GitHub API rate limit exceeded. Please try again later."

  /** The message a failed profile fetch is reported with, by the response status (absent when there was no response). */
  function ProfileFetchError(status: Option<nat>): (message: string)
    ensures message == "GitHub user not found" <==> status == Some(404)
    ensures message == RateLimitMessage <==> status == Some(403)
    ensures status != Some(404) && status != Some(403) ==> message == "Failed to fetch GitHub profile"
  {
    if status == Some(404) then "GitHub user not found"
    else if status == Some(403) then RateLimitMessage
    else "Failed to fetch GitHub profile"
  }

  /** The message a failed repository fetch is reported with: only 403 is told apart. */
  function ReposFetchError(status: Option<nat>): (message: string)
    ensures message == RateLimitMessage <==> status == Some(403)
    ensures message != "GitHub user not found"
    ensures status != Some(403) ==> message == "Failed to fetch GitHub repositories"
  {
    if status == Some(403) then RateLimitMessage
    else "Failed to fetch GitHub repositories"
  }

  /**
   * `enhanceWithGitHub`: the profile is fetched first and the repositories
   * only after it succeeds; either failure is passed on as its message.
   */
  function EnhanceWithGitHub(username: string, fetchProfile: string -> Result<Profile, Option<nat>>,
                             fetchRepos: string -> Result<seq<Repo>, Option<nat>>): (r: Result<GitHubData, string>)
    ensures r.Ok? <==> fetchProfile(username).Ok? && fetchRepos(username).Ok?
    ensures fetchProfile(username).Err? ==> r == Err(ProfileFetchError(fetchProfile(username).error))
    ensures fetchProfile(username).Ok? && fetchRepos(username).Err? ==>
      r == Err(ReposFetchError(fetchRepos(username).error))
    ensures r.Ok? ==> r.value == ParseGitHubData(fetchProfile(username).value, fetchRepos(username).value)
  {
    match fetchProfile(username)
    case Err(status) => Err(ProfileFetchError(status))
    case Ok(profile) =>
      match fetchRepos(username)
      case Err(status) => Err(ReposFetchError(status))
      case Ok(repos) => Ok(ParseGitHubData(profile, repos))
  }

  /** When the profile fetch fails, what the repository fetch would return plays no part. */
  lemma ReposUnreadAfterProfileFailure(username: string, fetchProfile: string -> Result<Profile, Option<nat>>,
                                       f1: string -> Result<seq<Repo>, Option<nat>>,
                                       f2: string -> Result<seq<Repo>, Option<nat>>)
    requires fetchProfile(username).Err?
    ensures EnhanceWithGitHub(username, fetchProfile, f1) == EnhanceWithGitHub(username, fetchProfile, f2)
  {
  }
}
