/**
 * POST /api/profiles/enhance: checks that a GitHub username was sent, runs
 * the GitHub transform, and turns a failure into a status by the words its
 * message contains.
 */
module ProfileController {
  import opened Wrappers
  import opened Js
  import opened GitHubService

  /** The success body: the GitHub data, a note about LinkedIn, and the LinkedIn URL echoed back (absent as `null`). */
  datatype EnhanceResponse = EnhanceResponse(data: GitHubData, linkedinNote: string, linkedinUrl: OptStr)

  const LinkedinSaved := "LinkedIn URL saved. Please manually input LinkedIn data as direct API access is limited."
  const LinkedinMissing := "No LinkedIn URL provided."

  /** The note about LinkedIn: the "saved" text exactly when a non-empty URL was sent. */
  function LinkedinNote(linkedinUrl: OptStr): (note: string)
    ensures note == LinkedinSaved <==> Truthy(linkedinUrl)
    ensures note == LinkedinMissing <==> !Truthy(linkedinUrl)
  {
    if Truthy(linkedinUrl) then LinkedinSaved else LinkedinMissing
  }

  /**
   * The status for a failure's message: "rate limit" is looked for first and
   * answers 429, then "not found" answers 404; anything else is a 500 with
   * the message, or a fixed text when the message is empty.
   */
  function ClassifyError(message: string): (e: HttpError)
    ensures e.status == 429 <==> Includes(message, "rate limit")
    ensures e.status == 404 <==> !Includes(message, "rate limit") && Includes(message, "not found")
    ensures e.status == 429 || e.status == 404 || e.status == 500
    ensures message != "" ==> e.message == message
    ensures message == "" ==> e == HttpError(500, "Failed to enhance profile")
  {
    if Includes(message, "rate limit") then HttpError(429, message)
    else if Includes(message, "not found") then HttpError(404, message)
    else HttpError(500, Or(Some(message), "Failed to enhance profile"))
  }

  /**
   * The handler, given the GitHub transform as `enhance`: without a
   * username it answers 400 and `enhance` is not consulted.
   */
  function EnhanceProfile(githubUsername: OptStr, linkedinUrl: OptStr,
                          enhance: string -> Result<GitHubData, string>): (r: Result<EnhanceResponse, HttpError>)
    ensures !Truthy(githubUsername) ==> r == Err(HttpError(400, "GitHub username is required"))
    ensures Truthy(githubUsername) && enhance(githubUsername.value).Err? ==>
      r == Err(ClassifyError(enhance(githubUsername.value).error))
    ensures r.Ok? ==> Truthy(githubUsername) && r.value.data == enhance(githubUsername.value).value
    ensures r.Ok? ==> r.value.linkedinNote == LinkedinNote(linkedinUrl)
    ensures r.Ok? ==> (r.value.linkedinUrl.Some? <==> Truthy(linkedinUrl))
    ensures r.Ok? && Truthy(linkedinUrl) ==> r.value.linkedinUrl == linkedinUrl
  {
    if !Truthy(githubUsername) then
      Err(HttpError(400, "GitHub username is required"))
    else
      match enhance(githubUsername.value)
      case Err(message) => Err(ClassifyError(message))
      case Ok(data) =>
        Ok(EnhanceResponse(data, LinkedinNote(linkedinUrl), if Truthy(linkedinUrl) then linkedinUrl else None))
  }

  /** Without a username the answer is the same whatever the GitHub transform would do: it is never called. */
  lemma NoFetchWithoutUsername(githubUsername: OptStr, linkedinUrl: OptStr,
                               e1: string -> Result<GitHubData, string>, e2: string -> Result<GitHubData, string>)
    requires !Truthy(githubUsername)
    ensures EnhanceProfile(githubUsername, linkedinUrl, e1) == EnhanceProfile(githubUsername, linkedinUrl, e2)
  {
  }

  // -----------------------------------------------------------------------
  // From a fetch status to the answer

  /** The handler wired to the GitHub transform over the two fetches. */
  function EnhanceFrom(username: string, linkedinUrl: OptStr,
                       fetchProfile: string -> Result<Profile, Option<nat>>,
                       fetchRepos: string -> Result<seq<Repo>, Option<nat>>): Result<EnhanceResponse, HttpError>
  {
    EnhanceProfile(Some(username), linkedinUrl, u => EnhanceWithGitHub(u, fetchProfile, fetchRepos))
  }

  /** An unknown GitHub user is answered with 404. */
  lemma UnknownUserIs404(username: string, linkedinUrl: OptStr,
                         fetchProfile: string -> Result<Profile, Option<nat>>,
                         fetchRepos: string -> Result<seq<Repo>, Option<nat>>)
    requires username != ""
    requires fetchProfile(username) == Err(Some(404))
    ensures EnhanceFrom(username, linkedinUrl, fetchProfile, fetchRepos) == Err(HttpError(404, "GitHub user not found"))
  {
    MissingCharNotIncluded("GitHub user not found", "rate limit", 'm');
    assert IncludesAt("GitHub user not found", "not found", 12);
  }

  /** A 403 from either fetch is reported as the rate limit, answered with 429. */
  lemma RateLimitIs429(username: string, linkedinUrl: OptStr,
                       fetchProfile: string -> Result<Profile, Option<nat>>,
                       fetchRepos: string -> Result<seq<Repo>, Option<nat>>)
    requires username != ""
    requires fetchProfile(username) == Err(Some(403))
          || (fetchProfile(username).Ok? && fetchRepos(username) == Err(Some(403)))
    ensures EnhanceFrom(username, linkedinUrl, fetchProfile, fetchRepos) == Err(HttpError(429, RateLimitMessage))
  {
    RateLimitMessageMatches();
  }

  /** The rate-limit message contains "rate limit". */
  lemma RateLimitMessageMatches()
    ensures Includes(RateLimitMessage, "rate limit")
  {
    var m := RateLimitMessage;
    assert m[11] == 'r' && m[12] == 'a' && m[13] == 't' && m[14] == 'e' && m[15] == ' ';
    assert m[16] == 'l' && m[17] == 'i' && m[18] == 'm' && m[19] == 'i' && m[20] == 't';
    assert IncludesAt(m, "rate limit", 11);
  }

  /** A repository fetch failing with 404 is not told apart: it is a 500 with the repository message. */
  lemma MissingReposIs500(username: string, linkedinUrl: OptStr,
                          fetchProfile: string -> Result<Profile, Option<nat>>,
                          fetchRepos: string -> Result<seq<Repo>, Option<nat>>)
    requires username != ""
    requires fetchProfile(username).Ok? && fetchRepos(username) == Err(Some(404))
    ensures EnhanceFrom(username, linkedinUrl, fetchProfile, fetchRepos)
      == Err(HttpError(500, "Failed to fetch GitHub repositories"))
  {
    MissingCharNotIncluded("Failed to fetch GitHub repositories", "rate limit", 'm');
    MissingCharNotIncluded("Failed to fetch GitHub repositories", "not found", 'n');
  }

  /** Any other profile fetch failure is a 500 with the profile message. */
  lemma OtherProfileFailureIs500(username: string, linkedinUrl: OptStr,
                                 fetchProfile: string -> Result<Profile, Option<nat>>,
                                 fetchRepos: string -> Result<seq<Repo>, Option<nat>>)
    requires username != ""
    requires fetchProfile(username).Err?
    requires fetchProfile(username).error != Some(404) && fetchProfile(username).error != Some(403)
    ensures EnhanceFrom(username, linkedinUrl, fetchProfile, fetchRepos)
      == Err(HttpError(500, "Failed to fetch GitHub profile"))
  {
    MissingCharNotIncluded("Failed to fetch GitHub profile", "rate limit", 'm');
    MissingCharNotIncluded("Failed to fetch GitHub profile", "not found", 'n');
  }

  /** When both fetches succeed the answer carries the parsed data. */
  lemma SuccessCarriesParsedData(username: string, linkedinUrl: OptStr,
                                 fetchProfile: string -> Result<Profile, Option<nat>>,
                                 fetchRepos: string -> Result<seq<Repo>, Option<nat>>)
    requires username != ""
    requires fetchProfile(username).Ok? && fetchRepos(username).Ok?
    ensures EnhanceFrom(username, linkedinUrl, fetchProfile, fetchRepos)
      == Ok(EnhanceResponse(ParseGitHubData(fetchProfile(username).value, fetchRepos(username).value),
                            LinkedinNote(linkedinUrl), if Truthy(linkedinUrl) then linkedinUrl else None))
  {
  }
}
