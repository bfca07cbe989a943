# Resume builder — a Dafny model

This project models the decision logic of a MERN resume builder: an Express
API over a MongoDB collection of resumes, plus the React pages that edit them.

The back end covers four areas:

- **The resume store.** Create, list by owner, get, update and delete. Every
  request that names a resume is checked first for existence (404), then for
  ownership (403), before anything is read or changed. An update overwrites a
  field only when the new value is truthy.
- **The text renderer.** It turns a resume into PDF text lines, and it backs
  two endpoints: generate-PDF, which renders a stored or inline resume, and
  download.
- **The GitHub transform.** The top five non-fork repositories by stars
  become projects. The languages of all repositories become technical skills,
  each once, in first-seen order. Fetch failures become 404, 429 or 500 by
  the words their message contains.
- **The CORS allow-list** and its origin check.

The front end covers these parts:

- **The builder's shared state.** A step counter held between 0 and 7, the
  resume being edited with single-section replacement, and the save, which
  either creates the resume or updates it.
- **The editors.** The four entry-list editors, the skills editor, and the
  personal-information step with its GitHub auto-fill merge.
- **Two small checks.** The remote/onsite job filter and the registration
  form's password checks.

Each back-end file and each React component is one module:

- **Classes.** Code that updates state in place is a class:
  `ResumeStore.Store` holds a map of documents, and
  `ResumeContext.ResumeBuilder` holds the step and the resume.
- **Methods with loops.** Loops are methods proved against specification
  functions: the renderer's `forEach` loops (`PdfService`) and the language
  set (`GitHubService.ExtractLanguages`).
- **Pure functions.** Pure expressions (spread, `filter`, `map`, `||`) are
  functions. Their lemmas relate them to each other.
- **JavaScript semantics.** `Js` spells out the JavaScript behaviour the code
  relies on:
  - truthiness and `a || b`;
  - `${undefined}`, which prints "undefined";
  - `trim`, `split` on one character, `includes`;
  - ASCII `toLowerCase`;
  - `length`, counted in UTF-16 code units.
- **Shared types.** `Wrappers` holds `Option`, `Result` and the HTTP error
  type.

Inputs from the outside are parameters:

- the caller's id;
- the clock, as a logical counter;
- the GitHub fetches, the registration call and the server's answer to a save;
- a failure of the PDF engine.

So a property like "the fetch is not called" is stated as "the result does
not depend on that parameter".

## Model

| member | source | states |
|---|---|---|
| ResumeModel.LayoutName | backend/models/Resume.js:59-61 | every layout's stored name passes the enum check and reads back as that layout |
| ResumeModel.ParseLayout | backend/models/Resume.js:59-61 | a layout name is accepted exactly when it is one of modern, classic, minimal, creative |
| ResumeModel.CastTechnologies | backend/models/Resume.js:9 | the `[String]` cast: an array is kept, a string becomes a one-item array, a missing value the empty array |
| ResumeModel.CastExperienceList | backend/models/Resume.js:4-10 | every cast experience entry holds an array of technologies; list length, order and all other fields are kept |
| ResumeModel.CastProjectList | backend/models/Resume.js:19-25 | every cast project entry holds an array of technologies; list length, order and all other fields are kept |
| ResumeModel.CastIdempotent | backend/models/Resume.js:4-25 | casting entries already in stored form changes nothing |
| ResumeStore.RequestedLayout | backend/controllers/resumeController.js:36 | a truthy layout is the stored layout; an absent or empty one gives the default, modern |
| ResumeStore.NewResume | backend/controllers/resumeController.js:27-37 | the created document is owned by the caller and never by the body; it gets a fresh id and both timestamps; the summary is taken as sent; entries are in schema shape |
| ResumeStore.CreateRoundTrip | backend/controllers/resumeController.js:27-37 | a body sending every field in stored form, with a valid layout, reads back unchanged from the created document |
| ResumeStore.CreateDefaults | backend/controllers/resumeController.js:29-36 | an empty body creates empty lists, empty skills, no personal information and the modern layout |
| ResumeStore.ApplyUpdate | backend/controllers/resumeController.js:124-133 | the update keeps id, owner and creation time and stamps the modification time; schema shape is preserved |
| ResumeStore.EmptyUpdateKeepsContent | backend/controllers/resumeController.js:124-131 | a body with no truthy field (absent fields, empty summary, empty layout) changes nothing but the modification time |
| ResumeStore.UpdateIdempotent | backend/controllers/resumeController.js:124-131 | applying the same update twice gives what applying it once gives |
| ResumeStore.UpdateTakesSuppliedFields | backend/controllers/resumeController.js:124-131 | every supplied truthy field is what the document holds afterwards |
| ResumeStore.Authorize | backend/controllers/resumeController.js:75-84 | 404 exactly when the id is absent; 403 exactly when it exists under another owner; the document exactly when the caller owns it |
| ResumeStore.InsertByRecency | backend/controllers/resumeController.js:62 | inserting into a newest-first list keeps it newest first, adds exactly the new document and loses none |
| ResumeStore.Store.Create | backend/controllers/resumeController.js:7-48 | an unknown layout gives 400 "Validation Error" and stores nothing; otherwise exactly the new document is added under a fresh id |
| ResumeStore.Store.ListResumes | backend/controllers/resumeController.js:53-68 | another user's list is 403; the caller's list holds exactly the caller's stored documents, newest first |
| ResumeStore.Store.GetResume | backend/controllers/resumeController.js:73-94 | the answer is the existence-then-ownership decision with the get handler's 403 message |
| ResumeStore.Store.UpdateResume | backend/controllers/resumeController.js:99-142 | 404 then 403, with the store unchanged; an unknown layout gives 500 with the store unchanged; otherwise only that document changes, by the truthy-field rule |
| ResumeStore.Store.DeleteResume | backend/controllers/resumeController.js:147-169 | 404 then 403, with the store unchanged; otherwise exactly that id is removed |
| ResumeStore.Store.GeneratePdf | backend/controllers/resumeController.js:174-209 | a resume id takes precedence over inline data, with 404/403 checks; neither gives 400; a renderer failure or a file name Node refuses in a header gives 500 "Error generating PDF"; the content is the rendered lines; the file name interpolates the layout as sent |
| ResumeStore.ContentDispositionSafe | backend/controllers/resumeController.js:198-202 | the attachment header can be set exactly when the file name holds only tab, printable ASCII and 0x80-0xFF characters |
| ResumeStore.CreateThenGet | backend/controllers/resumeController.js:75-86 | a created resume is what its owner reads back, and another user gets 403 |
| ResumeStore.DeleteThenAccess | backend/controllers/resumeController.js:147-161 | after a successful delete, get, update, delete and render by id all answer 404 |
| PdfService.NameLine | backend/services/pdfService.js:26 | the first line is the full name, or "Your Name" when it or the personal information is missing or empty |
| PdfService.ContactParts | backend/services/pdfService.js:29-35 | the contact parts are `[email, phone, location].filter(Boolean)`: the non-empty values among the three, in that order; empty exactly when all three are |
| PdfService.ContactLine | backend/services/pdfService.js:26-37 | for every personal information, the header is the name line followed by the non-empty contact values in the order email, phone, location joined by " \| ", or the name line alone when all three are empty; all eight presence cases are spelled out |
| PdfService.EntriesInOrder | backend/services/pdfService.js:56-65 | the lines of entry i stand between the lines of the entries before it and those after it |
| PdfService.SummarySection | backend/services/pdfService.js:44-49 | the summary heading and text appear exactly when the summary is non-empty |
| PdfService.ListSection | backend/services/pdfService.js:52-67 | a list section is empty exactly when the list is absent or empty; otherwise it is its heading followed by every entry's lines |
| PdfService.SkillsSection | backend/services/pdfService.js:83-98 | the skills section appears exactly when either list is non-empty, and starts with its heading |
| PdfService.ResumeLines | backend/services/pdfService.js:23-126 | the rendering is never empty and starts with the name line |
| PdfService.HeaderOnly | backend/services/pdfService.js:44-126 | a resume with every section empty renders as its header alone, at most two lines |
| PdfService.SectionOrder | backend/services/pdfService.js:43-126 | sections come in the order header, summary, experience, education, skills, projects, certifications: each present section starts with its heading exactly where all earlier sections end |
| PdfService.WriteExperienceEntries | backend/services/pdfService.js:56-65 | the loop appends, for every experience entry in list order, position, `company \| duration`, description and the technologies line only when technologies is truthy |
| PdfService.WriteExperience | backend/services/pdfService.js:52-67 | appends the experience section as the specification function defines it |
| PdfService.WriteEducationEntries | backend/services/pdfService.js:74-78 | the loop appends `degree in field` and `institution \| graduationYear` for every entry, in order |
| PdfService.WriteEducation | backend/services/pdfService.js:70-80 | appends the education section as the specification function defines it |
| PdfService.WriteProjectsEntries | backend/services/pdfService.js:105-112 | the loop appends every project's lines, in order |
| PdfService.WriteProjects | backend/services/pdfService.js:101-114 | appends the projects section as the specification function defines it |
| PdfService.WriteCertificationsEntries | backend/services/pdfService.js:121-125 | the loop appends every certification's lines, in order |
| PdfService.WriteCertifications | backend/services/pdfService.js:117-126 | appends the certifications section as the specification function defines it |
| PdfService.GenerateResumePdf | backend/services/pdfService.js:4-139 | the lines written are the specified rendering whatever the layout argument; a thrown failure is reported as "PDF generation failed: " followed by the cause; a stream error is passed on |
| PdfDownload.DownloadName | backend/controllers/pdfController.js:27 | the file is `<fullName>_Resume.pdf`, or `Resume_Resume.pdf` when the name is missing or empty |
| PdfDownload.DownloadResume | backend/controllers/pdfController.js:7-40 | 404 for a missing resume; then 403 for another owner's; then 500 "Failed to generate PDF" when the renderer fails or the file name holds a character Node refuses in a header; otherwise the stored resume's rendering under the derived file name |
| PdfDownload.BothEndpointsAgree | backend/controllers/pdfController.js:21-28 | downloading and generating by id give the same content and fail with the same status; they succeed together when both file names can be sent; a name only generate can send makes download fail with 500 while generate succeeds |
| PdfDownload.NonLatinNameRefused | backend/controllers/pdfController.js:25-28 | a full name written in Chinese characters cannot be sent in the attachment header, so its download fails |
| GitHubService.Languages | backend/services/githubService.js:47-55 | the language list has no repeats and holds exactly the non-empty languages of the repositories |
| GitHubService.LanguagesFirstSeen | backend/services/githubService.js:47-55 | more repositories only append languages, so the order is that of first appearance |
| GitHubService.ExtractLanguages | backend/services/githubService.js:47-55 | the set-building loop yields the specified first-seen language list |
| GitHubService.NonForks | backend/services/githubService.js:61 | exactly the repositories that are not forks |
| GitHubService.InsertByStars | backend/services/githubService.js:62 | insertion adds exactly one copy of the repository, as a multiset, and loses none |
| GitHubService.InsertKeepsOrder | backend/services/githubService.js:62 | inserting into a list sorted by stars keeps it sorted |
| GitHubService.SortByStars | backend/services/githubService.js:62 | the sort is a permutation, ordered by stars descending |
| GitHubService.PrefixDominates | backend/services/githubService.js:60-63 | in a star-sorted list no element after a prefix has more stars than one in it |
| GitHubService.TopRepos | backend/services/githubService.js:60-63 | at most five repositories, a prefix of the star-sorted non-forks |
| GitHubService.TopReposSpec | backend/services/githubService.js:60-63 | the top repositories are five, or all non-forks when fewer; none is a fork; they are sorted by stars; no left-out non-fork has more stars than a chosen one |
| GitHubService.RepoToProject | backend/services/githubService.js:64-70 | name kept; description or "No description provided"; technologies is [language] or []; link and github are both the page URL |
| GitHubService.ReposToProjects | backend/services/githubService.js:64-70 | each project is its repository mapped, in order |
| GitHubService.ParseGitHubData | backend/services/githubService.js:58-94 | at most five projects; technical skills are the languages of all repositories, forks included, without repeats; full name is name else login; location, portfolio and summary default to ""; stats are copied |
| GitHubService.ProjectsAreTopRepos | backend/services/githubService.js:60-84 | project i is top repository i mapped |
| GitHubService.ForkLanguageCounted | backend/services/githubService.js:73 | a fork's language is still a technical skill |
| GitHubService.ProfileFetchError | backend/services/githubService.js:14-22 | "GitHub user not found" exactly for 404; the rate-limit message exactly for 403; otherwise the generic profile message |
| GitHubService.ReposFetchError | backend/services/githubService.js:38-43 | the rate-limit message exactly for 403; every other status, 404 included, gives the generic repositories message |
| GitHubService.EnhanceWithGitHub | backend/services/githubService.js:97-106 | succeeds exactly when both fetches do; a profile failure is reported with its message; a repository failure after a good profile is reported with its message; success carries the parsed data |
| GitHubService.ReposUnreadAfterProfileFailure | backend/services/githubService.js:99-100 | when the profile fetch fails, the repository fetch plays no part |
| ProfileController.LinkedinNote | backend/controllers/profileController.js:18-20 | the "saved" note exactly when a non-empty LinkedIn URL was sent, otherwise "No LinkedIn URL provided." |
| ProfileController.ClassifyError | backend/controllers/profileController.js:31-41 | 429 exactly when the message contains "rate limit"; 404 exactly when it does not but contains "not found"; otherwise 500 with the message, or "Failed to enhance profile" when it is empty |
| ProfileController.EnhanceProfile | backend/controllers/profileController.js:6-43 | no username gives 400; a failure is classified; success carries the data, the LinkedIn note, and the URL echoed back or null |
| ProfileController.NoFetchWithoutUsername | backend/controllers/profileController.js:10-12 | without a username the answer does not depend on the GitHub transform, so no fetch happens |
| ProfileController.UnknownUserIs404 | backend/controllers/profileController.js:35-37 | a profile fetch answering 404 ends as 404 "GitHub user not found" |
| ProfileController.RateLimitIs429 | backend/controllers/profileController.js:32-34 | a 403 from either fetch ends as 429 with the rate-limit message |
| ProfileController.RateLimitMessageMatches | backend/services/githubService.js:19 | the rate-limit message contains "rate limit" |
| ProfileController.MissingReposIs500 | backend/controllers/profileController.js:39-41 | a repository fetch answering 404 ends as 500 with the repository message, not 404 |
| ProfileController.OtherProfileFailureIs500 | backend/controllers/profileController.js:39-41 | any other profile failure ends as 500 with the profile message |
| ProfileController.SuccessCarriesParsedData | backend/controllers/profileController.js:15-27 | two good fetches give the parsed data with the LinkedIn note and URL |
| Cors.ConfiguredPieces | backend/server.js:32 | the configured pieces are non-empty and contain no comma |
| Cors.AllowedOrigins | backend/server.js:31-38 | outside production exactly the two localhost origins; in production the non-empty comma pieces, or the default deployment URL when there are none; never empty |
| Cors.CheckOrigin | backend/server.js:42-53 | allowed exactly when there is no origin, it is listed, or "*" is listed; otherwise rejected with "Not allowed by CORS" |
| Cors.DevelopmentAllowsOnlyLocalhost | backend/server.js:31-33 | outside production an origin passes exactly when it is one of the two localhost origins |
| Cors.ConfiguredPiecesRoundTrip | backend/server.js:32 | with no empty pieces, the allow-list joined by commas is the setting itself: no trimming, nothing lost |
| Js.TrimBlank | frontend/src/components/resume-steps/Skills.jsx:21 | a trimmed input is empty exactly when it is all white space, and otherwise has no white space at either end |
| Js.Utf16Length | frontend/src/pages/Register.jsx:28 | `length` counts UTF-16 code units: between the character count and twice it, and equal to it inside the Basic Multilingual Plane |
| EntryList.Initial | frontend/src/components/resume-steps/WorkExperience.jsx:13-17 | the stored list when it is non-empty, else one blank entry; never empty |
| EntryList.Append | frontend/src/components/resume-steps/WorkExperience.jsx:23-28 | the old list followed by one blank entry |
| EntryList.KeepOthersDrops | frontend/src/components/resume-steps/WorkExperience.jsx:32 | filtering out index i removes exactly that entry, or nothing when no entry is there |
| EntryList.RemoveAt | frontend/src/components/resume-steps/WorkExperience.jsx:30-34 | with more than one entry, exactly the entry at the index goes and the rest keep their order; otherwise nothing changes; a non-empty list stays non-empty |
| EntryList.UpdateAt | frontend/src/components/resume-steps/WorkExperience.jsx:36-41 | only the entry at the index changes; an out-of-range index changes nothing |
| EntryList.NeverEmpty | frontend/src/components/resume-steps/WorkExperience.jsx:13-41 | whatever the user adds, removes or edits, the editor's list is never empty |
| EntryList.StaysNonEmpty | frontend/src/components/resume-steps/WorkExperience.jsx:23-41 | a non-empty list stays non-empty under any action sequence |
| EntryList.AddThenRemoveLast | frontend/src/components/resume-steps/WorkExperience.jsx:23-34 | adding an entry and removing it restores the list |
| WorkExperienceStep.SetField | frontend/src/components/resume-steps/WorkExperience.jsx:38 | the named field holds the typed text; every other field is unchanged |
| WorkExperienceStep.InitialExperiences | frontend/src/components/resume-steps/WorkExperience.jsx:13-17 | the stored experience, or one blank entry with every field empty |
| WorkExperienceStep.AddExperience | frontend/src/components/resume-steps/WorkExperience.jsx:23-28 | appends one blank experience entry; length grows by one |
| WorkExperienceStep.RemoveExperience | frontend/src/components/resume-steps/WorkExperience.jsx:30-34 | removes exactly entry i when there are several; never empties the list |
| WorkExperienceStep.UpdateExperience | frontend/src/components/resume-steps/WorkExperience.jsx:36-41 | only the named field of entry i changes; other entries are unchanged; an out-of-range index changes nothing |
| WorkExperienceStep.UpdateWithSameValue | frontend/src/components/resume-steps/WorkExperience.jsx:36-41 | writing a field's own value back leaves the list as it was |
| EducationStep.SetField | frontend/src/components/resume-steps/Education.jsx:37 | the named field holds the typed text; every other field is unchanged |
| EducationStep.InitialEducationList | frontend/src/components/resume-steps/Education.jsx:12-16 | the stored education, or one blank entry |
| EducationStep.AddEducation | frontend/src/components/resume-steps/Education.jsx:22-27 | appends one blank education entry |
| EducationStep.RemoveEducation | frontend/src/components/resume-steps/Education.jsx:29-33 | removes exactly entry i when there are several; never empties the list |
| EducationStep.UpdateEducation | frontend/src/components/resume-steps/Education.jsx:35-40 | only the named field of entry i changes; an out-of-range index changes nothing |
| EducationStep.UpdateWithSameValue | frontend/src/components/resume-steps/Education.jsx:35-40 | writing a field's own value back leaves the list as it was |
| ProjectsStep.SetField | frontend/src/components/resume-steps/Projects.jsx:38 | the named field holds the typed text; every other field is unchanged |
| ProjectsStep.InitialProjects | frontend/src/components/resume-steps/Projects.jsx:13-17 | the stored projects, or one blank entry |
| ProjectsStep.AddProject | frontend/src/components/resume-steps/Projects.jsx:23-28 | appends one blank project |
| ProjectsStep.RemoveProject | frontend/src/components/resume-steps/Projects.jsx:30-34 | removes exactly entry i when there are several; never empties the list |
| ProjectsStep.UpdateProject | frontend/src/components/resume-steps/Projects.jsx:36-41 | only the named field of entry i changes; an out-of-range index changes nothing |
| ProjectsStep.UpdateWithSameValue | frontend/src/components/resume-steps/Projects.jsx:36-41 | writing a field's own value back leaves the list as it was |
| CertificationsStep.SetField | frontend/src/components/resume-steps/Certifications.jsx:34 | the named field holds the typed text; every other field is unchanged |
| CertificationsStep.InitialCertifications | frontend/src/components/resume-steps/Certifications.jsx:12-16 | the stored certifications, or one blank entry |
| CertificationsStep.AddCertification | frontend/src/components/resume-steps/Certifications.jsx:22-24 | appends one blank certification with name, issuer and date empty |
| CertificationsStep.RemoveCertification | frontend/src/components/resume-steps/Certifications.jsx:26-30 | removes exactly entry i when there are several; never empties the list |
| CertificationsStep.UpdateCertification | frontend/src/components/resume-steps/Certifications.jsx:32-37 | only the named field of entry i changes; an out-of-range index changes nothing |
| CertificationsStep.UpdateWithSameValue | frontend/src/components/resume-steps/Certifications.jsx:32-37 | writing a field's own value back leaves the list as it was |
| ResumeContext.WithSection | frontend/src/context/ResumeContext.jsx:39-44 | the named section holds the new content; every other section and the id are unchanged |
| ResumeContext.WithOwnSection | frontend/src/context/ResumeContext.jsx:39-44 | writing back a section's own content changes nothing |
| ResumeContext.StepAfter | frontend/src/context/ResumeContext.jsx:90-106 | next moves forward only below 7; prev moves back only above 0; a jump happens only to 0..7 and otherwise leaves the step; the result stays in 0..7 |
| ResumeContext.StepStaysInRange | frontend/src/context/ResumeContext.jsx:90-106 | from a valid step, any sequence of moves stays within 0..7 |
| ResumeContext.ForwardToLast | frontend/src/context/ResumeContext.jsx:90-94 | from any step, each forward move advances one step until the last, and enough of them reach the last step and stay there |
| ResumeContext.FromStored | frontend/src/context/ResumeContext.jsx:56 | the adopted resume carries the stored document's id |
| ResumeContext.CreateThenAdopt | frontend/src/context/ResumeContext.jsx:54-56 | creating from a draft and adopting the answer gives back the draft with its new id |
| ResumeContext.ResumeBuilder.constructor | frontend/src/context/ResumeContext.jsx:16-37 | the builder starts on step 0 with all-empty fields and the modern layout |
| ResumeContext.ResumeBuilder.NextStep | frontend/src/context/ResumeContext.jsx:90-94 | the step moves forward unless on the last; the resume is untouched |
| ResumeContext.ResumeBuilder.PrevStep | frontend/src/context/ResumeContext.jsx:96-100 | the step moves back unless on the first; the resume is untouched |
| ResumeContext.ResumeBuilder.GoToStep | frontend/src/context/ResumeContext.jsx:102-106 | the step jumps only to 0..7; the resume is untouched |
| ResumeContext.ResumeBuilder.UpdateResumeData | frontend/src/context/ResumeContext.jsx:39-44 | the resume becomes the old one with one section replaced; the step is untouched |
| ResumeContext.ResumeBuilder.Save | frontend/src/context/ResumeContext.jsx:46-66 | an update when the resume has an id, otherwise a create whose answer is adopted; a failure keeps the resume and reports the server's message or the fallback |
| ResumeContext.SaveTwice | frontend/src/context/ResumeContext.jsx:49-57 | after a successful first save, the second save is an update of the created resume |
| SkillsStep.AddSkill | frontend/src/components/resume-steps/Skills.jsx:23-27 | the trimmed input ends up in the list: appended when new, the list unchanged when present; a list without repeats keeps none |
| SkillsStep.RemoveAll | frontend/src/components/resume-steps/Skills.jsx:49 | every copy of the target goes; exactly the other skills remain |
| SkillsStep.RemoveAllConcat | frontend/src/components/resume-steps/Skills.jsx:49 | removal works piecewise, so the kept skills stay in their order |
| SkillsStep.RemoveAllDistinct | frontend/src/components/resume-steps/Skills.jsx:46-51 | removal from a list without repeats leaves none |
| SkillsStep.AddTechnicalSkill | frontend/src/components/resume-steps/Skills.jsx:20-31 | Enter or a click with a non-blank input adds the trimmed skill and clears the box, even for a duplicate; otherwise nothing changes; the soft list is never touched |
| SkillsStep.AddSoftSkill | frontend/src/components/resume-steps/Skills.jsx:33-44 | the same for the soft list; the technical list is never touched |
| SkillsStep.RemoveTechnicalSkill | frontend/src/components/resume-steps/Skills.jsx:46-51 | removes the skill from the technical list only |
| SkillsStep.RemoveSoftSkill | frontend/src/components/resume-steps/Skills.jsx:53-58 | removes the skill from the soft list only |
| SkillsStep.NoDuplicateSkills | frontend/src/components/resume-steps/Skills.jsx:20-58 | lists without repeats never get one, whatever the user types, adds or removes |
| SkillsStep.DuplicateOnlyClearsInput | frontend/src/components/resume-steps/Skills.jsx:23-29 | adding a skill already listed only clears the box |
| PersonalInfoStep.SetField | frontend/src/components/resume-steps/PersonalInfo.jsx:23 | the named field holds the typed value; every other field is unchanged |
| PersonalInfoStep.HandleChange | frontend/src/components/resume-steps/PersonalInfo.jsx:21-27 | only the named field changes; its error is cleared only when it had a non-empty one |
| PersonalInfoStep.ChangeKeepsOtherErrors | frontend/src/components/resume-steps/PersonalInfo.jsx:24-26 | typing adds no error entry and changes no other field's error |
| PersonalInfoStep.GitHubAutoFill | frontend/src/components/resume-steps/PersonalInfo.jsx:29-49 | no data changes nothing; name, location, portfolio and GitHub take a non-empty GitHub value; email, phone and LinkedIn are kept; summary, projects and technical skills are replaced only by non-empty values; soft skills and all other sections are kept |
| PersonalInfoStep.NamelessProfileUsesLogin | frontend/src/components/resume-steps/PersonalInfo.jsx:32-47 | a profile without display name, location, blog, bio or repositories replaces the typed name with the login and sets the GitHub link; the typed location and portfolio and the whole resume are kept |
| JobFilter.FilterJobs | frontend/src/pages/JobRecommendations.jsx:51-56 | the filtered list is never longer than the job list |
| JobFilter.FilterMembers | frontend/src/pages/JobRecommendations.jsx:51-56 | the filtered list holds exactly the jobs the selected filter keeps |
| JobFilter.LocationFilters | frontend/src/pages/JobRecommendations.jsx:53-54 | "remote" keeps exactly the jobs whose lower-cased location contains "remote"; "onsite" keeps exactly the others |
| JobFilter.OtherFiltersKeepAll | frontend/src/pages/JobRecommendations.jsx:52-55 | "all", and any value other than "remote" and "onsite", keeps the list as it is |
| JobFilter.FilterConcat | frontend/src/pages/JobRecommendations.jsx:51 | filtering works piecewise, so kept jobs stay in their order |
| JobFilter.RemoteOnsitePartition | frontend/src/pages/JobRecommendations.jsx:53-54 | the remote and onsite results together are the job list, as a multiset and by count |
| JobFilter.RemoteOnsiteDisjoint | frontend/src/pages/JobRecommendations.jsx:53-54 | no job is both remote and onsite |
| RegisterForm.Validate | frontend/src/pages/Register.jsx:23-31 | passes exactly when the passwords match and the password has at least 6 code units; a mismatch is reported before the length |
| RegisterForm.HandleSubmit | frontend/src/pages/Register.jsx:19-44 | register is called exactly when both checks pass; a failed check shows its message; success navigates home with no error; a failed register shows the returned message |
| RegisterForm.RejectedWithoutCall | frontend/src/pages/Register.jsx:23-35 | when a check fails, the outcome does not depend on the register call |
| RegisterForm.MismatchCheckedFirst | frontend/src/pages/Register.jsx:23-31 | any mismatched pair, whatever its length, is reported as a mismatch and the account call is not made |
| RegisterForm.AstralPasswordLongEnough | frontend/src/pages/Register.jsx:28 | three emoji pass the length check, because `length` counts code units |

## Left out

- **MongoDB persistence.** It is an in-memory map with natural-number ids.
  The `CastError` path (`error.kind === 'ObjectId'` answering 404) has no
  counterpart, because every id is well formed. Database failures answered
  with 500 "Server error" are not modelled.
- **Timestamps.** Mongoose timestamps are a logical clock.
- **ResumeStore.Store.UpdateResume.** It stamps the modification time on
  every successful update. Mongoose leaves `updatedAt` alone when a save
  changes no path.
- **Mongoose casting.** Only the casting of `technologies` from a string to
  an array is modelled. The following are not:
  - casting of values that are not strings;
  - strict-mode dropping of unknown fields;
  - the `_id` of subdocuments.
- **Error body details.** The `error` detail field of 500 bodies and the
  `errors` list of the 400 body are not modelled; the status and the message
  are.
- **The update handler's validation error.** It is modelled as 500
  "Server error" with the store unchanged. The handler has no
  `ValidationError` branch, unlike create's.
- **`null` and `undefined`.** Both are modelled as `None`. `${null}` would
  print "null" where the model prints "undefined".
- **PDFKit drawing.** Fonts, colours, underline, `moveDown` spacing, the rule
  line, the `data`/`end` buffering and `Buffer.concat` are drawing-library
  calls. The renderer is its sequence of text lines. A failure of the library
  is an input (`EngineFault`).
- **The GitHub HTTP calls.** The calls and their query parameters
  (`sort=updated`, `per_page=10`) are left out. The fetches are function
  parameters returning either the payload or the response status.
- **GitHubService.SortByStars.** Its contract proves a permutation sorted by
  stars, but not that equal star counts keep their input order. The insertion
  keeps that order, as the stable `Array.prototype.sort` does, but no lemma
  states it.
- **Case folding.** `toLowerCase` is modelled for ASCII letters only. Unicode
  case folding is left out.
- **State syncing between editors.** The `useEffect` calls that copy each
  editor's local state into the builder's resume are not modelled. The entry
  editors, skills and personal-information functions model the local state;
  `ResumeContext` models the shared one.
- **Adopting a saved resume.** The adopted draft keeps the id and the
  sections. It drops the owner and timestamps of the server's answer, which
  the builder never reads.
- **Timing-based UI state.** Loading flags, the timed clearing of
  success/error messages, navigation and the auth token plumbing are left
  out. Register's account call is a function parameter.
- **Job fetching.** `fetchJobs` and the job service's network calls are left
  out; the filter takes the job list as given.
- **Middleware and start-up.** `helmet`, rate limiting, body parsing and
  server start-up are left out. The production flag and `FRONTEND_URL` are
  parameters of the allow-list.
