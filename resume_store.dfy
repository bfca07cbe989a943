/**
 * The resume collection and its handlers: create, list the caller's resumes
 * newest first, get, update, delete, and render a stored or inline resume.
 * Every handler that names a stored resume decides in the same order: a
 * missing document is a 404 before anything else, a document of another
 * user is a 403, and only then does the handler read or change it.
 */
module ResumeStore {
  import opened Wrappers
  import opened Js
  import opened ResumeModel
  import PdfService

  const NotFound := HttpError(404, "Resume not found")

  /** A rendered resume as the PDF endpoint sends it: its content and the attachment's file name. */
  datatype PdfFile = PdfFile(content: seq<string>, filename: string)

  /** The `Content-Disposition` header value both PDF endpoints send. */
  function ContentDisposition(filename: string): string {
    "attachment; filename=\"" + filename + "\""
  }

  /** The header can be set exactly when the file name holds only characters Node accepts in a header. */
  lemma ContentDispositionSafe(filename: string)
    ensures HeaderSafe(ContentDisposition(filename)) <==> HeaderSafe(filename)
  {
    HeaderSafeConcat("attachment; filename=\"", filename);
    HeaderSafeConcat("attachment; filename=\"" + filename, "\"");
    assert HeaderSafe("attachment; filename=\"") by {
      var h := "attachment; filename=\"";
      forall i | 0 <= i < |h| ensures HeaderChar(h[i]) {
      }
    }
    assert HeaderSafe("\"");
  }

  /** The generate endpoint's attachment name: `resume-${layoutType}.pdf`, with "undefined" for an absent layout. */
  function GeneratedName(layoutType: OptStr): string {
    "resume-" + Interpolate(layoutType) + ".pdf"
  }

  // -----------------------------------------------------------------------
  // Pure decisions

  /** The schema's enum check passes: an absent or empty layout falls back to the default, any other must be one of the four. */
  predicate LayoutAccepted(body: ResumeFields) {
    !Truthy(body.layoutType) || ParseLayout(body.layoutType.value).Some?
  }

  /** The layout a body asks for, the default when it asks for none. */
  function RequestedLayout(body: ResumeFields): (l: LayoutType)
    requires LayoutAccepted(body)
    ensures Truthy(body.layoutType) ==> LayoutName(l) == body.layoutType.value
    ensures !Truthy(body.layoutType) ==> l == DefaultLayout
  {
    if Truthy(body.layoutType) then ParseLayout(body.layoutType.value).value else DefaultLayout
  }

  /**
   * The document `Resume.create` stores for a create body: owned by the
   * caller, each missing list empty, missing skills both empty, missing
   * personal information empty, and every entry cast to the schema's shape.
   */
  function NewResume(id: ResumeId, owner: UserId, body: ResumeFields, now: nat): (r: Resume)
    requires LayoutAccepted(body)
    ensures r.id == id && r.userId == owner && r.createdAt == now && r.updatedAt == now
    ensures SchemaShaped(r.experience, r.projects)
    ensures r.summary == body.summary
  {
    Resume(
      id, owner,
      if body.personalInfo.Some? then body.personalInfo.value else NoPersonalInfo,
      body.summary,
      CastExperienceList(if body.experience.Some? then body.experience.value else []),
      if body.education.Some? then body.education.value else [],
      if body.skills.Some? then body.skills.value else NoSkills,
      CastProjectList(if body.projects.Some? then body.projects.value else []),
      if body.certifications.Some? then body.certifications.value else [],
      RequestedLayout(body),
      now, now)
  }

  /** A body that sends every field, entries already in stored form and a valid layout, is read back unchanged. */
  lemma CreateRoundTrip(id: ResumeId, owner: UserId, body: ResumeFields, now: nat)
    requires body.personalInfo.Some? && body.experience.Some? && body.education.Some?
    requires body.skills.Some? && body.projects.Some? && body.certifications.Some?
    requires body.layoutType.Some? && ParseLayout(body.layoutType.value).Some?
    requires SchemaShaped(body.experience.value, body.projects.value)
    ensures AsFields(NewResume(id, owner, body, now)) == body
  {
    CastIdempotent(body.experience.value, body.projects.value);
  }

  /** An empty create body gives the empty document with the default layout. */
  lemma CreateDefaults(id: ResumeId, owner: UserId, now: nat)
    ensures NewResume(id, owner, NoFields, now)
      == Resume(id, owner, NoPersonalInfo, None, [], [], NoSkills, [], [], Modern, now, now)
  {
  }

  /**
   * The update handler's field rule: a field replaces the stored one only when
   * the body's value is truthy. Absent fields, an empty summary and an empty
   * layout keep what is stored; an empty array is truthy and replaces.
   */
  function ApplyUpdate(r: Resume, body: ResumeFields, now: nat): (u: Resume)
    requires LayoutAccepted(body)
    ensures u.id == r.id && u.userId == r.userId && u.createdAt == r.createdAt && u.updatedAt == now
    ensures SchemaShaped(r.experience, r.projects) ==> SchemaShaped(u.experience, u.projects)
  {
    r.(
      personalInfo := if body.personalInfo.Some? then body.personalInfo.value else r.personalInfo,
      summary := if Truthy(body.summary) then body.summary else r.summary,
      experience := if body.experience.Some? then CastExperienceList(body.experience.value) else r.experience,
      education := if body.education.Some? then body.education.value else r.education,
      skills := if body.skills.Some? then body.skills.value else r.skills,
      projects := if body.projects.Some? then CastProjectList(body.projects.value) else r.projects,
      certifications := if body.certifications.Some? then body.certifications.value else r.certifications,
      layoutType := if Truthy(body.layoutType) then RequestedLayout(body) else r.layoutType,
      updatedAt := now)
  }

  /** The document with its modification time set aside. */
  function Content(r: Resume): Resume {
    r.(updatedAt := 0)
  }

  /** Sending a body that carries no truthy field changes nothing but the modification time. */
  lemma EmptyUpdateKeepsContent(r: Resume, body: ResumeFields, now: nat)
    requires body.personalInfo.None? && !Truthy(body.summary) && body.experience.None?
    requires body.education.None? && body.skills.None? && body.projects.None?
    requires body.certifications.None? && !Truthy(body.layoutType)
    ensures Content(ApplyUpdate(r, body, now)) == Content(r)
    ensures ApplyUpdate(r, body, now).updatedAt == now
  {
  }

  /** Sending the same update twice leaves the document as sending it once. */
  lemma UpdateIdempotent(r: Resume, body: ResumeFields, t1: nat, t2: nat)
    requires LayoutAccepted(body)
    ensures ApplyUpdate(ApplyUpdate(r, body, t1), body, t2) == ApplyUpdate(r, body, t2)
  {
    var once := ApplyUpdate(r, body, t1);
    if body.experience.Some? {
      CastIdempotent(once.experience, []);
    }
    if body.projects.Some? {
      CastIdempotent([], once.projects);
    }
  }

  /** A supplied truthy field is what the document holds afterwards, cast to the schema's shape. */
  lemma UpdateTakesSuppliedFields(r: Resume, body: ResumeFields, now: nat)
    requires LayoutAccepted(body)
    requires body.personalInfo.Some? && Truthy(body.summary) && body.experience.Some?
    requires body.education.Some? && body.skills.Some? && body.projects.Some?
    requires body.certifications.Some? && Truthy(body.layoutType)
    requires SchemaShaped(body.experience.value, body.projects.value)
    ensures AsFields(ApplyUpdate(r, body, now)) == body
  {
    CastIdempotent(body.experience.value, body.projects.value);
  }

  /**
   * The existence-then-ownership decision shared by the handlers that name a
   * stored resume: a missing document is a 404, another user's a 403 with the
   * handler's own message, and only the owner receives the document.
   */
  function Authorize(docs: map<ResumeId, Resume>, caller: UserId, id: ResumeId, forbidden: string)
    : (r: Result<Resume, HttpError>)
    ensures r == Err(NotFound) <==> id !in docs
    ensures r == Err(HttpError(403, forbidden)) <==> id in docs && docs[id].userId != caller
    ensures r.Ok? <==> id in docs && docs[id].userId == caller
    ensures r.Ok? ==> r.value == docs[id]
  {
    if id !in docs then Err(NotFound)
    else if docs[id].userId != caller then Err(HttpError(403, forbidden))
    else Ok(docs[id])
  }

  /** Resumes ordered by modification time, newest first, with no two at the same time. */
  predicate NewestFirst(s: seq<Resume>) {
    forall i, j :: 0 <= i < j < |s| ==> s[i].updatedAt > s[j].updatedAt
  }

  /** Inserts a resume into a newest-first list at the place its modification time calls for. */
  function InsertByRecency(s: seq<Resume>, x: Resume): (r: seq<Resume>)
    requires NewestFirst(s)
    requires forall y :: y in s ==> y.updatedAt != x.updatedAt
    ensures NewestFirst(r)
    ensures |r| == |s| + 1
    ensures forall y :: y in r <==> y in s || y == x
    ensures r[0] == x || r[0] == s[0]
  {
    if s == [] || x.updatedAt > s[0].updatedAt then [x] + s
    else [s[0]] + InsertByRecency(s[1..], x)
  }

  // -----------------------------------------------------------------------
  // The collection

  class Store {
    /** The stored documents by identifier. */
    var docs: map<ResumeId, Resume>
    /** The logical clock that stamps creations and updates. */
    var clock: nat
    /** The identifier the next created document receives. */
    var nextId: ResumeId

    /**
     * Every document is filed under its own identifier, below the next one to
     * hand out, stamped before the current clock, with its entries in the
     * schema's shape; no two documents share a modification time.
     */
    predicate Valid()
      reads this
    {
      && (forall k :: k in docs ==>
            && docs[k].id == k && k < nextId
            && docs[k].createdAt <= docs[k].updatedAt < clock
            && SchemaShaped(docs[k].experience, docs[k].projects))
      && (forall a, b :: a in docs && b in docs && a != b ==> docs[a].updatedAt != docs[b].updatedAt)
    }

    constructor ()
      ensures Valid()
      ensures docs == map[]
    {
      docs := map[];
      clock := 0;
      nextId := 0;
    }

    /** POST /api/resumes: stores a new document owned by the caller, or answers 400 when the layout is not one of the four. */
    method Create(caller: UserId, body: ResumeFields) returns (r: Result<Resume, HttpError>)
      requires Valid()
      modifies this
      ensures Valid()
      ensures !LayoutAccepted(body) ==> r == Err(HttpError(400, "Validation Error")) && docs == old(docs)
      ensures LayoutAccepted(body) ==>
        && r == Ok(NewResume(old(nextId), caller, body, old(clock)))
        && r.value.id !in old(docs)
        && docs == old(docs)[r.value.id := r.value]
    {
      if !LayoutAccepted(body) {
        return Err(HttpError(400, "Validation Error"));
      }
      var doc := NewResume(nextId, caller, body, clock);
      docs := docs[nextId := doc];
      nextId := nextId + 1;
      clock := clock + 1;
      r := Ok(doc);
    }

    /**
     * GET /api/resumes/:userId: a caller may list only their own resumes;
     * the list holds each of them once, as stored, newest first.
     */
    method ListResumes(caller: UserId, userId: UserId) returns (r: Result<seq<Resume>, HttpError>)
      requires Valid()
      ensures userId != caller ==> r == Err(HttpError(403, "Not authorized to access these resumes"))
      ensures userId == caller ==> r.Ok? && NewestFirst(r.value)
      ensures r.Ok? ==> forall x :: x in r.value ==> x.id in docs && docs[x.id] == x && x.userId == caller
      ensures r.Ok? ==> forall k :: k in docs && docs[k].userId == caller ==> docs[k] in r.value
    {
      if userId != caller {
        return Err(HttpError(403, "Not authorized to access these resumes"));
      }
      var keys := docs.Keys;
      var acc: seq<Resume> := [];
      while keys != {}
        invariant keys <= docs.Keys
        invariant NewestFirst(acc)
        invariant forall x :: x in acc ==> x.id in docs && docs[x.id] == x && x.userId == userId && x.id !in keys
        invariant forall k :: k in docs && k !in keys && docs[k].userId == userId ==> docs[k] in acc
        decreases keys
      {
        var k :| k in keys;
        var doc := docs[k];
        if doc.userId == userId {
          acc := InsertByRecency(acc, doc);
        }
        keys := keys - {k};
      }
      r := Ok(acc);
    }

    /** GET /api/resumes/single/:id */
    method GetResume(caller: UserId, id: ResumeId) returns (r: Result<Resume, HttpError>)
      requires Valid()
      ensures r == Authorize(docs, caller, id, "Not authorized to access this resume")
    {
      r := Authorize(docs, caller, id, "Not authorized to access this resume");
    }

    /**
     * PUT /api/resumes/:id: after the 404 and 403 checks, applies the truthy
     * fields of the body. A layout outside the enumeration fails the save,
     * which this handler answers with 500, leaving the document as it was.
     */
    method UpdateResume(caller: UserId, id: ResumeId, body: ResumeFields) returns (r: Result<Resume, HttpError>)
      requires Valid()
      modifies this
      ensures Valid()
      ensures id !in old(docs) ==> r == Err(NotFound)
      ensures id in old(docs) && old(docs)[id].userId != caller ==>
        r == Err(HttpError(403, "Not authorized to update this resume"))
      ensures id in old(docs) && old(docs)[id].userId == caller && !LayoutAccepted(body) ==>
        r == Err(HttpError(500, "Server error"))
      ensures r.Err? ==> docs == old(docs)
      ensures id in old(docs) && old(docs)[id].userId == caller && LayoutAccepted(body) ==>
        && r == Ok(ApplyUpdate(old(docs)[id], body, old(clock)))
        && docs == old(docs)[id := r.value]
    {
      var found := Authorize(docs, caller, id, "Not authorized to update this resume");
      if found.Err? {
        return Err(found.error);
      }
      if !LayoutAccepted(body) {
        return Err(HttpError(500, "Server error"));
      }
      var updated := ApplyUpdate(found.value, body, clock);
      docs := docs[id := updated];
      clock := clock + 1;
      r := Ok(updated);
    }

    /** DELETE /api/resumes/:id: after the 404 and 403 checks, removes the document and nothing else. */
    method DeleteResume(caller: UserId, id: ResumeId) returns (r: Result<string, HttpError>)
      requires Valid()
      modifies this
      ensures Valid()
      ensures id !in old(docs) ==> r == Err(NotFound)
      ensures id in old(docs) && old(docs)[id].userId != caller ==>
        r == Err(HttpError(403, "Not authorized to delete this resume"))
      ensures r.Err? ==> docs == old(docs)
      ensures id in old(docs) && old(docs)[id].userId == caller ==>
        r == Ok("Resume deleted successfully") && docs == old(docs) - {id}
    {
      var found := Authorize(docs, caller, id, "Not authorized to delete this resume");
      if found.Err? {
        return Err(found.error);
      }
      docs := docs - {id};
      r := Ok("Resume deleted successfully");
    }

    /**
     * POST /api/resumes/generate-pdf: a stored resume named by `resumeId`
     * takes precedence over inline `resumeData`; with neither the answer is
     * 400. The renderer gets `layoutType || 'modern'`, while the file name
     * interpolates `layoutType` as sent, "undefined" when it is absent.
     * Setting the attachment header throws when that name holds a character
     * Node refuses in a header, and the handler answers 500 as it does for a
     * renderer failure.
     */
    method GeneratePdf(caller: UserId, resumeId: Option<ResumeId>, resumeData: Option<ResumeFields>,
                       layoutType: OptStr, fault: PdfService.EngineFault)
      returns (r: Result<PdfFile, HttpError>)
      requires Valid()
      ensures resumeId.Some? && resumeId.value !in docs ==> r == Err(NotFound)
      ensures resumeId.Some? && resumeId.value in docs && docs[resumeId.value].userId != caller ==>
        r == Err(HttpError(403, "Not authorized to access this resume"))
      ensures resumeId.None? && resumeData.None? ==> r == Err(HttpError(400, "Resume data or ID is required"))
      ensures r.Ok? <==>
        && fault.NoFault?
        && HeaderSafe(GeneratedName(layoutType))
        && (resumeId.Some? ==> resumeId.value in docs && docs[resumeId.value].userId == caller)
        && (resumeId.Some? || resumeData.Some?)
      ensures r.Err? && r.error.status == 500 <==>
        && (!fault.NoFault? || !HeaderSafe(GeneratedName(layoutType)))
        && (resumeId.Some? ==> resumeId.value in docs && docs[resumeId.value].userId == caller)
        && (resumeId.Some? || resumeData.Some?)
      ensures r.Err? && r.error.status == 500 ==> r.error.message == "Error generating PDF"
      ensures r.Ok? && resumeId.Some? ==> r.value.content == PdfService.ResumeLines(AsFields(docs[resumeId.value]))
      ensures r.Ok? && resumeId.None? ==> r.value.content == PdfService.ResumeLines(resumeData.value)
      ensures r.Ok? ==> r.value.filename == GeneratedName(layoutType)
    {
      var data := resumeData;
      if resumeId.Some? {
        var found := Authorize(docs, caller, resumeId.value, "Not authorized to access this resume");
        if found.Err? {
          return Err(found.error);
        }
        data := Some(AsFields(found.value));
      }
      if data.None? {
        return Err(HttpError(400, "Resume data or ID is required"));
      }
      var rendered := PdfService.GenerateResumePdf(data.value, Or(layoutType, "modern"), fault);
      if rendered.Err? {
        return Err(HttpError(500, "Error generating PDF"));
      }
      var filename := GeneratedName(layoutType);
      ContentDispositionSafe(filename);
      if !HeaderSafe(ContentDisposition(filename)) {
        return Err(HttpError(500, "Error generating PDF"));
      }
      r := Ok(PdfFile(rendered.value, filename));
    }
  }

  // -----------------------------------------------------------------------
  // Sequences of requests

  /** A created resume is what its owner reads back, and another user is refused it. */
  method CreateThenGet(store: Store, owner: UserId, other: UserId, body: ResumeFields)
    returns (created: Result<Resume, HttpError>, fetched: Result<Resume, HttpError>,
             refused: Result<Resume, HttpError>)
    requires store.Valid()
    requires other != owner
    modifies store
    ensures store.Valid()
    ensures created.Ok? ==> fetched == created
    ensures created.Ok? ==> refused == Err(HttpError(403, "Not authorized to access this resume"))
  {
    created := store.Create(owner, body);
    fetched := Err(NotFound);
    refused := Err(NotFound);
    if created.Ok? {
      fetched := store.GetResume(owner, created.value.id);
      refused := store.GetResume(other, created.value.id);
    }
  }

  /** Once deleted, a resume is not found by get, update, delete or render. */
  method DeleteThenAccess(store: Store, caller: UserId, id: ResumeId, body: ResumeFields)
    returns (deleted: Result<string, HttpError>, fetched: Result<Resume, HttpError>,
             updated: Result<Resume, HttpError>, again: Result<string, HttpError>,
             rendered: Result<PdfFile, HttpError>)
    requires store.Valid()
    modifies store
    ensures store.Valid()
    ensures deleted.Ok? ==>
      fetched == Err(NotFound) && updated == Err(NotFound) && again == Err(NotFound) && rendered == Err(NotFound)
  {
    deleted := store.DeleteResume(caller, id);
    fetched := store.GetResume(caller, id);
    updated := store.UpdateResume(caller, id, body);
    again := store.DeleteResume(caller, id);
    rendered := store.GeneratePdf(caller, Some(id), Some(body), None, PdfService.NoFault);
  }
}
