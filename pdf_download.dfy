/**
 * GET /api/pdf/download/:resumeId: renders a stored resume with its own
 * layout and names the attachment after the resume's owner.
 */
module PdfDownload {
  import opened Wrappers
  import opened Js
  import opened ResumeModel
  import opened ResumeStore
  import PdfService

  /** The attachment's name: the full name, or "Resume" when it is absent or empty, followed by "_Resume.pdf". */
  function DownloadName(p: PersonalInfo): (name: string)
    ensures Truthy(p.fullName) ==> name == p.fullName.value + "_Resume.pdf"
    ensures !Truthy(p.fullName) ==> name == "Resume_Resume.pdf"
  {
    Or(p.fullName, "Resume") + "_Resume.pdf"
  }

  /**
   * The download handler: 404 for a missing resume, then 403 for another
   * user's, then the rendering. A failing renderer is answered with 500, and
   * so is a name Node refuses in the attachment header, since setting the
   * header throws inside the same `try`.
   */
  method DownloadResume(store: ResumeStore.Store, caller: UserId, id: ResumeId, fault: PdfService.EngineFault)
    returns (r: Result<PdfFile, HttpError>)
    requires store.Valid()
    ensures id !in store.docs ==> r == Err(NotFound)
    ensures id in store.docs && store.docs[id].userId != caller ==>
      r == Err(HttpError(403, "Not authorized to download this resume"))
    ensures id in store.docs && store.docs[id].userId == caller
            && (!fault.NoFault? || !HeaderSafe(DownloadName(store.docs[id].personalInfo))) ==>
      r == Err(HttpError(500, "Failed to generate PDF"))
    ensures id in store.docs && store.docs[id].userId == caller
            && fault.NoFault? && HeaderSafe(DownloadName(store.docs[id].personalInfo)) ==>
      r == Ok(PdfFile(PdfService.ResumeLines(AsFields(store.docs[id])), DownloadName(store.docs[id].personalInfo)))
  {
    var found := Authorize(store.docs, caller, id, "Not authorized to download this resume");
    if found.Err? {
      return Err(found.error);
    }
    var doc := found.value;
    var rendered := PdfService.GenerateResumePdf(AsFields(doc), LayoutName(doc.layoutType), fault);
    if rendered.Err? {
      return Err(HttpError(500, "Failed to generate PDF"));
    }
    var filename := DownloadName(doc.personalInfo);
    ContentDispositionSafe(filename);
    if !HeaderSafe(ContentDisposition(filename)) {
      return Err(HttpError(500, "Failed to generate PDF"));
    }
    r := Ok(PdfFile(rendered.value, filename));
  }

  /**
   * Downloading a resume and rendering it through the resume endpoint by its
   * identifier give the same content, and fail with the same status when
   * both fail. They succeed together whenever both attachment names can be
   * sent; a name only one endpoint can send makes only that one succeed.
   */
  method BothEndpointsAgree(store: ResumeStore.Store, caller: UserId, id: ResumeId, layoutType: OptStr)
    returns (downloaded: Result<PdfFile, HttpError>, generated: Result<PdfFile, HttpError>)
    requires store.Valid()
    ensures downloaded.Ok? && generated.Ok? ==> downloaded.value.content == generated.value.content
    ensures downloaded.Err? && generated.Err? ==> downloaded.error.status == generated.error.status
    ensures HeaderSafe(GeneratedName(layoutType))
            && (id in store.docs ==> HeaderSafe(DownloadName(store.docs[id].personalInfo))) ==>
      (downloaded.Ok? <==> generated.Ok?)
    ensures id in store.docs && store.docs[id].userId == caller
            && HeaderSafe(GeneratedName(layoutType)) && !HeaderSafe(DownloadName(store.docs[id].personalInfo)) ==>
      downloaded == Err(HttpError(500, "Failed to generate PDF")) && generated.Ok?
  {
    downloaded := DownloadResume(store, caller, id, PdfService.NoFault);
    generated := store.GeneratePdf(caller, Some(id), None, layoutType, PdfService.NoFault);
  }

  /** A name outside Latin-1, such as a name written in Chinese characters, cannot be sent as the attachment name. */
  lemma NonLatinNameRefused(p: PersonalInfo)
    requires p.fullName == Some("\U{674E}\U{96F7}")
    ensures !HeaderSafe(DownloadName(p))
  {
    assert !HeaderChar(DownloadName(p)[0]);
  }
}
