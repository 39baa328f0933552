/** The "New Analysis" page: image intake, species choice and the
    analyze handler, which draws a (simulated) diagnosis, shows it, and
    stores a record of it when somebody is signed in.

    Backend calls are inputs: the catalog read arrives as a CatalogReply and
    the insert as an InsertOutcome. The three random draws arrive as reals
    in [0, 1). Each handler is one atomic step. */
module AnalysisPage {
  import opened Types

  const SelectPrompt := "Please select an image and plant species"
  const AnalysisFailed := "Analysis failed. Please try again."
  const AnalysisNote := "Analysis completed"

  // ---------------------------------------------------------------------
  // Stage and severity

  /** The fixed table: entry stage - 1 is the severity of that stage. */
  const Severities: seq<Severity> := [Low, Medium, High, Critical]

  /** The stage a severity stands for, in increasing order of gravity. */
  function StageOf(s: Severity): int {
    match s
    case Low => 1
    case Medium => 2
    case High => 3
    case Critical => 4
  }

  /** Table lookup with the fallback to Low when the stage is off the
      table. Inside 1..4 the lookup is the inverse of StageOf. */
  function SeverityOfStage(stage: int): (s: Severity)
    ensures 1 <= stage <= 4 ==> StageOf(s) == stage
    ensures !(1 <= stage <= 4) ==> s == Low
  {
    if 1 <= stage <= |Severities| then Severities[stage - 1] else Low
  }

  /** StageOf and the table lookup are inverse both ways round. */
  lemma SeverityOfStageOf(s: Severity)
    ensures 1 <= StageOf(s) <= 4
    ensures SeverityOfStage(StageOf(s)) == s
  {
  }

  // ---------------------------------------------------------------------
  // The simulated diagnosis

  /** Three draws of the random source, each in [0, 1). */
  datatype Draws = Draws(disease: real, stage: real, confidence: real)

  predicate ValidDraws(d: Draws) {
    0.0 <= d.disease < 1.0 && 0.0 <= d.stage < 1.0 && 0.0 <= d.confidence < 1.0
  }

  /** floor(u * n): an index into a list of n entries; 0 (off the end)
      when the list is empty. */
  function DrawIndex(u: real, n: nat): (i: int)
    requires 0.0 <= u < 1.0
    ensures 0 <= i
    ensures n == 0 ==> i == 0
    ensures n > 0 ==> i < n
  {
    assert 0.0 <= u * n as real <= n as real;
    assert n > 0 ==> u * n as real < n as real;
    (u * n as real).Floor
  }

  /** floor(u * 4) + 1: the drawn stage is an integer from 1 to 4. */
  function DrawStage(u: real): (stage: int)
    requires 0.0 <= u < 1.0
    ensures 1 <= stage <= 4
  {
    (u * 4.0).Floor + 1
  }

  /** 85 + u * 15, computed on exact reals. */
  function DrawConfidence(u: real): (c: real)
    requires 0.0 <= u < 1.0
    ensures 85.0 <= c < 100.0
  {
    85.0 + u * 15.0
  }

  /** Every stage can be drawn: a draw of (k - 1) / 4 gives stage k. */
  lemma EveryStageDrawable(k: int)
    requires 1 <= k <= 4
    ensures DrawStage((k - 1) as real / 4.0) == k
  {
    assert ((k - 1) as real / 4.0) * 4.0 == (k - 1) as real;
  }

  /** The result shown on the page. A missing disease is what the source
      gets from indexing an empty catalog. */
  datatype Diagnosis = Diagnosis(disease: Option<Disease>, stage: int, severity: Severity, confidence: real)

  /** Picks a disease, a stage, its severity and a confidence from the draws. */
  function Diagnose(catalog: seq<Disease>, d: Draws): (r: Diagnosis)
    requires ValidDraws(d)
    ensures r.disease.Some? <==> |catalog| > 0
    ensures r.disease.Some? ==> r.disease.value in catalog
    ensures 1 <= r.stage <= 4 && StageOf(r.severity) == r.stage
    ensures 85.0 <= r.confidence < 100.0
  {
    var i := DrawIndex(d.disease, |catalog|);
    var stage := DrawStage(d.stage);
    Diagnosis(if i < |catalog| then Some(catalog[i]) else None,
              stage, SeverityOfStage(stage), DrawConfidence(d.confidence))
  }

  // ---------------------------------------------------------------------
  // Backend replies and the insert payload

  /** The catalog read: rows (possibly a null data field) or an exception. */
  datatype CatalogReply = CatalogRows(data: Option<seq<Disease>>) | CatalogThrew

  /** The awaited insert: it succeeds, resolves carrying an error (which the
      handler does not look at), or throws. */
  datatype InsertOutcome = InsertOk | InsertErrorReturned | InsertThrew

  /** The fields of the row the handler asks the backend to insert. */
  datatype NewAnalysis = NewAnalysis(
    userId: string,
    plantSpeciesId: string,
    diseaseId: string,
    diseaseStage: int,
    severity: Severity,
    confidenceScore: real,
    imageUrl: string,
    segmentationData: map<string, bool>,
    notes: string)

  /** A chosen file: its declared media type and the data URI it reads to. */
  datatype FileInfo = FileInfo(mimeType: string, dataUrl: string)

  // ---------------------------------------------------------------------
  // Page state and its transitions

  datatype PageState = PageState(
    isDragging: bool,
    selectedImage: Option<string>,
    isAnalyzing: bool,
    plantSpecies: seq<PlantSpecies>,
    selectedSpecies: string,
    analysisResult: Option<Diagnosis>,
    error: string)

  const InitialPage := PageState(false, None, false, [], "", None, "")

  predicate IsImageType(mimeType: string) {
    "image/" <= mimeType
  }

  /** A null or empty image counts as no image. */
  predicate HasImage(image: Option<string>) {
    image.Some? && image.value != ""
  }

  predicate ReadyToAnalyze(p: PageState) {
    HasImage(p.selectedImage) && p.selectedSpecies != ""
  }

  function DragOverStep(p: PageState): (q: PageState)
    ensures q.isDragging && q.(isDragging := p.isDragging) == p
  {
    p.(isDragging := true)
  }

  function DragLeaveStep(p: PageState): (q: PageState)
    ensures !q.isDragging && q.(isDragging := p.isDragging) == p
  {
    p.(isDragging := false)
  }

  /** A drop ends the drag and takes the file only when it is an image. */
  function DropStep(p: PageState, file: Option<FileInfo>): (q: PageState)
    ensures !q.isDragging
    ensures file.Some? && IsImageType(file.value.mimeType) ==> q.selectedImage == Some(file.value.dataUrl)
    ensures !(file.Some? && IsImageType(file.value.mimeType)) ==> q.selectedImage == p.selectedImage
    ensures q.(isDragging := p.isDragging, selectedImage := p.selectedImage) == p
  {
    var q := p.(isDragging := false);
    if file.Some? && IsImageType(file.value.mimeType) then q.(selectedImage := Some(file.value.dataUrl)) else q
  }

  /** The file picker takes any chosen file; it does not look at the type. */
  function FileInputStep(p: PageState, file: Option<FileInfo>): (q: PageState)
    ensures file.Some? ==> q.selectedImage == Some(file.value.dataUrl)
    ensures file.None? ==> q == p
    ensures q.(selectedImage := p.selectedImage) == p
  {
    if file.Some? then p.(selectedImage := Some(file.value.dataUrl)) else p
  }

  /** The two intake paths agree on image files and differ only in that the
      picker also takes a file of another type. */
  lemma DropAndPickerAgreeOnImages(p: PageState, f: FileInfo)
    ensures IsImageType(f.mimeType) ==> DropStep(p, Some(f)).selectedImage == FileInputStep(p, Some(f)).selectedImage
    ensures !IsImageType(f.mimeType) ==> DropStep(p, Some(f)).selectedImage == p.selectedImage
    ensures FileInputStep(p, Some(f)).selectedImage == Some(f.dataUrl)
  {
  }

  /** The species read: when data arrives the list is stored and the first
      species is preselected, or nothing when the list is empty. */
  function SpeciesLoadStep(p: PageState, data: Option<seq<PlantSpecies>>): (q: PageState)
    ensures data.None? ==> q == p
    ensures data.Some? ==> q.plantSpecies == data.value
    ensures data.Some? && |data.value| > 0 ==> q.selectedSpecies == data.value[0].id
    ensures data.Some? && |data.value| == 0 ==> q.selectedSpecies == ""
    ensures q.(plantSpecies := p.plantSpecies, selectedSpecies := p.selectedSpecies) == p
  {
    match data
    case None => p
    case Some(list) =>
      p.(plantSpecies := list, selectedSpecies := if |list| > 0 then list[0].id else "")
  }

  /** Choosing in the selector: the chosen id becomes the species. */
  function ChooseSpeciesStep(p: PageState, id: string): (q: PageState)
    ensures q.selectedSpecies == id && q.(selectedSpecies := p.selectedSpecies) == p
    ensures ReadyToAnalyze(q) <==> HasImage(p.selectedImage) && id != ""
  {
    p.(selectedSpecies := id)
  }

  /** "Upload New Image" drops both the image and the shown result. */
  function UploadNewStep(p: PageState): (q: PageState)
    ensures q.selectedImage.None? && q.analysisResult.None?
    ensures !ReadyToAnalyze(q)
    ensures q.(selectedImage := p.selectedImage, analysisResult := p.analysisResult) == p
  {
    p.(selectedImage := None, analysisResult := None)
  }

  /** What one run of the analyze handler did: the page while the catalog
      read was awaited (None when validation stopped the run), the page just
      after the result was stored (None when no result was computed; an
      insert may or may not follow), the row it asked to insert, and the
      final page. */
  datatype Run = Run(reading: Option<PageState>, stored: Option<PageState>, inserted: Option<NewAnalysis>, final: PageState)

  /** The row stored for a result: who, which species, which image, the
      result's disease, stage, severity and confidence, and the constant
      segmentation payload and note. */
  function RecordOf(user: User, p: PageState, result: Diagnosis): (rec: NewAnalysis)
    requires p.selectedImage.Some? && result.disease.Some?
    ensures rec.userId == user.id && rec.plantSpeciesId == p.selectedSpecies && Some(rec.imageUrl) == p.selectedImage
    ensures rec.diseaseId == result.disease.value.id && rec.diseaseStage == result.stage
    ensures rec.severity == result.severity && rec.confidenceScore == result.confidence
    ensures rec.segmentationData == map["segmented" := true] && rec.notes == AnalysisNote
    ensures StageOf(result.severity) == result.stage ==> StageOf(rec.severity) == rec.diseaseStage
  {
    NewAnalysis(user.id, p.selectedSpecies, result.disease.value.id, result.stage, result.severity,
                result.confidence, p.selectedImage.value, map["segmented" := true], AnalysisNote)
  }

  /** Whether a run that passed validation reaches the catch: the catalog
      read threw, or, with a user, reading the id of a missing disease threw
      or the insert threw. An error returned by the insert is never looked
      at, and without a user only a throwing catalog read fails. */
  function AnalysisFails(user: Option<User>, catalog: CatalogReply, outcome: InsertOutcome): (fails: bool)
    ensures catalog.CatalogThrew? ==> fails
    ensures user.None? ==> (fails <==> catalog.CatalogThrew?)
    ensures catalog.CatalogRows? && |catalog.data.GetOr([])| == 0 ==> (fails <==> user.Some?)
    ensures catalog.CatalogRows? && |catalog.data.GetOr([])| > 0 ==> (fails <==> user.Some? && outcome.InsertThrew?)
  {
    || catalog.CatalogThrew?
    || (user.Some? && (|catalog.data.GetOr([])| == 0 || outcome.InsertThrew?))
  }

  /** The analyze handler as one step. */
  function AnalyzeStep(p: PageState, user: Option<User>, catalog: CatalogReply, d: Draws, outcome: InsertOutcome): (r: Run)
    requires ValidDraws(d)
    // Validation gates everything: no read, no insert, only the message changes.
    ensures !ReadyToAnalyze(p) ==>
      r.reading.None? && r.stored.None? && r.inserted.None? && r.final == p.(error := SelectPrompt)
    // Past validation the catalog is read with the spinner on and the message
    // cleared, and the spinner is off at the end.
    ensures ReadyToAnalyze(p) ==> r.reading == Some(p.(isAnalyzing := true, error := ""))
    ensures ReadyToAnalyze(p) ==> !r.final.isAnalyzing
    // Past validation the final message is the failure text or empty.
    ensures ReadyToAnalyze(p) ==>
      r.final.error == if AnalysisFails(user, catalog, outcome) then AnalysisFailed else ""
    // The image, the species, the species list and the drag flag never change.
    ensures r.final.selectedImage == p.selectedImage && r.final.selectedSpecies == p.selectedSpecies
    ensures r.final.plantSpecies == p.plantSpecies && r.final.isDragging == p.isDragging
    // A result is stored exactly when the catalog read returned, while the
    // handler is still busy, and it is kept whatever follows.
    ensures r.stored.Some? <==> ReadyToAnalyze(p) && catalog.CatalogRows?
    ensures r.stored.Some? ==>
      && r.stored.value == r.reading.value.(analysisResult := Some(Diagnose(catalog.data.GetOr([]), d)))
      && r.final.analysisResult == r.stored.value.analysisResult
    ensures r.stored.None? ==> r.final.analysisResult == p.analysisResult
    // The stored result is a consistent diagnosis drawn from the catalog.
    ensures r.stored.Some? ==>
      var res := r.stored.value.analysisResult.value;
      && 1 <= res.stage <= 4 && StageOf(res.severity) == res.stage
      && 85.0 <= res.confidence < 100.0
      && (res.disease.Some? <==> |catalog.data.GetOr([])| > 0)
      && (res.disease.Some? ==> res.disease.value in catalog.data.GetOr([]))
    // A row is inserted exactly when a user exists and a disease was drawn,
    // and it copies the stored result.
    ensures r.inserted.Some? <==>
      r.stored.Some? && user.Some? && r.stored.value.analysisResult.value.disease.Some?
    ensures r.inserted.Some? ==>
      var rec, res := r.inserted.value, r.stored.value.analysisResult.value;
      && rec.userId == user.value.id
      && rec.plantSpeciesId == p.selectedSpecies
      && Some(rec.imageUrl) == p.selectedImage
      && rec.diseaseId == res.disease.value.id
      && rec.diseaseStage == res.stage
      && rec.severity == res.severity
      && rec.confidenceScore == res.confidence
      && StageOf(rec.severity) == rec.diseaseStage
      && rec == RecordOf(user.value, p, res)
  {
    if !ReadyToAnalyze(p) then
      Run(None, None, None, p.(error := SelectPrompt))
    else
      var started := p.(isAnalyzing := true, error := "");
      match catalog
      case CatalogThrew =>
        Run(Some(started), None, None, started.(error := AnalysisFailed).(isAnalyzing := false))
      case CatalogRows(data) =>
        var result := Diagnose(data.GetOr([]), d);
        var stored := started.(analysisResult := Some(result));
        if user.Some? && p.selectedSpecies != "" then
          if result.disease.None? then
            Run(Some(started), Some(stored), None, stored.(error := AnalysisFailed).(isAnalyzing := false))
          else
            var settled := if outcome.InsertThrew? then stored.(error := AnalysisFailed) else stored;
            Run(Some(started), Some(stored), Some(RecordOf(user.value, p, result)), settled.(isAnalyzing := false))
        else
          Run(Some(started), Some(stored), None, stored.(isAnalyzing := false))
  }

  /** The condition under which the page renders the result cards: an
      image, the spinner off and a stored result. The cards then read the
      result's disease, so a disease-less result throws while rendering. */
  predicate ResultCardsShown(p: PageState) {
    HasImage(p.selectedImage) && !p.isAnalyzing && p.analysisResult.Some?
  }

  /** While the handler is busy the result-card condition is false; on the
      final page it holds for the stored result, which lacks a disease
      exactly when the catalog was empty. */
  lemma ResultCardsWaitForSpinner(p: PageState, user: Option<User>, catalog: CatalogReply, d: Draws, outcome: InsertOutcome)
    requires ValidDraws(d)
    ensures var r := AnalyzeStep(p, user, catalog, d, outcome);
      r.stored.Some? ==>
        && !ResultCardsShown(r.reading.value)
        && !ResultCardsShown(r.stored.value)
        && ResultCardsShown(r.final)
        && r.final.analysisResult == r.stored.value.analysisResult
        && (r.final.analysisResult.value.disease.None? <==> |catalog.data.GetOr([])| == 0)
  {
  }

  /** After "Upload New Image" the analyze handler only reports the prompt. */
  lemma AnalyzeAfterUploadNewRejected(p: PageState, user: Option<User>, catalog: CatalogReply, d: Draws, outcome: InsertOutcome)
    requires ValidDraws(d)
    ensures var r := AnalyzeStep(UploadNewStep(p), user, catalog, d, outcome);
      r.reading.None? && r.inserted.None? && r.final.error == SelectPrompt
  {
  }

  /** Without a user nothing is ever inserted and, when the catalog read
      returns, the run ends without an error message. */
  lemma AnalyzeSignedOutNeverInserts(p: PageState, catalog: CatalogReply, d: Draws, outcome: InsertOutcome)
    requires ValidDraws(d)
    ensures var r := AnalyzeStep(p, None, catalog, d, outcome);
      r.inserted.None? && (ReadyToAnalyze(p) && catalog.CatalogRows? ==> r.final.error == "")
  {
  }

  /** A failed insert leaves the stored result in place: the run differs
      from a successful one only in its message. */
  lemma InsertFailureKeepsResult(p: PageState, u: User, catalog: CatalogReply, d: Draws)
    requires ValidDraws(d)
    ensures var ok, bad := AnalyzeStep(p, Some(u), catalog, d, InsertOk), AnalyzeStep(p, Some(u), catalog, d, InsertThrew);
      && bad.inserted == ok.inserted
      && bad.final.analysisResult == ok.final.analysisResult
      && bad.final.(error := ok.final.error) == ok.final
  {
  }

  // ---------------------------------------------------------------------
  // The page component

  class Component {
    var isDragging: bool
    var selectedImage: Option<string>
    var isAnalyzing: bool
    var plantSpecies: seq<PlantSpecies>
    var selectedSpecies: string
    var analysisResult: Option<Diagnosis>
    var error: string

    function State(): PageState
      reads this
    {
      PageState(isDragging, selectedImage, isAnalyzing, plantSpecies, selectedSpecies, analysisResult, error)
    }

    constructor ()
      ensures State() == InitialPage
    {
      isDragging, selectedImage, isAnalyzing := false, None, false;
      plantSpecies, selectedSpecies, analysisResult, error := [], "", None, "";
    }

    method HandleDragOver()
      modifies this
      ensures State() == DragOverStep(old(State()))
    {
      isDragging := true;
    }

    method HandleDragLeave()
      modifies this
      ensures State() == DragLeaveStep(old(State()))
    {
      isDragging := false;
    }

    /** The drop handler, with the file read completing in the same step. */
    method HandleDrop(file: Option<FileInfo>)
      modifies this
      ensures State() == DropStep(old(State()), file)
    {
      isDragging := false;
      if file.Some? && IsImageType(file.value.mimeType) {
        selectedImage := Some(file.value.dataUrl);
      }
    }

    method HandleFileInput(file: Option<FileInfo>)
      modifies this
      ensures State() == FileInputStep(old(State()), file)
    {
      if file.Some? {
        selectedImage := Some(file.value.dataUrl);
      }
    }

    /** The species read on mount; data is the reply's data field. */
    method FetchSpecies(data: Option<seq<PlantSpecies>>)
      modifies this
      ensures State() == SpeciesLoadStep(old(State()), data)
    {
      if data.Some? {
        plantSpecies := data.value;
        selectedSpecies := if |data.value| > 0 then data.value[0].id else "";
      }
    }

    method ChooseSpecies(id: string)
      modifies this
      ensures State() == ChooseSpeciesStep(old(State()), id)
    {
      selectedSpecies := id;
    }

    method UploadNewImage()
      modifies this
      ensures State() == UploadNewStep(old(State()))
    {
      selectedImage := None;
      analysisResult := None;
    }

    /** The analyze handler: validate, read the catalog, show the result,
        insert when signed in, then report a failure and clear the spinner. */
    method HandleAnalyze(user: Option<User>, catalog: CatalogReply, d: Draws, outcome: InsertOutcome)
      returns (catalogRequested: bool, inserted: Option<NewAnalysis>)
      requires ValidDraws(d)
      modifies this
      ensures var r := AnalyzeStep(old(State()), user, catalog, d, outcome);
        State() == r.final && catalogRequested == r.reading.Some? && inserted == r.inserted
    {
      catalogRequested, inserted := false, None;
      if !HasImage(selectedImage) || selectedSpecies == "" {
        error := SelectPrompt;
        return;
      }
      isAnalyzing := true;
      error := "";
      catalogRequested := true;
      match catalog {
        case CatalogThrew =>
          error := AnalysisFailed;
        case CatalogRows(data) =>
          var diseaseList := if data.Some? then data.value else [];
          var index := DrawIndex(d.disease, |diseaseList|);
          var disease := if index < |diseaseList| then Some(diseaseList[index]) else None;
          var stage := DrawStage(d.stage);
          var severity := SeverityOfStage(stage);
          var result := Diagnosis(disease, stage, severity, DrawConfidence(d.confidence));
          analysisResult := Some(result);
          if user.Some? && selectedSpecies != "" {
            if disease.None? {
              // reading the id of the missing disease throws
              error := AnalysisFailed;
            } else {
              inserted := Some(NewAnalysis(user.value.id, selectedSpecies, disease.value.id, stage, severity,
                                           result.confidence, selectedImage.value, map["segmented" := true],
                                           AnalysisNote));
              if outcome.InsertThrew? {
                error := AnalysisFailed;
              }
            }
          }
      }
      isAnalyzing := false;
    }
  }
}
