/** Records shared by the pages of the client: the signed-in user, the
    reference catalog entries and a stored analysis. */
module Types {

  datatype Option<+T> = None | Some(value: T) {
    function GetOr(default: T): T {
      match this
      case Some(v) => v
      case None => default
    }
  }

  /** The authenticated identity handed to the pages by the session store.
      The free-form metadata record is kept as a string-to-string map. */
  datatype User = User(id: string, email: string, userMetadata: Option<map<string, string>>)

  /** Reference data: a plant species and the ids of its usual diseases. */
  datatype PlantSpecies = PlantSpecies(
    id: string,
    name: string,
    scientificName: string,
    description: string,
    commonDiseases: seq<string>)

  /** The four ordered stage descriptions of a disease. */
  datatype Stages = Stages(stage1: string, stage2: string, stage3: string, stage4: string)

  datatype TreatmentStep = TreatmentStep(step: int, action: string)

  /** Reference data: one entry of the disease catalog. */
  datatype Disease = Disease(
    id: string,
    name: string,
    description: string,
    stages: Stages,
    treatment: seq<TreatmentStep>)

  /** The severity union of a stored analysis. */
  datatype Severity = Low | Medium | High | Critical

  /** A stored analysis row, with the optional joined species and disease.
      The confidence score is carried as an opaque real number, and the
      free-form segmentation payload as a string-to-boolean map. */
  datatype Analysis = Analysis(
    id: string,
    userId: string,
    plantSpeciesId: string,
    diseaseId: string,
    diseaseStage: int,
    severity: Severity,
    confidenceScore: real,
    imageUrl: string,
    segmentationData: map<string, bool>,
    treatmentApplied: string,
    notes: string,
    createdAt: string,
    updatedAt: string,
    plantSpecies: Option<PlantSpecies>,
    disease: Option<Disease>)

  /** The text the client uses for a severity value. */
  function SeverityName(s: Severity): string {
    match s
    case Low => "Low"
    case Medium => "Medium"
    case High => "High"
    case Critical => "Critical"
  }

  /** Reads a severity back from its text; anything else is not a severity. */
  function SeverityFromName(name: string): (r: Option<Severity>)
    ensures r.Some? ==> SeverityName(r.value) == name
    ensures forall s :: SeverityName(s) == name ==> r == Some(s)
  {
    if name == "Low" then Some(Low)
    else if name == "Medium" then Some(Medium)
    else if name == "High" then Some(High)
    else if name == "Critical" then Some(Critical)
    else None
  }

  /** Every severity is recognised from its own text, so the four texts
      are distinct. */
  lemma SeverityNameRoundTrip(s: Severity)
    ensures SeverityFromName(SeverityName(s)) == Some(s)
  {
  }
}
