/**
 * The tool form: one form-data cell per tool, the change handlers that
 * rewrite one field at a time, the ISRC import, the chosen file and the
 * record the submit handler hands to the dashboard.
 */
module MusicUploadForm {
  import opened Common
  import opened Types
  import MockData
  import JsText

  /** The tools that have form fields of their own. */
  const FormTools: set<Tool> := {Evaluator, Curator, Optimizer, PitchWriter, FollowUp, LyricAnalyzer,
                                 RemixABTest, FeedbackSynthesizer, MarketAnalysis}

  /** The tools whose submission carries the chosen file. */
  const FileTools: set<Tool> := {Evaluator, Curator, Optimizer}

  /** `isSimpleForm`: the six tools whose form has no file-upload block. */
  function IsSimpleForm(t: Tool): (r: bool)
    ensures r <==> t in {PitchWriter, FollowUp, RemixABTest, FeedbackSynthesizer, LyricAnalyzer, MarketAnalysis}
    ensures r ==> t in FormTools && t !in FileTools
  {
    t in {PitchWriter, FollowUp, RemixABTest, FeedbackSynthesizer, LyricAnalyzer, MarketAnalysis}
  }

  /** Every tool whose submission carries a file shows the upload block. */
  lemma FileToolsShowUpload(t: Tool)
    ensures t in FileTools ==> !IsSimpleForm(t)
    ensures !IsSimpleForm(t) <==> t in FileTools || t in {Neighborhoods, Scouting, DealMemo}
  {
  }

  const EvaluatorDefaults: FormData := map[
    "artist_name" := Text(""), "track_title" := Text(""), "genre" := Text(""), "mood" := Text(""),
    "bpm" := Text("120"), "loudness" := Text("-9"), "dynamic_range" := Text("8"),
    "energy" := Number(0.7), "valence" := Number(0.5),
    "description" := Text(""), "goal" := Text(""), "context" := Text("Final Master")]

  const CuratorDefaults: FormData := map[
    "curator_name" := Text(""), "curator_genres" := Text(""), "curator_audience" := Text(""),
    "artist_name" := Text(""), "track_title" := Text(""), "genre" := Text(""), "mood" := Text(""),
    "description" := Text(""), "loudness" := Text("-9"), "energy" := Number(0.7), "valence" := Number(0.5),
    "pitch" := Text("")]

  const OptimizerDefaults: FormData := map[
    "artist_name" := Text(""), "track_title" := Text(""), "genre" := Text(""), "mood" := Text(""),
    "goals" := Text(""), "budget" := Text("500"), "curator_profiles" := Text(""), "past_results" := Text("")]

  const PitchWriterDefaults: FormData := map[
    "artist_name" := Text(""), "track_title" := Text(""), "curator_name" := Text(""), "mood" := Text(""),
    "genre" := Text(""), "pitch_tone" := Text("professional")]

  const FollowUpDefaults: FormData := map[
    "artist_name" := Text(""), "track_title" := Text(""), "curator_name" := Text(""),
    "curator_feedback" := Text(""), "original_goal" := Text("")]

  const LyricDefaults: FormData := map["lyrics" := Text("")]

  const RemixDefaults: FormData := map[
    "track_title" := Text(""), "target_audience" := Text(""),
    "version_a_description" := Text(""), "version_b_description" := Text("")]

  /** The sample feedback list the synthesizer form starts with, as JSON text. */
  const SampleFeedbacks: string := "[\n  {\n    \"curator\": \"IndieVibes\",\n    \"feedback\": \"Love the energy, but the vocals feel a bit buried in the mix.\"\n  },\n  {\n    \"curator\": \"ChillWave Radio\",\n    \"feedback\": \"Great composition! The main synth line is very catchy. Could be a bit shorter for our playlist.\"\n  }\n]"

  const SynthesizerDefaults: FormData := map[
    "track_title" := Text(""),
    "curator_feedbacks" := Text(SampleFeedbacks)]

  const MarketDefaults: FormData := map["genre" := Text("Synthwave"), "location" := Text("Berlin")]

  /** The record the neighborhoods tool submits, whatever was typed. */
  const NeighborhoodsBlank: FormData := map[
    "artist_name" := Text(""), "track_title" := Text(""), "genre" := Text(""), "mood" := Text("")]

  /**
   * `{ ...defaults, ...initialData }`: a given field wins, every other
   * default survives, and nothing else appears.
   */
  function Merge(defaults: FormData, given: FormData): (r: FormData)
    ensures r.Keys == defaults.Keys + given.Keys
    ensures forall k :: k in given ==> r[k] == given[k]
    ensures forall k :: k in defaults && k !in given ==> r[k] == defaults[k]
  {
    defaults + given
  }

  /** Merging with nothing given keeps the defaults, and merging twice with the same data is merging once. */
  lemma MergeLaws(defaults: FormData, given: FormData)
    ensures Merge(defaults, map[]) == defaults
    ensures Merge(Merge(defaults, given), given) == Merge(defaults, given)
  {
    assert Merge(defaults, map[]) == defaults;
  }

  /** The fields an ISRC import writes: the four fields of the track record. */
  function TrackFields(t: TrackMetadata): (r: FormData)
    ensures r.Keys == {"artist_name", "track_title", "genre", "isrc"}
  {
    map["artist_name" := Text(t.artist_name), "track_title" := Text(t.track_title),
        "genre" := Text(t.genre), "isrc" := Text(t.isrc)]
  }

  /** The defaults of each tool's form; tools without fields have none. */
  function Defaults(t: Tool): FormData {
    match t
    case Evaluator => EvaluatorDefaults
    case Curator => CuratorDefaults
    case Optimizer => OptimizerDefaults
    case PitchWriter => PitchWriterDefaults
    case FollowUp => FollowUpDefaults
    case LyricAnalyzer => LyricDefaults
    case RemixABTest => RemixDefaults
    case FeedbackSynthesizer => SynthesizerDefaults
    case MarketAnalysis => MarketDefaults
    case _ => map[]
  }

  /** A form cell when the page opens: the defaults, with the data passed in spread over the curator's. */
  function InitialForm(t: Tool, initialData: FormData): (r: FormData)
    ensures t == Curator ==> r == Merge(CuratorDefaults, initialData)
    ensures t != Curator ==> r == Defaults(t)
  {
    if t == Curator then Merge(Defaults(t), initialData) else Defaults(t)
  }

  /** All the form cells when the page opens, one per tool with fields. */
  function InitialForms(initialData: FormData): (r: map<Tool, FormData>)
    ensures r.Keys == FormTools
    ensures forall t :: t in FormTools ==> r[t] == InitialForm(t, initialData)
  {
    map t | t in FormTools :: InitialForm(t, initialData)
  }

  /** What `handleSubmit` passes to `onSubmit`. */
  datatype Submitted = Submitted(form: FormData, tool: Tool)

  /** The form of one tool page. */
  class UploadForm {
    const activeTool: Tool
    /** The per-tool form-data cells, keyed by tool. */
    var forms: map<Tool, FormData>
    var file: Option<FileRef>
    var fileName: string
    var isImportModalOpen: bool

    /** Every tool with fields has its cell. */
    predicate Valid()
      reads this
    {
      forms.Keys == FormTools
    }

    constructor(tool: Tool, initialData: FormData)
      ensures Valid() && activeTool == tool
      ensures forms == InitialForms(initialData)
      ensures file.None? && fileName == "No file chosen" && !isImportModalOpen
    {
      activeTool := tool;
      forms := InitialForms(initialData);
      file := None;
      fileName := "No file chosen";
      isImportModalOpen := false;
    }

    /**
     * A text input of the active tool's form changed: only the field named by
     * the input id is rewritten. The lyric form holds its one field and is
     * replaced whole; tools without fields have no inputs.
     */
    method ChangeText(id: string, value: string)
      requires Valid()
      modifies this
      ensures Valid()
      ensures activeTool == LyricAnalyzer ==> forms == old(forms)[LyricAnalyzer := map["lyrics" := Text(value)]]
      ensures activeTool in FormTools && activeTool != LyricAnalyzer ==>
        forms == old(forms)[activeTool := old(forms)[activeTool][id := Text(value)]]
      ensures activeTool !in FormTools ==> forms == old(forms)
      ensures file == old(file) && fileName == old(fileName) && isImportModalOpen == old(isImportModalOpen)
    {
      if activeTool == LyricAnalyzer {
        forms := forms[LyricAnalyzer := map["lyrics" := Text(value)]];
      } else if activeTool in FormTools {
        forms := forms[activeTool := forms[activeTool][id := Text(value)]];
      }
    }

    /** A slider (energy or valence) moved; only the evaluator and curator forms have sliders. */
    method ChangeSlider(id: string, value: real)
      requires Valid()
      modifies this
      ensures Valid()
      ensures activeTool in {Evaluator, Curator} ==>
        forms == old(forms)[activeTool := old(forms)[activeTool][id := Number(value)]]
      ensures activeTool !in {Evaluator, Curator} ==> forms == old(forms)
      ensures file == old(file) && fileName == old(fileName) && isImportModalOpen == old(isImportModalOpen)
    {
      if activeTool in {Evaluator, Curator} {
        forms := forms[activeTool := forms[activeTool][id := Number(value)]];
      }
    }

    /** `handleFileChange`: a chosen file replaces the old one; an empty choice changes nothing. */
    method ChangeFile(chosen: Option<FileRef>)
      modifies this
      ensures chosen.Some? ==> file == chosen && fileName == chosen.value.name
      ensures chosen.None? ==> file == old(file) && fileName == old(fileName)
      ensures forms == old(forms) && isImportModalOpen == old(isImportModalOpen)
    {
      if chosen.Some? {
        file := chosen;
        fileName := chosen.value.name;
      }
    }

    method OpenImport()
      requires activeTool == Evaluator
      modifies this
      ensures isImportModalOpen
      ensures forms == old(forms) && file == old(file) && fileName == old(fileName)
    {
      isImportModalOpen := true;
    }

    /**
     * `handleImport` of the ISRC dialog (the Import button is disabled while
     * the code is empty). A known code overwrites the track's fields of the
     * evaluator form, keeps the rest, and closes the dialog; an unknown one
     * leaves the form as it was and keeps the dialog open.
     */
    method ImportIsrc(isrc: string) returns (notice: Option<Notice>)
      requires Valid() && activeTool == Evaluator
      modifies this
      ensures Valid()
      ensures isrc == "" ==> notice.None? && forms == old(forms) && isImportModalOpen == old(isImportModalOpen)
      ensures isrc != "" && MockData.GetTrackByIsrc(isrc).Some? ==>
        forms == old(forms)[Evaluator := old(forms)[Evaluator] + TrackFields(MockData.KnownTrack)]
        && !isImportModalOpen
        && notice == Some(Notice("Track metadata imported successfully!", SuccessNotice))
      ensures isrc != "" && MockData.GetTrackByIsrc(isrc).None? ==>
        forms == old(forms) && isImportModalOpen == old(isImportModalOpen)
        && notice == Some(Notice("ISRC not found. Please check the code.", ErrorNotice))
      ensures file == old(file) && fileName == old(fileName)
    {
      if isrc == "" {
        notice := None;
        return;
      }
      var track := MockData.GetTrackByIsrc(isrc);
      if track.Some? {
        forms := forms[Evaluator := forms[Evaluator] + TrackFields(track.value)];
        notice := Some(Notice("Track metadata imported successfully!", SuccessNotice));
        isImportModalOpen := false;
      } else {
        notice := Some(Notice("ISRC not found. Please check the code.", ErrorNotice));
      }
    }

    /**
     * `handleSubmit`: the record for the active tool, with the file attached
     * for the three file tools, the fixed blank record for neighborhoods, and
     * no call at all for scouting and the deal memo.
     */
    method Submit() returns (r: Option<Submitted>)
      requires Valid()
      ensures r.None? <==> activeTool in {Scouting, DealMemo}
      ensures r.Some? ==> r.value.tool == activeTool
      ensures activeTool in FileTools ==> r.value.form == forms[activeTool]["file" := Attachment(file)]
      ensures activeTool in FormTools - FileTools ==> r.value.form == forms[activeTool]
      ensures activeTool == Neighborhoods ==> r.value.form == NeighborhoodsBlank
    {
      if activeTool in FileTools {
        r := Some(Submitted(forms[activeTool]["file" := Attachment(file)], activeTool));
      } else if activeTool in FormTools {
        r := Some(Submitted(forms[activeTool], activeTool));
      } else if activeTool == Neighborhoods {
        r := Some(Submitted(NeighborhoodsBlank, activeTool));
      } else {
        r := None;
      }
    }
  }

  /**
   * Text changes on a fresh evaluator form, a chosen file, then a submit: the
   * typed values and the file arrive over the untouched defaults.
   */
  method TypedEvaluatorSubmission(name: string, title: string, f: FileRef) returns (r: Option<Submitted>)
    ensures r == Some(Submitted(EvaluatorDefaults["artist_name" := Text(name)]["track_title" := Text(title)]
                                                 ["file" := Attachment(Some(f))], Evaluator))
  {
    var form := new UploadForm(Evaluator, map[]);
    assert form.forms[Evaluator] == InitialForm(Evaluator, map[]);
    form.ChangeText("artist_name", name);
    form.ChangeText("track_title", title);
    form.ChangeFile(Some(f));
    r := form.Submit();
  }

  /** The evaluator record after importing the known track into a fresh form, with no file chosen. */
  function ImportedRecord(): FormData {
    (EvaluatorDefaults + TrackFields(MockData.KnownTrack))["file" := Attachment(None)]
  }

  /** The imported record carries the track's fields and keeps the untouched defaults. */
  lemma ImportedRecordFields()
    ensures "artist_name" in ImportedRecord() && ImportedRecord()["artist_name"] == Text("Luna Bloom")
    ensures "genre" in ImportedRecord() && ImportedRecord()["genre"] == Text("Synthwave")
    ensures "context" in ImportedRecord() && ImportedRecord()["context"] == Text("Final Master")
    ensures "bpm" in ImportedRecord() && ImportedRecord()["bpm"] == Text("120")
    ensures "file" in ImportedRecord() && ImportedRecord()["file"] == Attachment(None)
  {
  }

  /**
   * An ISRC import on a fresh evaluator form, in any letter case, then a
   * submit: the record is the defaults overwritten by the track's fields.
   */
  method ImportedEvaluatorSubmission(isrc: string) returns (r: Option<Submitted>)
    requires JsText.Upper(isrc) == MockData.KnownIsrc
    ensures r == Some(Submitted(ImportedRecord(), Evaluator))
  {
    var form := new UploadForm(Evaluator, map[]);
    assert form.forms[Evaluator] == InitialForm(Evaluator, map[]);
    form.OpenImport();
    var notice := form.ImportIsrc(isrc);
    r := form.Submit();
  }
}
