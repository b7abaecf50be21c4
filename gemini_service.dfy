/**
 * The text handling of the AI service layer: how prompts interpolate form
 * values (with the optimizer's fallbacks and the deal type's underscores),
 * how a market analysis extracts its web citations, and how failures are
 * mapped to the messages the dashboards display.
 */
module GeminiService {
  import opened Common
  import opened Types
  import JsText

  // ----- Prompt interpolation -----

  /** `deal_type.replace(/_/g, ' ')`. */
  function Humanize(s: string): (r: string)
    ensures |r| == |s| && '_' !in r
    ensures forall i :: 0 <= i < |s| && s[i] != '_' ==> r[i] == s[i]
    ensures forall i :: 0 <= i < |s| && s[i] == '_' ==> r[i] == ' '
  {
    JsText.ReplaceChar(s, '_', ' ')
  }

  /** The deal type shown in the prompt for the default deal. */
  lemma HumanizeSingleTrackLicense()
    ensures Humanize("single_track_license") == "single track license"
  {
  }

  /** Humanizing twice is humanizing once. */
  lemma HumanizeIdempotent(s: string)
    ensures Humanize(Humanize(s)) == Humanize(s)
  {
  }

  /** `${value || fallback}` on a string value. */
  function OrElse(value: string, fallback: string): string {
    if value != "" then value else fallback
  }

  /**
   * A template string whose labels and interpolated values alternate:
   * `${labels[0]}${values[0]}${labels[1]}${values[1]}...${trailer}`.
   */
  function Fill(labels: seq<string>, values: seq<string>, trailer: string): string
    requires |labels| == |values|
  {
    if labels == [] then trailer else labels[0] + values[0] + Fill(labels[1..], values[1..], trailer)
  }

  /** A filled template contains every interpolated value. */
  lemma {:induction false} FillContainsValues(labels: seq<string>, values: seq<string>, trailer: string)
    requires |labels| == |values|
    ensures forall k :: 0 <= k < |values| ==> JsText.Contains(Fill(labels, values, trailer), values[k])
  {
    if labels != [] {
      var rest := Fill(labels[1..], values[1..], trailer);
      FillContainsValues(labels[1..], values[1..], trailer);
      forall k | 0 <= k < |values|
        ensures JsText.Contains(Fill(labels, values, trailer), values[k])
      {
        if k == 0 {
          JsText.ContainsAt(labels[0], values[0], rest);
        } else {
          assert values[1..][k - 1] == values[k];
          ContainsAfter(labels[0] + values[0], rest, values[k]);
        }
      }
    }
  }

  /** Text found in a suffix is found in the whole. */
  lemma ContainsAfter(head: string, rest: string, p: string)
    requires JsText.Contains(rest, p)
    ensures JsText.Contains(head + rest, p)
  {
    var k: nat :| k <= |rest| && JsText.OccursAt(rest, p, k);
    assert (head + rest)[|head| + k..|head| + k + |p|] == rest[k..k + |p|];
    assert JsText.OccursAt(head + rest, p, |head| + k);
  }

  /** The evaluator's form; number fields are taken in their string form. */
  datatype EvaluatorForm = EvaluatorForm(
    artist_name: string, track_title: string, genre: string, mood: string, bpm: string,
    loudness: string, dynamic_range: string, energy: string, valence: string,
    description: string, goal: string, context: string)

  /**
   * The labels of the evaluator prompt's input-data block, without the
   * template's indentation and the instructions around the block: the model
   * stands for the block only, not for the literal prompt text.
   */
  const EvaluatorLabels: seq<string> := [
    "**INPUT DATA:**\n- Artist Name: ", "\n- Track Title: ", "\n- Genre: ", "\n- Mood: ", "\n- BPM: ",
    "\n- Audio Features: loudness=", " LUFS, dynamic_range=", ", energy=", ", valence=",
    "\n- Track Description: ", "\n- Artist Goal: ", "\n- Upload Context: "]

  /** Every field of the evaluator's form, in the order the prompt shows them. */
  function EvaluatorValues(f: EvaluatorForm): (r: seq<string>)
    ensures |r| == |EvaluatorLabels|
  {
    [f.artist_name, f.track_title, f.genre, f.mood, f.bpm, f.loudness, f.dynamic_range,
     f.energy, f.valence, f.description, f.goal, f.context]
  }

  function EvaluatorPrompt(f: EvaluatorForm): string {
    Fill(EvaluatorLabels, EvaluatorValues(f), " (e.g., demo, final master)\n")
  }

  /** The evaluator prompt carries every field of the form verbatim, the artist and the title among them. */
  lemma EvaluatorPromptContainsInputs(f: EvaluatorForm)
    ensures forall k :: 0 <= k < |EvaluatorValues(f)| ==> JsText.Contains(EvaluatorPrompt(f), EvaluatorValues(f)[k])
    ensures JsText.Contains(EvaluatorPrompt(f), f.artist_name) && JsText.Contains(EvaluatorPrompt(f), f.track_title)
  {
    FillContainsValues(EvaluatorLabels, EvaluatorValues(f), " (e.g., demo, final master)\n");
    assert EvaluatorValues(f)[0] == f.artist_name && EvaluatorValues(f)[1] == f.track_title;
  }

  /** The campaign optimizer's form. */
  datatype OptimizerForm = OptimizerForm(
    artist_name: string, track_title: string, genre: string, mood: string,
    goals: string, budget: string, curator_profiles: string, past_results: string)

  const NoCuratorsFallback := "No specific curators provided; use general knowledge."
  const NoPastDataFallback := "No past data provided."

  /** The labels of the optimizer prompt's input-data block, without the template's indentation and surrounding instructions. */
  const OptimizerLabels: seq<string> := [
    "**INPUT DATA:**\n- Artist Name: ", "\n- Track Title: ", "\n- Genre: ", "\n- Mood: ",
    "\n- Artist Goals: ", "\n- Budget: ", "\n- Available Curators: ", "\n- Past Campaign Results: "]

  /** The optimizer's interpolated values; the last two fall back to fixed sentences when empty. */
  function OptimizerValues(f: OptimizerForm): (r: seq<string>)
    ensures |r| == |OptimizerLabels|
  {
    [f.artist_name, f.track_title, f.genre, f.mood, f.goals, f.budget,
     OrElse(f.curator_profiles, NoCuratorsFallback), OrElse(f.past_results, NoPastDataFallback)]
  }

  function OptimizerPrompt(f: OptimizerForm): string {
    Fill(OptimizerLabels, OptimizerValues(f), "\n")
  }

  /** An empty curator list or past-results field is replaced by its fallback sentence; a filled one is sent as is. */
  lemma OptimizerFallbacks(f: OptimizerForm)
    ensures f.curator_profiles == "" ==> JsText.Contains(OptimizerPrompt(f), NoCuratorsFallback)
    ensures f.curator_profiles != "" ==> JsText.Contains(OptimizerPrompt(f), f.curator_profiles)
    ensures f.past_results == "" ==> JsText.Contains(OptimizerPrompt(f), NoPastDataFallback)
    ensures f.past_results != "" ==> JsText.Contains(OptimizerPrompt(f), f.past_results)
    ensures JsText.Contains(OptimizerPrompt(f), f.goals) && JsText.Contains(OptimizerPrompt(f), f.budget)
  {
    FillContainsValues(OptimizerLabels, OptimizerValues(f), "\n");
    assert OptimizerValues(f)[4] == f.goals;
    assert OptimizerValues(f)[5] == f.budget;
    assert OptimizerValues(f)[6] == OrElse(f.curator_profiles, NoCuratorsFallback);
    assert OptimizerValues(f)[7] == OrElse(f.past_results, NoPastDataFallback);
  }

  /** The deal-memo form; the deal type is a snake-case identifier. */
  datatype DealMemoForm = DealMemoForm(artist_name: string, key_terms: string, deal_type: string)

  /** The labels of the deal-memo prompt's input-data block, without the template's indentation and surrounding instructions. */
  const DealMemoLabels: seq<string> := ["**INPUT DATA:**\n- Artist Name: ", "\n- Deal Type: ", "\n- Key Terms to Include: "]

  function DealMemoPrompt(f: DealMemoForm): string {
    Fill(DealMemoLabels, [f.artist_name, Humanize(f.deal_type), f.key_terms], "\n")
  }

  /** The deal-memo prompt shows the deal type with spaces for underscores, and the terms verbatim. */
  lemma DealMemoPromptShowsDealType(f: DealMemoForm)
    ensures JsText.Contains(DealMemoPrompt(f), Humanize(f.deal_type))
    ensures JsText.Contains(DealMemoPrompt(f), f.key_terms) && JsText.Contains(DealMemoPrompt(f), f.artist_name)
  {
    var values := [f.artist_name, Humanize(f.deal_type), f.key_terms];
    FillContainsValues(DealMemoLabels, values, "\n");
    assert values[0] == f.artist_name && values[1] == Humanize(f.deal_type) && values[2] == f.key_terms;
  }

  const MarketIntro := "You are a market analyst for the music industry. Analyze the market for "
  const MarketInstructions := ". Synthesize information on key radio stations, popular venues, competing local artists, and current online discussion. Structure your response in markdown with the following sections: '### Market Overview', '### Key Opportunities', '### Potential Risks', and '### Relevant Media & Venues'."

  /** The market-analysis request: the genre and the location inside the fixed instructions. */
  function MarketAnalysisPrompt(genre: string, location: string): string {
    Fill([MarketIntro, " in "], [genre, location], MarketInstructions)
  }

  /** The market-analysis request names the genre and the location verbatim. */
  lemma MarketAnalysisNamesInputs(genre: string, location: string)
    ensures JsText.Contains(MarketAnalysisPrompt(genre, location), genre)
    ensures JsText.Contains(MarketAnalysisPrompt(genre, location), location)
  {
    FillContainsValues([MarketIntro, " in "], [genre, location], MarketInstructions);
    assert [genre, location][0] == genre && [genre, location][1] == location;
  }

  /** `genres.join(', ')`: the empty list gives the empty string. */
  function JoinGenres(genres: seq<string>): (r: string)
    ensures r == "" <==> genres == [] || genres == [""]
  {
    if genres == [] then ""
    else if |genres| == 1 then genres[0]
    else genres[0] + ", " + JoinGenres(genres[1..])
  }

  /** Every genre appears in the joined list. */
  lemma {:induction false} JoinGenresContainsEach(genres: seq<string>, k: nat)
    requires k < |genres|
    ensures JsText.Contains(JoinGenres(genres), genres[k])
  {
    if |genres| == 1 {
      JsText.ContainsSelf(genres[0]);
    } else if k == 0 {
      JsText.ContainsAt("", genres[0], ", " + JoinGenres(genres[1..]));
      assert "" + genres[0] + (", " + JoinGenres(genres[1..])) == JoinGenres(genres);
    } else {
      JoinGenresContainsEach(genres[1..], k - 1);
      ContainsAfter(genres[0] + ", ", JoinGenres(genres[1..]), genres[k]);
    }
  }

  /**
   * The persona generator's input block: the joined genres and the accepted
   * tracks already serialised (`JSON.stringify` is not part of this model).
   */
  function PersonaPrompt(genres: seq<string>, acceptedTracksJson: string): string {
    Fill(["**INPUT DATA:**\n- Curator's Genres: ", "\n- Sample of Accepted Tracks (JSON): "],
         [JoinGenres(genres), acceptedTracksJson], "\n")
  }

  /** Every curator genre is named in the persona prompt. */
  lemma PersonaPromptNamesGenres(genres: seq<string>, acceptedTracksJson: string)
    ensures forall k :: 0 <= k < |genres| ==> JsText.Contains(PersonaPrompt(genres, acceptedTracksJson), genres[k])
  {
    var values := [JoinGenres(genres), acceptedTracksJson];
    FillContainsValues(["**INPUT DATA:**\n- Curator's Genres: ", "\n- Sample of Accepted Tracks (JSON): "], values, "\n");
    assert values[0] == JoinGenres(genres);
    forall k | 0 <= k < |genres|
      ensures JsText.Contains(PersonaPrompt(genres, acceptedTracksJson), genres[k])
    {
      JoinGenresContainsEach(genres, k);
      JsText.ContainsTransitive(PersonaPrompt(genres, acceptedTracksJson), JoinGenres(genres), genres[k]);
    }
  }

  // ----- Grounding sources -----

  /** A grounding chunk's `web` entry; absent fields are `None`. */
  datatype Web = Web(uri: Option<string>, title: Option<string>)
  datatype GroundingChunk = GroundingChunk(web: Option<Web>)
  datatype GroundingMetadata = GroundingMetadata(groundingChunks: Option<seq<GroundingChunk>>)
  datatype Candidate = Candidate(groundingMetadata: Option<GroundingMetadata>)

  /** The parts of a grounded response the service reads. */
  datatype GroundedResponse = GroundedResponse(text: string, candidates: Option<seq<Candidate>>)

  const UntitledSource := "Untitled Source"

  /** `response.candidates?.[0]?.groundingMetadata?.groundingChunks || []`. */
  function RawChunks(r: GroundedResponse): seq<GroundingChunk> {
    if r.candidates.Some? && |r.candidates.value| > 0
       && r.candidates.value[0].groundingMetadata.Some?
       && r.candidates.value[0].groundingMetadata.value.groundingChunks.Some?
    then r.candidates.value[0].groundingMetadata.value.groundingChunks.value
    else []
  }

  /** A chunk the filter keeps: its web entry exists and has a non-empty uri. */
  predicate Citable(c: GroundingChunk) {
    c.web.Some? && c.web.value.uri.Some? && c.web.value.uri.value != ""
  }

  /** The citation a kept chunk becomes; an empty or missing title becomes the fixed default. */
  function SourceOf(c: GroundingChunk): (s: Source)
    requires Citable(c)
    ensures s.uri == c.web.value.uri.value && s.uri != ""
    ensures c.web.value.title.Some? && c.web.value.title.value != "" ==> s.title == c.web.value.title.value
    ensures !(c.web.value.title.Some? && c.web.value.title.value != "") ==> s.title == UntitledSource
  {
    var t := c.web.value.title;
    Source(c.web.value.uri.value, if t.Some? && t.value != "" then t.value else UntitledSource)
  }

  /** The `map(...).filter(...).map(...)` chain over the raw chunks. */
  function Sources(chunks: seq<GroundingChunk>): (r: seq<Source>)
    ensures |r| <= |chunks|
    ensures forall k :: 0 <= k < |r| ==> r[k].uri != "" && r[k].title != ""
  {
    if chunks == [] then []
    else if Citable(chunks[0]) then [SourceOf(chunks[0])] + Sources(chunks[1..])
    else Sources(chunks[1..])
  }

  /** The chain works chunk by chunk: the sources of two runs of chunks are the two lists of sources in order. */
  lemma {:induction false} SourcesConcat(a: seq<GroundingChunk>, b: seq<GroundingChunk>)
    ensures Sources(a + b) == Sources(a) + Sources(b)
  {
    if a == [] {
      assert a + b == b;
    } else {
      assert (a + b)[0] == a[0];
      assert (a + b)[1..] == a[1..] + b;
      SourcesConcat(a[1..], b);
    }
  }

  /** A source is listed exactly when some citable chunk produces it. */
  lemma {:induction false} SourcesMembership(chunks: seq<GroundingChunk>, s: Source)
    ensures s in Sources(chunks) <==> exists k :: 0 <= k < |chunks| && Citable(chunks[k]) && SourceOf(chunks[k]) == s
  {
    if chunks != [] {
      var tail := chunks[1..];
      SourcesMembership(tail, s);
      if s in Sources(chunks) {
        if !(Citable(chunks[0]) && SourceOf(chunks[0]) == s) {
          var j :| 0 <= j < |tail| && Citable(tail[j]) && SourceOf(tail[j]) == s;
          assert chunks[j + 1] == tail[j];
        }
      }
      if exists k :: 0 <= k < |chunks| && Citable(chunks[k]) && SourceOf(chunks[k]) == s {
        var k :| 0 <= k < |chunks| && Citable(chunks[k]) && SourceOf(chunks[k]) == s;
        if k > 0 {
          assert tail[k - 1] == chunks[k];
        }
      }
    }
  }

  /** A response without candidates or grounding metadata has no sources. */
  lemma NoMetadataNoSources(text: string)
    ensures Sources(RawChunks(GroundedResponse(text, None))) == []
    ensures Sources(RawChunks(GroundedResponse(text, Some([Candidate(None)])))) == []
  {
  }

  // ----- Error mapping -----

  /** The single message every failure of a schema-bound call surfaces as. */
  const FailedToGet := "Failed to get "
  const FromAi := "from AI."
  const MalformedMessage := FailedToGet + "analysis " + FromAi + " The response" + " may be malformed."

  /** The message a failed market analysis surfaces as. */
  const MarketFailureMessage := FailedToGet + "market " + "analysis " + FromAi

  /**
   * `callGemini`: the transport outcome, then `JSON.parse` of the trimmed text
   * (`parse` stands for it; `None` is a syntax error). Every failure is
   * replaced by the one fixed message.
   */
  function CallGemini<T>(transport: Outcome<string>, parse: string -> Option<T>): (r: Outcome<T>)
    ensures r.Failure? ==> r.message == MalformedMessage
    ensures r.Success? <==> transport.Success? && parse(JsText.Trim(transport.result)).Some?
    ensures r.Success? ==> r.result == parse(JsText.Trim(transport.result)).value
  {
    match transport
    case Failure(_) => Failure(MalformedMessage)
    case Success(text) =>
      match parse(JsText.Trim(text))
      case None => Failure(MalformedMessage)
      case Some(v) => Success(v)
  }

  /** `runMarketAnalysis`: the text and its citations, or the fixed market failure message. */
  function RunMarketAnalysis(transport: Outcome<GroundedResponse>): (r: Outcome<MarketAnalysisResponse>)
    ensures r.Failure? <==> transport.Failure?
    ensures r.Failure? ==> r.message == MarketFailureMessage
    ensures r.Success? ==> r.result.analysis_text == transport.result.text
    ensures r.Success? ==> |r.result.sources| <= |RawChunks(transport.result)|
  {
    match transport
    case Failure(_) => Failure(MarketFailureMessage)
    case Success(resp) => Success(MarketAnalysisResponse(resp.text, Sources(RawChunks(resp))))
  }

  /** The fixed messages never mention the missing-entity error text. */
  lemma FixedMessagesHideKeyError()
    ensures !JsText.Contains(MalformedMessage, KeyNotFound)
    ensures !JsText.Contains(MarketFailureMessage, KeyNotFound)
  {
    assert KeyNotFound[0] == 'R';
    assert 'R' !in FailedToGet && 'R' !in FromAi && 'R' !in "analysis " && 'R' !in "market ";
    assert 'R' !in " The response" && 'R' !in " may be malformed.";
    NoOccurrenceWithoutFirst(MalformedMessage, KeyNotFound);
    NoOccurrenceWithoutFirst(MarketFailureMessage, KeyNotFound);
  }

  /** Text that lacks the first character of a pattern does not contain it. */
  lemma NoOccurrenceWithoutFirst(s: string, t: string)
    requires t != [] && t[0] !in s
    ensures !JsText.Contains(s, t)
  {
    forall i: nat | i <= |s|
      ensures !JsText.OccursAt(s, t, i)
    {
      if i + |t| <= |s| {
        assert s[i..i + |t|][0] == s[i];
      }
    }
  }

  /**
   * As written, the label tabs' check for the missing-entity error can never
   * succeed on a service error: whatever the transport reported, the message
   * that reaches them is one of the fixed ones.
   */
  lemma ServiceErrorsNeverResetKey<T>(transport: Outcome<string>, parse: string -> Option<T>, market: Outcome<GroundedResponse>)
    ensures CallGemini(transport, parse).Failure? ==> !JsText.Contains(CallGemini(transport, parse).message, KeyNotFound)
    ensures RunMarketAnalysis(market).Failure? ==> !JsText.Contains(RunMarketAnalysis(market).message, KeyNotFound)
  {
    FixedMessagesHideKeyError();
  }

  /** A transport failure caused by an unknown API key. */
  predicate IsKeyError<T>(transport: Outcome<T>) {
    transport.Failure? && JsText.Contains(transport.message, KeyNotFound)
  }

  /**
   * The evidently intended mapping: a key error is passed through unchanged,
   * so the callers can ask for a new key; every other failure becomes the
   * fixed message.
   */
  function CallGeminiKeepingKeyErrors<T>(transport: Outcome<string>, parse: string -> Option<T>): (r: Outcome<T>)
    ensures IsKeyError(transport) ==> r == Failure(transport.message)
    ensures !IsKeyError(transport) ==> r == CallGemini(transport, parse)
  {
    if IsKeyError(transport) then Failure(transport.message) else CallGemini(transport, parse)
  }

  /** With the intended mapping, exactly the key errors trigger the callers' key reset. */
  lemma KeyErrorsReachCaller<T>(transport: Outcome<string>, parse: string -> Option<T>)
    ensures var r := CallGeminiKeepingKeyErrors(transport, parse);
      (r.Failure? && JsText.Contains(r.message, KeyNotFound)) <==> IsKeyError(transport)
  {
    FixedMessagesHideKeyError();
  }
}
