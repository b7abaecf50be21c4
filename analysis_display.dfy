/**
 * The decisions the report page makes from a finished analysis: colour
 * bands, the Spotify sync button and its status, the helpfulness stars,
 * the engine caption and which report panel the tool selects.
 */
module AnalysisDisplay {
  import opened Common
  import opened Types

  /** The theme colours the report page paints values with. */
  datatype Color = Positive | Warning | Negative | Accent

  // ----- Score colour -----

  /** `getScoreColor`: 75 and up positive, 50 up to 74 warning, below 50 negative. */
  function ScoreColor(score: int): (c: Color)
    ensures c == Positive <==> score >= 75
    ensures c == Warning <==> 50 <= score < 75
    ensures c == Negative <==> score < 50
  {
    if score >= 75 then Positive else if score >= 50 then Warning else Negative
  }

  /** How good a score colour is: negative, then warning, then positive. */
  function BandRank(c: Color): nat {
    match c
    case Negative => 0
    case Warning => 1
    case Positive => 2
    case Accent => 1
  }

  /** A higher score never gets a worse colour. */
  lemma ScoreColorMonotone(s: int, t: int)
    requires s <= t
    ensures BandRank(ScoreColor(s)) <= BandRank(ScoreColor(t))
    ensures ScoreColor(s) != Accent
  {
  }

  // ----- Decision, sync button and winner -----

  /** The decision colour: 'accept' positive, 'pass' negative, anything else warning. */
  function DecisionColor(decision: string): (c: Color)
    ensures c == Positive <==> decision == "accept"
    ensures c == Negative <==> decision == "pass"
    ensures c == Warning <==> decision != "accept" && decision != "pass"
  {
    if decision == "accept" then Positive else if decision == "pass" then Negative else Warning
  }

  /** The remix winner colour: 'Version A' positive, 'Version B' accent, anything else warning. */
  function WinnerColor(winner: string): (c: Color)
    ensures c == Positive <==> winner == "Version A"
    ensures c == Accent <==> winner == "Version B"
    ensures c == Warning <==> winner != "Version A" && winner != "Version B"
  {
    if winner == "Version A" then Positive else if winner == "Version B" then Accent else Warning
  }

  /** `syncStatus`. */
  datatype SyncStatus = Idle | Syncing | Synced

  /** What may happen to the sync cell: the button is clicked, or the simulated delay ends. */
  datatype SyncEvent = Clicked | DelayEnded

  /** The order the status moves in. */
  function SyncRank(s: SyncStatus): nat {
    match s
    case Idle => 0
    case Syncing => 1
    case Synced => 2
  }

  /**
   * One step of the sync cell. Only the idle button has a click handler; the
   * delay is only started by that click, so it only ends while syncing.
   */
  function SyncNext(s: SyncStatus, e: SyncEvent): SyncStatus {
    match e
    case Clicked => if s == Idle then Syncing else s
    case DelayEnded => if s == Syncing then Synced else s
  }

  /** The status never moves back, and moves forward by at most one step. */
  lemma SyncNeverGoesBack(s: SyncStatus, e: SyncEvent)
    ensures SyncRank(s) <= SyncRank(SyncNext(s, e)) <= SyncRank(s) + 1
    ensures SyncNext(s, e) == Synced ==> s != Idle
  {
  }

  /** Any run of events keeps the status at or after where it started. */
  lemma {:induction false} SyncRunMonotone(s: SyncStatus, events: seq<SyncEvent>)
    ensures SyncRank(s) <= SyncRank(SyncRun(s, events))
    ensures SyncRun(s, events) == Synced ==> s == Synced || Clicked in events || s == Syncing
    decreases |events|
  {
    if events != [] {
      SyncNeverGoesBack(s, events[0]);
      SyncRunMonotone(SyncNext(s, events[0]), events[1..]);
      if s == Idle && events[0] != Clicked {
        assert SyncNext(s, events[0]) == Idle;
      }
    }
  }

  /** The status after a run of events, one step each. */
  function SyncRun(s: SyncStatus, events: seq<SyncEvent>): SyncStatus
    decreases |events|
  {
    if events == [] then s else SyncRun(SyncNext(s, events[0]), events[1..])
  }

  /** The sync button as drawn: its caption and whether it can be clicked. */
  datatype SyncButton = SyncButton(caption: string, enabled: bool)

  function SyncButtonFor(s: SyncStatus): (b: SyncButton)
    ensures b.enabled <==> s == Idle
  {
    match s
    case Syncing => SyncButton("Syncing...", false)
    case Synced => SyncButton("Synced!", false)
    case Idle => SyncButton("Sync to Spotify Playlist", true)
  }

  /** The sync cell of one curator report. */
  class SyncCell {
    var status: SyncStatus

    constructor()
      ensures status == Idle
    {
      status := Idle;
    }

    /** `handleSync`, reachable only through the enabled button. */
    method Click()
      modifies this
      ensures status == SyncNext(old(status), Clicked)
      ensures old(status) == Idle ==> status == Syncing
    {
      if status == Idle {
        status := Syncing;
      }
    }

    /** The end of the simulated delay: the cell is synced and a success toast is raised. */
    method DelayEnds() returns (notice: Option<Notice>)
      modifies this
      ensures status == SyncNext(old(status), DelayEnded)
      ensures notice.Some? <==> old(status) == Syncing
      ensures notice.Some? ==> notice.value == Notice("Track synced to Spotify playlist!", SuccessNotice)
    {
      if status == Syncing {
        status := Synced;
        notice := Some(Notice("Track synced to Spotify playlist!", SuccessNotice));
      } else {
        notice := None;
      }
    }
  }

  // ----- Helpfulness stars -----

  /** `hoverRating || rating || 0`: the first of the two that is set and not zero. */
  function StarLevel(hover: int, rating: Option<int>): int {
    if hover != 0 then hover else if rating.Some? && rating.value != 0 then rating.value else 0
  }

  /** The rating block: the thank-you panel, or five stars each lit or not. */
  datatype Feedback = ThankYou | Stars(lit: seq<bool>)

  /** `ArtistFeedbackSimulator`: any truthy rating shows the thank-you panel instead of the stars. */
  function FeedbackFor(hover: int, rating: Option<int>): (f: Feedback)
    ensures f == ThankYou <==> rating.Some? && rating.value != 0
    ensures f.Stars? ==> |f.lit| == 5 && forall i :: 0 <= i < 5 ==> (f.lit[i] <==> StarLevel(hover, rating) >= i + 1)
  {
    if rating.Some? && rating.value != 0 then ThankYou
    else Stars(seq(5, i requires 0 <= i < 5 => StarLevel(hover, rating) >= i + 1))
  }

  /** Before a rating, hovering star k lights exactly the first k stars, and no hover lights none. */
  lemma HoverLightsPrefix(hover: int, rating: Option<int>)
    requires 0 <= hover <= 5
    requires rating.None? || rating.value == 0
    ensures FeedbackFor(hover, rating).Stars?
    ensures forall i :: 0 <= i < 5 ==> (FeedbackFor(hover, rating).lit[i] <==> i < hover)
  {
  }

  /** Clicking star k rates k (from 1 to 5), after which the panel thanks the artist. */
  lemma RatingShowsThanks(k: int, hover: int)
    requires 1 <= k <= 5
    ensures FeedbackFor(hover, Some(k)) == ThankYou
  {
  }

  // ----- Curator report -----

  /** The parts of the curator report that depend on state. */
  datatype CuratorReport = CuratorReport(decisionColor: Color, syncButton: Option<SyncButton>,
                                         qualityColor: Color, feedback: Option<Feedback>)

  /**
   * `CuratorAssistantReport`: the sync button only under an 'accept' decision,
   * the feedback block only when a rating handler is passed in.
   */
  function CuratorReportFor(decision: string, qualityScore: int, sync: SyncStatus,
                            hasRateHandler: bool, hover: int, submission: Option<Submission>): (r: CuratorReport)
    ensures r.syncButton.Some? <==> decision == "accept"
    ensures r.syncButton.Some? <==> r.decisionColor == Positive
    ensures r.feedback.Some? <==> hasRateHandler
    ensures r.qualityColor == ScoreColor(qualityScore)
  {
    var rating := if submission.Some? then submission.value.reviewHelpfulness else None;
    CuratorReport(DecisionColor(decision),
                  if decision == "accept" then Some(SyncButtonFor(sync)) else None,
                  ScoreColor(qualityScore),
                  if hasRateHandler then Some(FeedbackFor(hover, rating)) else None)
  }

  /** A rated submission shows the thank-you panel in place of the stars. */
  lemma RatedSubmissionThanked(decision: string, qualityScore: int, sync: SyncStatus, hover: int, s: Submission)
    requires s.reviewHelpfulness.Some? && 1 <= s.reviewHelpfulness.value <= 5
    ensures CuratorReportFor(decision, qualityScore, sync, true, hover, Some(s)).feedback == Some(ThankYou)
  {
  }

  // ----- Engine caption and report panel -----

  const GoogleAiFallback := "Powered by Google AI"

  /** The engine captions, one per tool. */
  const EngineTexts: map<Tool, string> := map[
    Evaluator := "Powered by Gemini 2.5 Pro for deep creative and technical analysis.",
    Curator := "Powered by Gemini 2.5 Pro for nuanced, context-aware feedback generation.",
    Optimizer := "Powered by Gemini 2.5 Pro for complex campaign strategy and ROI prediction.",
    PitchWriter := "Powered by Gemini Flash for fast and creative pitch generation.",
    FollowUp := "Powered by Gemini Flash for strategic communication advice.",
    Neighborhoods := "Powered by Gemini 2.5 Pro to analyze sonic relationships and discover emerging scenes.",
    Scouting := "Powered by Gemini 2.5 Pro for advanced, criteria-based talent discovery.",
    RemixABTest := "Powered by Gemini Flash for quick, predictive analysis on track variations.",
    FeedbackSynthesizer := "Powered by Gemini Flash to efficiently summarize large amounts of text into actionable insights.",
    LyricAnalyzer := "Powered by Gemini 2.5 Pro for deep literary and thematic analysis of lyrics.",
    MarketAnalysis := "Powered by Gemini 2.5 Pro with Google Search grounding for real-time market insights.",
    DealMemo := "Powered by Gemini Flash for quickly drafting professional communications."]

  /** `map[tool] || "Powered by Google AI"` over a caption table. */
  function EngineCaption(table: map<Tool, string>, t: Tool): (r: string)
    ensures t in table && table[t] != "" ==> r == table[t]
    ensures !(t in table && table[t] != "") ==> r == GoogleAiFallback
  {
    if t in table && table[t] != "" then table[t] else GoogleAiFallback
  }

  /** `getAIEngineInfo`. */
  function EngineInfo(t: Tool): string {
    EngineCaption(EngineTexts, t)
  }

  /** Every tool has its own caption, so the fallback is never shown for one of the twelve tools. */
  lemma EngineInfoNeverFallsBack(t: Tool)
    ensures t in EngineTexts && EngineInfo(t) == EngineTexts[t]
    ensures EngineInfo(t) != GoogleAiFallback
  {
  }

  /** The report panel `renderReport` picks. */
  datatype ReportPanel = ToolReport(tool: Tool) | InvalidReportType

  function ReportPanelFor(t: Tool): (p: ReportPanel)
    ensures p == InvalidReportType <==> t in {Scouting, MarketAnalysis, DealMemo}
    ensures p.ToolReport? ==> p.tool == t
  {
    match t
    case Scouting => InvalidReportType
    case MarketAnalysis => InvalidReportType
    case DealMemo => InvalidReportType
    case _ => ToolReport(t)
  }
}
