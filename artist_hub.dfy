/**
 * The artist dashboard: running one of the AI tools (loading, then either the
 * analysis or an error), the tool that gets a fixed placeholder form,
 * curator profiles and messaging curators, resetting to the dashboard, and
 * the page the dashboard shows for its current cells.
 */
module ArtistHub {
  import opened Common
  import opened Types
  import MockData
  import Messaging

  /** The service function a tool run awaits. */
  datatype Service =
    | RunArtistEvaluation | RunCampaignOptimization | RunPitchWriter | RunSmartFollowUp
    | RunLyricAnalyzer | RunRemixABTest | RunFeedbackSynthesizer | RunSoundNeighborhoods

  /** A service call and the form data passed to it. */
  datatype Request = Request(service: Service, form: FormData)

  /** The record the sound-neighborhoods run always sends, whatever was submitted. */
  const NeighborhoodPlaceholder: FormData := map[
    "artist_name" := Text("Your Artist Name"), "track_title" := Text("Your Track Title"),
    "genre" := Text("Your Genre"), "mood" := Text("Your Mood")]

  /** The message of the error the `default` branch throws. */
  const InvalidTool := "Invalid tool selected"

  /** The `switch` of `handleFormSubmit`: which service a tool calls and with what, or no branch at all. */
  function Dispatch(tool: Tool, formData: FormData): (r: Option<Request>)
    ensures r.None? <==> tool in {Curator, Scouting, MarketAnalysis, DealMemo}
    ensures r.Some? && tool == Neighborhoods ==> r.value == Request(RunSoundNeighborhoods, NeighborhoodPlaceholder)
    ensures r.Some? && tool != Neighborhoods ==> r.value.form == formData && r.value.service != RunSoundNeighborhoods
  {
    match tool
    case Evaluator => Some(Request(RunArtistEvaluation, formData))
    case Optimizer => Some(Request(RunCampaignOptimization, formData))
    case PitchWriter => Some(Request(RunPitchWriter, formData))
    case FollowUp => Some(Request(RunSmartFollowUp, formData))
    case LyricAnalyzer => Some(Request(RunLyricAnalyzer, formData))
    case RemixABTest => Some(Request(RunRemixABTest, formData))
    case FeedbackSynthesizer => Some(Request(RunFeedbackSynthesizer, formData))
    case Neighborhoods => Some(Request(RunSoundNeighborhoods, NeighborhoodPlaceholder))
    case _ => None
  }

  /** What the `try` block ends in: the awaited call's outcome, or the thrown error for a tool with no branch. */
  function RunOutcome(tool: Tool, formData: FormData, call: Outcome<Report>): (r: Outcome<Report>)
    ensures Dispatch(tool, formData).None? ==> r == Failure(InvalidTool)
    ensures Dispatch(tool, formData).Some? ==> r == call
  {
    if Dispatch(tool, formData).None? then Failure(InvalidTool) else call
  }

  /** The error text a tool without a branch ends in. */
  lemma InvalidToolShown()
    ensures "Analysis failed: " + InvalidTool == "Analysis failed: Invalid tool selected"
  {
    assert InvalidTool == "Invalid tool selected";
  }

  /** The submitted form data never reaches the service for the neighborhoods tool. */
  lemma NeighborhoodsIgnoresForm(a: FormData, b: FormData)
    ensures Dispatch(Neighborhoods, a) == Dispatch(Neighborhoods, b)
  {
  }

  datatype ArtistTab = DashboardTab | AdvisorTab | DiscoverCuratorsTab | CampaignsTab | MessagesTab | WalletTab

  /** The page the artist dashboard renders. */
  datatype ArtistView =
    | CuratorProfilePage(profile: CuratorProfileData)
    | LoadingPage
    | ErrorPage(message: string)
    | ReportPage(analysis: Report, tool: Tool)
    | ToolFormPage(tool: Tool)
    | DashboardPage(tab: ArtistTab, subscriptionModal: bool)

  /** JavaScript truthiness of the error cell. */
  predicate HasError(error: Option<string>) {
    error.Some? && error.value != ""
  }

  class ArtistHubState {
    var activeTool: Option<Tool>
    var analysis: Option<Report>
    var isLoading: bool
    var error: Option<string>
    var activeTab: ArtistTab
    var viewingProfile: Option<CuratorProfileData>
    var isSubModalOpen: bool
    /** The conversation list and active id, with the inbox's draft. */
    const inbox: Messaging.Inbox

    constructor ()
      ensures activeTool.None? && analysis.None? && !isLoading && error.None?
      ensures activeTab == DashboardTab && viewingProfile.None? && !isSubModalOpen
      ensures fresh(inbox) && inbox.conversations == MockData.GetConversations(MockData.ArtistUser)
      ensures inbox.activeConversationId.None? && inbox.draft == ""
    {
      activeTool := None;
      analysis := None;
      isLoading := false;
      error := None;
      activeTab := DashboardTab;
      viewingProfile := None;
      isSubModalOpen := false;
      inbox := new Messaging.Inbox(MockData.GetConversations(MockData.ArtistUser));
    }

    /** Picking a tool on the dashboard. */
    method SelectTool(tool: Tool)
      modifies this, inbox
      ensures activeTool == Some(tool)
      ensures analysis == old(analysis) && isLoading == old(isLoading) && error == old(error)
      ensures activeTab == old(activeTab) && viewingProfile == old(viewingProfile) && isSubModalOpen == old(isSubModalOpen)
      ensures inbox.draft == (if old(MessagesShown()) && MessagesShown() then old(inbox.draft) else "")
      ensures inbox.conversations == old(inbox.conversations) && inbox.activeConversationId == old(inbox.activeConversationId)
    {
      var shown := MessagesShown();
      activeTool := Some(tool);
      RemountInbox(shown);
    }

    /** Clicking a tab. */
    method SetTab(tab: ArtistTab)
      modifies this, inbox
      ensures activeTab == tab
      ensures activeTool == old(activeTool) && analysis == old(analysis) && isLoading == old(isLoading)
      ensures error == old(error) && viewingProfile == old(viewingProfile) && isSubModalOpen == old(isSubModalOpen)
      ensures tab != MessagesTab ==> inbox.draft == ""
      ensures inbox.draft == (if old(MessagesShown()) && MessagesShown() then old(inbox.draft) else "")
      ensures inbox.conversations == old(inbox.conversations) && inbox.activeConversationId == old(inbox.activeConversationId)
    {
      var shown := MessagesShown();
      activeTab := tab;
      RemountInbox(shown);
    }

    /** Opening or closing the subscription modal. */
    method SetSubModal(open: bool)
      modifies this
      ensures isSubModalOpen == open
      ensures activeTool == old(activeTool) && analysis == old(analysis) && isLoading == old(isLoading)
      ensures error == old(error) && viewingProfile == old(viewingProfile) && activeTab == old(activeTab)
    {
      isSubModalOpen := open;
    }

    /** The synchronous part of `handleFormSubmit`: loading starts and the request to await is chosen. */
    method StartRun(formData: FormData, tool: Tool) returns (request: Option<Request>)
      modifies this, inbox
      ensures isLoading && error.None? && analysis.None?
      ensures request == Dispatch(tool, formData)
      ensures activeTool == old(activeTool) && activeTab == old(activeTab)
      ensures viewingProfile == old(viewingProfile) && isSubModalOpen == old(isSubModalOpen)
      ensures inbox.draft == ""
      ensures inbox.conversations == old(inbox.conversations) && inbox.activeConversationId == old(inbox.activeConversationId)
    {
      var shown := MessagesShown();
      isLoading := true;
      error := None;
      analysis := None;
      request := Dispatch(tool, formData);
      RemountInbox(shown);
    }

    /** The part of `handleFormSubmit` after the `try` block ends, given how it ended. */
    method FinishRun(tool: Tool, outcome: Outcome<Report>)
      modifies this, inbox
      ensures !isLoading
      ensures outcome.Success? ==>
        && analysis == Some(outcome.result) && error == old(error)
        && activeTool == (if tool == Neighborhoods then Some(Neighborhoods) else old(activeTool))
      ensures outcome.Failure? ==>
        error == Some("Analysis failed: " + outcome.message) && analysis == old(analysis) && activeTool == old(activeTool)
      ensures activeTab == old(activeTab) && viewingProfile == old(viewingProfile) && isSubModalOpen == old(isSubModalOpen)
      ensures inbox.draft == (if old(MessagesShown()) && MessagesShown() then old(inbox.draft) else "")
      ensures inbox.conversations == old(inbox.conversations) && inbox.activeConversationId == old(inbox.activeConversationId)
    {
      var shown := MessagesShown();
      match outcome {
        case Success(r) =>
          analysis := Some(r);
          if tool == Neighborhoods {
            activeTool := Some(Neighborhoods);
          }
        case Failure(msg) =>
          error := Some("Analysis failed: " + msg);
      }
      isLoading := false;
      RemountInbox(shown);
    }

    /**
     * The whole of `handleFormSubmit`, with `call` the outcome of the awaited
     * service: a tool without a branch always fails with the invalid-tool error.
     */
    method HandleFormSubmit(formData: FormData, tool: Tool, call: Outcome<Report>)
      modifies this, inbox
      ensures !isLoading
      ensures var o := RunOutcome(tool, formData, call);
        && analysis == (if o.Success? then Some(o.result) else None)
        && error == (if o.Failure? then Some("Analysis failed: " + o.message) else None)
      ensures tool in {Curator, Scouting, MarketAnalysis, DealMemo} ==>
        analysis.None? && error == Some("Analysis failed: Invalid tool selected")
      ensures activeTool == (if tool == Neighborhoods && call.Success? then Some(Neighborhoods) else old(activeTool))
      ensures activeTab == old(activeTab) && viewingProfile == old(viewingProfile) && isSubModalOpen == old(isSubModalOpen)
      ensures inbox.draft == ""
      ensures inbox.conversations == old(inbox.conversations) && inbox.activeConversationId == old(inbox.activeConversationId)
    {
      var request := StartRun(formData, tool);
      FinishRun(tool, RunOutcome(tool, formData, call));
      InvalidToolShown();
    }

    /** `handleViewCuratorProfile`: open the profile page of a known curator; unknown names do nothing. */
    method ViewCuratorProfile(name: string)
      modifies this, inbox
      ensures MockData.GetCuratorProfile(name).Some? ==> viewingProfile == MockData.GetCuratorProfile(name)
      ensures MockData.GetCuratorProfile(name).None? ==> viewingProfile == old(viewingProfile)
      ensures activeTool == old(activeTool) && analysis == old(analysis) && isLoading == old(isLoading)
      ensures error == old(error) && activeTab == old(activeTab) && isSubModalOpen == old(isSubModalOpen)
      ensures inbox.draft == (if old(MessagesShown()) && MessagesShown() then old(inbox.draft) else "")
      ensures inbox.conversations == old(inbox.conversations) && inbox.activeConversationId == old(inbox.activeConversationId)
    {
      var shown := MessagesShown();
      var profile := MockData.GetCuratorProfile(name);
      if profile.Some? {
        viewingProfile := profile;
      }
      RemountInbox(shown);
    }

    /** Closing the curator profile page. */
    method CloseProfile()
      modifies this, inbox
      ensures viewingProfile.None?
      ensures activeTool == old(activeTool) && analysis == old(analysis) && isLoading == old(isLoading)
      ensures error == old(error) && activeTab == old(activeTab) && isSubModalOpen == old(isSubModalOpen)
      ensures inbox.draft == (if old(MessagesShown()) && MessagesShown() then old(inbox.draft) else "")
      ensures inbox.conversations == old(inbox.conversations) && inbox.activeConversationId == old(inbox.activeConversationId)
    {
      var shown := MessagesShown();
      viewingProfile := None;
      RemountInbox(shown);
    }

    /**
     * `handleMessageCurator`: for a known curator, open (or create) the thread
     * with them, close the profile page and switch to the messages tab. Coming
     * from the profile page, the inbox is mounted afresh with an empty draft.
     */
    method MessageCurator(name: string, now: nat)
      modifies this, inbox
      ensures MockData.GetCuratorProfile(name).None? ==>
        && inbox.conversations == old(inbox.conversations)
        && inbox.activeConversationId == old(inbox.activeConversationId)
        && viewingProfile == old(viewingProfile) && activeTab == old(activeTab)
      ensures MockData.GetCuratorProfile(name).Some? ==>
        var p := MockData.GetCuratorProfile(name).value;
        && inbox.activeConversationId.Some?
        && (inbox.conversations, inbox.activeConversationId.value)
           == Messaging.OpenThread(old(inbox.conversations), p.id, p.name, p.imageUrl, now)
        && viewingProfile.None? && activeTab == MessagesTab
      ensures old(viewingProfile).Some? ==> inbox.draft == ""
      ensures inbox.draft == (if old(MessagesShown()) && MessagesShown() then old(inbox.draft) else "")
      ensures activeTool == old(activeTool) && analysis == old(analysis) && isLoading == old(isLoading)
      ensures error == old(error) && isSubModalOpen == old(isSubModalOpen)
    {
      var shown := MessagesShown();
      var profile := MockData.GetCuratorProfile(name);
      if profile.Some? {
        var p := profile.value;
        inbox.OpenThreadWith(p.id, p.name, p.imageUrl, now);
        viewingProfile := None;
        activeTab := MessagesTab;
      }
      RemountInbox(shown);
    }

    /** `handleResetToDashboard`: no tool, no result, no error, and the dashboard tab. */
    method ResetToDashboard()
      modifies this, inbox
      ensures analysis.None? && error.None? && !isLoading && activeTool.None? && activeTab == DashboardTab
      ensures viewingProfile == old(viewingProfile) && isSubModalOpen == old(isSubModalOpen)
      ensures inbox.draft == ""
      ensures inbox.conversations == old(inbox.conversations) && inbox.activeConversationId == old(inbox.activeConversationId)
    {
      var shown := MessagesShown();
      analysis := None;
      error := None;
      isLoading := false;
      activeTool := None;
      activeTab := DashboardTab;
      RemountInbox(shown);
    }

    /**
     * The page rendered: an open curator profile, then the spinner, then the
     * error, then the report (which needs both an analysis and an active
     * tool), then the active tool's form, then the dashboard.
     */
    function View(): (v: ArtistView)
      reads this
      ensures v.CuratorProfilePage? <==> viewingProfile.Some?
      ensures v.LoadingPage? <==> viewingProfile.None? && isLoading
      ensures v.ErrorPage? <==> viewingProfile.None? && !isLoading && HasError(error)
      ensures v.ReportPage? <==> viewingProfile.None? && !isLoading && !HasError(error) && analysis.Some? && activeTool.Some?
      ensures v.ToolFormPage? <==>
        viewingProfile.None? && !isLoading && !HasError(error) && analysis.None? && activeTool.Some?
      ensures v.DashboardPage? <==> viewingProfile.None? && !isLoading && !HasError(error) && activeTool.None?
    {
      if viewingProfile.Some? then CuratorProfilePage(viewingProfile.value)
      else if isLoading then LoadingPage
      else if HasError(error) then ErrorPage(error.value)
      else if analysis.Some? && activeTool.Some? then ReportPage(analysis.value, activeTool.value)
      else if activeTool.Some? then ToolFormPage(activeTool.value)
      else DashboardPage(activeTab, isSubModalOpen)
    }

    /** The inbox is mounted: the dashboard page is up, on its messages tab. */
    predicate MessagesShown()
      reads this
    {
      View().DashboardPage? && activeTab == MessagesTab
    }

    /**
     * The inbox keeps its draft only when it stays mounted through a handler:
     * shown before and after it. Otherwise React unmounts it, or mounts a new
     * one, and the draft starts again empty.
     */
    method RemountInbox(wasShown: bool)
      modifies inbox
      ensures inbox.draft == (if wasShown && MessagesShown() then old(inbox.draft) else "")
      ensures inbox.conversations == old(inbox.conversations) && inbox.activeConversationId == old(inbox.activeConversationId)
    {
      if !(wasShown && MessagesShown()) {
        inbox.SetDraft("");
      }
    }
  }

  /**
   * The dashboard's "Explore Your Sound" button: a successful neighborhoods
   * run shows its report even when no tool was picked before.
   */
  method ExploreSoundShowsReport(hub: ArtistHubState, r: Report)
    requires hub.viewingProfile.None?
    modifies hub, hub.inbox
    ensures hub.View() == ReportPage(r, Neighborhoods)
  {
    hub.HandleFormSubmit(map[], Neighborhoods, Success(r));
  }

  /**
   * A draft typed on the messages tab is gone after a trip to another tab and
   * back: sending then sends nothing.
   */
  method TabTripDropsDraft(hub: ArtistHubState, text: string, other: ArtistTab, now: nat)
    requires hub.View().DashboardPage? && other != MessagesTab
    modifies hub, hub.inbox
    ensures hub.inbox.conversations == old(hub.inbox.conversations)
    ensures hub.inbox.draft == ""
  {
    hub.SetTab(MessagesTab);
    hub.inbox.SetDraft(text);
    hub.SetTab(other);
    hub.SetTab(MessagesTab);
    hub.inbox.SendMessage(now);
  }
}
