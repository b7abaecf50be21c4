/**
 * The curator dashboard: the submission queue with its pre-analysis step,
 * the AI-assisted review, rating a review (which recomputes the curator's
 * reputation), opening artist profiles and messaging artists, and the view
 * the dashboard shows for its current cells.
 */
module CuratorHub {
  import opened Common
  import opened Types
  import JsText
  import MockData
  import Messaging

  const MockSubmissions: seq<Submission> := [
    Submission("sub1", "Luna Bloom", "Neon Tides", "Synthwave", "Nostalgic, Driving",
      "Hey! My new track 'Neon Tides' is a throwback to classic 80s synthwave with a modern twist. Think Kavinsky meets The Midnight. Hope you enjoy the ride!",
      Reviewed, 88, None, Some("perf1")),
    Submission("sub2", "Sol", "Morning Mist", "Lofi Hip-Hop", "Chill, Reflective",
      "Hey, here's my latest lofi beat, 'Morning Mist'. It's super chill, perfect for a study or relax playlist. Let me know what you think.",
      Reviewed, 75, None, Some("perf2")),
    Submission("sub3", "The Fuse", "Riot", "Indie Rock", "Energetic, Raw",
      "Our new single \"Riot\" is a high-energy indie rock anthem. If you like bands like The Strokes or Arctic Monkeys, this should be right up your alley.",
      Pending, 62, None, None)
  ]

  /** The starting earnings; the breakdown is base, quality bonus, performance bonus and tips. */
  const MockEarnings := CuratorEarnings(342.50, 92, 1.15, [220.00, 75.50, 40.00, 7.00])

  // ----- Rating and reputation -----

  /** The `map` of `handleRateReview`: the submission with this id is marked reviewed with the rating. */
  function RateSubmissions(subs: seq<Submission>, id: string, rating: int): (r: seq<Submission>)
    ensures |r| == |subs|
  {
    seq(|subs|, k requires 0 <= k < |subs| =>
      if subs[k].id == id then subs[k].(status := Reviewed, reviewHelpfulness := Some(rating)) else subs[k])
  }

  /** Rating touches only the submissions with the id; they become reviewed with exactly this rating. */
  lemma RateOnlyTouchesId(subs: seq<Submission>, id: string, rating: int)
    ensures |RateSubmissions(subs, id, rating)| == |subs|
    ensures forall k :: 0 <= k < |subs| && subs[k].id != id ==> RateSubmissions(subs, id, rating)[k] == subs[k]
    ensures forall k :: 0 <= k < |subs| && subs[k].id == id ==>
      && RateSubmissions(subs, id, rating)[k].status == Reviewed
      && RateSubmissions(subs, id, rating)[k].reviewHelpfulness == Some(rating)
      && RateSubmissions(subs, id, rating)[k].(status := subs[k].status, reviewHelpfulness := subs[k].reviewHelpfulness) == subs[k]
  {
  }

  /** Rating again overwrites the earlier rating. */
  lemma RerateOverwrites(subs: seq<Submission>, id: string, first: int, second: int)
    ensures RateSubmissions(RateSubmissions(subs, id, first), id, second) == RateSubmissions(subs, id, second)
  {
    var a := RateSubmissions(RateSubmissions(subs, id, first), id, second);
    var b := RateSubmissions(subs, id, second);
    assert |a| == |b|;
    forall k | 0 <= k < |a|
      ensures a[k] == b[k]
    {
    }
  }

  /** The submissions that carry a rating. */
  function Rated(subs: seq<Submission>): (r: seq<Submission>)
    ensures |r| <= |subs|
    ensures forall k :: 0 <= k < |r| ==> r[k].reviewHelpfulness.Some?
  {
    if subs == [] then []
    else if subs[0].reviewHelpfulness.Some? then [subs[0]] + Rated(subs[1..])
    else Rated(subs[1..])
  }

  /** The `reduce` over rated submissions: the sum of their ratings. */
  function RatingTotal(subs: seq<Submission>): int {
    if subs == [] then 0
    else (if subs[0].reviewHelpfulness.Some? then subs[0].reviewHelpfulness.value else 0) + RatingTotal(subs[1..])
  }

  /** Every rating lies in the star range 1..5. */
  predicate StarRatings(subs: seq<Submission>) {
    forall k :: 0 <= k < |subs| && subs[k].reviewHelpfulness.Some? ==> 1 <= subs[k].reviewHelpfulness.value <= 5
  }

  /** `Math.round`: the nearest integer, halves rounded up. */
  function RoundHalfUp(x: real): int {
    (x + 0.5).Floor
  }

  /** `Math.round((total / count / 5) * 100)` in exact arithmetic. */
  function ReputationScore(total: int, count: nat): int
    requires count > 0
  {
    RoundHalfUp(total as real / count as real / 5.0 * 100.0)
  }

  /** The floor of an integer quotient taken as a real is integer division. */
  lemma FloorOfQuotient(p: int, q: int)
    requires q > 0
    ensures (p as real / q as real).Floor == p / q
  {
    var d, r := p / q, p % q;
    assert p == d * q + r && 0 <= r < q;
    var x := p as real / q as real;
    assert x == d as real + r as real / q as real;
    assert 0.0 <= r as real / q as real < 1.0;
  }

  /** The reputation in integer arithmetic: `(40 * total + count) div (2 * count)`. */
  lemma ReputationIsIntegerQuotient(total: int, count: nat)
    requires count > 0
    ensures ReputationScore(total, count) == (40 * total + count) / (2 * count)
  {
    var x := total as real / count as real / 5.0 * 100.0 + 0.5;
    assert x == (40 * total + count) as real / (2 * count) as real;
    FloorOfQuotient(40 * total + count, 2 * count);
  }

  /** With star ratings, the total lies between the count and five times the count. */
  lemma {:induction false} RatingTotalBounds(subs: seq<Submission>)
    requires StarRatings(subs)
    ensures |Rated(subs)| <= RatingTotal(subs) <= 5 * |Rated(subs)|
  {
    if subs != [] {
      RatingTotalBounds(subs[1..]);
    }
  }

  /** Multiplying by a non-negative factor keeps the order. */
  lemma MulMonotone(x: int, y: int, b: int)
    ensures b >= 0 && x <= y ==> x * b <= y * b
  {
    if b >= 0 && x <= y {
      assert y * b - x * b == (y - x) * b;
    }
  }

  /** A quotient is at least `k` when the dividend is at least `k` times the divisor. */
  lemma QuotientAtLeast(a: int, b: int, k: int)
    requires b > 0 && a >= k * b
    ensures a / b >= k
  {
    var q, r := a / b, a % b;
    assert a == q * b + r && r < b;
    assert (q + 1) * b == q * b + b;
    MulMonotone(q + 1, k, b);
  }

  /** A quotient is at most `k` when the dividend is below `k + 1` times the divisor. */
  lemma QuotientAtMost(a: int, b: int, k: int)
    requires b > 0 && a < (k + 1) * b
    ensures a / b <= k
  {
    var q, r := a / b, a % b;
    assert a == q * b + r && r >= 0;
    assert (k + 1) * b == k * b + b;
    MulMonotone(k + 1, q, b);
  }

  /** With ratings drawn from one to five stars, the reputation stays between 20 and 100. */
  lemma ReputationInRange(subs: seq<Submission>)
    requires StarRatings(subs) && |Rated(subs)| > 0
    ensures 20 <= ReputationScore(RatingTotal(subs), |Rated(subs)|) <= 100
  {
    var t, c := RatingTotal(subs), |Rated(subs)|;
    RatingTotalBounds(subs);
    ReputationIsIntegerQuotient(t, c);
    QuotientAtLeast(40 * t + c, 2 * c, 20);
    QuotientAtMost(40 * t + c, 2 * c, 100);
  }

  /** Rating keeps every rating in the star range when the new one is a star rating. */
  lemma RateKeepsStarRatings(subs: seq<Submission>, id: string, rating: int)
    requires StarRatings(subs) && 1 <= rating <= 5
    ensures StarRatings(RateSubmissions(subs, id, rating))
    ensures |Rated(RateSubmissions(subs, id, rating))| >= |Rated(subs)|
  {
    RatedGrows(subs, id, rating);
  }

  /** Rating never removes a rating. */
  lemma {:induction false} RatedGrows(subs: seq<Submission>, id: string, rating: int)
    ensures |Rated(RateSubmissions(subs, id, rating))| >= |Rated(subs)|
  {
    if subs != [] {
      RatedGrows(subs[1..], id, rating);
      assert RateSubmissions(subs, id, rating)[1..] == RateSubmissions(subs[1..], id, rating);
    }
  }

  /** After a rating the submission with the id is rated, so a reputation always results. */
  lemma {:induction false} RatedAfterRating(subs: seq<Submission>, k: nat, rating: int)
    requires k < |subs|
    ensures |Rated(RateSubmissions(subs, subs[k].id, rating))| > 0
  {
    var r := RateSubmissions(subs, subs[k].id, rating);
    if k > 0 {
      RatedAfterRating(subs[1..], k - 1, rating);
      assert r[1..] == RateSubmissions(subs[1..], subs[k].id, rating);
    }
  }

  // ----- The dashboard -----

  datatype CuratorTab = QueueTab | PlaylistTab | AudienceTab | MessagesTab | EarningsTab

  /** What the reviewing page shows under its optional spinner and error block. */
  datatype ReviewBody = NoBody | ReportBody(report: Report) | FormBody(submission: Submission)

  /** The page the curator dashboard renders. */
  datatype CuratorView =
    | ArtistProfilePage(profile: ArtistProfileData)
    | ReviewPage(spinner: bool, errorText: Option<string>, body: ReviewBody)
    | DashboardPage(tab: CuratorTab, preAnalysisModal: Option<Submission>)

  /** JavaScript truthiness of the error cell. */
  predicate HasError(error: Option<string>) {
    error.Some? && error.value != ""
  }

  class CuratorHubState {
    var submissions: seq<Submission>
    var earnings: CuratorEarnings
    var selectedSubmission: Option<Submission>
    var preAnalysisSubmission: Option<Submission>
    var analysis: Option<Report>
    var isLoading: bool
    var error: Option<string>
    var activeTab: CuratorTab
    var viewingProfile: Option<ArtistProfileData>
    /** The conversation list and active id, with the inbox's draft. */
    const inbox: Messaging.Inbox

    constructor ()
      ensures submissions == MockSubmissions && earnings == MockEarnings
      ensures selectedSubmission.None? && preAnalysisSubmission.None? && analysis.None?
      ensures !isLoading && error.None? && activeTab == QueueTab && viewingProfile.None?
      ensures fresh(inbox) && inbox.conversations == MockData.GetConversations(MockData.CuratorUser)
      ensures inbox.activeConversationId.None? && inbox.draft == ""
    {
      submissions := MockSubmissions;
      earnings := MockEarnings;
      selectedSubmission := None;
      preAnalysisSubmission := None;
      analysis := None;
      isLoading := false;
      error := None;
      activeTab := QueueTab;
      viewingProfile := None;
      inbox := new Messaging.Inbox(MockData.GetConversations(MockData.CuratorUser));
    }

    /** Clicking a tab. */
    method SetTab(tab: CuratorTab)
      modifies this, inbox
      ensures activeTab == tab
      ensures submissions == old(submissions) && earnings == old(earnings)
      ensures selectedSubmission == old(selectedSubmission) && preAnalysisSubmission == old(preAnalysisSubmission)
      ensures analysis == old(analysis) && isLoading == old(isLoading) && error == old(error)
      ensures viewingProfile == old(viewingProfile)
      ensures tab != MessagesTab ==> inbox.draft == ""
      ensures inbox.draft == (if old(MessagesShown()) && MessagesShown() then old(inbox.draft) else "")
      ensures inbox.conversations == old(inbox.conversations) && inbox.activeConversationId == old(inbox.activeConversationId)
    {
      var shown := MessagesShown();
      activeTab := tab;
      RemountInbox(shown);
    }

    /** `handleSelectSubmission`: open the pre-analysis modal for a queued track. */
    method SelectSubmission(s: Submission)
      modifies this
      ensures preAnalysisSubmission == Some(s)
      ensures submissions == old(submissions) && earnings == old(earnings)
      ensures selectedSubmission == old(selectedSubmission) && activeTab == old(activeTab)
      ensures analysis == old(analysis) && isLoading == old(isLoading) && error == old(error)
      ensures viewingProfile == old(viewingProfile)
    {
      preAnalysisSubmission := Some(s);
    }

    /** Cancelling the pre-analysis modal. */
    method CancelPreAnalysis()
      modifies this
      ensures preAnalysisSubmission.None?
      ensures submissions == old(submissions) && earnings == old(earnings)
      ensures selectedSubmission == old(selectedSubmission) && activeTab == old(activeTab)
      ensures analysis == old(analysis) && isLoading == old(isLoading) && error == old(error)
      ensures viewingProfile == old(viewingProfile)
    {
      preAnalysisSubmission := None;
    }

    /** `handleStartFullReview`: the pre-analysed submission becomes the one under review. */
    method StartFullReview()
      modifies this, inbox
      ensures old(preAnalysisSubmission).Some? ==>
        && selectedSubmission == old(preAnalysisSubmission) && preAnalysisSubmission.None?
        && analysis.None? && error.None?
      ensures old(preAnalysisSubmission).None? ==>
        selectedSubmission == old(selectedSubmission) && preAnalysisSubmission.None?
        && analysis == old(analysis) && error == old(error)
      ensures submissions == old(submissions) && earnings == old(earnings) && isLoading == old(isLoading)
      ensures activeTab == old(activeTab) && viewingProfile == old(viewingProfile)
      ensures inbox.draft == (if old(MessagesShown()) && MessagesShown() then old(inbox.draft) else "")
      ensures inbox.conversations == old(inbox.conversations) && inbox.activeConversationId == old(inbox.activeConversationId)
    {
      var shown := MessagesShown();
      if preAnalysisSubmission.Some? {
        selectedSubmission := preAnalysisSubmission;
        preAnalysisSubmission := None;
        analysis := None;
        error := None;
      }
      RemountInbox(shown);
    }

    /** The synchronous part of `handleFormSubmit`, before the awaited review. */
    method StartSubmit()
      modifies this
      ensures isLoading && error.None? && analysis.None?
      ensures submissions == old(submissions) && earnings == old(earnings)
      ensures selectedSubmission == old(selectedSubmission) && preAnalysisSubmission == old(preAnalysisSubmission)
      ensures activeTab == old(activeTab) && viewingProfile == old(viewingProfile)
    {
      isLoading := true;
      error := None;
      analysis := None;
    }

    /** The part of `handleFormSubmit` after the awaited review, given its outcome. */
    method FinishSubmit(outcome: Outcome<Report>)
      modifies this
      ensures !isLoading
      ensures outcome.Success? ==> analysis == Some(outcome.result) && error == old(error)
      ensures outcome.Failure? ==> error == Some("Analysis failed: " + outcome.message) && analysis == old(analysis)
      ensures submissions == old(submissions) && earnings == old(earnings)
      ensures selectedSubmission == old(selectedSubmission) && preAnalysisSubmission == old(preAnalysisSubmission)
      ensures activeTab == old(activeTab) && viewingProfile == old(viewingProfile)
    {
      match outcome {
        case Success(r) => analysis := Some(r);
        case Failure(msg) => error := Some("Analysis failed: " + msg);
      }
      isLoading := false;
    }

    /** The whole of `handleFormSubmit`: exactly one of analysis and error is set, and loading ends. */
    method HandleFormSubmit(outcome: Outcome<Report>)
      modifies this
      ensures !isLoading
      ensures analysis == (if outcome.Success? then Some(outcome.result) else None)
      ensures error == (if outcome.Failure? then Some("Analysis failed: " + outcome.message) else None)
      ensures submissions == old(submissions) && earnings == old(earnings)
      ensures selectedSubmission == old(selectedSubmission) && preAnalysisSubmission == old(preAnalysisSubmission)
      ensures activeTab == old(activeTab) && viewingProfile == old(viewingProfile)
    {
      StartSubmit();
      FinishSubmit(outcome);
    }

    /**
     * `handleRateReview`: mark the selected submission reviewed with the rating
     * and recompute the reputation as the rounded average rating in percent.
     */
    method RateReview(rating: int)
      modifies this
      ensures old(selectedSubmission).None? ==> submissions == old(submissions) && earnings == old(earnings)
      ensures old(selectedSubmission).Some? ==>
        && submissions == RateSubmissions(old(submissions), old(selectedSubmission).value.id, rating)
        && (|Rated(submissions)| > 0 ==>
              earnings == old(earnings).(reputationScore := ReputationScore(RatingTotal(submissions), |Rated(submissions)|)))
        && (|Rated(submissions)| == 0 ==> earnings == old(earnings))
      ensures selectedSubmission == old(selectedSubmission) && preAnalysisSubmission == old(preAnalysisSubmission)
      ensures analysis == old(analysis) && isLoading == old(isLoading) && error == old(error)
      ensures activeTab == old(activeTab) && viewingProfile == old(viewingProfile)
    {
      if selectedSubmission.None? {
        return;
      }
      var updated := RateSubmissions(submissions, selectedSubmission.value.id, rating);
      submissions := updated;
      var rated := Rated(updated);
      if |rated| > 0 {
        earnings := earnings.(reputationScore := ReputationScore(RatingTotal(updated), |rated|));
      }
    }

    /** `handleViewArtistProfile`: open the profile page of a known artist; unknown names do nothing. */
    method ViewArtistProfile(name: string)
      modifies this, inbox
      ensures MockData.GetArtistProfile(name).Some? ==> viewingProfile == MockData.GetArtistProfile(name)
      ensures MockData.GetArtistProfile(name).None? ==> viewingProfile == old(viewingProfile)
      ensures submissions == old(submissions) && earnings == old(earnings)
      ensures selectedSubmission == old(selectedSubmission) && preAnalysisSubmission == old(preAnalysisSubmission)
      ensures analysis == old(analysis) && isLoading == old(isLoading) && error == old(error)
      ensures activeTab == old(activeTab)
      ensures inbox.draft == (if old(MessagesShown()) && MessagesShown() then old(inbox.draft) else "")
      ensures inbox.conversations == old(inbox.conversations) && inbox.activeConversationId == old(inbox.activeConversationId)
    {
      var shown := MessagesShown();
      var profile := MockData.GetArtistProfile(name);
      if profile.Some? {
        viewingProfile := profile;
      }
      RemountInbox(shown);
    }

    /** Closing the artist profile page. */
    method CloseProfile()
      modifies this, inbox
      ensures viewingProfile.None?
      ensures submissions == old(submissions) && earnings == old(earnings)
      ensures selectedSubmission == old(selectedSubmission) && preAnalysisSubmission == old(preAnalysisSubmission)
      ensures analysis == old(analysis) && isLoading == old(isLoading) && error == old(error)
      ensures activeTab == old(activeTab)
      ensures inbox.draft == (if old(MessagesShown()) && MessagesShown() then old(inbox.draft) else "")
      ensures inbox.conversations == old(inbox.conversations) && inbox.activeConversationId == old(inbox.activeConversationId)
    {
      var shown := MessagesShown();
      viewingProfile := None;
      RemountInbox(shown);
    }

    /**
     * `handleMessageArtist`: for a known artist, open (or create) the thread
     * with them, close the profile page and switch to the messages tab. Coming
     * from the profile page, the inbox is mounted afresh with an empty draft.
     */
    method MessageArtist(name: string, now: nat)
      modifies this, inbox
      ensures MockData.GetArtistProfile(name).None? ==>
        && inbox.conversations == old(inbox.conversations)
        && inbox.activeConversationId == old(inbox.activeConversationId)
        && viewingProfile == old(viewingProfile) && activeTab == old(activeTab)
      ensures MockData.GetArtistProfile(name).Some? ==>
        var p := MockData.GetArtistProfile(name).value;
        && inbox.activeConversationId.Some?
        && (inbox.conversations, inbox.activeConversationId.value)
           == Messaging.OpenThread(old(inbox.conversations), p.id, p.name, p.imageUrl, now)
        && viewingProfile.None? && activeTab == MessagesTab
      ensures old(viewingProfile).Some? ==> inbox.draft == ""
      ensures inbox.draft == (if old(MessagesShown()) && MessagesShown() then old(inbox.draft) else "")
      ensures submissions == old(submissions) && earnings == old(earnings)
      ensures selectedSubmission == old(selectedSubmission) && preAnalysisSubmission == old(preAnalysisSubmission)
      ensures analysis == old(analysis) && isLoading == old(isLoading) && error == old(error)
    {
      var shown := MessagesShown();
      var profile := MockData.GetArtistProfile(name);
      if profile.Some? {
        var p := profile.value;
        inbox.OpenThreadWith(p.id, p.name, p.imageUrl, now);
        viewingProfile := None;
        activeTab := MessagesTab;
      }
      RemountInbox(shown);
    }

    /** `handleReset`: back to the queue with no review in progress. */
    method Reset()
      modifies this, inbox
      ensures selectedSubmission.None? && analysis.None? && error.None? && !isLoading
      ensures submissions == old(submissions) && earnings == old(earnings)
      ensures preAnalysisSubmission == old(preAnalysisSubmission)
      ensures activeTab == old(activeTab) && viewingProfile == old(viewingProfile)
      ensures inbox.draft == (if old(MessagesShown()) && MessagesShown() then old(inbox.draft) else "")
      ensures inbox.conversations == old(inbox.conversations) && inbox.activeConversationId == old(inbox.activeConversationId)
    {
      var shown := MessagesShown();
      selectedSubmission := None;
      analysis := None;
      error := None;
      isLoading := false;
      RemountInbox(shown);
    }

    /**
     * The page rendered: an open profile wins, then the review of a selected
     * submission (spinner and error block as set; the report or the form only
     * when neither is showing), then the dashboard tab.
     */
    function View(): (v: CuratorView)
      reads this
      ensures viewingProfile.Some? <==> v.ArtistProfilePage?
      ensures v.ReviewPage? <==> viewingProfile.None? && selectedSubmission.Some?
      ensures v.ReviewPage? ==> (v.spinner <==> isLoading) && (v.errorText.Some? <==> HasError(error))
      ensures v.ReviewPage? && v.body.ReportBody? ==> !isLoading && !HasError(error) && analysis.Some?
      ensures v.ReviewPage? && v.body.FormBody? ==> !isLoading && !HasError(error) && analysis.None?
      ensures v.ReviewPage? && v.body.NoBody? <==> v.ReviewPage? && (isLoading || HasError(error))
    {
      if viewingProfile.Some? then ArtistProfilePage(viewingProfile.value)
      else if selectedSubmission.Some? then
        var body :=
          if isLoading || HasError(error) then NoBody
          else if analysis.Some? then ReportBody(analysis.value)
          else FormBody(selectedSubmission.value);
        ReviewPage(isLoading, if HasError(error) then error else None, body)
      else DashboardPage(activeTab, preAnalysisSubmission)
    }

    /** The inbox is mounted: the dashboard page is up, on its messages tab. */
    predicate MessagesShown()
      reads this
    {
      View().DashboardPage? && activeTab == MessagesTab
    }

    /**
     * The inbox keeps its draft only when it stays mounted through a handler:
     * shown before and after it. Otherwise React unmounts it, or mounts a new
     * one, and the draft starts again empty.
     */
    method RemountInbox(wasShown: bool)
      modifies inbox
      ensures inbox.draft == (if wasShown && MessagesShown() then old(inbox.draft) else "")
      ensures inbox.conversations == old(inbox.conversations) && inbox.activeConversationId == old(inbox.activeConversationId)
    {
      if !(wasShown && MessagesShown()) {
        inbox.SetDraft("");
      }
    }
  }

  /** A failed review shows the error block and no form, until the reviewer resets. */
  method FailedReviewShowsError(hub: CuratorHubState, message: string)
    requires hub.selectedSubmission.Some? && hub.viewingProfile.None?
    modifies hub
    ensures hub.View() == ReviewPage(false, Some("Analysis failed: " + message), NoBody)
  {
    hub.HandleFormSubmit(Failure(message));
  }

  /** After a reset the dashboard is shown again, on the tab it was on. */
  method ResetShowsDashboard(hub: CuratorHubState)
    requires hub.viewingProfile.None?
    modifies hub, hub.inbox
    ensures hub.View() == DashboardPage(old(hub.activeTab), old(hub.preAnalysisSubmission))
  {
    hub.Reset();
  }

  /**
   * A draft typed to an artist is gone after a visit to a profile page: the
   * inbox the profile's message button opens starts empty.
   */
  method ProfileVisitDropsDraft(hub: CuratorHubState, text: string, name: string, now: nat)
    requires hub.View().DashboardPage? && MockData.GetArtistProfile(name).Some?
    modifies hub, hub.inbox
    ensures hub.activeTab == MessagesTab && hub.inbox.draft == ""
  {
    hub.SetTab(MessagesTab);
    hub.inbox.SetDraft(text);
    hub.ViewArtistProfile(name);
    hub.MessageArtist(name, now);
  }
}
