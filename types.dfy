/**
 * The records and enumerations the application's handlers pass around,
 * reduced to the fields the modelled behaviour reads or writes.
 */
module Types {
  import opened Common

  /** The twelve AI-assisted features. */
  datatype Tool =
    | Evaluator | Curator | Optimizer | PitchWriter | FollowUp | Neighborhoods
    | Scouting | RemixABTest | FeedbackSynthesizer | LyricAnalyzer | MarketAnalysis | DealMemo

  /** The three role dashboards. */
  datatype Hub = ForArtists | ForCurators | ForLabels

  datatype Theme = Light | Dark

  /** Kind of a toast notification: 'success' or 'error'. */
  datatype NoticeKind = SuccessNotice | ErrorNotice

  /** What a handler passes to `addNotification`: the text and its kind, before an id is attached. */
  datatype Notice = Notice(message: string, kind: NoticeKind)

  /** A toast in the application's list, with the millisecond id it was created under. */
  datatype NotificationMessage = NotificationMessage(id: int, message: string, kind: NoticeKind)

  /** `Transaction.type`. */
  datatype TxType =
    | Deposit | Withdrawal | Fee | Payout | Bonus | Tip | CreditPurchase | CreditSpend

  /** A ledger entry; money amounts are exact reals. */
  datatype Transaction = Transaction(id: string, kind: TxType, description: string, amount: real, date: string)

  /** A purchasable credit pack. */
  datatype CreditPack = CreditPack(id: string, credits: nat, price: real, bonus: Option<string>)

  /** `Message.sender`. */
  datatype Sender = FromArtist | FromCurator | FromSystem | FromMe

  datatype Message = Message(id: string, sender: Sender, text: string, timestamp: string, isRead: bool)

  /** One message thread with another user. */
  datatype Conversation = Conversation(
    id: string,
    participantId: string,
    participantName: string,
    participantImageUrl: string,
    lastMessage: string,
    timestamp: string,
    unreadCount: nat,
    messages: seq<Message>)

  /** Who wrote a chat message in the career advisor. */
  datatype ChatRole = User | Model

  /** A career-advisor chat message; the source's `parts` array always holds exactly one text part. */
  datatype ChatMessage = ChatMessage(role: ChatRole, text: string)

  datatype TrackMetadata = TrackMetadata(artist_name: string, track_title: string, genre: string, isrc: string)

  /** Campaign performance figures; the percentages and multipliers are exact reals. */
  datatype CampaignPerformanceData = CampaignPerformanceData(
    id: string, curatorName: string, placementDate: string,
    streamUplift: real, listenerGrowth: nat, saveRate: real, roi: real)

  datatype SubmissionStatus = Pending | Reviewed

  /** A track submitted to a curator. */
  datatype Submission = Submission(
    id: string,
    artist_name: string,
    track_title: string,
    genre: string,
    mood: string,
    pitch: string,
    status: SubmissionStatus,
    aiFitScore: int,
    reviewHelpfulness: Option<int>,
    performanceDataId: Option<string>)

  /** A curator's earnings summary; only the reputation score is ever recomputed. */
  datatype CuratorEarnings = CuratorEarnings(total: real, reputationScore: int, streakBonus: real, breakdown: seq<real>)

  /** One row of the curator directory. */
  datatype CuratorListData = CuratorListData(
    id: string, name: string, kind: string, presentation: string,
    country: string, job: string, website: string, imageUrl: string)

  /** The identifying part of an artist profile page. */
  datatype ArtistProfileData = ArtistProfileData(
    id: string, name: string, genre: string, location: string, imageUrl: string,
    monthlyListeners: nat, saves: nat)

  /** The identifying part of a curator profile page. */
  datatype CuratorProfileData = CuratorProfileData(
    id: string, name: string, tagline: string, imageUrl: string,
    acceptanceRate: nat, reputation: nat, genres: seq<string>)

  /** A genre and its growth percentage for the label heatmap. */
  datatype GenreTrend = GenreTrend(genre: string, growth: int)

  /** A chosen upload file, identified by name. */
  datatype FileRef = FileRef(name: string)

  /** One cell of a form: text inputs, numeric sliders and the attached file. */
  datatype FieldValue = Text(text: string) | Number(number: real) | Attachment(file: Option<FileRef>)

  /** Form data as the property bag the change handlers update by input id. */
  type FormData = map<string, FieldValue>

  /** A web citation of a grounded market analysis. */
  datatype Source = Source(uri: string, title: string)

  /** The market-analysis result: the free text and its citations. */
  datatype MarketAnalysisResponse = MarketAnalysisResponse(analysis_text: string, sources: seq<Source>)

  /** The error text that makes a feature ask for a new API key. */
  const KeyNotFound := "Requested entity was not found"

  /**
   * The parsed JSON report the AI service returned for a tool. Its fields are
   * only rendered, so the model keeps the producing tool and the payload text.
   */
  datatype Report = Report(tool: Tool, payload: string)
}
