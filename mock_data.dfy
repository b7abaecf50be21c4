/**
 * The in-memory data that stands in for a backend: credit packs, the one
 * known ISRC, campaign reports, artist and curator profiles, the seeded
 * conversations and the curator directory, with their lookup functions.
 */
module MockData {
  import opened Common
  import opened Types
  import JsText

  const CreditPacks: seq<CreditPack> := [
    CreditPack("pack1", 10, 10.0, Some("Basic")),
    CreditPack("pack2", 55, 50.0, Some("+5 Credits")),
    CreditPack("pack3", 120, 100.0, Some("+20 Credits"))
  ]

  /** The only ISRC the lookup knows. */
  const KnownIsrc: string := "US-S1Z-23-00001"

  const KnownTrack := TrackMetadata("Luna Bloom", "Neon Tides", "Synthwave", KnownIsrc)

  /** `getTrackByISRC`: a case-insensitive match against the one known code, with no format check. */
  function GetTrackByIsrc(isrc: string): (r: Option<TrackMetadata>)
    ensures r.Some? <==> JsText.Upper(isrc) == KnownIsrc
    ensures r.Some? ==> r.value == KnownTrack
  {
    if JsText.Upper(isrc) == KnownIsrc then Some(KnownTrack) else None
  }

  /** The lower-case spelling of the known ISRC finds the same track. */
  lemma LowerCaseIsrcFound()
    ensures GetTrackByIsrc("us-s1z-23-00001") == Some(KnownTrack)
  {
    assert JsText.Upper("us-s1z-23-00001") == KnownIsrc;
  }

  const CampaignPerformance: seq<CampaignPerformanceData> := [
    CampaignPerformanceData("perf1", "Synthwave Central", "2023-10-15", 25.4, 1200, 18.2, 3.2),
    CampaignPerformanceData("perf2", "LofiLoft", "2023-10-20", 15.1, 850, 22.5, 2.1)
  ]

  /** `getPerformanceReport`: the first report with exactly this id. */
  function GetPerformanceReport(id: string): (r: Option<CampaignPerformanceData>)
    ensures r.Some? ==> r.value in CampaignPerformance && r.value.id == id
    ensures r.None? <==> forall k :: 0 <= k < |CampaignPerformance| ==> CampaignPerformance[k].id != id
  {
    if CampaignPerformance[0].id == id then Some(CampaignPerformance[0])
    else if CampaignPerformance[1].id == id then Some(CampaignPerformance[1])
    else None
  }

  const ArtistProfiles: seq<ArtistProfileData> := [
    ArtistProfileData("luna-bloom", "Luna Bloom", "Synthwave", "Los Angeles, CA", "https://i.pravatar.cc/150?u=luna-bloom", 85230, 15400),
    ArtistProfileData("sol", "Sol", "Lofi Hip-Hop", "Kyoto, Japan", "https://i.pravatar.cc/150?u=sol", 150200, 32000),
    ArtistProfileData("the-fuse", "The Fuse", "Indie Rock", "Manchester, UK", "https://i.pravatar.cc/150?u=the-fuse", 45000, 7800)
  ]

  const CuratorProfiles: seq<CuratorProfileData> := [
    CuratorProfileData("synthwave-central", "Synthwave Central", "Your #1 source for retro-futuristic sounds.",
                       "https://i.pravatar.cc/150?u=synthwave-central", 15, 94,
                       ["Synthwave", "Retrowave", "Darksynth", "Outrun"]),
    CuratorProfileData("lofiloft", "LofiLoft", "Chill beats for focus and relaxation.",
                       "https://i.pravatar.cc/150?u=lofiloft", 25, 89,
                       ["Lofi Hip-Hop", "Chillhop", "Jazz Hop"])
  ]

  /**
   * `Array.prototype.find` on lower-cased names: the index of the first name
   * equal to the query ignoring letter case, if any.
   */
  function FirstNameMatch(names: seq<string>, query: string): (r: Option<nat>)
    ensures r.Some? ==> r.value < |names| && JsText.Lower(names[r.value]) == JsText.Lower(query)
    ensures r.Some? ==> forall j :: 0 <= j < r.value ==> JsText.Lower(names[j]) != JsText.Lower(query)
    ensures r.None? <==> forall j :: 0 <= j < |names| ==> JsText.Lower(names[j]) != JsText.Lower(query)
  {
    if names == [] then None
    else if JsText.Lower(names[0]) == JsText.Lower(query) then Some(0)
    else
      match FirstNameMatch(names[1..], query)
      case None => None
      case Some(k) => Some(k + 1)
  }

  function ArtistNames(): (names: seq<string>)
    ensures |names| == |ArtistProfiles|
    ensures forall k :: 0 <= k < |names| ==> names[k] == ArtistProfiles[k].name
  {
    seq(|ArtistProfiles|, k requires 0 <= k < |ArtistProfiles| => ArtistProfiles[k].name)
  }

  function CuratorNames(): (names: seq<string>)
    ensures |names| == |CuratorProfiles|
    ensures forall k :: 0 <= k < |names| ==> names[k] == CuratorProfiles[k].name
  {
    seq(|CuratorProfiles|, k requires 0 <= k < |CuratorProfiles| => CuratorProfiles[k].name)
  }

  /** `getArtistProfile`: the first artist profile whose name equals the query ignoring case. */
  function GetArtistProfile(name: string): (r: Option<ArtistProfileData>)
    ensures r.Some? ==> r.value in ArtistProfiles && JsText.Lower(r.value.name) == JsText.Lower(name)
    ensures r.None? <==> forall k :: 0 <= k < |ArtistProfiles| ==> JsText.Lower(ArtistProfiles[k].name) != JsText.Lower(name)
  {
    match FirstNameMatch(ArtistNames(), name)
    case None => None
    case Some(k) => Some(ArtistProfiles[k])
  }

  /** `getCuratorProfile`: the first curator profile whose name equals the query ignoring case. */
  function GetCuratorProfile(name: string): (r: Option<CuratorProfileData>)
    ensures r.Some? ==> r.value in CuratorProfiles && JsText.Lower(r.value.name) == JsText.Lower(name)
    ensures r.None? <==> forall k :: 0 <= k < |CuratorProfiles| ==> JsText.Lower(CuratorProfiles[k].name) != JsText.Lower(name)
  {
    match FirstNameMatch(CuratorNames(), name)
    case None => None
    case Some(k) => Some(CuratorProfiles[k])
  }

  /** The first-match search only looks at the lower-cased query. */
  lemma {:induction false} FirstNameMatchIgnoresCase(names: seq<string>, a: string, b: string)
    requires JsText.Lower(a) == JsText.Lower(b)
    ensures FirstNameMatch(names, a) == FirstNameMatch(names, b)
  {
    if names != [] {
      FirstNameMatchIgnoresCase(names[1..], a, b);
    }
  }

  /** Queries that differ only in letter case find the same profiles. */
  lemma ProfileLookupIgnoresCase(a: string, b: string)
    requires JsText.Lower(a) == JsText.Lower(b)
    ensures GetArtistProfile(a) == GetArtistProfile(b)
    ensures GetCuratorProfile(a) == GetCuratorProfile(b)
  {
    FirstNameMatchIgnoresCase(ArtistNames(), a, b);
    FirstNameMatchIgnoresCase(CuratorNames(), a, b);
  }

  /** Who is signed in, which decides the seeded conversation list. */
  datatype UserType = ArtistUser | CuratorUser

  const ArtistConversations: seq<Conversation> := [
    Conversation("conv1", "synthwave-central", "Synthwave Central", "https://i.pravatar.cc/150?u=synthwave-central",
      "Thanks for the add! Really appreciate the support.", "2 days ago", 0,
      [Message("m1", FromCurator, "Hey! Loved \"Neon Tides\". We've added it to our main playlist.", "3 days ago", true),
       Message("m2", FromMe, "Thanks for the add! Really appreciate the support.", "2 days ago", true)]),
    Conversation("conv2", "lofiloft", "LofiLoft", "https://i.pravatar.cc/150?u=lofiloft",
      "No problem! Keep up the great work.", "1 week ago", 0,
      [Message("m3", FromMe, "Just wanted to say thanks for the feedback on my last track.", "1 week ago", true),
       Message("m4", FromCurator, "No problem! Keep up the great work.", "1 week ago", true)])
  ]

  const CuratorConversations: seq<Conversation> := [
    Conversation("conv3", "luna-bloom", "Luna Bloom", "https://i.pravatar.cc/150?u=luna-bloom",
      "Awesome, thank you so much!", "2 days ago", 1,
      [Message("m5", FromMe, "Hey! Loved \"Neon Tides\". We've added it to our main playlist.", "3 days ago", true),
       Message("m6", FromArtist, "Awesome, thank you so much!", "2 days ago", false)]),
    Conversation("conv4", "sol", "Sol", "https://i.pravatar.cc/150?u=sol",
      "For sure, will do!", "1 week ago", 0,
      [Message("m7", FromArtist, "Just wanted to say thanks for the feedback on my last track.", "1 week ago", true),
       Message("m8", FromMe, "No problem! Keep up the great work.", "1 week ago", true),
       Message("m9", FromArtist, "For sure, will do!", "1 week ago", true)])
  ]

  /** No two conversations in the list share an id. */
  predicate DistinctIds(cs: seq<Conversation>) {
    forall i, j :: 0 <= i < j < |cs| ==> cs[i].id != cs[j].id
  }

  /** No two conversations in the list are with the same participant. */
  predicate DistinctParticipants(cs: seq<Conversation>) {
    forall i, j :: 0 <= i < j < |cs| ==> cs[i].participantId != cs[j].participantId
  }

  /** No two conversations in the list share an id or a participant. */
  predicate DistinctThreads(cs: seq<Conversation>) {
    DistinctIds(cs) && DistinctParticipants(cs)
  }

  /** `getConversations`: the artist's seeded threads or the curator's. */
  function GetConversations(user: UserType): (r: seq<Conversation>)
    ensures user == ArtistUser ==> r == ArtistConversations
    ensures user == CuratorUser ==> r == CuratorConversations
    ensures |r| == 2 && DistinctThreads(r)
  {
    if user == ArtistUser then ArtistConversations else CuratorConversations
  }

  const CuratorList: seq<CuratorListData> := [
    CuratorListData("curator1", "Synthwave Central", "Playlist",
      "Dedicated to promoting the best synthwave, retrowave, and outrun music from around the globe.",
      "USA", "Playlist Curator", "#", "https://i.pravatar.cc/150?u=synthwave-central"),
    CuratorListData("curator2", "LofiLoft", "Playlist",
      "Curating the finest lofi hip-hop and chillhop for our community of students and creatives.",
      "Japan", "Playlist Curator", "#", "https://i.pravatar.cc/150?u=lofiloft"),
    CuratorListData("curator3", "Indie Mixtape", "Blog",
      "A blog dedicated to discovering and sharing the best new indie rock and alternative music.",
      "UK", "Music Blogger", "#", "https://i.pravatar.cc/150?u=indie-mixtape"),
    CuratorListData("curator4", "Electronic Gems", "YouTube Channel",
      "A visual and auditory experience, featuring a wide range of electronic music from ambient to experimental.",
      "Germany", "YouTuber", "#", "https://i.pravatar.cc/150?u=electronic-gems"),
    CuratorListData("curator5", "Radio Fuego", "Radio Show",
      "Broadcasting the hottest tracks in Latin pop and reggaeton to a global audience.",
      "Colombia", "Radio Host", "#", "https://i.pravatar.cc/150?u=radio-fuego"),
    CuratorListData("curator6", "The Alternative", "Magazine",
      "An online magazine covering everything in the alternative music scene, from punk to folk.",
      "USA", "Editor", "#", "https://i.pravatar.cc/150?u=the-alternative")
  ]
}
