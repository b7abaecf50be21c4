/**
 * The inbox shared by the artist and curator dashboards: sending a message
 * into the active conversation (which then moves to the top of the list),
 * choosing a default conversation, and opening a thread with a participant,
 * reusing an existing one when there is one.
 */
module Messaging {
  import opened Common
  import opened Types
  import JsText
  import MockData

  /** JavaScript truthiness of the active-id cell: `null` and the empty id are both falsy. */
  predicate IsSelected(id: Option<string>) {
    id.Some? && id.value != ""
  }

  /** The message object a send creates from the trimmed draft and the clock reading. */
  function SentMessage(text: string, now: nat): Message {
    Message("msg_" + JsText.NatToString(now), FromMe, text, "Just now", true)
  }

  /** A conversation with one more message at its end, which also becomes its preview. */
  function WithMessage(c: Conversation, m: Message): Conversation {
    c.(messages := c.messages + [m], lastMessage := m.text, timestamp := "Just now")
  }

  /** The `map` step: the conversations with this id get the message, the others are kept as they are. */
  function MarkSent(cs: seq<Conversation>, id: string, m: Message): (r: seq<Conversation>)
    ensures |r| == |cs|
  {
    seq(|cs|, k requires 0 <= k < |cs| => if cs[k].id == id then WithMessage(cs[k], m) else cs[k])
  }

  /** The conversations with this id, in order. */
  function WithId(cs: seq<Conversation>, id: string): (r: seq<Conversation>)
    ensures forall k :: 0 <= k < |r| ==> r[k].id == id
  {
    if cs == [] then []
    else if cs[0].id == id then [cs[0]] + WithId(cs[1..], id)
    else WithId(cs[1..], id)
  }

  /** The conversations with any other id, in order. */
  function WithoutId(cs: seq<Conversation>, id: string): (r: seq<Conversation>)
    ensures forall k :: 0 <= k < |r| ==> r[k].id != id
  {
    if cs == [] then []
    else if cs[0].id == id then WithoutId(cs[1..], id)
    else [cs[0]] + WithoutId(cs[1..], id)
  }

  /**
   * The stable `sort` whose comparator puts the active id before everything
   * else and leaves every other pair tied: the active entries first, then the
   * rest, each group in its old order.
   */
  function MoveToFront(cs: seq<Conversation>, id: string): seq<Conversation> {
    WithId(cs, id) + WithoutId(cs, id)
  }

  /** The `setConversations` updater of a send. */
  function SendUpdate(cs: seq<Conversation>, id: string, m: Message): seq<Conversation> {
    MoveToFront(MarkSent(cs, id, m), id)
  }

  /** Moving to the front only reorders: the result is a permutation of the list. */
  lemma {:induction false} MoveToFrontPermutes(cs: seq<Conversation>, id: string)
    ensures |MoveToFront(cs, id)| == |cs|
    ensures multiset(MoveToFront(cs, id)) == multiset(cs)
  {
    if cs != [] {
      MoveToFrontPermutes(cs[1..], id);
      assert cs == [cs[0]] + cs[1..];
    }
  }

  /** The conversations with the id, taken from two pieces, come piece by piece. */
  lemma {:induction false} WithIdConcat(a: seq<Conversation>, b: seq<Conversation>, id: string)
    ensures WithId(a + b, id) == WithId(a, id) + WithId(b, id)
  {
    if a == [] {
      assert a + b == b;
    } else {
      assert (a + b)[0] == a[0];
      assert (a + b)[1..] == a[1..] + b;
      WithIdConcat(a[1..], b, id);
      if a[0].id == id {
        assert [a[0]] + (WithId(a[1..], id) + WithId(b, id)) == [a[0]] + WithId(a[1..], id) + WithId(b, id);
      }
    }
  }

  /** The conversations with other ids, taken from two pieces, come piece by piece. */
  lemma {:induction false} WithoutIdConcat(a: seq<Conversation>, b: seq<Conversation>, id: string)
    ensures WithoutId(a + b, id) == WithoutId(a, id) + WithoutId(b, id)
  {
    if a == [] {
      assert a + b == b;
    } else {
      assert (a + b)[0] == a[0];
      assert (a + b)[1..] == a[1..] + b;
      WithoutIdConcat(a[1..], b, id);
      if a[0].id != id {
        assert [a[0]] + (WithoutId(a[1..], id) + WithoutId(b, id)) == [a[0]] + WithoutId(a[1..], id) + WithoutId(b, id);
      }
    }
  }

  /** A list without the id has nothing to move. */
  lemma {:induction false} FiltersAbsent(cs: seq<Conversation>, id: string)
    requires forall k :: 0 <= k < |cs| ==> cs[k].id != id
    ensures WithId(cs, id) == [] && WithoutId(cs, id) == cs
  {
    if cs != [] {
      FiltersAbsent(cs[1..], id);
    }
  }

  /** Sending to an id no conversation has leaves the list exactly as it was. */
  lemma SendToAbsentId(cs: seq<Conversation>, id: string, m: Message)
    requires forall k :: 0 <= k < |cs| ==> cs[k].id != id
    ensures SendUpdate(cs, id, m) == cs
  {
    var marked := MarkSent(cs, id, m);
    assert marked == cs;
    FiltersAbsent(cs, id);
  }

  /** The conversations the send does not touch keep their contents and their order. */
  lemma {:induction false} OthersUntouched(cs: seq<Conversation>, id: string, m: Message)
    ensures WithoutId(MarkSent(cs, id, m), id) == WithoutId(cs, id)
  {
    if cs != [] {
      OthersUntouched(cs[1..], id, m);
      assert MarkSent(cs, id, m)[1..] == MarkSent(cs[1..], id, m);
    }
  }

  /**
   * With distinct ids, sending into conversation `k` puts that conversation,
   * with the message appended, at the top, followed by all the others in their
   * old order.
   */
  lemma SendToThread(cs: seq<Conversation>, k: nat, m: Message)
    requires MockData.DistinctIds(cs) && k < |cs|
    ensures SendUpdate(cs, cs[k].id, m) == [WithMessage(cs[k], m)] + cs[..k] + cs[k + 1..]
  {
    var before, after := cs[..k], cs[k + 1..];
    MarkSentOne(cs, k, m);
    OtherIds(cs, k, before, after);
    FrontOfThree(before, WithMessage(cs[k], m), after, cs[k].id);
  }

  /** A single conversation with the id is all of `WithId` and nothing of `WithoutId`. */
  lemma FiltersOne(c: Conversation, id: string)
    requires c.id == id
    ensures WithId([c], id) == [c] && WithoutId([c], id) == []
  {
    assert [c][1..] == [];
  }

  /** The one conversation with the id goes to the front of the others, which keep their order. */
  lemma FrontOfThree(before: seq<Conversation>, c: Conversation, after: seq<Conversation>, id: string)
    requires c.id == id
    requires forall j :: 0 <= j < |before| ==> before[j].id != id
    requires forall j :: 0 <= j < |after| ==> after[j].id != id
    ensures MoveToFront(before + [c] + after, id) == [c] + before + after
  {
    var front := before + [c];
    WithIdConcat(front, after, id);
    WithoutIdConcat(front, after, id);
    WithIdConcat(before, [c], id);
    WithoutIdConcat(before, [c], id);
    FiltersAbsent(before, id);
    FiltersAbsent(after, id);
    FiltersOne(c, id);
    assert WithId(front + after, id) == [c];
    assert WithoutId(front + after, id) == before + after;
  }

  /** With distinct ids, the `map` step touches conversation `k` alone. */
  lemma MarkSentOne(cs: seq<Conversation>, k: nat, m: Message)
    requires MockData.DistinctIds(cs) && k < |cs|
    ensures MarkSent(cs, cs[k].id, m) == cs[..k] + [WithMessage(cs[k], m)] + cs[k + 1..]
  {
    var r := MarkSent(cs, cs[k].id, m);
    var e := cs[..k] + [WithMessage(cs[k], m)] + cs[k + 1..];
    assert |r| == |e|;
    forall j | 0 <= j < |r|
      ensures r[j] == e[j]
    {
      if j < k {
        assert cs[j].id != cs[k].id;
      } else if j > k {
        assert cs[k].id != cs[j].id;
      }
    }
  }

  /** With distinct ids, no conversation before or after `k` carries its id. */
  lemma OtherIds(cs: seq<Conversation>, k: nat, before: seq<Conversation>, after: seq<Conversation>)
    requires MockData.DistinctIds(cs) && k < |cs|
    requires before == cs[..k] && after == cs[k + 1..]
    ensures forall j :: 0 <= j < |before| ==> before[j].id != cs[k].id
    ensures forall j :: 0 <= j < |after| ==> after[j].id != cs[k].id
  {
    forall j | 0 <= j < |after|
      ensures after[j].id != cs[k].id
    {
      assert after[j] == cs[k + 1 + j];
    }
  }

  /** Sending keeps the ids and the participants of the list distinct. */
  lemma SendKeepsThreadsDistinct(cs: seq<Conversation>, k: nat, m: Message)
    requires MockData.DistinctThreads(cs) && k < |cs|
    ensures MockData.DistinctThreads(SendUpdate(cs, cs[k].id, m))
  {
    SendToThread(cs, k, m);
    var r := SendUpdate(cs, cs[k].id, m);
    forall i, j | 0 <= i < j < |r|
      ensures r[i].id != r[j].id && r[i].participantId != r[j].participantId
    {
      var i' := if i == 0 then k else if i <= k then i - 1 else i;
      var j' := if j <= k then j - 1 else j;
      assert r[i].id == cs[i'].id && r[i].participantId == cs[i'].participantId;
      assert r[j] == cs[j'];
      assert i' != j';
      if i' > j' {
        assert cs[j'].id != cs[i'].id;
      }
    }
  }

  /** The first conversation with this participant, if any. */
  function FindByParticipant(cs: seq<Conversation>, participantId: string): (r: Option<nat>)
    ensures r.Some? ==> r.value < |cs| && cs[r.value].participantId == participantId
    ensures r.Some? ==> forall j :: 0 <= j < r.value ==> cs[j].participantId != participantId
    ensures r.None? <==> forall j :: 0 <= j < |cs| ==> cs[j].participantId != participantId
  {
    if cs == [] then None
    else if cs[0].participantId == participantId then Some(0)
    else
      match FindByParticipant(cs[1..], participantId)
      case None => None
      case Some(k) => Some(k + 1)
  }

  /** The empty thread the dashboards open with a participant they have not written to yet. */
  function NewThread(participantId: string, name: string, imageUrl: string, now: nat): Conversation {
    Conversation("conv_" + JsText.NatToString(now), participantId, name, imageUrl,
                 "Start a conversation...", "Just now", 0, [])
  }

  /**
   * Find-or-create of a thread: the existing conversation with the participant
   * and the unchanged list, or a new empty thread prepended to the list. The
   * second component is the id to make active.
   */
  function OpenThread(cs: seq<Conversation>, participantId: string, name: string, imageUrl: string, now: nat)
    : (r: (seq<Conversation>, string))
    ensures FindByParticipant(cs, participantId).Some? ==>
      r.0 == cs && r.1 == cs[FindByParticipant(cs, participantId).value].id
    ensures FindByParticipant(cs, participantId).None? ==>
      r.0 == [NewThread(participantId, name, imageUrl, now)] + cs && r.1 == "conv_" + JsText.NatToString(now)
    ensures exists k :: 0 <= k < |r.0| && r.0[k].id == r.1 && r.0[k].participantId == participantId
  {
    match FindByParticipant(cs, participantId)
    case Some(k) => (cs, cs[k].id)
    case None =>
      var c := NewThread(participantId, name, imageUrl, now);
      assert ([c] + cs)[0] == c;
      ([c] + cs, c.id)
  }

  /** Opening a thread never gives two conversations the same participant. */
  lemma OpenThreadKeepsParticipantsDistinct(cs: seq<Conversation>, participantId: string, name: string, imageUrl: string, now: nat)
    requires MockData.DistinctParticipants(cs)
    ensures MockData.DistinctParticipants(OpenThread(cs, participantId, name, imageUrl, now).0)
    ensures |OpenThread(cs, participantId, name, imageUrl, now).0| <= |cs| + 1
  {
    var r := OpenThread(cs, participantId, name, imageUrl, now).0;
    if FindByParticipant(cs, participantId).None? {
      forall i, j | 0 <= i < j < |r|
        ensures r[i].participantId != r[j].participantId
      {
        assert r[j] == cs[j - 1];
        if i > 0 { assert r[i] == cs[i - 1]; }
      }
    }
  }

  /** Opening the same participant's thread a second time finds the first one and changes nothing. */
  lemma OpenThreadTwice(cs: seq<Conversation>, participantId: string, name: string, imageUrl: string, now: nat, later: nat)
    ensures var (cs1, id1) := OpenThread(cs, participantId, name, imageUrl, now);
      OpenThread(cs1, participantId, name, imageUrl, later) == (cs1, id1)
  {
    var (cs1, id1) := OpenThread(cs, participantId, name, imageUrl, now);
    if FindByParticipant(cs, participantId).None? {
      assert FindByParticipant(cs1, participantId) == Some(0);
    }
  }

  /**
   * The message cells of a dashboard: its conversation list and active id,
   * and the draft held by the inbox view.
   */
  class Inbox {
    var conversations: seq<Conversation>
    var activeConversationId: Option<string>
    var draft: string

    constructor (initial: seq<Conversation>)
      ensures conversations == initial && activeConversationId.None? && draft == ""
    {
      conversations := initial;
      activeConversationId := None;
      draft := "";
    }

    /** Typing into the message box. */
    method SetDraft(text: string)
      modifies this
      ensures draft == text
      ensures conversations == old(conversations) && activeConversationId == old(activeConversationId)
    {
      draft := text;
    }

    /** Clicking a conversation in the list. */
    method Select(id: string)
      modifies this
      ensures activeConversationId == Some(id)
      ensures conversations == old(conversations) && draft == old(draft)
    {
      activeConversationId := Some(id);
    }

    /** The effect that opens the first conversation when none is active. */
    method SelectDefault()
      modifies this
      ensures !IsSelected(old(activeConversationId)) && old(conversations) != [] ==>
        activeConversationId == Some(old(conversations)[0].id)
      ensures IsSelected(old(activeConversationId)) || old(conversations) == [] ==>
        activeConversationId == old(activeConversationId)
      ensures conversations == old(conversations) && draft == old(draft)
    {
      if !IsSelected(activeConversationId) && |conversations| > 0 {
        activeConversationId := Some(conversations[0].id);
      }
    }

    /**
     * `handleSendMessage`: ignored for a blank draft or no active conversation;
     * otherwise the trimmed draft is sent and the draft cleared.
     */
    method SendMessage(now: nat)
      modifies this
      ensures JsText.Trim(old(draft)) == [] || !IsSelected(old(activeConversationId)) ==>
        conversations == old(conversations) && draft == old(draft)
      ensures JsText.Trim(old(draft)) != [] && IsSelected(old(activeConversationId)) ==>
        && conversations == SendUpdate(old(conversations), old(activeConversationId).value,
                                       SentMessage(JsText.Trim(old(draft)), now))
        && draft == ""
      ensures activeConversationId == old(activeConversationId)
    {
      var text := JsText.Trim(draft);
      if text == [] || !IsSelected(activeConversationId) {
        return;
      }
      conversations := SendUpdate(conversations, activeConversationId.value, SentMessage(text, now));
      draft := "";
    }

    /** Find-or-create of a thread with a participant, which then becomes the active one. */
    method OpenThreadWith(participantId: string, name: string, imageUrl: string, now: nat)
      modifies this
      ensures activeConversationId.Some?
      ensures (conversations, activeConversationId.value) ==
        OpenThread(old(conversations), participantId, name, imageUrl, now)
      ensures draft == old(draft)
    {
      var (cs, id) := OpenThread(conversations, participantId, name, imageUrl, now);
      conversations := cs;
      activeConversationId := Some(id);
    }
  }
}
