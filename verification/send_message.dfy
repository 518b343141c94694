/**
 One call of the outbound send hook, and the progress listener it installs,
 as pure functions returning the ordered effects they perform on the local
 message list, the scroll event bus and the messaging engine.
 */
module SendMessage {
  import opened JsValues
  import opened Entity

  /** The conversation currently open in the UI (absent when none is open). */
  datatype Conversation = Conversation(userID: string, groupID: string)

  /** Arguments of `sendMessage`; None is an argument left `undefined`. */
  datatype SendParams = SendParams(
    recvID: Option<string>,
    groupID: Option<string>,
    message: MessageItem,
    needPush: Option<bool>)

  /** What is handed to the engine's send call. */
  datatype SendOptions = SendOptions(recvID: string, groupID: string, message: MessageItem)

  /** How the engine's send call settles: resolved with the canonical message, or rejected. */
  datatype SdkOutcome = Delivered(data: MessageItem) | Rejected

  /** Argument of `updateOneMessage`: a whole message, or the `{clientMsgID, progress}` patch. */
  datatype Patch = Whole(message: MessageItem) | ProgressPatch(clientMsgID: string, progress: real)

  /** Observable effects, in the order the hook performs them. */
  datatype SendEffect =
    | Push(pushed: MessageItem)
    | ScrollToBottom
    | Send(options: SendOptions)
    | Update(patch: Patch)

  /** A progress event of the engine. */
  datatype ProgressEvent = ProgressEvent(clientMsgID: string, progress: real)

  /** `recvID || groupID`. */
  function SourceID(p: SendParams): Option<string> {
    Or(p.recvID, p.groupID)
  }

  /** `currentConversation?.userID` and `currentConversation?.groupID`. */
  function OpenUserID(conv: Option<Conversation>): Option<string> {
    Chain(conv, (c: Conversation) => c.userID)
  }

  function OpenGroupID(conv: Option<Conversation>): Option<string> {
    Chain(conv, (c: Conversation) => c.groupID)
  }

  /** The default push decision: strict equality of optional ids, or no source id at all. */
  function InCurrentConversation(p: SendParams, conv: Option<Conversation>): bool {
    var source := SourceID(p);
    OpenUserID(conv) == source || OpenGroupID(conv) == source || !Truthy(source)
  }

  /**
   Whether the message is inserted optimistically. An explicit `needPush`
   wins; otherwise push when there is no source id, or when the source id
   names the open conversation's peer or group.
   */
  function NeedPush(p: SendParams, conv: Option<Conversation>): (r: bool)
    ensures p.needPush.Some? ==> r == p.needPush.value
    ensures p.needPush.None? ==>
      (r <==> (!Truthy(p.recvID) && !Truthy(p.groupID))
              || (conv.Some? && SourceID(p).Some?
                  && SourceID(p).value in {conv.value.userID, conv.value.groupID}))
  {
    Coalesce(p.needPush, InCurrentConversation(p, conv))
  }

  /**
   The engine's options. Each id uses `??`, so an explicit "" is kept and
   only an `undefined` id falls back to the open conversation, then to "".
   */
  function OptionsFor(p: SendParams, conv: Option<Conversation>): (r: SendOptions)
    ensures r.message == p.message
    ensures p.recvID.Some? ==> r.recvID == p.recvID.value
    ensures p.recvID.None? && conv.Some? ==> r.recvID == conv.value.userID
    ensures p.recvID.None? && conv.None? ==> r.recvID == ""
    ensures p.groupID.Some? ==> r.groupID == p.groupID.value
    ensures p.groupID.None? && conv.Some? ==> r.groupID == conv.value.groupID
    ensures p.groupID.None? && conv.None? ==> r.groupID == ""
  {
    SendOptions(
      Coalesce(p.recvID, Coalesce(OpenUserID(conv), "")),
      Coalesce(p.groupID, Coalesce(OpenGroupID(conv), "")),
      p.message)
  }

  /** The optimistic copy: the input with `progress` set to 0. */
  function Optimistic(m: MessageItem): (r: MessageItem)
    ensures r.progress == Some(0.0)
    ensures r.(progress := m.progress) == m
  {
    m.(progress := Some(0.0))
  }

  /** The terminal patch: the engine's message on success, the input marked Failed otherwise. */
  function Reconciled(m: MessageItem, outcome: SdkOutcome): (r: MessageItem)
    ensures outcome.Delivered? ==> r == outcome.data
    ensures outcome.Rejected? ==> r.status == Failed && r.(status := m.status) == m
  {
    match outcome
    case Delivered(data) => data
    case Rejected => m.(status := Failed)
  }

  /** One `sendMessage` call as its ordered trace of effects. */
  function SendCall(p: SendParams, conv: Option<Conversation>, outcome: SdkOutcome): (r: seq<SendEffect>)
    ensures |r| == if NeedPush(p, conv) then 4 else 2
    ensures NeedPush(p, conv) ==> r[0] == Push(Optimistic(p.message)) && r[1] == ScrollToBottom
    ensures r[|r| - 2] == Send(OptionsFor(p, conv))
    ensures r[|r| - 1] == Update(Whole(Reconciled(p.message, outcome)))
  {
    var optimistic := if NeedPush(p, conv) then [Push(Optimistic(p.message)), ScrollToBottom] else [];
    optimistic + [Send(OptionsFor(p, conv)), Update(Whole(Reconciled(p.message, outcome)))]
  }

  /** The progress listener: every event becomes a `{clientMsgID, progress}` patch. */
  function OnProgress(e: ProgressEvent): (r: SendEffect)
    ensures r.Update? && r.patch.ProgressPatch?
    ensures r.patch.clientMsgID == e.clientMsgID && r.patch.progress == e.progress
  {
    Update(ProgressPatch(e.clientMsgID, e.progress))
  }

  /** The listener applied to a stream of events, in arrival order. */
  function ForwardProgress(events: seq<ProgressEvent>): (r: seq<SendEffect>)
    ensures |r| == |events|
    ensures forall i :: 0 <= i < |events| ==>
      r[i] == Update(ProgressPatch(events[i].clientMsgID, events[i].progress))
  {
    if |events| == 0 then [] else [OnProgress(events[0])] + ForwardProgress(events[1..])
  }

  /** The four kinds of send effect, listed in the order a send performs them. */
  datatype EffectKind = PushKind | ScrollKind | SendKind | UpdateKind

  function KindOf(e: SendEffect): EffectKind {
    match e
    case Push(_) => PushKind
    case ScrollToBottom => ScrollKind
    case Send(_) => SendKind
    case Update(_) => UpdateKind
  }

  /** Position of each kind of effect in a send's timeline. */
  function Rank(k: EffectKind): nat {
    match k
    case PushKind => 0
    case ScrollKind => 1
    case SendKind => 2
    case UpdateKind => 3
  }

  /** Number of effects of the given kind in a trace. */
  function Count(trace: seq<SendEffect>, kind: EffectKind): nat {
    if |trace| == 0 then 0
    else (if KindOf(trace[0]) == kind then 1 else 0) + Count(trace[1..], kind)
  }

  /**
   Shape of a send: at most one push and one scroll (exactly when the message
   is pushed), exactly one engine call and exactly one terminal update.
   */
  lemma SendCallShape(p: SendParams, conv: Option<Conversation>, outcome: SdkOutcome)
    ensures Count(SendCall(p, conv, outcome), PushKind) == if NeedPush(p, conv) then 1 else 0
    ensures Count(SendCall(p, conv, outcome), ScrollKind) == if NeedPush(p, conv) then 1 else 0
    ensures Count(SendCall(p, conv, outcome), SendKind) == 1
    ensures Count(SendCall(p, conv, outcome), UpdateKind) == 1
  {
    var send := Send(OptionsFor(p, conv));
    var update := Update(Whole(Reconciled(p.message, outcome)));
    var tail := [send, update];
    forall k: EffectKind
      ensures Count(tail, k) == if k == SendKind || k == UpdateKind then 1 else 0
    {
      CountCons(send, [update], k);
      CountCons(update, [], k);
    }
    if NeedPush(p, conv) {
      assert SendCall(p, conv, outcome) == [Push(Optimistic(p.message))] + ([ScrollToBottom] + tail);
      forall k: EffectKind
        ensures Count([Push(Optimistic(p.message))] + ([ScrollToBottom] + tail), k)
             == (if k == PushKind || k == ScrollKind then 1 else 0) + Count(tail, k)
      {
        CountCons(Push(Optimistic(p.message)), [ScrollToBottom] + tail, k);
        CountCons(ScrollToBottom, tail, k);
      }
    } else {
      assert SendCall(p, conv, outcome) == tail;
    }
  }

  /** The push and scroll come before the engine call, which comes before the update. */
  lemma SendCallOrder(p: SendParams, conv: Option<Conversation>, outcome: SdkOutcome)
    ensures var r := SendCall(p, conv, outcome);
      forall i, j :: 0 <= i < j < |r| ==> Rank(KindOf(r[i])) < Rank(KindOf(r[j]))
  {
  }

  lemma CountCons(e: SendEffect, trace: seq<SendEffect>, kind: EffectKind)
    ensures Count([e] + trace, kind) == (if KindOf(e) == kind then 1 else 0) + Count(trace, kind)
  {
    assert ([e] + trace)[1..] == trace;
  }

  /**
   The deliberate difference between `||` and `??`: an explicit empty
   `recvID` does not count as the source id for the push decision, yet it
   is what the engine receives.
   */
  lemma EmptyRecvIDIsKept(p: SendParams, conv: Option<Conversation>)
    requires p.recvID == Some("")
    ensures SourceID(p) == p.groupID
    ensures OptionsFor(p, conv).recvID == ""
  {
  }

  /**
   The engine can be handed both a peer and a group id: given only a group
   id while a peer conversation is open, both resolved ids are set.
   */
  lemma ResolvedIdsMayBothBeSet(g: string, c: Conversation, m: MessageItem)
    requires g != "" && c.userID != ""
    ensures var opts := OptionsFor(SendParams(None, Some(g), m, None), Some(c));
      opts.recvID == c.userID && opts.groupID == g
  {
  }

  /**
   Whatever the push decision, the last effect is one update: with the
   engine's message on success and with the input marked Failed on
   rejection, every other field as given.
   */
  lemma TerminalUpdate(p: SendParams, conv: Option<Conversation>, outcome: SdkOutcome)
    ensures var r := SendCall(p, conv, outcome);
      && r[|r| - 1].Update? && r[|r| - 1].patch.Whole?
      && (outcome.Delivered? ==> r[|r| - 1].patch.message == outcome.data)
      && (outcome.Rejected? ==>
            r[|r| - 1].patch.message.status == Failed
            && r[|r| - 1].patch.message.(status := p.message.status) == p.message)
  {
  }
}
