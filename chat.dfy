/** The chat panel's session state (src/components/chat-interface.tsx): the message
    log, the input field, the per-message "saved" flags, and the two kinds of timer
    the component starts, kept as explicit queues of pending events. */
module Chat {
  import opened Text
  import opened Dispatch

  datatype Role = User | Assistant

  /** A message of the log; `timestamp` is the clock reading (ms) when it was built,
      and `attachments` is `None` where the component leaves it `undefined`. */
  datatype Message = Message(
    id: string,
    content: string,
    role: Role,
    timestamp: nat,
    attachments: Option<seq<Attachment>>)

  /** A reply scheduled by `handleSend` (the 1000 ms timer), with the model id and the
      prompt captured when the user submitted. */
  datatype PendingReply = PendingReply(modelId: string, prompt: string)

  /** The user message `handleSend` appends: id from the clock, the input verbatim. */
  function UserMessage(prompt: string, now: nat): (m: Message)
    ensures m.role == User && m.content == prompt && m.attachments == None
    ensures m.id == NatToString(now) && m.timestamp == now
  {
    Message(NatToString(now), prompt, User, now, None)
  }

  /** The assistant message a fired reply appends: built only from what was captured
      at submission and from the clock when the timer fires. */
  function AssistantMessage(p: PendingReply, now: nat): (m: Message)
    ensures m.role == Assistant && m.id == NatToString(now + 1) && m.timestamp == now
    ensures m.content == ResponseByModelAndPrompt(p.modelId, p.prompt)
    ensures m.attachments == AttachmentByModel(p.modelId)
  {
    Message(NatToString(now + 1), ResponseByModelAndPrompt(p.modelId, p.prompt), Assistant, now,
            AttachmentByModel(p.modelId))
  }

  /** A delivered reply's text is its category's template around the captured prompt,
      so it contains that prompt verbatim, and it carries an attachment exactly when
      the text is neither the personalised reply nor the generic one. */
  lemma AssistantMessageContent(p: PendingReply, now: nat)
    ensures AssistantMessage(p, now).content == Reply(CategoryOf(p.modelId), p.prompt)
    ensures Includes(AssistantMessage(p, now).content, p.prompt)
    ensures AssistantMessage(p, now).attachments.Some? <==>
      AssistantMessage(p, now).content !in {Reply(Custom, p.prompt), Reply(Generic, p.prompt)}
  {
    ResponseFollowsCategory(p.modelId, p.prompt);
    ResponseEmbedsPrompt(p.modelId, p.prompt);
    AttachmentIffNotCustomOrGeneric(p.modelId, p.prompt);
  }

  /** Number of messages of role `r`. */
  function CountRole(ms: seq<Message>, r: Role): nat {
    if ms == [] then 0 else (if ms[0].role == r then 1 else 0) + CountRole(ms[1..], r)
  }

  /** Appending one message adds one to its role's count and nothing to the other's. */
  lemma {:induction false} CountRoleAppend(ms: seq<Message>, m: Message, r: Role)
    ensures CountRole(ms + [m], r) == CountRole(ms, r) + (if m.role == r then 1 else 0)
  {
    if ms != [] {
      assert (ms + [m])[1..] == ms[1..] + [m];
      CountRoleAppend(ms[1..], m, r);
    }
  }

  /** `list` without its element at `k`. */
  function RemoveAt<T>(list: seq<T>, k: nat): (r: seq<T>)
    requires k < |list|
    ensures |r| == |list| - 1
    ensures forall i :: 0 <= i < |r| ==> r[i] == if i < k then list[i] else list[i + 1]
  {
    list[..k] + list[k + 1..]
  }

  /** The log and the reply queue agree: every user message is answered once (the
      user messages number the assistant messages plus the replies still pending),
      no blank prompt enters the log or the queue, and user messages carry no
      attachment. */
  ghost predicate Answered(messages: seq<Message>, pending: seq<PendingReply>) {
    CountRole(messages, User) == CountRole(messages, Assistant) + |pending|
    && (forall i :: 0 <= i < |messages| && messages[i].role == User ==>
          !IsBlank(messages[i].content) && messages[i].attachments == None)
    && (forall i :: 0 <= i < |pending| ==> !IsBlank(pending[i].prompt))
  }

  /** Submitting a non-blank prompt keeps the agreement: one user message in, one
      reply queued. */
  lemma SubmitKeepsAnswered(messages: seq<Message>, pending: seq<PendingReply>, prompt: string,
                            modelId: string, now: nat)
    requires Answered(messages, pending) && !IsBlank(prompt)
    ensures Answered(messages + [UserMessage(prompt, now)], pending + [PendingReply(modelId, prompt)])
  {
    var m := UserMessage(prompt, now);
    CountRoleAppend(messages, m, User);
    CountRoleAppend(messages, m, Assistant);
  }

  /** Delivering any pending reply keeps the agreement: one assistant message in, that
      reply out of the queue. */
  lemma FireKeepsAnswered(messages: seq<Message>, pending: seq<PendingReply>, k: nat, reply: Message)
    requires Answered(messages, pending) && k < |pending| && reply.role == Assistant
    ensures Answered(messages + [reply], RemoveAt(pending, k))
  {
    CountRoleAppend(messages, reply, User);
    CountRoleAppend(messages, reply, Assistant);
    var ms := messages + [reply];
    forall i | 0 <= i < |ms| && ms[i].role == User
      ensures !IsBlank(ms[i].content) && ms[i].attachments == None
    {
      assert i < |messages| && ms[i] == messages[i];
    }
  }

  class ChatSession {
    var input: string
    var messages: seq<Message>
    /** `isSaved`: a missing key reads as `undefined`, which renders like `false`. */
    var isSaved: map<string, bool>
    /** Replies scheduled and not yet delivered, in scheduling order. */
    var pendingReplies: seq<PendingReply>
    /** Message ids whose "saved" flag is due to be reset (the 2000 ms timer). */
    var pendingResets: seq<string>

    ghost predicate Valid()
      reads this
    {
      Answered(messages, pendingReplies)
    }

    /** `isSaved[id]` as the rendering reads it. */
    function SavedShown(id: string): bool
      reads this
    {
      id in isSaved && isSaved[id]
    }

    constructor ()
      ensures Valid()
      ensures input == "" && messages == [] && isSaved == map[]
      ensures pendingReplies == [] && pendingResets == []
    {
      input, messages, isSaved := "", [], map[];
      pendingReplies, pendingResets := [], [];
    }

    /** The input field's `onChange`. */
    method SetInput(text: string)
      requires Valid()
      modifies this
      ensures Valid()
      ensures input == text
      ensures messages == old(messages) && isSaved == old(isSaved)
      ensures pendingReplies == old(pendingReplies) && pendingResets == old(pendingResets)
    {
      input := text;
    }

    /** `handleSend`, with `models` and `selectedModel` the component's props at
        submission and `now` the clock reading. A blank input changes nothing;
        otherwise one user message is appended, the input is cleared, and a reply is
        scheduled with the active model's id and the prompt as they are now. */
    method HandleSend(models: seq<ModelInfo>, selectedModel: string, now: nat)
      requires Valid() && |models| > 0
      modifies this
      ensures Valid()
      ensures IsBlank(old(input)) ==>
        input == old(input) && messages == old(messages) && pendingReplies == old(pendingReplies)
      ensures !IsBlank(old(input)) ==>
        input == ""
        && messages == old(messages) + [UserMessage(old(input), now)]
        && pendingReplies == old(pendingReplies) + [PendingReply(ActiveModel(models, selectedModel).id, old(input))]
      ensures isSaved == old(isSaved) && pendingResets == old(pendingResets)
    {
      if IsBlank(input) {
        return;
      }
      var prompt := input;
      var modelId := ActiveModel(models, selectedModel).id;
      SubmitKeepsAnswered(messages, pendingReplies, prompt, modelId, now);
      messages := messages + [UserMessage(prompt, now)];
      input := "";
      pendingReplies := pendingReplies + [PendingReply(modelId, prompt)];
    }

    /** The timer of the `k`-th pending reply fires (timers may fire in any order):
        exactly one assistant message, built from what that submission captured, is
        appended, and the reply leaves the queue. */
    method FireReply(k: nat, now: nat)
      requires Valid() && k < |pendingReplies|
      modifies this
      ensures Valid()
      ensures messages == old(messages) + [AssistantMessage(old(pendingReplies[k]), now)]
      ensures pendingReplies == RemoveAt(old(pendingReplies), k)
      ensures input == old(input) && isSaved == old(isSaved) && pendingResets == old(pendingResets)
    {
      var reply := AssistantMessage(pendingReplies[k], now);
      FireKeepsAnswered(messages, pendingReplies, k, reply);
      messages := messages + [reply];
      pendingReplies := RemoveAt(pendingReplies, k);
    }

    /** `handleSave`: the message's flag is set at once and its reset is scheduled; no
        other flag changes. */
    method HandleSave(id: string)
      requires Valid()
      modifies this
      ensures Valid()
      ensures isSaved == old(isSaved)[id := true]
      ensures SavedShown(id)
      ensures forall other :: other != id ==> SavedShown(other) == old(SavedShown(other))
      ensures pendingResets == old(pendingResets) + [id]
      ensures input == old(input) && messages == old(messages) && pendingReplies == old(pendingReplies)
    {
      isSaved := isSaved[id := true];
      pendingResets := pendingResets + [id];
    }

    /** The `k`-th pending reset fires: that message's flag becomes false; no other flag
        changes. */
    method ClearSaved(k: nat)
      requires Valid() && k < |pendingResets|
      modifies this
      ensures Valid()
      ensures isSaved == old(isSaved)[old(pendingResets[k]) := false]
      ensures !SavedShown(old(pendingResets[k]))
      ensures forall other :: other != old(pendingResets[k]) ==> SavedShown(other) == old(SavedShown(other))
      ensures pendingResets == RemoveAt(old(pendingResets), k)
      ensures input == old(input) && messages == old(messages) && pendingReplies == old(pendingReplies)
    {
      isSaved := isSaved[pendingResets[k] := false];
      pendingResets := RemoveAt(pendingResets, k);
    }
  }
}
