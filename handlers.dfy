/**
 The four conversation handlers. Each sends or edits messages (a send yields a
 fresh message id, passed in here as a parameter), records every id it sends or
 edits in the message tracker in send order, may arm the chat's cleanup, and
 returns the next state.
 */
module Handlers {
  import opened Wrappers
  import opened Tracker
  import opened Units
  import C = Conversation

  /** What a message shows: its text stands for itself, with the values it is built from. */
  datatype Body =
    | Greeting
    | FormLink(url: string)
    | FormDonePrompt
    | UnitPrompt
    | UnitMenuList(buttons: seq<Button>)
    | Confirmed(unit: string)
    | FinalText(final: Final)
    | Cancelled

  /** One call to the messaging platform: a new message, or an edit of an existing one. */
  datatype Outgoing = Sent(chat: ChatId, id: MsgId, body: Body) | Edited(chat: ChatId, id: MsgId, body: Body)

  class Bot {
    const config: LinkConfig
    const tracker: MessageTracker
    /** Every send and edit so far, in order. */
    var outbox: seq<Outgoing>
    /** Every chat whose cleanup pass has been armed, in arming order. */
    var cleanups: seq<ChatId>

    constructor (config: LinkConfig, tracker: MessageTracker)
      ensures this.config == config && this.tracker == tracker
      ensures outbox == [] && cleanups == []
    {
      this.config := config;
      this.tracker := tracker;
      outbox := [];
      cleanups := [];
    }

    /** One send or edit followed at once by recording its message id, as every handler does. */
    method Send(out: Outgoing)
      modifies this, tracker
      ensures outbox == old(outbox) + [out]
      ensures tracker.chatMessages == Record(old(tracker.chatMessages), out.chat, out.id)
      ensures cleanups == old(cleanups)
    {
      outbox := outbox + [out];
      tracker.Track(out.chat, out.id);
    }

    /** /start: greeting, registration-form link, yes/no prompt, each recorded; moves to STEP2. */
    method StartCommand(chat: ChatId, greeting: MsgId, formLink: MsgId, prompt: MsgId) returns (r: C.Reply)
      modifies this, tracker
      ensures outbox == old(outbox) + [Sent(chat, greeting, Greeting), Sent(chat, formLink, FormLink(config.registrationForm)),
                                       Sent(chat, prompt, FormDonePrompt)]
      ensures tracker.chatMessages == RecordEach(old(tracker.chatMessages), chat, [greeting, formLink, prompt])
      ensures cleanups == old(cleanups)
      ensures r == C.Returns(C.OnStart, "")
    {
      RecordEachThree(tracker.chatMessages, chat, greeting, formLink, prompt);
      Send(Sent(chat, greeting, Greeting));
      Send(Sent(chat, formLink, FormLink(config.registrationForm)));
      Send(Sent(chat, prompt, FormDonePrompt));
      r := C.ToState(C.Step2);
    }

    /**
     The yes/no callback, pressed on message `prompt`. On "yes": the prompt is edited
     into the unit prompt and recorded again, the unit menu is sent and recorded,
     and the conversation moves to STEP3. Any other data does nothing and returns no state.
     */
    method Step2(chat: ChatId, data: string, prompt: MsgId, menu: MsgId) returns (r: C.Reply)
      modifies this, tracker
      ensures data == "yes" ==> outbox == old(outbox) + [Edited(chat, prompt, UnitPrompt), Sent(chat, menu, UnitMenuList(UnitMenu))]
      ensures data == "yes" ==> tracker.chatMessages == RecordEach(old(tracker.chatMessages), chat, [prompt, menu])
      ensures data != "yes" ==> outbox == old(outbox) && tracker.chatMessages == old(tracker.chatMessages)
      ensures cleanups == old(cleanups)
      ensures r == C.Returns(C.OnStep2, data)
    {
      if data == "yes" {
        RecordEachTwo(tracker.chatMessages, chat, prompt, menu);
        Send(Edited(chat, prompt, UnitPrompt));
        Send(Sent(chat, menu, UnitMenuList(UnitMenu)));
        r := C.ToState(C.Step3);
      } else {
        r := C.NoState;
      }
    }

    /**
     The unit callback, pressed on message `menu`: the menu is edited into the
     confirmation and recorded again, exactly one final message is sent and
     recorded, cleanup is armed, and the conversation ends.
     */
    method Step3(chat: ChatId, data: string, menu: MsgId, final: MsgId) returns (r: C.Reply)
      modifies this, tracker
      ensures outbox == old(outbox) + [Edited(chat, menu, Confirmed(ChosenUnit(data))),
                                       Sent(chat, final, FinalText(FinalMessage(config, data)))]
      ensures tracker.chatMessages == RecordEach(old(tracker.chatMessages), chat, [menu, final])
      ensures cleanups == old(cleanups) + [chat]
      ensures r == C.Returns(C.OnStep3, data)
    {
      RecordEachTwo(tracker.chatMessages, chat, menu, final);
      var chosen := ChosenUnit(data);
      Send(Edited(chat, menu, Confirmed(chosen)));
      // the join-link message when the unit's link is set and non-empty, else the fallback text
      var last := FinalMessage(config, data);
      Send(Sent(chat, final, FinalText(last)));
      cleanups := cleanups + [chat];
      r := C.EndConversation;
    }

    /** /cancel: the acknowledgement is sent and recorded, cleanup is armed, and the conversation ends. */
    method Cancel(chat: ChatId, ack: MsgId) returns (r: C.Reply)
      modifies this, tracker
      ensures outbox == old(outbox) + [Sent(chat, ack, Cancelled)]
      ensures tracker.chatMessages == Record(old(tracker.chatMessages), chat, ack)
      ensures cleanups == old(cleanups) + [chat]
      ensures r == C.Returns(C.OnCancel, "")
    {
      Send(Sent(chat, ack, Cancelled));
      cleanups := cleanups + [chat];
      r := C.EndConversation;
    }
  }

  /**
   The tracker across a whole conversation in a chat with no entry: what /start,
   "yes" on the prompt and a unit on the menu record (their contracts above) is
   the seven ids greeting, form link, prompt, prompt, menu, menu, final, so the
   prompt and the menu are each attempted twice by the cleanup pass; other
   chats are untouched.
   */
  lemma {:induction false} ConversationRecords(m: map<ChatId, seq<MsgId>>, chat: ChatId, greeting: MsgId, formLink: MsgId,
                                               prompt: MsgId, menu: MsgId, final: MsgId, other: ChatId)
    requires chat !in m
    ensures Tracked(RecordEach(RecordEach(RecordEach(m, chat, [greeting, formLink, prompt]), chat, [prompt, menu]), chat, [menu, final]), chat)
            == [greeting, formLink, prompt, prompt, menu, menu, final]
    ensures other != chat ==>
            Tracked(RecordEach(RecordEach(RecordEach(m, chat, [greeting, formLink, prompt]), chat, [prompt, menu]), chat, [menu, final]), other)
            == Tracked(m, other)
  {
    var afterStart := RecordEach(m, chat, [greeting, formLink, prompt]);
    var afterStep2 := RecordEach(afterStart, chat, [prompt, menu]);
    RecordEachFromEmpty(m, chat, [greeting, formLink, prompt]);
    RecordEachAppends(afterStart, chat, [prompt, menu]);
    RecordEachAppends(afterStep2, chat, [menu, final]);
    assert [greeting, formLink, prompt] + [prompt, menu] + [menu, final] == [greeting, formLink, prompt, prompt, menu, menu, final];
    if other != chat {
      RecordEachOthers(m, chat, [greeting, formLink, prompt], other);
      RecordEachOthers(afterStart, chat, [prompt, menu], other);
      RecordEachOthers(afterStep2, chat, [menu, final], other);
    }
  }

  /**
   A second "yes" (a repeated delivery, or the old prompt's button pressed again)
   arrives in STEP3, so it reaches the unit handler: it is echoed as the unit
   "yes", gets the fallback text, and ends the conversation.
   */
  lemma RepeatedYesEndsConversation(cfg: LinkConfig)
    ensures C.Dispatch(Some(C.Step3), C.Callback("yes")) == Some(C.OnStep3)
    ensures C.Advance(Some(C.Step3), C.Callback("yes")) == None
    ensures ChosenUnit("yes") == "yes"
    ensures FinalMessage(cfg, "yes") == PickNextTime
  {
    assert "yes" !in SelectionMap();
  }
}
