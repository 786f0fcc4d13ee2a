/** The runtime itself: stored maps and session fields updated in place, events pushed as they happen. */
module ClientRuntime {
  import opened Foundation
  import opened Messages

  class Runtime {
    var messages: map<Uuid, Chat>
    var conversations: map<Id, Conversation>
    var contacts: map<Id, Contact>
    var selected: Option<Id>
    var focused: Option<Id>
    var foreground: bool
    var events: seq<Event>

    ghost function View(): State
      reads this
    {
      State(messages, conversations, contacts, selected, focused, foreground, events)
    }

    constructor ()
      ensures View() == INITIAL
    {
      messages, conversations, contacts := map[], map[], map[];
      selected, focused, foreground, events := None, None, true, [];
    }

    // -------------------------------------------------------------- session

    method OpenConversation(c: Id)
      modifies this
      ensures View() == Step(old(View()), Call.OpenConversation(c))
    {
      selected, focused := Some(c), None;
    }

    method CloseConversation()
      modifies this
      ensures View() == Step(old(View()), Call.CloseConversation)
    {
      selected, focused := None, None;
    }

    method SetAppForeground(f: bool)
      modifies this
      ensures View() == Step(old(View()), SetForeground(f))
    {
      foreground := f;
      if !f { focused := None; }
    }

    method SetConversationFocus(c: Id, focus: bool)
      modifies this
      ensures View() == Step(old(View()), Call.SetConversationFocus(c, focus))
    {
      if focus {
        selected, focused := Some(c), Some(c);
      } else if focused == Some(c) {
        focused := None;
      }
      if !focus || !Attends(foreground, selected, focused, c) { return; }
      var unread := if c in conversations then conversations[c].unread else 0;
      if unread == 0 { return; }
      conversations := conversations[c := conversations[c].(unread := 0)];
      events := events + [ReadChanged(c, 0)];
    }

    // -------------------------------------------------------------- sending

    method PutState(id: Uuid, next: MessageState)
      requires id in messages
      modifies this
      ensures View() == SetState(old(View()), id, next)
    {
      messages := messages[id := messages[id].(state := next)];
      events := events + [StateChanged(id, next)];
    }

    /** Checks in the order of the source; every refusal leaves the state alone. */
    method PrepareMessageSend(id: Uuid) returns (ok: bool)
      modifies this
      ensures ok == Sendable(old(View()), id) && View() == PrepareSend(old(View()), id)
    {
      if id !in messages { return false; }
      var m := messages[id];
      if !m.outgoing || m.conversation !in conversations { return false; }
      var c := conversations[m.conversation];
      if !c.canSend || c.contact !in contacts { return false; }
      if !contacts[c.contact].verified || contacts[c.contact].blocked { return false; }
      var next := OnSendPrepare(m.state);
      if next.None? { return false; }
      if next.value != m.state { PutState(id, next.value); }
      return true;
    }

    method SendMessage(c: Id, text: string, reply: Option<Uuid>, id: Uuid) returns (ok: bool)
      modifies this
      ensures View() == Step(old(View()), Call.SendMessage(c, text, reply, id))
      ensures ok == CanQueue(old(View()), c, text, reply)
      ensures ok ==> id in messages && messages[id] == Chat(c, true, Trim(text), Sending)
    {
      if reply.Some? && (reply.value !in messages || messages[reply.value].conversation != c) { return false; }
      var body := Trim(text);
      if body == "" || c !in conversations || !conversations[c].canSend { return false; }
      var contact := conversations[c].contact;
      if contact !in contacts || !contacts[contact].verified || contacts[contact].blocked { return false; }
      messages := messages[id := Chat(c, true, body, Queued)];
      conversations := conversations[c := conversations[c].(canSend := true)];
      events := events + [StateChanged(id, Queued)];
      events := events + [Changed];
      assert View() == QueueOutgoing(old(View()), c, body, id);
      ok := PrepareMessageSend(id);
    }

    method RetryMessage(id: Uuid) returns (ok: bool)
      modifies this
      ensures View() == Step(old(View()), Call.RetryMessage(id))
      ensures ok == (CanRetry(old(View()), id) && Sendable(SetState(old(View()), id, Queued), id))
    {
      if id !in messages { return false; }
      var m := messages[id];
      if !m.outgoing || !(m.state.Failed? || m.state.Queued?) || m.conversation !in conversations { return false; }
      var contact := conversations[m.conversation].contact;
      if contact !in contacts || contacts[contact].blocked { return false; }
      PutState(id, Queued);
      ok := PrepareMessageSend(id);
    }

    /** Stops at the first message that is refused; what was prepared before stays prepared. */
    method PreparePendingSends(ids: seq<Uuid>) returns (ok: bool)
      modifies this
      ensures View() == Step(old(View()), Call.PreparePendingSends(ids))
    {
      hide Sendable, PrepareSend;
      var k := 0;
      while k < |ids|
        invariant k <= |ids|
        invariant PreparePending(View(), ids[k..]) == PreparePending(old(View()), ids)
      {
        assert ids[k..][0] == ids[k] && ids[k..][1..] == ids[k + 1..];
        ghost var before := View();
        var sent := PrepareMessageSend(ids[k]);
        if !sent {
          Refused(before, ids[k]);
          return false;
        }
        k := k + 1;
      }
      return true;
    }

    // -------------------------------------------------------------- the rest

    method DeleteMessageLocal(id: Uuid) returns (ok: bool)
      modifies this
      ensures View() == Step(old(View()), DeleteMessage(id)) && ok == (id in old(messages))
    {
      if id !in messages { return false; }
      messages := messages - {id};
      events := events + [Changed];
      return true;
    }

    method ApplyMessageRead(id: Uuid) returns (ok: bool)
      modifies this
      ensures View() == Step(old(View()), ApplyRead(id))
      ensures ok <==> id in messages && messages[id].outgoing && messages[id].state.Read?
    {
      if id !in messages || !messages[id].outgoing { return false; }
      if messages[id].state.Read? { return true; }
      if !messages[id].state.Sent? && !messages[id].state.Delivered? { return false; }
      PutState(id, Read);
      return true;
    }

    method ApplyTransportOutcome(id: Uuid, outcome: TransportOutcome) returns (ok: bool)
      modifies this
      ensures View() == Step(old(View()), ApplyOutcome(id, outcome))
      ensures ok <==> id in old(messages) && old(messages)[id].outgoing
                      && AfterOutcome(old(messages)[id].state, outcome) == Some(messages[id].state)
    {
      if id !in messages || !messages[id].outgoing { return false; }
      var next := AfterOutcome(messages[id].state, outcome);
      if next.None? { return false; }
      if next.value != messages[id].state { PutState(id, next.value); }
      return true;
    }

    method ReceiveMessage(c: Id, text: string, id: Uuid) returns (ok: bool)
      modifies this
      ensures View() == Step(old(View()), Call.ReceiveMessage(c, text, id))
      ensures ok <==> Trim(text) != "" && id in messages && !messages[id].outgoing
                      && messages[id].conversation == c && messages[id].body == Trim(text)
    {
      var body := Trim(text);
      if body == "" { return false; }
      if id in messages {
        return !messages[id].outgoing && messages[id].conversation == c && messages[id].body == body;
      }
      var attended := Attends(foreground, selected, focused, c);
      var current := if c in conversations then conversations[c].unread else 0;
      var unread := if attended then 0 else current + 1;
      var contact := if c in conversations then conversations[c].contact else c;
      messages := messages[id := Chat(c, false, body, Delivered)];
      conversations := conversations[c := Conversation(contact, true, unread)];
      events := events + [MessageReceived(id, c)];
      events := events + [StateChanged(id, Delivered)];
      events := events + [ReadChanged(c, unread)];
      events := events + [Changed];
      return true;
    }
  }

  lemma Refused(s: State, id: Uuid)
    requires !Sendable(s, id)
    ensures PrepareSend(s, id) == s
  {
  }
}
