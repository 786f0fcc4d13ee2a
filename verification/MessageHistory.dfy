/** Why a stored message looks the way it does: its content, its state and its permission to be sent, from the calls. */
module MessageHistory {
  import opened Foundation
  import opened Messages

  // ---------------------------------------------------------------- content

  /** The call hands over a message with this id and content. */
  predicate Gives(call: Call, id: Uuid, m: Chat) {
    match call
    case SendMessage(c, text, _, i) => i == id && m.outgoing && m.conversation == c && m.body == Trim(text)
    case ReceiveMessage(c, body, i) => i == id && !m.outgoing && m.conversation == c && m.body == Trim(body)
    case _ => false
  }

  predicate SameContent(a: Chat, b: Chat) {
    a.conversation == b.conversation && a.outgoing == b.outgoing && a.body == b.body
  }

  /** A call leaves the content of a held message alone, deletes it, or gives it. */
  predicate ContentStep(s: State, call: Call, s': State, id: Uuid) {
    id in s'.messages ==>
      || Gives(call, id, s'.messages[id])
      || (id in s.messages && call != DeleteMessage(id) && SameContent(s.messages[id], s'.messages[id]))
  }

  lemma PrepareContent(s: State, id: Uuid, other: Uuid)
    ensures var s' := PrepareSend(s, id);
            && s'.messages.Keys == s.messages.Keys
            && (other in s.messages ==> SameContent(s.messages[other], s'.messages[other]))
  {
  }

  lemma {:induction false} PendingContent(s: State, ids: seq<Uuid>, other: Uuid)
    ensures var s' := PreparePending(s, ids);
            && s'.messages.Keys == s.messages.Keys
            && (other in s.messages ==> SameContent(s.messages[other], s'.messages[other]))
    decreases |ids|
  {
    hide Sendable, PrepareSend;
    if ids != [] && Sendable(s, ids[0]) {
      PrepareContent(s, ids[0], other);
      PendingContent(PrepareSend(s, ids[0]), ids[1..], other);
    }
  }

  lemma StepContent(s: State, call: Call, id: Uuid)
    ensures ContentStep(s, call, Step(s, call), id)
  {
    hide Trim, PrepareSend, Reachable, AfterOutcome, Permit, Introduce;
    match call {
      case SendMessage(c, text, _, i) =>
        if c in s.conversations { PrepareContent(QueueOutgoing(s, c, Trim(text), i), i, id); }
      case RetryMessage(i) => if i in s.messages { PrepareContent(SetState(s, i, Queued), i, id); }
      case PreparePendingSends(ids) => PendingContent(s, ids, id);
      case _ =>
    }
  }

  /** Every held message has the sender, conversation and trimmed text it was given with, and was not deleted since. */
  lemma {:induction false} ContentIsAsGiven(calls: seq<Call>, id: Uuid)
    requires id in Run(calls).messages
    ensures exists j :: 0 <= j < |calls| && Gives(calls[j], id, Run(calls).messages[id])
                        && forall k :: j < k < |calls| ==> calls[k] != DeleteMessage(id)
  {
    hide Step;
    if calls != [] {
      var before, last := calls[..|calls| - 1], calls[|calls| - 1];
      StepContent(Run(before), last, id);
      var m := Run(calls).messages[id];
      if Gives(last, id, m) {
        assert calls[|calls| - 1] == last;
      } else {
        ContentIsAsGiven(before, id);
        var j :| 0 <= j < |before| && Gives(before[j], id, Run(before).messages[id])
                 && forall k :: j < k < |before| ==> before[k] != DeleteMessage(id);
        assert calls[j] == before[j] && Gives(calls[j], id, m);
      }
    }
  }

  // ---------------------------------------------------------------- state

  predicate GoodNews(o: TransportOutcome) { o.PeerPersisted? || o.PeerDelivered? || o.OutcomeDelivered? }

  predicate Hopeless(o: TransportOutcome) { o.PermanentFailure? || o.PeerAuthenticationFailed? || o.PeerRejected? }

  predicate TryAgain(o: TransportOutcome) { o.RetryableFailure? || o.PeerUnavailable? }

  /** The call accounts for the message being in this state. */
  predicate Explains(call: Call, id: Uuid, state: MessageState) {
    match state
    case Queued =>
      || (call.SendMessage? && call.id == id) || call == RetryMessage(id)
      || (call.ApplyOutcome? && call.id == id && TryAgain(call.outcome))
    case Sending =>
      || (call.SendMessage? && call.id == id) || call == RetryMessage(id)
      || (call.PreparePendingSends? && id in call.ids)
    case Sent => call == ApplyOutcome(id, PeerPersisted)
    case Delivered => call == ApplyOutcome(id, PeerDelivered) || call == ApplyOutcome(id, OutcomeDelivered)
    case Read => call == ApplyRead(id)
    case Failed => call.ApplyOutcome? && call.id == id && Hopeless(call.outcome)
  }

  predicate InState(s: State, id: Uuid, state: MessageState) {
    id in s.messages && s.messages[id].outgoing && s.messages[id].state == state
  }

  lemma PrepareStates(s: State, id: Uuid, other: Uuid)
    requires other in s.messages
    ensures var s' := PrepareSend(s, id);
            && other in s'.messages && s'.messages[other].outgoing == s.messages[other].outgoing
            && s'.messages[other].state in
               (if other == id then {s.messages[other].state, Sending} else {s.messages[other].state})
  {
  }

  lemma {:induction false} PendingStates(s: State, ids: seq<Uuid>, other: Uuid)
    ensures var s' := PreparePending(s, ids);
            && s'.messages.Keys == s.messages.Keys
            && (other in s.messages ==>
                  && s'.messages[other].outgoing == s.messages[other].outgoing
                  && (s'.messages[other].state == s.messages[other].state
                      || (s'.messages[other].state == Sending && other in ids)))
    decreases |ids|
  {
    hide Sendable, PrepareSend;
    if ids != [] && Sendable(s, ids[0]) {
      PrepareContent(s, ids[0], other);
      if other in s.messages { PrepareStates(s, ids[0], other); }
      PendingStates(PrepareSend(s, ids[0]), ids[1..], other);
    }
  }

  lemma StepExplains(s: State, call: Call, id: Uuid)
    requires id in Step(s, call).messages && Step(s, call).messages[id].outgoing
    ensures var state := Step(s, call).messages[id].state; InState(s, id, state) || Explains(call, id, state)
  {
    hide Trim, PrepareSend, Reachable, Permit, Introduce, AfterOutcome, Explains;
    match call {
      case SendMessage(c, text, _, i) =>
        SendingExplained(call, id);
        if c in s.conversations {
          var q := QueueOutgoing(s, c, Trim(text), i);
          PrepareContent(q, i, id);
          if id in q.messages { PrepareStates(q, i, id); }
        }
      case RetryMessage(i) =>
        SendingExplained(call, id);
        if i in s.messages {
          PrepareContent(SetState(s, i, Queued), i, id);
          if id in s.messages { PrepareStates(SetState(s, i, Queued), i, id); }
        }
      case PreparePendingSends(ids) =>
        SendingExplained(call, id);
        PendingStates(s, ids, id);
      case ApplyOutcome(i, o) => if i in s.messages { OutcomeExplained(s.messages[i].state, o, i); }
      case ApplyRead(i) => ReadExplained(i);
      case _ =>
    }
  }

  lemma SendingExplained(call: Call, id: Uuid)
    ensures (call.SendMessage? && call.id == id) || call == RetryMessage(id) ==>
              Explains(call, id, Queued) && Explains(call, id, Sending)
    ensures call.PreparePendingSends? && id in call.ids ==> Explains(call, id, Sending)
  {
  }

  lemma ReadExplained(id: Uuid)
    ensures Explains(ApplyRead(id), id, Read)
  {
  }

  lemma OutcomeExplained(state: MessageState, o: TransportOutcome, id: Uuid)
    ensures AfterOutcome(state, o).Some? && AfterOutcome(state, o).value != state ==>
              Explains(ApplyOutcome(id, o), id, AfterOutcome(state, o).value)
  {
  }

  /** Since call j accounted for the state, nothing has moved the message. */
  predicate ExplainedSince(calls: seq<Call>, j: nat, id: Uuid, state: MessageState)
    requires j < |calls|
  {
    Explains(calls[j], id, state) && forall k :: j < k <= |calls| ==> InState(Run(calls[..k]), id, state)
  }

  /**
   After every run, a held outgoing message is Queued, Sending, Sent, Delivered, Read or Failed because of a call that
   accounts for it, and it has been in that state ever since that call.
   */
  lemma {:induction false} StateIsExplained(calls: seq<Call>, id: Uuid)
    requires id in Run(calls).messages && Run(calls).messages[id].outgoing
    ensures exists j :: 0 <= j < |calls| && ExplainedSince(calls, j, id, Run(calls).messages[id].state)
  {
    hide Step, Explains;
    if calls != [] {
      var before, last := calls[..|calls| - 1], calls[|calls| - 1];
      var state := Run(calls).messages[id].state;
      StepExplains(Run(before), last, id);
      assert calls[..|calls|] == calls;
      if Explains(last, id, state) {
        assert ExplainedSince(calls, |calls| - 1, id, state);
      } else {
        StateIsExplained(before, id);
        var j :| 0 <= j < |before| && ExplainedSince(before, j, id, state);
        forall k | j < k <= |calls| ensures InState(Run(calls[..k]), id, state) {
          if k < |calls| { assert before[..k] == calls[..k]; }
        }
        assert ExplainedSince(calls, j, id, state);
      }
    }
  }

  lemma {:induction false} IncomingIsDelivered(calls: seq<Call>, id: Uuid)
    requires id in Run(calls).messages && !Run(calls).messages[id].outgoing
    ensures Run(calls).messages[id].state == Delivered
  {
    if calls != [] {
      var before, last := calls[..|calls| - 1], calls[|calls| - 1];
      StepIncoming(Run(before), last, id);
      hide Step;
      if id in Run(before).messages && !Run(before).messages[id].outgoing { IncomingIsDelivered(before, id); }
    }
  }

  lemma StepIncoming(s: State, call: Call, id: Uuid)
    requires id in Step(s, call).messages && !Step(s, call).messages[id].outgoing
    ensures var m := Step(s, call).messages[id];
            || m.state == Delivered
            || (id in s.messages && !s.messages[id].outgoing && s.messages[id].state == m.state)
  {
    hide Trim, Reachable, AfterOutcome, Permit, Introduce;
    if call.PreparePendingSends? { PendingIncoming(s, call.ids, id); }
  }

  lemma {:induction false} PendingIncoming(s: State, ids: seq<Uuid>, id: Uuid)
    ensures PreparePending(s, ids).messages.Keys == s.messages.Keys
    ensures id in s.messages && !s.messages[id].outgoing ==> PreparePending(s, ids).messages[id] == s.messages[id]
    ensures id in s.messages ==> PreparePending(s, ids).messages[id].outgoing == s.messages[id].outgoing
    decreases |ids|
  {
    hide Reachable;
    if ids != [] && Sendable(s, ids[0]) { PendingIncoming(PrepareSend(s, ids[0]), ids[1..], id); }
  }

  // ---------------------------------------------------------------- outcomes

  /** What an outcome means for a message that waits for one. */
  function Means(o: TransportOutcome): MessageState {
    if o.PeerPersisted? then Sent else if GoodNews(o) then Delivered else if Hopeless(o) then Failed else Queued
  }

  /**
   A reported outcome decides a message that is being sent. One that is not being sent is failed by a hopeless outcome
   unless it already arrived, and otherwise left as it is; nothing else in the state moves.
   */
  lemma OutcomeDecides(s: State, id: Uuid, o: TransportOutcome)
    requires id in s.messages && s.messages[id].outgoing
    ensures var s' := Step(s, ApplyOutcome(id, o));
            var state := s.messages[id].state;
            && s'.messages == s.messages[id := s.messages[id].(state :=
                 if state.Sending? || state.Sent? then Means(o)
                 else if Hopeless(o) && !state.Delivered? && !state.Read? then Failed
                 else state)]
            && s' == s.(messages := s'.messages, events := s'.events)
  {
  }

  // ---------------------------------------------------------------- permission

  /** The conversation accepts messages and its contact is verified and not blocked. */
  predicate MayWrite(s: State, c: Id) {
    && c in s.conversations && s.conversations[c].canSend
    && var contact := s.conversations[c].contact;
       contact in s.contacts && s.contacts[contact].verified && !s.contacts[contact].blocked
  }

  lemma {:induction false} PendingPermitted(s: State, ids: seq<Uuid>, id: Uuid)
    requires InState(PreparePending(s, ids), id, Sending) && !InState(s, id, Sending)
    ensures MayWrite(s, PreparePending(s, ids).messages[id].conversation)
    decreases |ids|
  {
    PendingContent(s, ids, id);
    if ids != [] && Sendable(s, ids[0]) {
      var r := PrepareSend(s, ids[0]);
      assert r.conversations == s.conversations && r.contacts == s.contacts;
      if !InState(r, id, Sending) { PendingPermitted(r, ids[1..], id); } else { PendingContent(r, ids[1..], id); }
    }
  }

  /** A message starts to be sent only into a conversation that may be written to at that moment. */
  lemma SendingIsPermitted(calls: seq<Call>, call: Call, id: Uuid)
    requires InState(Run(calls + [call]), id, Sending) && !InState(Run(calls), id, Sending)
    ensures MayWrite(Run(calls), Run(calls + [call]).messages[id].conversation)
  {
    assert (calls + [call])[..|calls + [call]| - 1] == calls;
    var s := Run(calls);
    assert Run(calls + [call]) == Step(s, call);
    hide Run;
    StepPermitted(s, call, id);
  }

  lemma StepPermitted(s: State, call: Call, id: Uuid)
    requires InState(Step(s, call), id, Sending) && !InState(s, id, Sending)
    ensures MayWrite(s, Step(s, call).messages[id].conversation)
  {
    hide Trim, AfterOutcome, Permit, Introduce, PreparePending;
    if call.PreparePendingSends? {
      PendingPermitted(s, call.ids, id);
    } else {
      OutcomeNeverSends(s, call);
    }
  }

  lemma OutcomeNeverSends(s: State, call: Call)
    ensures forall st: MessageState, o :: AfterOutcome(st, o) != Some(Sending)
  {
  }

  /** A message can be sent if and only if it has text, answers nothing elsewhere, and may be written where it goes. */
  lemma SentIff(s: State, c: Id, text: string, reply: Option<Uuid>, id: Uuid)
    requires id !in s.messages
    ensures var s' := Step(s, SendMessage(c, text, reply, id));
            var possible := && MayWrite(s, c) && !Blank(text)
                            && (reply.Some? ==> reply.value in s.messages && s.messages[reply.value].conversation == c);
            s'.messages == if possible then s.messages[id := Chat(c, true, Trim(text), Sending)] else s.messages
  {
    TrimBlank(text);
    hide Trim, Blank;
  }

  lemma TrimBlank(text: string)
    ensures Trim(text) == "" <==> Blank(text)
  {
    var before, after := TrimParts(text);
    assert Trim(text) != "" ==> text[|before|] == Trim(text)[0];
  }

  /**
   A retry takes up a Failed or Queued message whose contact is known and not blocked: it is being sent again if its
   conversation may be written to, and waits as Queued if not. Anything else stays as it is.
   */
  lemma RetryDecides(s: State, id: Uuid)
    requires id in s.messages && s.messages[id].outgoing
    ensures var m, c := s.messages[id], s.messages[id].conversation;
            var taken := && (m.state.Failed? || m.state.Queued?) && c in s.conversations
                         && s.conversations[c].contact in s.contacts
                         && !s.contacts[s.conversations[c].contact].blocked;
            Step(s, RetryMessage(id)).messages
            == s.messages[id := m.(state := if !taken then m.state else if MayWrite(s, c) then Sending else Queued)]
  {
  }

  /** Nothing but its deletion takes a message out of storage. */
  lemma HeldUntilDeleted(s: State, call: Call, id: Uuid)
    requires id in s.messages
    ensures id !in Step(s, call).messages <==> call == DeleteMessage(id)
  {
    hide Trim, PrepareSend, Reachable, AfterOutcome, Permit, Introduce;
    match call {
      case SendMessage(c, text, _, i) =>
        if c in s.conversations { PrepareContent(QueueOutgoing(s, c, Trim(text), i), i, id); }
      case RetryMessage(i) => if i in s.messages { PrepareContent(SetState(s, i, Queued), i, id); }
      case PreparePendingSends(ids) => PendingContent(s, ids, id);
      case _ =>
    }
  }

  /** The messages at the head of the list that can be sent. */
  function Ready(s: State, ids: seq<Uuid>): nat
    ensures Ready(s, ids) <= |ids|
  {
    if ids == [] || !Sendable(s, ids[0]) then 0 else 1 + Ready(s, ids[1..])
  }

  lemma PrepareKeepsSendable(s: State, id: Uuid, other: Uuid)
    ensures Sendable(PrepareSend(s, id), other) <==> Sendable(s, other)
  {
  }

  lemma {:induction false} ReadyAfterPrepare(s: State, id: Uuid, ids: seq<Uuid>)
    ensures Ready(PrepareSend(s, id), ids) == Ready(s, ids)
    decreases |ids|
  {
    hide Sendable, PrepareSend;
    if ids != [] {
      PrepareKeepsSendable(s, id, ids[0]);
      ReadyAfterPrepare(s, id, ids[1..]);
    }
  }

  /** The listed messages before the first that cannot be sent are being sent afterwards, and no others move. */
  lemma {:induction false} PendingPreparesTheReady(s: State, ids: seq<Uuid>, id: Uuid)
    requires id in s.messages
    ensures var s' := PreparePending(s, ids);
            && id in s'.messages
            && s'.messages[id]
               == if id in ids[..Ready(s, ids)] then s.messages[id].(state := Sending) else s.messages[id]
    decreases |ids|
  {
    if ids != [] && Sendable(s, ids[0]) {
      var r, rest := PrepareSend(s, ids[0]), ids[1..];
      PrepareOne(s, ids[0], id);
      ReadyAfterPrepare(s, ids[0], rest);
      hide Sendable, PrepareSend;
      PendingPreparesTheReady(r, rest, id);
      assert ids[..Ready(s, ids)] == [ids[0]] + rest[..Ready(s, rest)];
    }
  }

  lemma PrepareOne(s: State, id: Uuid, other: Uuid)
    requires Sendable(s, id) && other in s.messages
    ensures var s' := PrepareSend(s, id);
            && other in s'.messages
            && s'.messages[other] == if other == id then s.messages[other].(state := Sending) else s.messages[other]
  {
  }

  // ---------------------------------------------------------------- announcements

  datatype Arrival = Arrival(id: Uuid, conversation: Id)

  /** The arrivals announced to the user interface, in order. */
  function Announced(events: seq<Event>): seq<Arrival> {
    if events == [] then []
    else
      var e := events[|events| - 1];
      Announced(events[..|events| - 1]) + if e.MessageReceived? then [Arrival(e.id, e.conversation)] else []
  }

  /** The messages the calls brought in: with a text, and not held at that moment. */
  function Accepted(calls: seq<Call>): seq<Arrival> {
    if calls == [] then []
    else
      var before, call := calls[..|calls| - 1], calls[|calls| - 1];
      Accepted(before) +
      if call.ReceiveMessage? && !Blank(call.body) && call.id !in Run(before).messages
      then [Arrival(call.id, call.conversation)] else []
  }

  lemma AnnouncedNext(events: seq<Event>, e: Event)
    ensures Announced(events + [e])
            == Announced(events) + if e.MessageReceived? then [Arrival(e.id, e.conversation)] else []
  {
    assert (events + [e])[..|events + [e]| - 1] == events;
  }

  lemma SetStateAnnounces(s: State, id: Uuid, next: MessageState)
    requires id in s.messages
    ensures Announced(SetState(s, id, next).events) == Announced(s.events)
  {
    AnnouncedNext(s.events, StateChanged(id, next));
  }

  lemma PrepareAnnounces(s: State, id: Uuid)
    ensures Announced(PrepareSend(s, id).events) == Announced(s.events)
  {
    hide Reachable, Announced;
    if id in s.messages { SetStateAnnounces(s, id, Sending); }
  }

  lemma {:induction false} PendingAnnounces(s: State, ids: seq<Uuid>)
    ensures Announced(PreparePending(s, ids).events) == Announced(s.events)
    decreases |ids|
  {
    hide Sendable, PrepareSend, Announced;
    if ids != [] && Sendable(s, ids[0]) {
      PrepareAnnounces(s, ids[0]);
      PendingAnnounces(PrepareSend(s, ids[0]), ids[1..]);
    }
  }

  lemma ReceiveAnnounces(s: State, c: Id, body: string, id: Uuid)
    ensures Announced(Receive(s, c, body, id).events)
            == Announced(s.events) + if !Blank(body) && id !in s.messages then [Arrival(id, c)] else []
  {
    TrimBlank(body);
    hide Trim, Blank, Announced;
    var unread := UnreadAfterIncoming(Unread(s, c), IsAttended(s, c));
    var one := s.events + [MessageReceived(id, c)];
    var two := one + [StateChanged(id, Delivered)];
    AnnouncedNext(s.events, MessageReceived(id, c));
    AnnouncedNext(one, StateChanged(id, Delivered));
    AnnouncedNext(two, ReadChanged(c, unread));
    AnnouncedNext(two + [ReadChanged(c, unread)], Changed);
  }

  lemma SendAnnounces(s: State, c: Id, text: string, reply: Option<Uuid>, id: Uuid)
    ensures Announced(Send(s, c, text, reply, id).events) == Announced(s.events)
  {
    hide Trim, Reachable, Announced, PrepareSend;
    if CanQueue(s, c, text, reply) {
      AnnouncedNext(s.events, StateChanged(id, Queued));
      AnnouncedNext(s.events + [StateChanged(id, Queued)], Changed);
      PrepareAnnounces(QueueOutgoing(s, c, Trim(text), id), id);
    }
  }

  lemma StepAnnounces(s: State, call: Call)
    requires !call.ReceiveMessage?
    ensures Announced(Step(s, call).events) == Announced(s.events)
  {
    hide Reachable, Announced, PrepareSend, PreparePending, Send, AfterOutcome, Permit, Introduce, Trim;
    match call {
      case SendMessage(c, text, reply, id) => SendAnnounces(s, c, text, reply, id);
      case RetryMessage(id) =>
        if id in s.messages {
          SetStateAnnounces(s, id, Queued);
          PrepareAnnounces(SetState(s, id, Queued), id);
        }
      case PreparePendingSends(ids) => PendingAnnounces(s, ids);
      case SetConversationFocus(c, _) => AnnouncedNext(s.events, ReadChanged(c, 0));
      case DeleteMessage(_) => AnnouncedNext(s.events, Changed);
      case ApplyRead(id) => if id in s.messages { SetStateAnnounces(s, id, Read); }
      case ApplyOutcome(id, o) =>
        if id in s.messages {
          forall next: MessageState ensures Announced(SetState(s, id, next).events) == Announced(s.events) {
            SetStateAnnounces(s, id, next);
          }
        }
      case _ =>
    }
  }

  /** After every run, the arrivals announced are the messages accepted, each once and in order. */
  lemma {:induction false} ArrivalsAreAnnounced(calls: seq<Call>)
    ensures Announced(Run(calls).events) == Accepted(calls)
  {
    if calls != [] {
      var before, call := calls[..|calls| - 1], calls[|calls| - 1];
      ArrivalsAreAnnounced(before);
      var s := Run(before);
      hide Step, Announced, Blank;
      if call.ReceiveMessage? {
        ReceiveAnnounces(s, call.conversation, call.body, call.id);
        assert Step(s, call) == Receive(s, call.conversation, call.body, call.id) by { StepReceives(s, call); }
      } else {
        StepAnnounces(s, call);
      }
    }
  }

  lemma StepReceives(s: State, call: Call)
    requires call.ReceiveMessage?
    ensures Step(s, call) == Receive(s, call.conversation, call.body, call.id)
  {
  }
}
