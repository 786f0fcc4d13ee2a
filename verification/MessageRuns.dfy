/** Whole-run properties of the message runtime. */
module MessageRuns {
  import opened Foundation
  import opened Messages

  // ---------------------------------------------------------------- attention, from the calls alone

  /** A call after which a conversation that was focused no longer is. */
  predicate Disturbs(call: Call, c: Id) {
    match call
    case OpenConversation(_) => true
    case CloseConversation => true
    case SetForeground(f) => !f
    case SetConversationFocus(d, focus) => if focus then d != c else d == c
    case SendMessage(_, _, _, _) => false
    case RetryMessage(_) => false
    case PreparePendingSends(_) => false
    case DeleteMessage(_) => false
    case ApplyRead(_) => false
    case ApplyOutcome(_, _) => false
    case ReceiveMessage(_, _, _) => false
    case Administer(_, _, _) => false
  }

  /** The conversation was focused at some point and nothing disturbed it since. */
  predicate FocusHolds(calls: seq<Call>, c: Id) {
    calls != [] &&
    var last := calls[|calls| - 1];
    last == SetConversationFocus(c, true) || (!Disturbs(last, c) && FocusHolds(calls[..|calls| - 1], c))
  }

  /** The application is in the foreground unless the last word on it says otherwise. */
  predicate InForeground(calls: seq<Call>) {
    calls == [] ||
    var last := calls[|calls| - 1];
    if last.SetForeground? then last.foreground else InForeground(calls[..|calls| - 1])
  }

  predicate AttendedAfter(calls: seq<Call>, c: Id) { InForeground(calls) && FocusHolds(calls, c) }

  lemma QuietOnSession(s: State, call: Call)
    requires !call.OpenConversation? && !call.CloseConversation? && !call.SetForeground? && !call.SetConversationFocus?
    ensures var s' := Step(s, call);
            s'.selected == s.selected && s'.focused == s.focused && s'.foreground == s.foreground
  {
    if call.PreparePendingSends? { PendingQuiet(s, call.ids); }
  }

  lemma {:induction false} PendingQuiet(s: State, ids: seq<Uuid>)
    ensures var s' := PreparePending(s, ids);
            && s'.selected == s.selected && s'.focused == s.focused && s'.foreground == s.foreground
            && s'.conversations == s.conversations
    decreases |ids|
  {
    if ids != [] && Sendable(s, ids[0]) { PendingQuiet(PrepareSend(s, ids[0]), ids[1..]); }
  }

  /** Being attended is exactly: in the foreground, and focused with nothing disturbing it since. */
  lemma {:induction false} AttentionIff(calls: seq<Call>, c: Id)
    ensures Run(calls).foreground == InForeground(calls)
    ensures Run(calls).focused == Some(c) <==> FocusHolds(calls, c)
    ensures Run(calls).focused == Some(c) ==> Run(calls).selected == Some(c)
    ensures IsAttended(Run(calls), c) <==> AttendedAfter(calls, c)
  {
    if calls != [] {
      var before, last := calls[..|calls| - 1], calls[|calls| - 1];
      AttentionIff(before, c);
      hide Run;
      assert Run(calls) == Step(Run(before), last) by { RunStep(calls); }
      if !last.OpenConversation? && !last.CloseConversation? && !last.SetForeground? && !last.SetConversationFocus? {
        QuietOnSession(Run(before), last);
        hide Step;
      }
    } else {
      assert Run(calls) == INITIAL;
    }
  }

  lemma RunStep(calls: seq<Call>)
    requires calls != []
    ensures Run(calls) == Step(Run(calls[..|calls| - 1]), calls[|calls| - 1])
  {
  }

  // ---------------------------------------------------------------- unread

  /** The incoming messages accepted while unattended since the last reset of the conversation, oldest first. */
  function Unseen(calls: seq<Call>, c: Id): seq<Uuid> {
    if calls == [] then []
    else
      var before, last := calls[..|calls| - 1], calls[|calls| - 1];
      if last == SetConversationFocus(c, true) && AttendedAfter(calls, c) then []
      else if last.ReceiveMessage? && last.conversation == c && Accepted(before, last) then
        if AttendedAfter(before, c) then [] else Unseen(before, c) + [last.id]
      else Unseen(before, c)
  }

  /** The call brings a message the runtime does not hold yet. */
  predicate Accepted(before: seq<Call>, call: Call) {
    call.ReceiveMessage? && Trim(call.body) != "" && call.id !in Run(before).messages
  }

  lemma UnreadStep(s: State, call: Call, c: Id)
    requires !call.SetConversationFocus? && !call.ReceiveMessage?
    ensures Unread(Step(s, call), c) == Unread(s, c)
  {
    if call.PreparePendingSends? { PendingQuiet(s, call.ids); }
  }

  /** After every run the unread count is the number of messages accepted unattended since the last reset. */
  lemma {:induction false} UnreadCountsUnseen(calls: seq<Call>, c: Id)
    ensures Unread(Run(calls), c) == |Unseen(calls, c)|
  {
    if calls != [] {
      var before, last := calls[..|calls| - 1], calls[|calls| - 1];
      UnreadCountsUnseen(before, c);
      AttentionIff(before, c);
      AttentionIff(calls, c);
      var s := Run(before);
      RunStep(calls);
      hide Run;
      if last.SetConversationFocus? {
        FocusUnread(s, last.conversation, last.focus, c);
      } else if last.ReceiveMessage? {
        ReceiveUnread(s, last.conversation, last.body, last.id, c);
      } else {
        UnreadStep(s, last, c);
      }
      hide Step, AttendedAfter, IsAttended;
    } else {
      assert Run(calls) == INITIAL;
    }
  }

  lemma FocusUnread(s: State, d: Id, focus: bool, c: Id)
    ensures var s' := Focus(s, d, focus);
            Unread(s', c) == if d == c && focus && IsAttended(s', c) then 0 else Unread(s, c)
  {
  }

  lemma ReceiveUnread(s: State, d: Id, body: string, id: Uuid, c: Id)
    ensures Unread(Receive(s, d, body, id), c)
         == if Trim(body) == "" || id in s.messages || d != c then Unread(s, c)
            else if IsAttended(s, c) then 0 else Unread(s, c) + 1
  {
  }

  /** A duplicate, in whatever conversation and with whatever body, changes nothing at all. */
  lemma DuplicatesChangeNothing(calls: seq<Call>, c: Id, body: string, id: Uuid)
    requires id in Run(calls).messages
    ensures Run(calls + [ReceiveMessage(c, body, id)]) == Run(calls)
  {
    var more := calls + [ReceiveMessage(c, body, id)];
    assert more[..|more| - 1] == calls;
  }

  // ---------------------------------------------------------------- distinct messages

  predicate AcceptedAt(calls: seq<Call>, i: nat)
    requires i < |calls|
  {
    Accepted(calls[..i], calls[i])
  }

  /** An accepted message stays held until it is deleted. */
  lemma {:induction false} HeldUntilDeleted(calls: seq<Call>, i: nat)
    requires i < |calls| && AcceptedAt(calls, i)
    requires forall k :: i < k < |calls| ==> calls[k] != DeleteMessage(calls[i].id)
    ensures calls[i].id in Run(calls).messages
    decreases |calls|
  {
    var before, last := calls[..|calls| - 1], calls[|calls| - 1];
    if i == |calls| - 1 {
      assert Run(calls) == Step(Run(before), last);
    } else {
      assert before[..i] == calls[..i] && before[i] == calls[i];
      HeldUntilDeleted(before, i);
      StillHeld(Run(before), last, calls[i].id);
    }
  }

  lemma StillHeld(s: State, call: Call, id: Uuid)
    requires id in s.messages && call != DeleteMessage(id)
    ensures id in Step(s, call).messages
  {
    if call.PreparePendingSends? { PendingHolds(s, call.ids, id); }
  }

  lemma {:induction false} PendingHolds(s: State, ids: seq<Uuid>, id: Uuid)
    requires id in s.messages
    ensures id in PreparePending(s, ids).messages
    decreases |ids|
  {
    if ids != [] && Sendable(s, ids[0]) { PendingHolds(PrepareSend(s, ids[0]), ids[1..], id); }
  }

  /** One id is accepted twice only if it was deleted in between. */
  lemma AcceptedTwiceOnlyAfterDelete(calls: seq<Call>, i: nat, j: nat)
    requires i < j < |calls| && AcceptedAt(calls, i) && AcceptedAt(calls, j) && calls[i].id == calls[j].id
    ensures exists k :: i < k < j && calls[k] == DeleteMessage(calls[i].id)
  {
    hide Run;
    if forall k :: i < k < j ==> calls[k] != DeleteMessage(calls[i].id) {
      assert calls[..j][..i] == calls[..i];
      HeldUntilDeleted(calls[..j], i);
    }
  }

  /** The i-th call adds to the unread count of a conversation. */
  predicate CountedAt(calls: seq<Call>, i: nat, c: Id)
    requires i < |calls|
  {
    AcceptedAt(calls, i) && calls[i].conversation == c && !AttendedAfter(calls[..i], c)
  }

  /** The k-th call resets it: a focus call that leaves it attended, or a message accepted while attended. */
  predicate ResetAt(calls: seq<Call>, k: nat, c: Id)
    requires k < |calls|
  {
    || (calls[k] == SetConversationFocus(c, true) && AttendedAfter(calls[..k + 1], c))
    || (AcceptedAt(calls, k) && calls[k].conversation == c && AttendedAfter(calls[..k], c))
  }

  predicate NotResetSince(calls: seq<Call>, i: nat, c: Id) {
    forall k :: i < k < |calls| ==> !ResetAt(calls, k, c)
  }

  /** A message that counts was deleted and, before any reset, delivered and counted again. */
  predicate CountedTwice(calls: seq<Call>, c: Id) {
    exists i, k, j ::
      && 0 <= i < k < j < |calls| && CountedAt(calls, i, c) && CountedAt(calls, j, c)
      && calls[i].id == calls[j].id && calls[k] == DeleteMessage(calls[i].id) && NotResetSince(calls, i, c)
  }

  /** The positions of the calls that make up the unread count. */
  function Counting(calls: seq<Call>, c: Id): seq<nat> {
    if calls == [] then []
    else
      var n := |calls| - 1;
      if ResetAt(calls, n, c) then []
      else if CountedAt(calls, n, c) then Counting(calls[..n], c) + [n]
      else Counting(calls[..n], c)
  }

  lemma SamePrefix(calls: seq<Call>, n: nat, i: nat, c: Id)
    requires i < n <= |calls|
    ensures CountedAt(calls[..n], i, c) == CountedAt(calls, i, c) && ResetAt(calls[..n], i, c) == ResetAt(calls, i, c)
  {
    assert calls[..n][..i] == calls[..i] && calls[..n][..i + 1] == calls[..i + 1];
  }

  predicate Rising(p: seq<nat>) { forall a, b :: 0 <= a < b < |p| ==> p[a] < p[b] }

  /** Exactly the counted calls with no reset since. */
  lemma {:induction false} CountingIff(calls: seq<Call>, c: Id, i: nat)
    ensures i in Counting(calls, c) <==> i < |calls| && CountedAt(calls, i, c) && NotResetSince(calls, i, c)
    decreases |calls|
  {
    hide CountedAt, ResetAt;
    if calls != [] {
      var n := |calls| - 1;
      CountingIff(calls[..n], c, i);
      if i < n { SamePrefix(calls, n, i, c); }
      forall k | i < k < n ensures ResetAt(calls[..n], k, c) == ResetAt(calls, k, c) { SamePrefix(calls, n, k, c); }
      assert i < n ==> (NotResetSince(calls, i, c) <==> NotResetSince(calls[..n], i, c) && !ResetAt(calls, n, c));
      assert i == n ==> NotResetSince(calls, i, c);
      CountsOrResets(calls, n, c);
    }
  }

  lemma CountsOrResets(calls: seq<Call>, n: nat, c: Id)
    requires n < |calls|
    ensures !(CountedAt(calls, n, c) && ResetAt(calls, n, c))
  {
  }

  /** The unread messages are those of the counting calls, in order. */
  lemma {:induction false} UnseenAreCounting(calls: seq<Call>, c: Id)
    ensures |Unseen(calls, c)| == |Counting(calls, c)| && Rising(Counting(calls, c))
    ensures forall a :: 0 <= a < |Counting(calls, c)| ==>
              Counting(calls, c)[a] < |calls| && CallId(calls[Counting(calls, c)[a]]) == Unseen(calls, c)[a]
    decreases |calls|
  {
    if calls != [] {
      var n := |calls| - 1;
      UnseenAreCounting(calls[..n], c);
      assert calls[..n + 1] == calls;
      hide Accepted, AttendedAfter;
    }
  }

  function CallId(call: Call): Uuid { if call.ReceiveMessage? then call.id else "" }

  predicate Distinct(ids: seq<Uuid>) { forall a, b :: 0 <= a < b < |ids| ==> ids[a] != ids[b] }

  /** The unread messages are distinct if and only if none of them was deleted and counted again. */
  lemma UnseenDistinctIff(calls: seq<Call>, c: Id)
    ensures Distinct(Unseen(calls, c)) <==> !CountedTwice(calls, c)
  {
    UnseenAreCounting(calls, c);
    hide Unseen, Counting;
    if !Distinct(Unseen(calls, c)) {
      var a, b :| 0 <= a < b < |Unseen(calls, c)| && Unseen(calls, c)[a] == Unseen(calls, c)[b];
      var i, j := Counting(calls, c)[a], Counting(calls, c)[b];
      CountingIff(calls, c, i);
      CountingIff(calls, c, j);
      assert CountedAt(calls, i, c) && CountedAt(calls, j, c) && NotResetSince(calls, i, c);
      AcceptedTwiceOnlyAfterDelete(calls, i, j);
      var k :| i < k < j && calls[k] == DeleteMessage(calls[i].id);
    }
    if CountedTwice(calls, c) { RepeatShows(calls, c); }
  }

  lemma RepeatShows(calls: seq<Call>, c: Id)
    requires CountedTwice(calls, c)
    ensures !Distinct(Unseen(calls, c))
  {
    UnseenAreCounting(calls, c);
    hide Unseen, Counting, ResetAt;
    var i, k, j :|
      && 0 <= i < k < j < |calls| && CountedAt(calls, i, c) && CountedAt(calls, j, c)
      && calls[i].id == calls[j].id && calls[k] == DeleteMessage(calls[i].id) && NotResetSince(calls, i, c);
    hide CountedAt;
    CountingIff(calls, c, i);
    assert NotResetSince(calls, j, c);
    CountingIff(calls, c, j);
    var a :| 0 <= a < |Counting(calls, c)| && Counting(calls, c)[a] == i;
    var b :| 0 <= b < |Counting(calls, c)| && Counting(calls, c)[b] == j;
    assert Unseen(calls, c)[a] == Unseen(calls, c)[b] && a != b;
  }

  function IdsOf(ids: seq<Uuid>): set<Uuid> { set x | x in ids }

  lemma {:induction false} CardinalityIff(ids: seq<Uuid>)
    ensures |IdsOf(ids)| <= |ids|
    ensures |IdsOf(ids)| == |ids| <==> Distinct(ids)
  {
    if ids != [] {
      var init, last := ids[..|ids| - 1], ids[|ids| - 1];
      CardinalityIff(init);
      assert ids == init + [last];
      assert IdsOf(ids) == IdsOf(init) + {last};
      if last in init {
        assert IdsOf(ids) == IdsOf(init);
        var a :| 0 <= a < |init| && init[a] == last;
        assert ids[a] == ids[|ids| - 1];
      } else {
        assert Distinct(ids) <==> Distinct(init) by { DistinctThen(init, last); }
      }
    }
  }

  lemma DistinctThen(init: seq<Uuid>, last: Uuid)
    requires last !in init
    ensures Distinct(init + [last]) <==> Distinct(init)
  {
    var ids := init + [last];
    assert forall a :: 0 <= a < |init| ==> ids[a] == init[a];
  }

  /** The unread count is the number of distinct unread messages if and only if none was deleted and counted again. */
  lemma UnreadCountsDistinctIff(calls: seq<Call>, c: Id)
    ensures Unread(Run(calls), c) == |IdsOf(Unseen(calls, c))| <==> !CountedTwice(calls, c)
  {
    hide *;
    UnreadCountsUnseen(calls, c);
    CardinalityIff(Unseen(calls, c));
    UnseenDistinctIff(calls, c);
  }

  /** Deleting a message lets its id count again: two unread, one message. */
  lemma DeletedMessageCountsAgain()
    ensures var calls := [ReceiveMessage("c", "hi", "m"), DeleteMessage("m"), ReceiveMessage("c", "hi", "m")];
            Unread(Run(calls), "c") == 2 && Run(calls).messages.Keys == {"m"}
  {
    var a, b := ReceiveMessage("c", "hi", "m"), DeleteMessage("m");
    var calls := [a, b, a];
    assert calls[..2] == [a, b] && [a, b][..1] == [a] && [a][..0] == [];
    assert Run([]) == INITIAL;
    var s1 := Step(INITIAL, a);
    assert Run([a]) == s1;
    var s2 := Step(s1, b);
    assert Run([a, b]) == s2;
    assert Run(calls) == Step(s2, a);
    assert s1.messages.Keys == {"m"} && s2.messages == map[];
  }

  // ---------------------------------------------------------------- delivery

  predicate Settled(state: MessageState) { state.Delivered? || state.Read? }

  /** A held outgoing message that is settled keeps its state, except that a read receipt may make it Read. */
  lemma SettledStep(s: State, call: Call, id: Uuid)
    requires id in s.messages && s.messages[id].outgoing && Settled(s.messages[id].state)
    requires !(call.SendMessage? && call.id == id) && id in Step(s, call).messages
    ensures var m, m' := s.messages[id], Step(s, call).messages[id];
            && m'.outgoing && Settled(m'.state)
            && (m.state.Read? ==> m'.state.Read?)
            && (m'.state != m.state ==> call == ApplyRead(id))
  {
    if call.PreparePendingSends? { PendingSettled(s, call.ids, id); }
  }

  lemma {:induction false} PendingSettled(s: State, ids: seq<Uuid>, id: Uuid)
    requires id in s.messages && Settled(s.messages[id].state)
    ensures id in PreparePending(s, ids).messages && PreparePending(s, ids).messages[id] == s.messages[id]
    decreases |ids|
  {
    if ids != [] && Sendable(s, ids[0]) { PendingSettled(PrepareSend(s, ids[0]), ids[1..], id); }
  }

  lemma {:induction false} MentionedIfHeld(calls: seq<Call>, id: Uuid)
    requires NeverMentioned(calls, id)
    ensures id !in Run(calls).messages
  {
    if calls != [] {
      var before, last := calls[..|calls| - 1], calls[|calls| - 1];
      assert forall k :: 0 <= k < |before| ==> before[k] == calls[k];
      MentionedIfHeld(before, id);
      NotConjured(Run(before), last, id);
    }
  }

  lemma NotConjured(s: State, call: Call, id: Uuid)
    requires id !in s.messages && !Mentions(call, id)
    ensures id !in Step(s, call).messages
  {
    if call.PreparePendingSends? { PendingConjures(s, call.ids, id); }
  }

  lemma {:induction false} PendingConjures(s: State, ids: seq<Uuid>, id: Uuid)
    requires id !in s.messages
    ensures id !in PreparePending(s, ids).messages
    decreases |ids|
  {
    if ids != [] && Sendable(s, ids[0]) { PendingConjures(PrepareSend(s, ids[0]), ids[1..], id); }
  }

  /**
   Once an outgoing message is Delivered it stays Delivered or Read for as long as it is held, whatever outcomes,
   retries, sends and receipts follow in whatever order; and once Read it stays Read.
   */
  lemma {:induction false} DeliveredStays(calls: seq<Call>, k: nat, id: Uuid)
    requires Fresh(calls) && k <= |calls|
    requires id in Run(calls[..k]).messages && Run(calls[..k]).messages[id].outgoing
    requires Settled(Run(calls[..k]).messages[id].state)
    ensures id in Run(calls).messages && Run(calls).messages[id].outgoing ==> Settled(Run(calls).messages[id].state)
    ensures id in Run(calls).messages && Run(calls[..k]).messages[id].state.Read? && Run(calls).messages[id].outgoing
            ==> Run(calls).messages[id].state.Read?
    decreases |calls|
  {
    if k == |calls| {
      assert calls[..k] == calls;
    } else {
      var before, last := calls[..|calls| - 1], calls[|calls| - 1];
      assert before[..k] == calls[..k];
      assert forall j :: 0 <= j < |before| ==> before[j] == calls[j] && before[..j] == calls[..j];
      DeliveredStays(before, k, id);
      RunStep(calls);
      assert !(last.SendMessage? && last.id == id) by {
        if last.SendMessage? && last.id == id { HeldWasMentioned(calls, k, id); }
      }
      var s := Run(before);
      hide Run, Fresh;
      if id in s.messages && s.messages[id].outgoing {
        if id in Step(s, last).messages { SettledStep(s, last, id); }
      } else {
        NotOutgoing(s, last, id);
      }
    }
  }

  /** An id that is held after a prefix was mentioned in it, so it is not drawn again for sending. */
  lemma HeldWasMentioned(calls: seq<Call>, k: nat, id: Uuid)
    requires k < |calls| && id in Run(calls[..k]).messages
    ensures !NeverMentioned(calls[..|calls| - 1], id)
  {
    var before := calls[..|calls| - 1];
    if NeverMentioned(before, id) {
      assert forall j :: 0 <= j < k ==> calls[..k][j] == before[j];
      MentionedIfHeld(calls[..k], id);
    }
  }

  lemma NotOutgoing(s: State, call: Call, id: Uuid)
    requires !(id in s.messages && s.messages[id].outgoing) && !(call.SendMessage? && call.id == id)
    ensures !(id in Step(s, call).messages && Step(s, call).messages[id].outgoing)
  {
    if call.PreparePendingSends? { PendingNotOutgoing(s, call.ids, id); }
  }

  lemma {:induction false} PendingNotOutgoing(s: State, ids: seq<Uuid>, id: Uuid)
    requires !(id in s.messages && s.messages[id].outgoing)
    ensures !(id in PreparePending(s, ids).messages && PreparePending(s, ids).messages[id].outgoing)
    decreases |ids|
  {
    if ids != [] && Sendable(s, ids[0]) { PendingNotOutgoing(PrepareSend(s, ids[0]), ids[1..], id); }
  }

  // ---------------------------------------------------------------- the event stream

  function LastState(events: seq<Event>, id: Uuid): Option<MessageState> {
    if events == [] then None
    else
      var e := events[|events| - 1];
      if e.StateChanged? && e.id == id then Some(e.state) else LastState(events[..|events| - 1], id)
  }

  function LastRead(events: seq<Event>, c: Id): nat {
    if events == [] then 0
    else
      var e := events[|events| - 1];
      if e.ReadChanged? && e.conversation == c then e.unread else LastRead(events[..|events| - 1], c)
  }

  /** What was last announced is what is stored. */
  ghost predicate Mirrored(s: State) {
    && (forall id :: id in s.messages ==> LastState(s.events, id) == Some(s.messages[id].state))
    && (forall c: Id :: LastRead(s.events, c) == Unread(s, c))
  }

  lemma PushShows(s: State, e: Event)
    ensures forall id: Uuid :: LastState(Push(s, e).events, id)
              == if e.StateChanged? && e.id == id then Some(e.state) else LastState(s.events, id)
    ensures forall c: Id :: LastRead(Push(s, e).events, c)
              == if e.ReadChanged? && e.conversation == c then e.unread else LastRead(s.events, c)
  {
    assert Push(s, e).events[..|s.events|] == s.events;
  }

  lemma SetStateMirrors(s: State, id: Uuid, next: MessageState)
    requires Mirrored(s) && id in s.messages
    ensures Mirrored(SetState(s, id, next))
  {
    hide LastState, LastRead;
    PushShows(s.(messages := s.messages[id := s.messages[id].(state := next)]), StateChanged(id, next));
  }

  lemma PrepareMirrors(s: State, id: Uuid)
    requires Mirrored(s)
    ensures Mirrored(PrepareSend(s, id))
  {
    hide Mirrored;
    if Sendable(s, id) { SetStateMirrors(s, id, OnSendPrepare(s.messages[id].state).value); }
  }

  lemma {:induction false} PendingMirrors(s: State, ids: seq<Uuid>)
    requires Mirrored(s)
    ensures Mirrored(PreparePending(s, ids))
    decreases |ids|
  {
    hide Mirrored, PrepareSend, Sendable;
    if ids != [] && Sendable(s, ids[0]) {
      PrepareMirrors(s, ids[0]);
      PendingMirrors(PrepareSend(s, ids[0]), ids[1..]);
    }
  }

  lemma QueueMirrors(s: State, c: Id, text: string, id: Uuid)
    requires Mirrored(s) && c in s.conversations
    ensures Mirrored(QueueOutgoing(s, c, text, id))
  {
    hide LastState, LastRead;
    var r := s.(messages := s.messages[id := Chat(c, true, text, Queued)],
                conversations := s.conversations[c := s.conversations[c].(canSend := true)]);
    PushShows(r, StateChanged(id, Queued));
    PushShows(Push(r, StateChanged(id, Queued)), Changed);
  }

  lemma ReceiveMirrors(s: State, c: Id, body: string, id: Uuid)
    requires Mirrored(s)
    ensures Mirrored(Receive(s, c, body, id))
  {
    hide LastState, LastRead;
    if Trim(body) != "" && id !in s.messages {
      var unread := UnreadAfterIncoming(Unread(s, c), IsAttended(s, c));
      var contact := if c in s.conversations then s.conversations[c].contact else c;
      var r := s.(messages := s.messages[id := Chat(c, false, Trim(body), Delivered)],
                  conversations := s.conversations[c := Conversation(contact, true, unread)]);
      PushShows(r, MessageReceived(id, c));
      var r1 := Push(r, MessageReceived(id, c));
      PushShows(r1, StateChanged(id, Delivered));
      var r2 := Push(r1, StateChanged(id, Delivered));
      PushShows(r2, ReadChanged(c, unread));
      PushShows(Push(r2, ReadChanged(c, unread)), Changed);
    }
  }

  lemma FocusMirrors(s: State, c: Id, focused: bool)
    requires Mirrored(s)
    ensures Mirrored(Focus(s, c, focused))
  {
    hide LastState, LastRead;
    var r := SetFocus(s, c, focused);
    if c in r.conversations {
      PushShows(r.(conversations := r.conversations[c := r.conversations[c].(unread := 0)]), ReadChanged(c, 0));
    }
  }

  lemma DeleteMirrors(s: State, id: Uuid)
    requires Mirrored(s)
    ensures Mirrored(Delete(s, id))
  {
    hide LastState, LastRead;
    PushShows(s.(messages := s.messages - {id}), Changed);
  }

  lemma StepMirrors(s: State, call: Call)
    requires Mirrored(s)
    ensures Mirrored(Step(s, call))
  {
    match call {
      case SetConversationFocus(c, focus) => FocusMirrors(s, c, focus);
      case SendMessage(c, text, reply, id) =>
        if CanQueue(s, c, text, reply) {
          QueueMirrors(s, c, Trim(text), id);
          PrepareMirrors(QueueOutgoing(s, c, Trim(text), id), id);
        }
        hide Mirrored;
      case RetryMessage(id) =>
        if CanRetry(s, id) {
          SetStateMirrors(s, id, Queued);
          PrepareMirrors(SetState(s, id, Queued), id);
        }
        hide Mirrored;
      case PreparePendingSends(ids) => PendingMirrors(s, ids); hide Mirrored;
      case DeleteMessage(id) => DeleteMirrors(s, id);
      case ApplyRead(id) => if id in s.messages { SetStateMirrors(s, id, Read); } hide Mirrored;
      case ApplyOutcome(id, outcome) => OutcomeMirrors(s, id, outcome);
      case ReceiveMessage(c, body, id) => ReceiveMirrors(s, c, body, id);
      case OpenConversation(_) =>
      case CloseConversation =>
      case SetForeground(_) =>
      case Administer(_, _, _) => hide LastState, LastRead;
    }
  }

  lemma OutcomeMirrors(s: State, id: Uuid, outcome: TransportOutcome)
    requires Mirrored(s)
    ensures Mirrored(Outcome(s, id, outcome))
  {
    hide Mirrored;
    if id in s.messages && AfterOutcome(s.messages[id].state, outcome).Some? {
      SetStateMirrors(s, id, AfterOutcome(s.messages[id].state, outcome).value);
    }
  }

  /** After every run the last announced state of each held message, and the last announced unread count, are true. */
  lemma {:induction false} EventsMirrorStorage(calls: seq<Call>)
    ensures Mirrored(Run(calls))
  {
    if calls != [] {
      EventsMirrorStorage(calls[..|calls| - 1]);
      StepMirrors(Run(calls[..|calls| - 1]), calls[|calls| - 1]);
    }
    hide Step;
  }
}
