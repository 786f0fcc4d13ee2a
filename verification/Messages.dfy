/** Message lifecycle and unread counting in the client runtime, one public call at a time. */
module Messages {
  import opened Foundation

  type Id = string

  datatype MessageState = Queued | Sending | Sent | Delivered | Read | Failed

  datatype TransportOutcome =
    | OutcomeDelivered | PeerPersisted | PeerDelivered | PeerUnavailable
    | PeerAuthenticationFailed | PeerRejected | RetryableFailure | PermanentFailure

  // ---------------------------------------------------------------- the two transition rules

  function OnSendPrepare(current: MessageState): Option<MessageState> {
    match current
    case Queued => Some(Sending)
    case Sending => Some(Sending)
    case Sent => None
    case Delivered => None
    case Read => None
    case Failed => None
  }

  function AfterOutcome(current: MessageState, outcome: TransportOutcome): Option<MessageState> {
    match outcome
    case PeerPersisted =>
      (match current
       case Sending => Some(Sent)
       case Sent => Some(Sent)
       case Delivered => Some(Delivered)
       case Read => Some(Read)
       case Queued => None
       case Failed => None)
    case OutcomeDelivered => AfterDelivered(current)
    case PeerDelivered => AfterDelivered(current)
    case PeerUnavailable => AfterRetryable(current)
    case RetryableFailure => AfterRetryable(current)
    case PermanentFailure => AfterPermanent(current)
    case PeerAuthenticationFailed => AfterPermanent(current)
    case PeerRejected => AfterPermanent(current)
  }

  function AfterDelivered(current: MessageState): Option<MessageState> {
    match current
    case Sending => Some(Delivered)
    case Sent => Some(Delivered)
    case Delivered => Some(Delivered)
    case Read => Some(Read)
    case Queued => None
    case Failed => None
  }

  function AfterRetryable(current: MessageState): Option<MessageState> {
    if current.Queued? || current.Sending? || current.Sent? then Some(Queued) else None
  }

  function AfterPermanent(current: MessageState): Option<MessageState> {
    if current.Delivered? || current.Read? then None else Some(Failed)
  }

  // ---------------------------------------------------------------- text

  /** White space as `str::trim` knows it: the characters with the Unicode White_Space property. */
  predicate IsWhitespace(c: char) {
    var u := c as int;
    || 0x09 <= u <= 0x0D || u == 0x20 || u == 0x85 || u == 0xA0 || u == 0x1680 || 0x2000 <= u <= 0x200A
    || u == 0x2028 || u == 0x2029 || u == 0x202F || u == 0x205F || u == 0x3000
  }

  function TrimStart(s: string): string {
    if s != "" && IsWhitespace(s[0]) then TrimStart(s[1..]) else s
  }

  function TrimEnd(s: string): string {
    if s != "" && IsWhitespace(s[|s| - 1]) then TrimEnd(s[..|s| - 1]) else s
  }

  function Trim(s: string): string { TrimEnd(TrimStart(s)) }

  predicate Blank(s: string) { forall i :: 0 <= i < |s| ==> IsWhitespace(s[i]) }

  predicate Tight(s: string) { s != "" ==> !IsWhitespace(s[0]) && !IsWhitespace(s[|s| - 1]) }

  lemma {:induction false} TrimStartParts(s: string) returns (before: string)
    ensures s == before + TrimStart(s) && Blank(before)
    ensures TrimStart(s) != "" ==> !IsWhitespace(TrimStart(s)[0])
  {
    before := "";
    if s != "" && IsWhitespace(s[0]) {
      var b := TrimStartParts(s[1..]);
      before := [s[0]] + b;
      assert s == [s[0]] + s[1..];
    }
  }

  lemma {:induction false} TrimEndParts(s: string) returns (after: string)
    ensures s == TrimEnd(s) + after && Blank(after)
    ensures TrimEnd(s) != "" ==> !IsWhitespace(TrimEnd(s)[|TrimEnd(s)| - 1]) && TrimEnd(s)[0] == s[0]
  {
    after := "";
    if s != "" && IsWhitespace(s[|s| - 1]) {
      var a := TrimEndParts(s[..|s| - 1]);
      after := a + [s[|s| - 1]];
      assert s == s[..|s| - 1] + [s[|s| - 1]];
    }
  }

  /** Trimming takes white space off both ends and nothing else. */
  lemma TrimParts(s: string) returns (before: string, after: string)
    ensures s == before + Trim(s) + after && Blank(before) && Blank(after) && Tight(Trim(s))
  {
    before := TrimStartParts(s);
    after := TrimEndParts(TrimStart(s));
  }

  // ---------------------------------------------------------------- state

  datatype Chat = Chat(conversation: Id, outgoing: bool, body: string, state: MessageState)

  /** `canSend` is whether the conversation is active or offline. */
  datatype Conversation = Conversation(contact: Id, canSend: bool, unread: nat)

  datatype Contact = Contact(verified: bool, blocked: bool)

  datatype Event =
    | StateChanged(id: Uuid, state: MessageState)
    | MessageReceived(id: Uuid, conversation: Id)
    | ReadChanged(conversation: Id, unread: nat)
    | Changed

  datatype State = State(
    messages: map<Uuid, Chat>, conversations: map<Id, Conversation>, contacts: map<Id, Contact>,
    selected: Option<Id>, focused: Option<Id>, foreground: bool,
    events: seq<Event>)

  const INITIAL := State(map[], map[], map[], None, None, true, [])

  function Push(s: State, e: Event): State { s.(events := s.events + [e]) }

  function SetState(s: State, id: Uuid, next: MessageState): State
    requires id in s.messages
  {
    Push(s.(messages := s.messages[id := s.messages[id].(state := next)]), StateChanged(id, next))
  }

  // ---------------------------------------------------------------- attention

  predicate Attends(foreground: bool, selected: Option<Id>, focused: Option<Id>, c: Id) {
    foreground && selected == Some(c) && focused == Some(c)
  }

  predicate IsAttended(s: State, c: Id) { Attends(s.foreground, s.selected, s.focused, c) }

  function SetFocus(s: State, c: Id, focused: bool): State {
    if focused then s.(selected := Some(c), focused := Some(c))
    else if s.focused == Some(c) then s.(focused := None)
    else s
  }

  function Unread(s: State, c: Id): nat { if c in s.conversations then s.conversations[c].unread else 0 }

  function Focus(s: State, c: Id, focused: bool): State {
    var r := SetFocus(s, c, focused);
    if !focused || !IsAttended(r, c) || Unread(r, c) == 0 then r
    else Push(r.(conversations := r.conversations[c := r.conversations[c].(unread := 0)]), ReadChanged(c, 0))
  }

  // ---------------------------------------------------------------- sending

  /** The contact may be written to. */
  predicate Reachable(s: State, contact: Id) {
    contact in s.contacts && s.contacts[contact].verified && !s.contacts[contact].blocked
  }

  predicate Sendable(s: State, id: Uuid) {
    && id in s.messages && s.messages[id].outgoing
    && s.messages[id].conversation in s.conversations
    && var c := s.conversations[s.messages[id].conversation];
       c.canSend && Reachable(s, c.contact) && OnSendPrepare(s.messages[id].state).Some?
  }

  function PrepareSend(s: State, id: Uuid): State {
    if !Sendable(s, id) then s
    else
      var next := OnSendPrepare(s.messages[id].state).value;
      if next == s.messages[id].state then s else SetState(s, id, next)
  }

  predicate CanQueue(s: State, c: Id, text: string, reply: Option<Uuid>) {
    && (reply.Some? ==> reply.value in s.messages && s.messages[reply.value].conversation == c)
    && Trim(text) != "" && c in s.conversations && s.conversations[c].canSend
    && Reachable(s, s.conversations[c].contact)
  }

  function QueueOutgoing(s: State, c: Id, text: string, id: Uuid): State
    requires c in s.conversations
  {
    Push(Push(s.(messages := s.messages[id := Chat(c, true, text, Queued)],
                 conversations := s.conversations[c := s.conversations[c].(canSend := true)]),
              StateChanged(id, Queued)), Changed)
  }

  function Send(s: State, c: Id, text: string, reply: Option<Uuid>, id: Uuid): State {
    if CanQueue(s, c, text, reply) then PrepareSend(QueueOutgoing(s, c, Trim(text), id), id) else s
  }

  predicate CanRetry(s: State, id: Uuid) {
    && id in s.messages && s.messages[id].outgoing && (s.messages[id].state.Failed? || s.messages[id].state.Queued?)
    && s.messages[id].conversation in s.conversations
    && var contact := s.conversations[s.messages[id].conversation].contact;
       contact in s.contacts && !s.contacts[contact].blocked
  }

  function Retry(s: State, id: Uuid): State {
    if CanRetry(s, id) then PrepareSend(SetState(s, id, Queued), id) else s
  }

  /** Prepares listed messages until one of them is refused. */
  function PreparePending(s: State, ids: seq<Uuid>): State
    decreases |ids|
  {
    if ids == [] || !Sendable(s, ids[0]) then s else PreparePending(PrepareSend(s, ids[0]), ids[1..])
  }

  // ---------------------------------------------------------------- the rest

  function Delete(s: State, id: Uuid): State {
    if id in s.messages then Push(s.(messages := s.messages - {id}), Changed) else s
  }

  function ReadReceipt(s: State, id: Uuid): State {
    if id in s.messages && s.messages[id].outgoing && (s.messages[id].state.Sent? || s.messages[id].state.Delivered?)
    then SetState(s, id, Read)
    else s
  }

  function Outcome(s: State, id: Uuid, outcome: TransportOutcome): State {
    if id !in s.messages || !s.messages[id].outgoing then s
    else
      match AfterOutcome(s.messages[id].state, outcome)
      case None => s
      case Some(next) => if next == s.messages[id].state then s else SetState(s, id, next)
  }

  function UnreadAfterIncoming(current: nat, attended: bool): nat { if attended then 0 else current + 1 }

  function Receive(s: State, c: Id, body: string, id: Uuid): State {
    if Trim(body) == "" || id in s.messages then s
    else
      var unread := UnreadAfterIncoming(Unread(s, c), IsAttended(s, c));
      var contact := if c in s.conversations then s.conversations[c].contact else c;
      var r := s.(messages := s.messages[id := Chat(c, false, Trim(body), Delivered)],
                  conversations := s.conversations[c := Conversation(contact, true, unread)]);
      Push(Push(Push(Push(r, MessageReceived(id, c)), StateChanged(id, Delivered)), ReadChanged(c, unread)), Changed)
  }

  // ---------------------------------------------------------------- calls

  datatype Call =
    | OpenConversation(conversation: Id)
    | CloseConversation
    | SetForeground(foreground: bool)
    | SetConversationFocus(conversation: Id, focus: bool)
    | SendMessage(conversation: Id, text: string, reply: Option<Uuid>, id: Uuid)
    | RetryMessage(id: Uuid)
    | PreparePendingSends(ids: seq<Uuid>)
    | DeleteMessage(id: Uuid)
    | ApplyRead(id: Uuid)
    | ApplyOutcome(id: Uuid, outcome: TransportOutcome)
    | ReceiveMessage(conversation: Id, body: string, id: Uuid)
    /** Contact management elsewhere: any change to contacts, new conversations, and send permission. */
    | Administer(contacts: map<Id, Contact>, added: map<Id, Conversation>, permission: map<Id, bool>)

  function Permit(conversations: map<Id, Conversation>, permission: map<Id, bool>): map<Id, Conversation> {
    map c | c in conversations ::
      conversations[c].(canSend := if c in permission then permission[c] else conversations[c].canSend)
  }

  /** Conversations that do not exist yet start with nothing unread. */
  function Introduce(conversations: map<Id, Conversation>, added: map<Id, Conversation>): map<Id, Conversation> {
    (map c | c in added :: added[c].(unread := 0)) + conversations
  }

  function Step(s: State, call: Call): State {
    match call
    case OpenConversation(c) => s.(selected := Some(c), focused := None)
    case CloseConversation => s.(selected := None, focused := None)
    case SetForeground(f) => s.(foreground := f, focused := if f then s.focused else None)
    case SetConversationFocus(c, focus) => Focus(s, c, focus)
    case SendMessage(c, text, reply, id) => Send(s, c, text, reply, id)
    case RetryMessage(id) => Retry(s, id)
    case PreparePendingSends(ids) => PreparePending(s, ids)
    case DeleteMessage(id) => Delete(s, id)
    case ApplyRead(id) => ReadReceipt(s, id)
    case ApplyOutcome(id, outcome) => Outcome(s, id, outcome)
    case ReceiveMessage(c, body, id) => Receive(s, c, body, id)
    case Administer(contacts, added, permission) =>
      s.(contacts := contacts, conversations := Permit(Introduce(s.conversations, added), permission))
  }

  /** The state after a run of calls, the last call last. */
  function Run(calls: seq<Call>): State {
    if calls == [] then INITIAL else Step(Run(calls[..|calls| - 1]), calls[|calls| - 1])
  }

  /** A message id drawn for sending has never been in use. */
  predicate Fresh(calls: seq<Call>) {
    forall j :: 0 <= j < |calls| && calls[j].SendMessage? ==> NeverMentioned(calls[..j], calls[j].id)
  }

  predicate Mentions(call: Call, id: Uuid) {
    (call.SendMessage? && call.id == id) || (call.ReceiveMessage? && call.id == id)
  }

  predicate NeverMentioned(calls: seq<Call>, id: Uuid) {
    forall k :: 0 <= k < |calls| ==> !Mentions(calls[k], id)
  }
}
