/** End to end: what the sender reports about a delivery, a receiver has done before. */
module PeerTruth {
  import opened Foundation
  import opened PeerTypes
  import opened Delivery
  import opened DeliveryLedger
  import opened DeliveryRuns
  import opened PeerWire
  import opened PeerLink
  import opened DeliveryReports

  /** The envelope that the receiver of session k reads next, or was handed as its i-th, carries this delivery. */
  predicate Next(reg: Registry, w: World, k: nat, t: DeliveryTag)
    requires k < |w.sessions|
  {
    var n := w.sessions[k].peer.read;
    n < |w.sender.wire| && w.sender.wire[n].MessageFrame? && reg(w.sender.wire[n].envelope.messageId).tag == t
  }

  predicate Handed(reg: Registry, w: World, k: nat, i: nat, t: DeliveryTag)
    requires k < |w.sessions|
  {
    i < |w.sessions[k].peer.handed| && reg(w.sessions[k].peer.handed[i].messageId).tag == t
  }

  /** The move is the receiver of session k doing what an acknowledgement of this kind claims. */
  predicate Does(reg: Registry, w: World, m: Move, k: nat, t: DeliveryTag, kind: AckKind) {
    && k < |w.sessions|
    && match kind
       case Received => m == PeerReads(k) && Next(reg, w, k, t)
       case Persisted => m.PeerPersists? && m.session == k && Handed(reg, w, k, m.index, t)
       case _ => m.PeerConcludes? && m.session == k && m.kind == kind && Handed(reg, w, k, m.index, t)
  }

  /** By world n the receiver of session k had done it. */
  ghost predicate Did(
      reg: Registry, worlds: seq<World>, moves: seq<Move>, n: nat, k: nat, t: DeliveryTag, kind: AckKind)
    requires n <= |moves| && |worlds| == |moves| + 1
  {
    exists j :: 0 <= j < n && Does(reg, worlds[j], moves[j], k, t, kind)
  }

  ghost predicate SomeoneDid(
      reg: Registry, worlds: seq<World>, moves: seq<Move>, n: nat, t: DeliveryTag, kind: AckKind)
    requires n <= |moves| && |worlds| == |moves| + 1
  {
    exists k: nat :: Did(reg, worlds, moves, n, k, t, kind)
  }

  ghost predicate OutboxTrue(reg: Registry, worlds: seq<World>, moves: seq<Move>, n: nat, k: nat)
    requires n <= |moves| && |worlds| == |moves| + 1 && k < |worlds[n].sessions|
  {
    var outbox := worlds[n].sessions[k].peer.outbox;
    forall x :: 0 <= x < |outbox| && outbox[x].AckFrame? ==>
      Did(reg, worlds, moves, n, k, reg(outbox[x].ack.messageId).tag, outbox[x].ack.kind)
  }

  ghost predicate LogTrue(reg: Registry, worlds: seq<World>, moves: seq<Move>, n: nat)
    requires n <= |moves| && |worlds| == |moves| + 1
  {
    var log := worlds[n].sender.log;
    forall p :: 0 <= p < |log| && log[p].Acked? && Enveloped(log[p].tag) ==>
      SomeoneDid(reg, worlds, moves, n, log[p].tag, log[p].kind)
  }

  ghost predicate Truthful(reg: Registry, worlds: seq<World>, moves: seq<Move>, n: nat)
    requires n <= |moves| && |worlds| == |moves| + 1
  {
    && LogTrue(reg, worlds, moves, n)
    && (forall k :: 0 <= k < |worlds[n].sessions| ==> OutboxTrue(reg, worlds, moves, n, k))
    && (worlds[n].sender.phase == Connected ==>
          worlds[n].sessions != [] && Backed(worlds[n].sender, Current(worlds[n]).base))
  }

  lemma DidLater(
      reg: Registry, worlds: seq<World>, moves: seq<Move>, n: nat, k: nat, t: DeliveryTag, kind: AckKind)
    requires n < |moves| && |worlds| == |moves| + 1 && Did(reg, worlds, moves, n, k, t, kind)
    ensures Did(reg, worlds, moves, n + 1, k, t, kind)
  {
    hide Does;
  }

  lemma LogStaysTrue(reg: Registry, worlds: seq<World>, moves: seq<Move>, n: nat)
    requires n < |moves| && |worlds| == |moves| + 1 && LogTrue(reg, worlds, moves, n)
    requires worlds[n].sender.log <= worlds[n + 1].sender.log
    requires var log, log' := worlds[n].sender.log, worlds[n + 1].sender.log;
             forall p :: |log| <= p < |log'| && log'[p].Acked? && Enveloped(log'[p].tag) ==>
               SomeoneDid(reg, worlds, moves, n + 1, log'[p].tag, log'[p].kind)
    ensures LogTrue(reg, worlds, moves, n + 1)
  {
    hide Did;
    var log, log' := worlds[n].sender.log, worlds[n + 1].sender.log;
    forall p | 0 <= p < |log'| && log'[p].Acked? && Enveloped(log'[p].tag)
      ensures SomeoneDid(reg, worlds, moves, n + 1, log'[p].tag, log'[p].kind)
    {
      if p < |log| {
        assert log'[p] == log[p];
        var k: nat :| Did(reg, worlds, moves, n, k, log[p].tag, log[p].kind);
        DidLater(reg, worlds, moves, n, k, log[p].tag, log[p].kind);
      }
    }
  }

  lemma OutboxStaysTrue(reg: Registry, worlds: seq<World>, moves: seq<Move>, n: nat, k: nat)
    requires n < |moves| && |worlds| == |moves| + 1 && k < |worlds[n].sessions| && k < |worlds[n + 1].sessions|
    requires OutboxTrue(reg, worlds, moves, n, k)
    requires var outbox := worlds[n].sessions[k].peer.outbox;
             var outbox' := worlds[n + 1].sessions[k].peer.outbox;
             forall x :: 0 <= x < |outbox'| && outbox'[x].AckFrame? ==>
               || outbox'[x] in outbox
               || Did(reg, worlds, moves, n + 1, k, reg(outbox'[x].ack.messageId).tag, outbox'[x].ack.kind)
    ensures OutboxTrue(reg, worlds, moves, n + 1, k)
  {
    hide Did;
    var outbox, outbox' := worlds[n].sessions[k].peer.outbox, worlds[n + 1].sessions[k].peer.outbox;
    forall x | 0 <= x < |outbox'| && outbox'[x].AckFrame?
      ensures Did(reg, worlds, moves, n + 1, k, reg(outbox'[x].ack.messageId).tag, outbox'[x].ack.kind)
    {
      if outbox'[x] in outbox {
        var y :| 0 <= y < |outbox| && outbox[y] == outbox'[x];
        DidLater(reg, worlds, moves, n, k, reg(outbox[y].ack.messageId).tag, outbox[y].ack.kind);
      }
    }
  }

  // ---------------------------------------------------------------- the sender's moves

  lemma TurnTruthful(reg: Registry, worlds: seq<World>, moves: seq<Move>, n: nat)
    requires n < |moves| && |worlds| == |moves| + 1 && moves[n].SenderTurn?
    requires Link(reg, worlds[n]) && Truthful(reg, worlds, moves, n)
    requires Moves(worlds[n], moves[n], worlds[n + 1]) && MoveRegistered(reg, moves[n])
    ensures Truthful(reg, worlds, moves, n + 1)
  {
    var w, w', r, n' := worlds[n], worlds[n + 1], moves[n].round, n + 1;
    RoundReports(reg, w.sender, r, Current(w).base);
    hide Link, Moves, MoveRegistered, ConnectedRound, Backed, Did, LogTrue, OutboxTrue;
    assert Moves(w, moves[n], w');
    TurnLog(reg, worlds, moves, n);
    LogStaysTrue(reg, worlds, moves, n);
    forall k | 0 <= k < |w'.sessions| ensures OutboxTrue(reg, worlds, moves, n', k) {
      TurnOutbox(w, r, w', k);
      OutboxStaysTrue(reg, worlds, moves, n, k);
    }
    TurnBase(w, r, w');
  }

  lemma TurnOutbox(w: World, r: Round, w': World, k: nat)
    requires Moves(w, SenderTurn(r), w') && k < |w'.sessions|
    ensures k < |w.sessions|
    ensures forall f :: f in w'.sessions[k].peer.outbox ==> f in w.sessions[k].peer.outbox
  {
    hide ConnectedRound;
  }

  lemma TurnBase(w: World, r: Round, w': World)
    requires Moves(w, SenderTurn(r), w')
    ensures w'.sender == ConnectedRound(w.sender, r) && |w'.sessions| == |w.sessions| > 0
    ensures Current(w').base == Current(w).base
  {
    hide ConnectedRound;
  }

  /** What a turn reports about an envelope, the receiver of the current session has done. */
  lemma TurnLog(reg: Registry, worlds: seq<World>, moves: seq<Move>, n: nat)
    requires n < |moves| && |worlds| == |moves| + 1 && moves[n].SenderTurn? && worlds[n].sessions != []
    requires Moves(worlds[n], moves[n], worlds[n + 1]) && OutboxTrue(reg, worlds, moves, n, |worlds[n].sessions| - 1)
    requires Reports(reg, worlds[n].sender, worlds[n + 1].sender, Current(worlds[n]).base, moves[n].round.selected)
    ensures var log, log' := worlds[n].sender.log, worlds[n + 1].sender.log;
            forall p :: |log| <= p < |log'| && log'[p].Acked? && Enveloped(log'[p].tag) ==>
              SomeoneDid(reg, worlds, moves, n + 1, log'[p].tag, log'[p].kind)
  {
    hide Did, ConnectedRound;
    var w, log, log' := worlds[n], worlds[n].sender.log, worlds[n + 1].sender.log;
    var last, selected := |w.sessions| - 1, moves[n].round.selected;
    forall p | |log| <= p < |log'| && log'[p].Acked? && Enveloped(log'[p].tag)
      ensures SomeoneDid(reg, worlds, moves, n + 1, log'[p].tag, log'[p].kind)
    {
      assert Told(reg, w.sender.sessionId, worlds[n + 1].sender.wire, Current(w).base, selected.frame, log'[p]);
      assert selected.frame == w.sessions[last].peer.outbox[0] && selected.frame.AckFrame?;
      assert Did(reg, worlds, moves, n, last, log'[p].tag, log'[p].kind);
      DidLater(reg, worlds, moves, n, last, log'[p].tag, log'[p].kind);
    }
  }

  lemma StepTruthful(reg: Registry, worlds: seq<World>, moves: seq<Move>, n: nat)
    requires n < |moves| && |worlds| == |moves| + 1 && moves[n].SenderStep?
    requires Truthful(reg, worlds, moves, n) && Moves(worlds[n], moves[n], worlds[n + 1])
    ensures Truthful(reg, worlds, moves, n + 1)
  {
    hide Step, Backed, Did, LogTrue, OutboxTrue;
    var w, w', i, n' := worlds[n], worlds[n + 1], moves[n].input, n + 1;
    IdleReports(w.sender, i);
    LogStaysTrue(reg, worlds, moves, n);
    forall k | 0 <= k < |w'.sessions| ensures OutboxTrue(reg, worlds, moves, n', k) {
      if k < |w.sessions| {
        OutboxStaysTrue(reg, worlds, moves, n, k);
      } else {
        NothingToAnswer(reg, worlds, moves, n', k);
      }
    }
  }

  lemma NothingToAnswer(reg: Registry, worlds: seq<World>, moves: seq<Move>, n: nat, k: nat)
    requires n <= |moves| && |worlds| == |moves| + 1 && k < |worlds[n].sessions|
    requires worlds[n].sessions[k].peer.outbox == []
    ensures OutboxTrue(reg, worlds, moves, n, k)
  {
  }

  // ---------------------------------------------------------------- the receivers' moves

  /** The acknowledgement a receiver adds claims what it is just doing. */
  lemma PeerAddsTruth(reg: Registry, w: World, m: Move, k: nat, w': World, f: Frame)
    requires MovesAt(w, m, k, w') && (m.PeerReads? || m.PeerPersists? || m.PeerConcludes? || m.PeerGivesUp?)
    requires k == m.session && f.AckFrame?
    requires f in w'.sessions[k].peer.outbox && f !in w.sessions[k].peer.outbox
    ensures Does(reg, w, m, k, reg(f.ack.messageId).tag, f.ack.kind)
  {
  }

  lemma PeerTruthful(reg: Registry, worlds: seq<World>, moves: seq<Move>, n: nat, k: nat)
    requires n < |moves| && |worlds| == |moves| + 1 && !moves[n].SenderTurn? && !moves[n].SenderStep?
    requires k == moves[n].session && MovesAt(worlds[n], moves[n], k, worlds[n + 1])
    requires Truthful(reg, worlds, moves, n)
    ensures Truthful(reg, worlds, moves, n + 1)
  {
    hide Does, Backed, LogTrue, PeerMoves;
    var w, w', n' := worlds[n], worlds[n + 1], n + 1;
    LogStaysTrue(reg, worlds, moves, n);
    forall l | 0 <= l < |w'.sessions| ensures OutboxTrue(reg, worlds, moves, n', l) {
      var outbox, outbox' := w.sessions[l].peer.outbox, w'.sessions[l].peer.outbox;
      forall x | 0 <= x < |outbox'| && outbox'[x].AckFrame? && outbox'[x] !in outbox
        ensures Did(reg, worlds, moves, n', l, reg(outbox'[x].ack.messageId).tag, outbox'[x].ack.kind)
      {
        PeerAddsTruth(reg, w, moves[n], l, w', outbox'[x]);
      }
      OutboxStaysTrue(reg, worlds, moves, n, l);
    }
  }

  // ---------------------------------------------------------------- every run

  lemma MoveTruthful(reg: Registry, worlds: seq<World>, moves: seq<Move>, n: nat)
    requires n < |moves| && |worlds| == |moves| + 1 && Link(reg, worlds[n]) && Truthful(reg, worlds, moves, n)
    requires Moves(worlds[n], moves[n], worlds[n + 1]) && MoveRegistered(reg, moves[n])
    ensures Truthful(reg, worlds, moves, n + 1)
  {
    hide Link, MovesAt, Truthful;
    match moves[n] {
      case SenderTurn(_) => TurnTruthful(reg, worlds, moves, n);
      case SenderStep(_) => StepTruthful(reg, worlds, moves, n);
      case PeerReads(k) => PeerTruthful(reg, worlds, moves, n, k);
      case PeerPersists(k, _) => PeerTruthful(reg, worlds, moves, n, k);
      case PeerConcludes(k, _, _) => PeerTruthful(reg, worlds, moves, n, k);
      case PeerGivesUp(k, _) => PeerTruthful(reg, worlds, moves, n, k);
    }
  }

  lemma {:induction false} AlwaysTruthful(reg: Registry, worlds: seq<World>, moves: seq<Move>, n: nat)
    requires LinkRun(reg, worlds, moves) && n < |worlds|
    ensures Truthful(reg, worlds, moves, n)
    decreases n
  {
    hide Link, Moves, MoveRegistered;
    if n > 0 {
      AlwaysTruthful(reg, worlds, moves, n - 1);
      LinkAlways(reg, worlds, moves, n - 1);
      hide Truthful;
      MoveTruthful(reg, worlds, moves, n - 1);
    }
  }

  /**
   In every world of every run, whatever the sender has reported about a delivery sent as an envelope, a receiver did
   before: it read the envelope, its application persisted it, delivered it or rejected it, as the report says.
   */
  lemma ReportsAreTrue(reg: Registry, worlds: seq<World>, moves: seq<Move>, n: nat, p: nat)
    requires LinkRun(reg, worlds, moves) && n < |worlds| && p < |worlds[n].sender.log|
    requires worlds[n].sender.log[p].Acked? && Enveloped(worlds[n].sender.log[p].tag)
    ensures SomeoneDid(reg, worlds, moves, n, worlds[n].sender.log[p].tag, worlds[n].sender.log[p].kind)
  {
    hide Moves, MoveRegistered;
    AlwaysTruthful(reg, worlds, moves, n);
  }

  /** What a receiver's application is handed carries a sequence, a ciphertext and the session's id. */
  predicate HandedValid(w: World) {
    forall k, i :: 0 <= k < |w.sessions| && 0 <= i < |w.sessions[k].peer.handed| ==>
      var e := w.sessions[k].peer.handed[i];
      e.sequence > 0 && e.ciphertext != [] && e.sessionId == w.sessions[k].id
  }

  lemma MoveKeepsValid(w: World, m: Move, w': World)
    requires HandedValid(w) && Moves(w, m, w')
    ensures HandedValid(w')
  {
    hide ConnectedRound, Step;
  }

  /** In every run, only well-formed envelopes of its own session reach a receiver's application. */
  lemma {:induction false} OnlyValidIsHanded(reg: Registry, worlds: seq<World>, moves: seq<Move>, n: nat)
    requires LinkRun(reg, worlds, moves) && n < |worlds|
    ensures HandedValid(worlds[n])
    decreases n
  {
    hide Moves, MoveRegistered, HandedValid;
    if n > 0 {
      OnlyValidIsHanded(reg, worlds, moves, n - 1);
      MoveKeepsValid(worlds[n - 1], moves[n - 1], worlds[n]);
    } else {
      NobodyHanded();
    }
  }

  lemma NobodyHanded()
    ensures HandedValid(START)
  {
  }
}
