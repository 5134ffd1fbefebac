// What an ok reply to a client is worth.
//
// A node keeps the replies it owes by log index alone, and neither stepping down nor
// truncating its log clears them. So the entry applied at that index need not be the entry
// the request was given. `Debts` remembers, outside the system, what each one was given.
module Promises {
  import opened Types
  import opened Kv
  import opened Log
  import opened Messages
  import opened Wal
  import opened NodeSpec
  import opened Cluster
  import opened History
  import opened Invariant
  import opened Handlers
  import opened Safety
  import opened Theorems
  import opened Payments

  /** A request accepted by the leader of `term`. */
  datatype Debt = Debt(term: Term, client: NodeId, requestId: nat, command: Command)

  type Book = map<(NodeId, Index), Debt>

  predicate Accepts(c: Config, s: System, ev: Event)
    requires WellFormed(c, s)
  {
    ev.Deliver? && ev.packet.msg.ClientRequest? && CanReceive(c, s, ev.packet) && s.nodes[ev.packet.dst].role.Leader?
  }

  function Booked(c: Config, book: Book, s: System, ev: Event): Book
    requires WellFormed(c, s)
  {
    if Accepts(c, s, ev) then
      var n := s.nodes[ev.packet.dst];
      book[(ev.packet.dst, |n.log| + 1) :=
             Debt(n.currentTerm, ev.packet.src, ev.packet.msg.requestId, ev.packet.msg.command)]
    else
      book
  }

  /** Who was last given each index of each node's log, over a whole run. */
  function Debts(c: Config, events: seq<Event>): Book {
    if events == [] then map[]
    else Booked(c, Debts(c, events[..|events| - 1]), Run(c, events[..|events| - 1]), events[|events| - 1])
  }

  /** The entry a request was given. */
  function EntryOf(debt: Debt, index: Index): LogEntry {
    LogEntry(debt.term, index, debt.command)
  }

  // -- a pending reply remembers a request whose leader did write its entry

  ghost predicate DebtOk(h: History, book: Book, id: NodeId, index: Index, owed: (NodeId, nat)) {
    && (id, index) in book
    && var debt := book[(id, index)];
       && owed == (debt.client, debt.requestId)
       && debt.term in h.ledger
       && 1 <= index <= |h.ledger[debt.term]|
       && h.ledger[debt.term][index - 1] == EntryOf(debt, index)
  }

  ghost predicate PendingOk(h: History, book: Book, id: NodeId, pending: Pending) {
    forall index {:trigger index in pending} :: index in pending ==> DebtOk(h, book, id, index, pending[index])
  }

  ghost predicate BookOk(c: Config, s: System, h: History, book: Book)
    requires WellFormed(c, s)
  {
    forall id {:trigger s.nodes[id]} :: id in Members(c) ==> PendingOk(h, book, id, s.nodes[id].pendingClients)
  }

  /** `some` owes nothing that `all` does not. */
  predicate Within(some: Pending, all: Pending) {
    forall index :: index in some ==> index in all && some[index] == all[index]
  }

  lemma UnpaidWithin(pending: Pending, from: Index, upTo: Index)
    ensures Within(Unpaid(pending, from, upTo), pending)
  {
    forall index | index in Unpaid(pending, from, upTo)
      ensures index in pending && Unpaid(pending, from, upTo)[index] == pending[index]
    {
      OthersAreOwed(pending, from, upTo, index);
    }
  }

  // -- the book is right in every run

  lemma PendingShrinks(h: History, h': History, book: Book, book': Book, id: NodeId,
                       pending: Pending, pending': Pending)
    requires PendingOk(h, book, id, pending) && Within(pending', pending) && Grows(h, h')
    requires forall index :: index in pending' && (id, index) in book ==>
      (id, index) in book' && book'[(id, index)] == book[(id, index)]
    ensures PendingOk(h', book', id, pending')
  {
    forall index | index in pending' ensures DebtOk(h', book', id, index, pending'[index]) {
      assert DebtOk(h, book, id, index, pending[index]);
    }
  }

  /** Only a delivery to the node, or its crash, changes what it owes or has applied. */
  lemma OtherNodes(c: Config, s: System, ev: Event, id: NodeId)
    requires WellFormed(c, s) && id in Members(c)
    requires !(ev.Deliver? && CanReceive(c, s, ev.packet) && ev.packet.dst == id)
    requires !s.nodes[id].running ==> s.nodes[id].pendingClients == map[]
    ensures var n, n' := s.nodes[id], Apply(c, s, ev).nodes[id];
            || (n'.pendingClients == n.pendingClients && n'.lastApplied == n.lastApplied)
            || (n'.pendingClients == map[] && !n'.running)
  {
    hide Ready, Received, Replay, Contiguous, NextIndexOk, ReplicateAll, PacketSet, Peers, Majority, Broadcast, Members;
  }

  lemma DeliveredNode(c: Config, s: System, p: Packet)
    requires WellFormed(c, s) && CanReceive(c, s, p) && Ready(s.nodes[p.dst], p.msg)
    ensures var n, owing, effect := s.nodes[p.dst], Owing(s.nodes[p.dst], p.src, p.msg), Received(c, s, p);
            && Apply(c, s, Deliver(p)).nodes[p.dst] == effect.node
            && PaysWhatItApplies(p.dst, owing, n.lastApplied, effect.node, effect.sent)
            && Within(effect.node.pendingClients, owing)
  {
    hide Dispatch, Ready, Peers, Owing;
    var n, owing := s.nodes[p.dst], Owing(s.nodes[p.dst], p.src, p.msg);
    DispatchPays(p.dst, Peers(c, p.dst), n, p.src, p.msg);
    UnpaidWithin(owing, n.lastApplied, Received(c, s, p).node.lastApplied);
  }

  /** The history of an accepted request has its entry in the ledger of its term. */
  lemma AcceptedIsLedgered(c: Config, h: History, n: NodeState, p: Packet)
    requires Ready(n, p.msg) && p.msg.ClientRequest? && n.role.Leader?
    ensures var h' := RecordDelivery(c, h, n, p);
            n.currentTerm in h'.ledger
            && h'.ledger[n.currentTerm] == n.log + [LogEntry(n.currentTerm, |n.log| + 1, p.msg.command)]
  {
    hide ReplicateAll, HoldingQuorum, CommitPoint, NextIndexOk, Fold, Unpaid, Replies;
  }

  lemma DeliveryBooks(c: Config, s: System, h: History, book: Book, p: Packet)
    requires Inv(c, s, h) && BookOk(c, s, h, book) && CanReceive(c, s, p) && Ready(s.nodes[p.dst], p.msg)
    requires Grows(h, RecordDelivery(c, h, s.nodes[p.dst], p))
    ensures PendingOk(RecordDelivery(c, h, s.nodes[p.dst], p), Booked(c, book, s, Deliver(p)), p.dst,
                      Owing(s.nodes[p.dst], p.src, p.msg))
  {
    var n, h', book' := s.nodes[p.dst], RecordDelivery(c, h, s.nodes[p.dst], p), Booked(c, book, s, Deliver(p));
    hide Inv, Ready, RecordDelivery, CanReceive, DebtOk, Grows;
    assert PendingOk(h, book, p.dst, n.pendingClients);
    if p.msg.ClientRequest? && n.role.Leader? {
      AcceptedIsLedgered(c, h, n, p);
      AcceptedIsOwed(h, h', book, p.dst, n, p.src, p.msg);
    } else {
      PendingShrinks(h, h', book, book', p.dst, n.pendingClients, n.pendingClients);
    }
  }

  lemma AcceptedIsOwed(h: History, h': History, book: Book, id: NodeId, n: NodeState, frm: NodeId, m: Message)
    requires m.ClientRequest? && n.role.Leader? && Grows(h, h') && PendingOk(h, book, id, n.pendingClients)
    requires n.currentTerm in h'.ledger
    requires h'.ledger[n.currentTerm] == n.log + [LogEntry(n.currentTerm, |n.log| + 1, m.command)]
    ensures PendingOk(h', book[(id, |n.log| + 1) := Debt(n.currentTerm, frm, m.requestId, m.command)], id,
                      Owing(n, frm, m))
  {
    var book' := book[(id, |n.log| + 1) := Debt(n.currentTerm, frm, m.requestId, m.command)];
    forall index | index in Owing(n, frm, m) ensures DebtOk(h', book', id, index, Owing(n, frm, m)[index]) {
      if index != |n.log| + 1 {
        assert DebtOk(h, book, id, index, n.pendingClients[index]);
      }
    }
  }

  lemma StepBooks(c: Config, s: System, h: History, book: Book, ev: Event)
    requires Inv(c, s, h) && BookOk(c, s, h, book)
    ensures BookOk(c, Apply(c, s, ev), Recorded(c, h, s, ev), Booked(c, book, s, ev))
  {
    StepKeeps(c, s, h, ev);
    var s', h', book' := Apply(c, s, ev), Recorded(c, h, s, ev), Booked(c, book, s, ev);
    forall id | id in Members(c) ensures PendingOk(h', book', id, s'.nodes[id].pendingClients) {
      assert PendingOk(h, book, id, s.nodes[id].pendingClients);
      NodeBooks(c, s, h, book, ev, id);
    }
  }

  /** A running node has applied no more than it holds; one that is down owes nothing. */
  lemma BooksAtRest(c: Config, s: System, h: History, id: NodeId)
    requires Inv(c, s, h) && id in Members(c)
    ensures var n := s.nodes[id];
            if n.running then n.lastApplied <= |n.log| else n.pendingClients == map[]
  {
    NodeInvariant(c, s, h, id);
    hide HistoryInv, CandidateOk, LeaderOk;
  }

  lemma ReceiverBooks(c: Config, s: System, h: History, book: Book, p: Packet)
    requires WellFormed(c, s) && Inv(c, s, h) && BookOk(c, s, h, book) && CanReceive(c, s, p)
    ensures PendingOk(Recorded(c, h, s, Deliver(p)), Booked(c, book, s, Deliver(p)), p.dst,
                      Apply(c, s, Deliver(p)).nodes[p.dst].pendingClients)
  {
    hide Inv, BookOk, Apply, Booked, Grows, PendingOk, RecordDelivery, PaysWhatItApplies, Received, Ready;
    DeliverKeeps(c, s, h, p);
    var h', book' := RecordDelivery(c, h, s.nodes[p.dst], p), Booked(c, book, s, Deliver(p));
    DeliveredNode(c, s, p);
    DeliveryBooks(c, s, h, book, p);
    GrowsSelf(h', 0);
    PendingShrinks(h', h', book', book', p.dst, Owing(s.nodes[p.dst], p.src, p.msg),
                   Received(c, s, p).node.pendingClients);
  }

  lemma NodeBooks(c: Config, s: System, h: History, book: Book, ev: Event, id: NodeId)
    requires WellFormed(c, s) && Inv(c, s, h) && BookOk(c, s, h, book) && id in Members(c)
    requires Grows(h, Recorded(c, h, s, ev))
    ensures PendingOk(Recorded(c, h, s, ev), Booked(c, book, s, ev), id, Apply(c, s, ev).nodes[id].pendingClients)
  {
    hide Inv, Apply, Recorded, Grows, PendingOk;
    if ev.Deliver? && CanReceive(c, s, ev.packet) && ev.packet.dst == id {
      ReceiverBooks(c, s, h, book, ev.packet);
    } else {
      assert PendingOk(h, book, id, s.nodes[id].pendingClients);
      BooksAtRest(c, s, h, id);
      OtherNodes(c, s, ev, id);
      PendingShrinks(h, Recorded(c, h, s, ev), book, Booked(c, book, s, ev), id, s.nodes[id].pendingClients,
                     Apply(c, s, ev).nodes[id].pendingClients);
    }
  }

  lemma {:induction false} BooksAreKept(c: Config, events: seq<Event>)
    requires ValidConfig(c)
    ensures BookOk(c, Run(c, events), Past(c, events), Debts(c, events))
    decreases |events|
  {
    if events == [] {
      forall id | id in Members(c) ensures Run(c, events).nodes[id].pendingClients == map[] {
      }
    } else {
      var before := events[..|events| - 1];
      BooksAreKept(c, before);
      RunKeeps(c, before);
      StepBooks(c, Run(c, before), Past(c, before), Debts(c, before), events[|events| - 1]);
    }
  }

  // -- a debt is paid once, when its index is applied

  /** Everything still owed is owed for an index not applied yet. */
  predicate Ahead(n: NodeState) {
    forall index :: index in n.pendingClients ==> index > n.lastApplied
  }

  lemma PayingKeepsAhead(id: NodeId, owing: Pending, n: NodeState, n': NodeState, sent: seq<Packet>)
    requires PaysWhatItApplies(id, owing, n.lastApplied, n', sent)
    requires forall index :: index in owing ==> index > n.lastApplied
    ensures Ahead(n')
  {
    forall index | index in n'.pendingClients ensures index > n'.lastApplied {
      OthersAreOwed(owing, n.lastApplied, n'.lastApplied, index);
    }
  }

  lemma StepAhead(c: Config, s: System, h: History, ev: Event, id: NodeId)
    requires WellFormed(c, s) && Inv(c, s, h) && id in Members(c) && Ahead(s.nodes[id])
    ensures Ahead(Apply(c, s, ev).nodes[id])
  {
    hide Inv, HistoryInv, Grows, RecordDelivery, NodeOk, Apply, Received, Ready, PaysWhatItApplies, Within;
    BooksAtRest(c, s, h, id);
    if ev.Deliver? && CanReceive(c, s, ev.packet) && ev.packet.dst == id {
      var p := ev.packet;
      DeliverKeeps(c, s, h, p);
      DeliveredNode(c, s, p);
      var effect := Received(c, s, p);
      PayingKeepsAhead(id, Owing(s.nodes[id], p.src, p.msg), s.nodes[id], effect.node, effect.sent);
    } else {
      OtherNodes(c, s, ev, id);
    }
  }

  lemma NothingIsOwedYet(c: Config, events: seq<Event>, id: NodeId)
    requires id in Members(c)
    ensures Ahead(At(c, events, 0).nodes[id])
  {
    assert events[..0] == [];
  }

  lemma {:induction false} DebtsAreAhead(c: Config, events: seq<Event>, i: nat, id: NodeId)
    requires ValidConfig(c) && i <= |events| && id in Members(c)
    ensures Ahead(At(c, events, i).nodes[id])
    decreases i
  {
    hide Ahead, At, PastAt, Apply, Recorded, Inv, Grows, Members;
    if i == 0 {
      NothingIsOwedYet(c, events, id);
    } else {
      DebtsAreAhead(c, events, i - 1, id);
      MomentOk(c, events, i - 1, i - 1);
      NextMoment(c, events, i - 1);
      StepAhead(c, At(c, events, i - 1), PastAt(c, events, i - 1), events[i - 1], id);
    }
  }

  lemma DeliveryIsHandled(c: Config, events: seq<Event>, i: nat, p: Packet)
    requires ValidConfig(c) && i < |events| && events[i] == Deliver(p) && CanReceive(c, At(c, events, i), p)
    ensures Ready(At(c, events, i).nodes[p.dst], p.msg)
    ensures At(c, events, i + 1).nodes[p.dst] == Received(c, At(c, events, i), p).node
  {
    hide Ready, Apply, Dispatch, Run;
    EveryPacketIsHandled(c, events[..i], p);
    NextMoment(c, events, i);
    DeliverEvent(c, At(c, events, i), p, 0);
  }

  /** What a delivery in a run does to the debts of the receiver: those for the indices it has
      now applied are paid and struck off, the others stay, and there is one reply for each. */
  lemma DeliveryPays(c: Config, events: seq<Event>, i: nat, p: Packet)
    requires ValidConfig(c) && i < |events| && events[i] == Deliver(p) && CanReceive(c, At(c, events, i), p)
    ensures Ready(At(c, events, i).nodes[p.dst], p.msg)
    ensures var n, n' := At(c, events, i).nodes[p.dst], At(c, events, i + 1).nodes[p.dst];
            var owing, paid := Owing(n, p.src, p.msg), OkReplies(Received(c, At(c, events, i), p).sent);
            && n.lastApplied <= n'.lastApplied
            && (forall index :: index in n'.pendingClients <==> index in owing && index > n'.lastApplied)
            && (forall index :: index in n'.pendingClients ==> n'.pendingClients[index] == owing[index])
            && (forall r :: r in paid <==>
                  exists index :: index in owing && index <= n'.lastApplied && r == ReplyFor(p.dst, owing, index))
            && |paid| + |n'.pendingClients| == |owing|
  {
    hide At, PastAt, Inv, Apply, Received, Ready, Grows, PaysWhatItApplies, Within;
    var s := At(c, events, i);
    DeliveryIsHandled(c, events, i, p);
    DebtsAreAhead(c, events, i, p.dst);
    MomentOk(c, events, i, i);
    BooksAtRest(c, s, PastAt(c, events, i), p.dst);
    DeliveredNode(c, s, p);
    var effect := Received(c, s, p);
    PaymentsAddUp(p.dst, Owing(s.nodes[p.dst], p.src, p.msg), s.nodes[p.dst].lastApplied, effect.node, effect.sent);
  }

  lemma PaymentsAddUp(id: NodeId, owing: Pending, from: Index, n': NodeState, sent: seq<Packet>)
    requires PaysWhatItApplies(id, owing, from, n', sent)
    requires forall index :: index in owing ==> index > from
    ensures from <= n'.lastApplied
    ensures forall index :: index in n'.pendingClients <==> index in owing && index > n'.lastApplied
    ensures forall index :: index in n'.pendingClients ==> n'.pendingClients[index] == owing[index]
    ensures forall r :: r in OkReplies(sent) <==>
              exists index :: index in owing && index <= n'.lastApplied && r == ReplyFor(id, owing, index)
    ensures |OkReplies(sent)| + |n'.pendingClients| == |owing|
  {
    var upTo := n'.lastApplied;
    forall index ensures index in n'.pendingClients <==> index in owing && index > upTo {
      OthersAreOwed(owing, from, upTo, index);
    }
    UnpaidWithin(owing, from, upTo);
    forall r | r in OkReplies(sent)
      ensures exists index :: index in owing && index <= upTo && r == ReplyFor(id, owing, index)
    {
      var index := OnlyDebtsArePaid(id, owing, from, upTo, r);
    }
    forall index | index in owing && index <= upTo ensures ReplyFor(id, owing, index) in OkReplies(sent) {
      DebtsArePaid(id, owing, from, upTo, index);
    }
    PaidOrOwed(id, owing, from, upTo);
  }

  /** Event `e` of the run makes node `id` apply `index` and send the reply owed for it. */
  predicate PaysFor(c: Config, events: seq<Event>, e: nat, id: NodeId, index: Index) {
    && e < |events| && events[e].Deliver?
    && var p := events[e].packet;
       var s := At(c, events, e);
       && p.dst == id && CanReceive(c, s, p) && Ready(s.nodes[id], p.msg)
       && var owing := Owing(s.nodes[id], p.src, p.msg);
          && index in owing
          && s.nodes[id].lastApplied < index <= At(c, events, e + 1).nodes[id].lastApplied
          && ReplyFor(id, owing, index) in Received(c, s, p).sent
  }

  ghost predicate UpThroughout(c: Config, events: seq<Event>, i: nat, j: nat, id: NodeId)
    requires i <= j <= |events| && id in Members(c)
  {
    forall m :: i <= m <= j ==> At(c, events, m).nodes[id].running
  }

  lemma AppliedIsCommitted(c: Config, events: seq<Event>, i: nat, a: NodeId)
    requires ValidConfig(c) && i <= |events| && a in Members(c)
    ensures At(c, events, i).nodes[a].lastApplied == At(c, events, i).nodes[a].commitIndex
  {
    MomentOk(c, events, i, i);
    NodeInvariant(c, At(c, events, i), PastAt(c, events, i), a);
  }

  lemma {:induction false} AppliedRises(c: Config, events: seq<Event>, i: nat, j: nat, id: NodeId)
    requires ValidConfig(c) && i <= j <= |events| && id in Members(c) && UpThroughout(c, events, i, j, id)
    ensures At(c, events, i).nodes[id].lastApplied <= At(c, events, j).nodes[id].lastApplied
    decreases j - i
  {
    hide At, WellFormed, Members;
    if i < j {
      AppliedRisesOnce(c, events, i, id);
      AppliedRises(c, events, i + 1, j, id);
    }
  }

  lemma AppliedRisesOnce(c: Config, events: seq<Event>, i: nat, id: NodeId)
    requires ValidConfig(c) && i < |events| && id in Members(c)
    requires At(c, events, i).nodes[id].running && At(c, events, i + 1).nodes[id].running
    ensures At(c, events, i).nodes[id].lastApplied <= At(c, events, i + 1).nodes[id].lastApplied
  {
    hide At;
    CommittedPrefixIsKept(c, events, i, id);
    AppliedIsCommitted(c, events, i, id);
    AppliedIsCommitted(c, events, i + 1, id);
  }

  /** In one event a debt is either paid, as its index is applied, or remains, perhaps taken
      over by a newer request for the index. */
  lemma PaidOrRemains(c: Config, events: seq<Event>, e: nat, id: NodeId, index: Index)
    requires ValidConfig(c) && e < |events| && id in Members(c)
    requires At(c, events, e).nodes[id].running && At(c, events, e + 1).nodes[id].running
    requires index in At(c, events, e).nodes[id].pendingClients
    ensures PaysFor(c, events, e, id, index) || index in At(c, events, e + 1).nodes[id].pendingClients
  {
    hide At, PastAt, Apply, Recorded, Received, Ready, OkReplies;
    var ev, s := events[e], At(c, events, e);
    DebtsAreAhead(c, events, e, id);
    NextMoment(c, events, e);
    if ev.Deliver? && CanReceive(c, s, ev.packet) && ev.packet.dst == id {
      DeliveryPays(c, events, e, ev.packet);
      var owing := Owing(s.nodes[id], ev.packet.src, ev.packet.msg);
      PickedOut(Received(c, s, ev.packet).sent, ReplyFor(id, owing, index));
    } else {
      OtherNodes(c, s, ev, id);
    }
  }

  /** A reply that a node owes is sent by exactly one event of any stretch of a run in which
      the node stays up and comes to apply the index it is owed for. */
  lemma {:induction false} PaidExactlyOnce(c: Config, events: seq<Event>, i: nat, j: nat, id: NodeId, index: Index)
    returns (e: nat)
    requires ValidConfig(c) && i <= j <= |events| && id in Members(c) && UpThroughout(c, events, i, j, id)
    requires index in At(c, events, i).nodes[id].pendingClients
    requires index <= At(c, events, j).nodes[id].lastApplied
    ensures i <= e < j && PaysFor(c, events, e, id, index)
    ensures forall other :: i <= other < j && PaysFor(c, events, other, id, index) ==> other == e
    decreases j - i
  {
    hide At, Received, Ready;
    DebtsAreAhead(c, events, i, id);
    PaidOrRemains(c, events, i, id, index);
    if PaysFor(c, events, i, id, index) {
      e := i;
      forall other | i < other < j ensures !PaysFor(c, events, other, id, index) {
        AppliedRises(c, events, i + 1, other, id);
      }
    } else {
      e := PaidExactlyOnce(c, events, i + 1, j, id, index);
    }
  }

  // -- where ok replies come from

  lemma OnlyDeliveriesPay(c: Config, s: System, ev: Event, r: Packet)
    requires WellFormed(c, s) && OkReply(r) && r in Apply(c, s, ev).net && r !in s.net
    ensures ev.Deliver? && CanReceive(c, s, ev.packet) && Ready(s.nodes[ev.packet.dst], ev.packet.msg)
    ensures r in Received(c, s, ev.packet).sent
  {
    hide Ready, Received, Replay, Contiguous, NextIndexOk, OnElectionTimeout, ReplicateAll, Peers, OkReplies;
    if ev.ElectionTimeout? {
      TimeoutPaysNobody(ev.id, Peers(c, ev.id), s.nodes[ev.id]);
      PickedOut(TimedOut(c, s, ev.id).sent, r);
    } else if ev.Heartbeat? {
      ReplicatingPaysNobody(ev.id, s.nodes[ev.id], Peers(c, ev.id));
      PickedOut(ReplicateAll(ev.id, s.nodes[ev.id], Peers(c, ev.id)), r);
    }
  }

  lemma NothingIsSentYet(c: Config, events: seq<Event>)
    ensures At(c, events, 0).net == {}
  {
    assert events[..0] == [];
  }

  /** Every ok reply on the network was sent by a node that handled a delivery. */
  lemma {:induction false} OkReplyWasSent(c: Config, events: seq<Event>, j: nat, r: Packet) returns (i: nat, p: Packet)
    requires ValidConfig(c) && j <= |events| && OkReply(r) && r in At(c, events, j).net
    ensures i < j && events[i] == Deliver(p) && CanReceive(c, At(c, events, i), p)
    ensures Ready(At(c, events, i).nodes[p.dst], p.msg) && r in Received(c, At(c, events, i), p).sent
    decreases j
  {
    hide At, PastAt, Apply, Recorded, Ready, Received, OkReply;
    NothingIsSentYet(c, events);
    if r in At(c, events, j - 1).net {
      i, p := OkReplyWasSent(c, events, j - 1, r);
    } else {
      NextMoment(c, events, j - 1);
      OnlyDeliveriesPay(c, At(c, events, j - 1), events[j - 1], r);
      i, p := j - 1, events[j - 1].packet;
    }
  }

  // -- what is behind an ok reply

  /** The node has applied, at `index`, the very entry that the request behind `debt` was given. */
  predicate Honoured(n: NodeState, index: Index, debt: Debt) {
    1 <= index <= |n.log| && n.log[index - 1] == EntryOf(debt, index)
  }

  /** At the index a request was given, a node's log holds the request's own entry exactly
      when it holds an entry of the term that accepted it. */
  lemma OwnTermOwnEntry(c: Config, s: System, h: History, id: NodeId, index: Index, debt: Debt, owed: (NodeId, nat),
                        book: Book)
    requires Inv(c, s, h) && id in Members(c) && s.nodes[id].running && 1 <= index <= |s.nodes[id].log|
    requires DebtOk(h, book, id, index, owed) && book[(id, index)] == debt
    ensures Honoured(s.nodes[id], index, debt) <==> s.nodes[id].log[index - 1].term == debt.term
    ensures s.nodes[id].role.Leader? && s.nodes[id].currentTerm == debt.term ==> Honoured(s.nodes[id], index, debt)
  {
    var n := s.nodes[id];
    NodeInvariant(c, s, h, id);
    if n.log[index - 1].term == debt.term {
      assert Grounded(HardsOf(c, s)[id].log, h.ledger);
      assert GroundedAt(n.log, h.ledger, index - 1);
      assert n.log[..index][index - 1] == h.ledger[debt.term][index - 1];
    }
  }

  /** What an ok reply on the network means. Event i made a node send it, for some index it
      owed it for and has applied; the entry it applied there is the request's own if and only
      if that entry is of the term in which the request was accepted, as it is while the node
      still leads that term. */
  lemma OkReplyIsForRequest(c: Config, events: seq<Event>, j: nat, r: Packet) returns (i: nat, p: Packet, index: Index)
    requires ValidConfig(c) && j <= |events| && OkReply(r) && r in At(c, events, j).net
    ensures i < j && events[i] == Deliver(p) && CanReceive(c, At(c, events, i), p)
    ensures Ready(At(c, events, i).nodes[p.dst], p.msg) && r in Received(c, At(c, events, i), p).sent
    ensures var n, book := At(c, events, i + 1).nodes[p.dst], Debts(c, events[..i + 1]);
            && n.running && 0 < index <= n.lastApplied <= |n.log|
            && (p.dst, index) in book
            && var debt := book[(p.dst, index)];
               && debt.client == r.dst && debt.requestId == r.msg.requestId
               && (Honoured(n, index, debt) <==> n.log[index - 1].term == debt.term)
               && (n.role.Leader? && n.currentTerm == debt.term ==> Honoured(n, index, debt))
  {
    hide Run, Debts, Ready, Received;
    i, p := OkReplyWasSent(c, events, j, r);
    index := PaidReply(c, events, i, p, r);
  }

  lemma PaidReply(c: Config, events: seq<Event>, i: nat, p: Packet, r: Packet) returns (index: Index)
    requires ValidConfig(c) && i < |events| && events[i] == Deliver(p) && CanReceive(c, At(c, events, i), p)
    requires Ready(At(c, events, i).nodes[p.dst], p.msg)
    requires r in Received(c, At(c, events, i), p).sent && OkReply(r)
    ensures var n, book := At(c, events, i + 1).nodes[p.dst], Debts(c, events[..i + 1]);
            && n.running && 0 < index <= n.lastApplied <= |n.log|
            && (p.dst, index) in book
            && var debt := book[(p.dst, index)];
               && debt.client == r.dst && debt.requestId == r.msg.requestId
               && (Honoured(n, index, debt) <==> n.log[index - 1].term == debt.term)
               && (n.role.Leader? && n.currentTerm == debt.term ==> Honoured(n, index, debt))
  {
    var s, h, book := At(c, events, i), PastAt(c, events, i), Debts(c, events[..i]);
    MomentOk(c, events, i, i + 1);
    BooksAreKept(c, events[..i]);
    var s', h', book' := At(c, events, i + 1), PastAt(c, events, i + 1), Debts(c, events[..i + 1]);
    hide Inv, BookOk, Run, Past, Debts, Ready, Dispatch, PendingOk, Grows, Owing, RecordDelivery, MemoryOk,
         CandidateOk, LeaderOk;
    hide OkReplies, Replies;
    NextMoment(c, events, i);
    NextDebts(c, events, i);
    DeliveredNode(c, s, p);
    PickedOut(Received(c, s, p).sent, r);
    var owing := Owing(s.nodes[p.dst], p.src, p.msg);
    index := OnlyDebtsArePaid(p.dst, owing, s.nodes[p.dst].lastApplied, Received(c, s, p).node.lastApplied, r);
    PaidDebt(c, s, h, book, p, index);
    NodeInvariant(c, s', h', p.dst);
    assert s'.nodes[p.dst].lastApplied > 0;
    OwnTermOwnEntry(c, s', h', p.dst, index, book'[(p.dst, index)], owing[index], book');
  }

  lemma NextDebts(c: Config, events: seq<Event>, i: nat)
    requires i < |events|
    ensures Debts(c, events[..i + 1]) == Booked(c, Debts(c, events[..i]), At(c, events, i), events[i])
  {
    assert events[..i + 1][..i] == events[..i];
  }

  lemma PaidDebt(c: Config, s: System, h: History, book: Book, p: Packet, index: Index)
    requires Inv(c, s, h) && BookOk(c, s, h, book) && CanReceive(c, s, p) && Ready(s.nodes[p.dst], p.msg)
    requires index in Owing(s.nodes[p.dst], p.src, p.msg)
    ensures DebtOk(RecordDelivery(c, h, s.nodes[p.dst], p), Booked(c, book, s, Deliver(p)), p.dst, index,
                   Owing(s.nodes[p.dst], p.src, p.msg)[index])
  {
    DeliverKeeps(c, s, h, p);
    hide Inv, BookOk, Ready, Dispatch, Grows, Owing, RecordDelivery, DebtOk;
    DeliveryBooks(c, s, h, book, p);
  }

  lemma HonouredInPrefix(m: NodeState, n: NodeState, k: Index, index: Index, debt: Debt)
    requires 1 <= index <= k <= |m.log| && k <= |n.log| && m.log[..k] == n.log[..k]
    ensures Honoured(m, index, debt) <==> Honoured(n, index, debt)
  {
    assert m.log[..k][index - 1] == n.log[..k][index - 1];
  }

  /** No node ever applies anything else at the index of an honoured request. */
  lemma HonouredOnceApplied(c: Config, events: seq<Event>, i: nat, j: nat, a: NodeId, b: NodeId, index: Index,
                            debt: Debt)
    requires ValidConfig(c) && i <= |events| && j <= |events| && a in Members(c) && b in Members(c)
    requires 1 <= index <= At(c, events, i).nodes[a].lastApplied && Honoured(At(c, events, i).nodes[a], index, debt)
    requires index <= At(c, events, j).nodes[b].lastApplied
    ensures Honoured(At(c, events, j).nodes[b], index, debt)
  {
    hide Run, Honoured, Fold;
    var m, n := At(c, events, i).nodes[a], At(c, events, j).nodes[b];
    if m.lastApplied <= n.lastApplied {
      StateMachineSafety(c, events, i, j, a, b);
      HonouredInPrefix(m, n, m.lastApplied, index, debt);
    } else {
      StateMachineSafety(c, events, j, i, b, a);
      HonouredInPrefix(m, n, n.lastApplied, index, debt);
    }
  }

  /** Every leader of a newer term holds the entry of an honoured request. */
  lemma HonouredByLeaders(c: Config, events: seq<Event>, i: nat, j: nat, a: NodeId, b: NodeId, index: Index, debt: Debt)
    requires ValidConfig(c) && i <= |events| && j <= |events| && a in Members(c)
    requires At(c, events, i).nodes[a].running && 1 <= index <= At(c, events, i).nodes[a].lastApplied
    requires Honoured(At(c, events, i).nodes[a], index, debt)
    requires Leads(c, At(c, events, j), b)
    requires At(c, events, j).nodes[b].currentTerm > At(c, events, i).nodes[a].currentTerm
    ensures Honoured(At(c, events, j).nodes[b], index, debt)
  {
    hide Run, Honoured;
    var m, n := At(c, events, i).nodes[a], At(c, events, j).nodes[b];
    AppliedIsCommitted(c, events, i, a);
    LeaderCompleteness(c, events, i, j, a, b);
    HonouredInPrefix(m, n, m.commitIndex, index, debt);
  }
}
