// groundhog/messages.py: what travels between nodes.
module Messages {
  import opened Types
  import opened Kv
  import opened Log

  datatype Message =
    | RequestVote(term: Term, candidateId: NodeId, lastLogIndex: Index, lastLogTerm: Term)
    | RequestVoteReply(term: Term, voteGranted: bool)
    | AppendEntries(term: Term, leaderId: NodeId, prevLogIndex: Index, prevLogTerm: Term,
                    entries: seq<LogEntry>, leaderCommit: Index)
    | AppendEntriesReply(term: Term, success: bool, matchIndex: Index)
    | ClientRequest(requestId: nat, command: Command)
    | ClientReply(requestId: nat, ok: bool, leaderHint: Option<NodeId>)

  /** A message with the sender and the receiver the network attaches to it. */
  datatype Packet = Packet(src: NodeId, dst: NodeId, msg: Message)
}
