/** Values shared by the Raft peer, its log and the cluster. */
module RaftTypes {
  import Kv

  /** What rsm.Submit hands to Raft; `life` numbers the process lifetime that made it. */
  datatype Op = Op(me: nat, id: nat, life: nat, req: Kv.Request)

  /** A log entry's command; the boundary entry of a compacted log has none. */
  datatype Command = NoCommand | Run(op: Op)

  datatype Entry = Entry(term: nat, cmd: Command)

  datatype Role = Follower | Candidate | Leader

  /** The entry at index 0 of every log. */
  const ZERO: Entry := Entry(0, NoCommand)
}
