/** The frames that cross the relay, with the tags the proofs use to follow them.

    A tag (`from`, `source`) records which task really pushed a frame.  No handler
    of the model reads a tag; the isolation theorems compare tags with what the
    handlers decided from the untagged fields. */
module Protocol {

  type Uuid = nat

  type Bytes = seq<bv8>

  datatype Kind = Ssh | Sftp

  datatype SftpOp = List | DownloadStart | DownloadChunk | UploadStart | Upload | Delete

  /** What a browser sends to one of its sessions. */
  datatype Command =
    | Data(protocol: nat, bytes: Bytes)
    | Resize(cols: nat, rows: nat, pxWidth: nat, pxHeight: nat)
    | Request(op: SftpOp, body: Bytes)

  /** The agent forwards a command only to a session of the matching kind, and
      tunnel data only when it carries the SSH protocol number. */
  predicate Takes(kind: Kind, cmd: Command) {
    match kind
    case Ssh => cmd.Resize? || (cmd.Data? && cmd.protocol == 0)
    case Sftp => cmd.Request?
  }

  /** Frames a server pushes to an agent.  `complete` tells whether the agent finds
      the credentials of the request complete. */
  datatype DownFrame =
    | OpenTunnel(cid: Uuid, kind: Kind, complete: bool)
    | Forward(cid: Uuid, sid: nat, cmd: Command)
    | ConnectionDisconnect(cid: Uuid)

  datatype Sent = Sent(from: Uuid, frame: DownFrame)

  /** A command on its way to a session's loop, with the connection that sent it. */
  datatype Got = Got(from: Uuid, cmd: Command)

  /** Frames an agent pushes to the server. */
  datatype UpFrame =
    | TunnelOpened(cid: Uuid, sid: nat)
    | TunnelClosed(cid: Uuid, sid: nat)
    | ToSession(sid: nat, body: Bytes)
    | ToConnection(cid: Uuid, body: Bytes)

  /** Who pushed an agent frame: the task of session `sid`, as its `index`-th frame,
      or the agent's socket reader. */
  datatype Source = Session(sid: nat, index: nat) | Reader

  datatype Emitted = Emitted(source: Source, frame: UpFrame)

  /** What lands in a connection's queue. */
  datatype Delivery =
    | FromSession(node: Uuid, sid: nat, index: nat, frame: UpFrame)
    | FromReader(node: Uuid, frame: UpFrame)
    | NodeGone(node: Uuid, sid: nat)

  /** The composite key of the server's tunnel table. */
  datatype Key = Key(node: Uuid, sid: nat)

  datatype Option<+T> = None | Some(value: T)

  /** The route lookup used for frames coming from a browser. */
  function NodeByCidAndSid(routes: map<Key, (Uuid, Uuid)>, cid: Uuid, node: Uuid, sid: nat): Option<Uuid> {
    var key := Key(node, sid);
    if key in routes && routes[key].0 == cid then Some(routes[key].1) else None
  }

  /** The route lookup used for frames coming from an agent. */
  function ConnectionBySid(routes: map<Key, (Uuid, Uuid)>, sid: nat, target: Uuid): Option<Uuid> {
    var key := Key(target, sid);
    if key in routes && routes[key].1 == target then Some(routes[key].0) else None
  }
}
