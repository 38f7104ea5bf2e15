/** A cluster of servers over a network that may lose, delay, reorder and duplicate messages:
    every message ever sent stays in `net` and may be delivered any number of times, or never. */
module Cluster {
  import opened Messages
  import opened Protocol
  import opened Commit

  /** For every server the other servers, in the order in which it iterates over them. */
  type Config = map<nat, seq<nat>>

  /** Server ids are positive, because 0 means "no vote", and everyone knows everyone else. */
  ghost predicate ValidConfig(cfg: Config) {
    && cfg != map[]
    && 0 !in cfg
    && forall id | id in cfg :: ValidPeers(cfg, id)
  }

  ghost predicate ValidPeers(cfg: Config, id: nat)
    requires id in cfg
  {
    Distinct(cfg[id]) && forall p: nat :: p in cfg[id] <==> p in cfg && p != id
  }

  /** The in-memory state machine: the entries it was given, in order, and LastAppliedIndex. */
  datatype App = App(lastApplied: nat, applied: seq<Entry>)

  datatype Server = Server(node: Node, app: App)

  datatype Cluster = Cluster(servers: map<nat, Server>, net: set<Message>)

  datatype Action =
    | Deliver(m: Message, tick: Tick)
    | Timeout(id: nat, tick: Tick)
    | Command(id: nat, data: seq<byte>)
    | Read(id: nat)
    | Commit(id: nat)
    | Restart(id: nat)

  /** The entries an application sees: all but the stubs. */
  function NonStub(log: seq<Entry>): seq<Entry> {
    if log == [] then []
    else
      var last := log[|log| - 1];
      NonStub(log[..|log| - 1]) + (if last.flags == STUB then [] else [last])
  }

  /** ProcessCommitted: hand over the entries from LastAppliedIndex + 1 to CommitIndex. */
  function ApplyCommitted(s: Server): App {
    var c := s.node.vol.commitIndex;
    if s.app.lastApplied <= c <= |s.node.log|
    then App(c, s.app.applied + NonStub(s.node.log[s.app.lastApplied..c]))
    else s.app.(lastApplied := c)
  }

  function Boot0(peers: seq<nat>): Server { Server(Boot(peers, 1, 0, []), App(0, [])) }

  function Start(cfg: Config): Cluster {
    Cluster(map id | id in cfg :: Boot0(cfg[id]), {})
  }

  function Sent(msgs: seq<Message>): set<Message> { set m | m in msgs }

  /** What an action does at the server it concerns; nothing when it is not possible. */
  function NodeStep(cfg: Config, c: Cluster, a: Action): Step
    requires Target(a) in cfg && Target(a) in c.servers
  {
    var id := Target(a);
    var s := c.servers[id].node;
    match a
    case Deliver(m, t) => if m in c.net then Process(id, cfg[id], s, m, t) else Step(s, [])
    case Timeout(_, t) => ProcessTimeout(id, cfg[id], s, t)
    case Command(_, data) => if s.role == Leader then Step(AppendCommand(s, 0, data), []) else Step(s, [])
    case Read(_) => if s.role == Leader then ApproveRead(id, cfg[id], s) else Step(s, [])
    case Commit(_) => Step(s, [])
    case Restart(_) => Step(Boot(cfg[id], s.currentTerm, s.votedFor, s.log), [])
  }

  function Target(a: Action): nat { if a.Deliver? then a.m.dst else a.id }

  function AppStep(c: Cluster, a: Action): App
    requires Target(a) in c.servers
  {
    var s := c.servers[Target(a)];
    match a
    case Commit(_) => ApplyCommitted(s)
    case Restart(_) => App(0, [])
    case _ => s.app
  }

  /** One action; an impossible one changes nothing. */
  function Next(cfg: Config, c: Cluster, a: Action): Cluster {
    var id := Target(a);
    if id in cfg && id in c.servers then
      var r := NodeStep(cfg, c, a);
      Cluster(c.servers[id := Server(r.node, AppStep(c, a))], c.net + Sent(r.sent))
    else c
  }

  /** The cluster after a sequence of actions; it always has the configured servers. */
  function Run(cfg: Config, acts: seq<Action>): (c: Cluster)
    ensures c.servers.Keys == cfg.Keys
  {
    if acts == [] then Start(cfg)
    else Next(cfg, Run(cfg, acts[..|acts| - 1]), acts[|acts| - 1])
  }

  /** Server `id` after the first `i` actions of a run. */
  function ServerAt(cfg: Config, acts: seq<Action>, i: nat, id: nat): Server
    requires i <= |acts| && id in cfg
  {
    Run(cfg, acts[..i]).servers[id]
  }

  function NodeAt(cfg: Config, acts: seq<Action>, i: nat, id: nat): Node
    requires i <= |acts| && id in cfg
  {
    ServerAt(cfg, acts, i, id).node
  }

  lemma RunStep(cfg: Config, acts: seq<Action>, i: nat)
    requires i < |acts|
    ensures Run(cfg, acts[..i + 1]) == Next(cfg, Run(cfg, acts[..i]), acts[i])
  {
    assert acts[..i + 1][..i] == acts[..i];
  }
}
