/** The browser client's local bookkeeping for one election
    (web/js/election.js). Every request goes over a socket to the first
    server of the roster; the socket and the message codecs are external, so
    each operation receives what the send resolved with, or the reason it
    was rejected. */
module WebClient {
  import opened Wrappers

  /** A conode of the roster, known by its address. */
  datatype Server = Server(address: string)

  /** An encrypted ballot, opaque to the client's bookkeeping. */
  datatype Ballot = Ballot(k: Bytes, c: Bytes)

  /** The election's public key as big-endian point coordinates. */
  datatype PublicKey = PublicKey(x: Bytes, y: Bytes)

  /** The client's view of one election. `key` and `hash` are null until key
      generation answers; `ballots` are the ballots this client cast;
      `shuffles` the ballots last fetched from a node. */
  datatype Election = Election(
    name: string,
    servers: seq<Server>,
    key: Option<PublicKey>,
    hash: Option<Bytes>,
    ballots: seq<Ballot>,
    shuffles: seq<Ballot>,
    shuffled: bool)

  /** How a client call ends: its promise resolves, it throws before sending,
      or its promise is rejected because the send failed. */
  datatype Completion = Resolved | Threw(message: string) | Rejected(message: string)

  /** The client state after a call, with how the call ended. */
  datatype Step = Step(state: Election, completion: Completion)

  /** What reading the address of the first server of an empty roster
      throws; the engine's wording is not modelled. */
  const NoServerMessage: string := "TypeError"

  /** The error `fetch` throws for a node outside the roster. */
  function NotInRosterMessage(node: string): string {
    node + " not part of roster"
  }

  /** A new client election: no key, no chain hash, nothing cast, nothing
      fetched, not shuffled. */
  function NewElection(name: string, servers: seq<Server>): (e: Election)
    ensures e.name == name && e.servers == servers
    ensures e.key.None? && e.hash.None?
    ensures |e.ballots| == 0 && |e.shuffles| == 0 && !e.shuffled
  {
    Election(name, servers, None, None, [], [], false)
  }

  /** A fresh election asks a node for the block just past its roster
      position: nothing has been cast yet. */
  lemma NewElectionFetchBlock(name: string, servers: seq<Server>, node: string)
    requires RosterOrder(servers, node) != -1
    ensures FetchRequestFor(NewElection(name, servers), node).Success?
    ensures FetchRequestFor(NewElection(name, servers), node).value.block == RosterOrder(servers, node) + 1
  {
  }

  /** The bytes in reverse order. */
  function Reverse(s: Bytes): (r: Bytes)
    ensures |r| == |s|
    ensures forall i :: 0 <= i < |s| ==> r[i] == s[|s| - 1 - i]
  {
    if |s| == 0 then [] else Reverse(s[1..]) + [s[0]]
  }

  /** Reversing twice restores the bytes: the key the client keeps determines
      the little-endian coordinates the service sent. */
  lemma ReverseInvolutive(s: Bytes)
    ensures Reverse(Reverse(s)) == s
  {
  }

  /** The decoded answer to key generation: the key's coordinates as sent
      (little-endian) and the genesis block's hash. */
  datatype GenerateReply = GenerateReply(keyX: Bytes, keyY: Bytes, hash: Bytes)

  /** Asks the first server to run key generation; on an answer, keeps the
      key with its coordinates turned big-endian, and the genesis hash. */
  function Generate(e: Election, reply: Result<GenerateReply, string>): (s: Step)
    ensures |e.servers| == 0 ==> s == Step(e, Threw(NoServerMessage))
    ensures s.completion.Resolved? <==> |e.servers| > 0 && reply.Success?
    ensures !s.completion.Resolved? ==> s.state == e
    ensures s.completion.Resolved? ==>
              && s.state.key.Some? && Reverse(s.state.key.value.x) == reply.value.keyX
              && Reverse(s.state.key.value.y) == reply.value.keyY
              && s.state.hash == Some(reply.value.hash)
              && s.state.(key := e.key, hash := e.hash) == e
  {
    if |e.servers| == 0 then Step(e, Threw(NoServerMessage))
    else
      match reply
      case Failure(m) => Step(e, Rejected(m))
      case Success(d) =>
        ReverseInvolutive(d.keyX);
        ReverseInvolutive(d.keyY);
        Step(e.(key := Some(PublicKey(Reverse(d.keyX), Reverse(d.keyY))), hash := Some(d.hash)), Resolved)
  }

  /** Sends a ballot to the first server and records it once the send
      resolves. */
  function Cast(e: Election, ballot: Ballot, sent: Outcome<string>): (s: Step)
    ensures |e.servers| == 0 ==> s == Step(e, Threw(NoServerMessage))
    ensures s.completion.Resolved? <==> |e.servers| > 0 && sent.Pass?
    ensures !s.completion.Resolved? ==> s.state == e
    ensures s.completion.Resolved? ==>
              && |s.state.ballots| == |e.ballots| + 1
              && s.state.ballots[..|e.ballots|] == e.ballots
              && s.state.ballots[|e.ballots|] == ballot
              && s.state.(ballots := e.ballots) == e
  {
    if |e.servers| == 0 then Step(e, Threw(NoServerMessage))
    else
      match sent
      case Fail(m) => Step(e, Rejected(m))
      case Pass => Step(e.(ballots := e.ballots + [ballot]), Resolved)
  }

  /** Asks the first server to shuffle; marks the election shuffled once the
      send resolves. */
  function Shuffle(e: Election, sent: Outcome<string>): (s: Step)
    ensures |e.servers| == 0 ==> s == Step(e, Threw(NoServerMessage))
    ensures s.completion.Resolved? <==> |e.servers| > 0 && sent.Pass?
    ensures !s.completion.Resolved? ==> s.state == e
    ensures s.completion.Resolved? ==> s.state.shuffled && s.state.(shuffled := e.shuffled) == e
  {
    if |e.servers| == 0 then Step(e, Threw(NoServerMessage))
    else
      match sent
      case Fail(m) => Step(e, Rejected(m))
      case Pass => Step(e.(shuffled := true), Resolved)
  }

  /** The scan over the roster from position `i` on, where `order` is the
      last position before `i` whose address is `node` (-1: none): each
      matching server overwrites the remembered position. */
  function ScanRoster(servers: seq<Server>, node: string, i: nat, order: int): (r: int)
    requires i <= |servers|
    requires -1 <= order < i
    requires order >= 0 ==> servers[order].address == node
    requires forall j :: order < j < i ==> servers[j].address != node
    ensures -1 <= r < |servers|
    ensures r == -1 <==> forall j :: 0 <= j < |servers| ==> servers[j].address != node
    ensures r >= 0 ==> servers[r].address == node
    ensures forall j :: r < j < |servers| ==> servers[j].address != node
    decreases |servers| - i
  {
    if i == |servers| then order
    else ScanRoster(servers, node, i + 1, if servers[i].address == node then i else order)
  }

  /** The position of `node` in the roster: the last server with that
      address, or -1 when no server has it. */
  function RosterOrder(servers: seq<Server>, node: string): (order: int)
    ensures -1 <= order < |servers|
    ensures order == -1 <==> forall j :: 0 <= j < |servers| ==> servers[j].address != node
    ensures order >= 0 ==> servers[order].address == node
    ensures forall j :: order < j < |servers| ==> servers[j].address != node
  {
    ScanRoster(servers, node, 0, -1)
  }

  /** A fetch request: where it is sent, for which election, and the block
      number asked for. */
  datatype FetchRequest = FetchRequest(address: string, election: string, block: int)

  /** The request `fetch(node)` sends, or what it throws when the node is
      not in the roster. The block number counts this client's ballots plus
      the node's position plus one. */
  function FetchRequestFor(e: Election, node: string): (r: Result<FetchRequest, string>)
    ensures r.Failure? <==> forall j :: 0 <= j < |e.servers| ==> e.servers[j].address != node
    ensures r.Failure? ==> r.error == node + " not part of roster"
    ensures r.Success? ==>
              && |e.servers| > 0
              && r.value.address == e.servers[0].address
              && r.value.election == e.name
              && |e.ballots| + 1 <= r.value.block <= |e.ballots| + |e.servers|
              && e.servers[r.value.block - |e.ballots| - 1].address == node
              && forall j :: r.value.block - |e.ballots| - 1 < j < |e.servers| ==> e.servers[j].address != node
  {
    var order := RosterOrder(e.servers, node);
    if order == -1 then Failure(NotInRosterMessage(node))
    else Success(FetchRequest(e.servers[0].address, e.name, |e.ballots| + order + 1))
  }

  /** Fetches the shuffled ballots from a node; on an answer, replaces the
      fetched ballots with exactly the decoded ones, in order. */
  function Fetch(e: Election, node: string, reply: Result<seq<Ballot>, string>): (s: Step)
    ensures FetchRequestFor(e, node).Failure? ==> s == Step(e, Threw(node + " not part of roster"))
    ensures s.completion.Resolved? <==> FetchRequestFor(e, node).Success? && reply.Success?
    ensures !s.completion.Resolved? ==> s.state == e
    ensures s.completion.Resolved? ==> s.state.shuffles == reply.value && s.state.(shuffles := e.shuffles) == e
  {
    match FetchRequestFor(e, node)
    case Failure(m) => Step(e, Threw(m))
    case Success(_) =>
      match reply
      case Failure(m) => Step(e, Rejected(m))
      case Success(ballots) => Step(e.(shuffles := ballots), Resolved)
  }

  /** Every resolved cast moves the block a later fetch asks the same node
      for one further, and a failed cast leaves it where it was. */
  lemma CastAdvancesFetchBlock(e: Election, ballot: Ballot, sent: Outcome<string>, node: string)
    requires FetchRequestFor(e, node).Success?
    ensures var after := Cast(e, ballot, sent);
            && FetchRequestFor(after.state, node).Success?
            && FetchRequestFor(after.state, node).value.block
               == FetchRequestFor(e, node).value.block + (if after.completion.Resolved? then 1 else 0)
  {
  }

  /** A node's block number is fixed by this client's ballots and the roster:
      fetching, shuffling or generating does not move it. */
  lemma FetchBlockStable(e: Election, node: string, reply: Result<seq<Ballot>, string>,
                         sent: Outcome<string>, gen: Result<GenerateReply, string>)
    ensures FetchRequestFor(Fetch(e, node, reply).state, node) == FetchRequestFor(e, node)
    ensures FetchRequestFor(Shuffle(e, sent).state, node) == FetchRequestFor(e, node)
    ensures FetchRequestFor(Generate(e, gen).state, node) == FetchRequestFor(e, node)
  {
  }
}
