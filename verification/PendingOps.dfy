/** The pending-request store as a value, and each single operation on its shared maps and counters.
    The whole-method model and the interleaved model are both assembled from these operations. */
module PendingOps {
  import opened Protocol
  import opened Counting

  /** `sender` names the oneshot channel by the request whose handler waits on its receiving end. */
  datatype Pending = Pending(sender: Uuid, createdAt: nat, deadline: nat, requestId: Uuid, tunnelId: Uuid)

  datatype Store = Store(requests: map<Uuid, Pending>, perTunnel: map<Uuid, nat>, gauge: nat, expiredTotal: nat)

  const EMPTY: Store := Store(map[], map[], 0, 0)

  datatype Config = Config(maxPerTunnel: nat, maxGlobal: nat, sweepInterval: nat, defaultTimeout: nat)

  /** Why a waiting handler was answered. */
  datatype Answerer = ByClient(response: Message) | ByClose(tunnel: Uuid) | BySweep(now: nat)

  /** One send on a oneshot channel. */
  datatype Reply = Reply(channel: Uuid, message: Message, cause: Answerer)

  function OnTunnel(t: Uuid): Pending -> bool {
    (p: Pending) => p.tunnelId == t
  }

  function ExpiredAt(now: nat): Pending -> bool {
    (p: Pending) => p.deadline <= now
  }

  // ---- single operations ----

  function CountForTunnel(s: Store, t: Uuid): nat {
    if t in s.perTunnel then s.perTunnel[t] else 0
  }

  function PutRequest(s: Store, p: Pending): Store {
    s.(requests := s.requests[p.requestId := p])
  }

  function TakeRequest(s: Store, id: Uuid): Store {
    s.(requests := s.requests - {id})
  }

  function IncGauge(s: Store): Store {
    s.(gauge := s.gauge + 1)
  }

  /** `checked_sub`: a gauge at zero stays at zero. */
  function DecGauge(s: Store): Store {
    s.(gauge := if s.gauge > 0 then s.gauge - 1 else 0)
  }

  function IncIndex(s: Store, t: Uuid): Store {
    s.(perTunnel := s.perTunnel[t := CountForTunnel(s, t) + 1])
  }

  /** A missing entry is left missing; an entry at zero is left at zero. */
  function DecIndex(s: Store, t: Uuid): Store {
    if t in s.perTunnel && s.perTunnel[t] > 0 then s.(perTunnel := s.perTunnel[t := s.perTunnel[t] - 1]) else s
  }

  /** The verdict `remove_entry`, taken under the same entry lock as the decrement. */
  predicate EntryAtZero(s: Store, t: Uuid) {
    t in s.perTunnel && s.perTunnel[t] == 0
  }

  function DropIndex(s: Store, t: Uuid): Store {
    s.(perTunnel := s.perTunnel - {t})
  }

  function AddExpired(s: Store, n: nat): Store {
    s.(expiredTotal := s.expiredTotal + n)
  }

  // ---- answers ----

  const ERROR_HEADER := "x-expose-error"

  function DisconnectedResponse(id: Uuid): Message {
    HttpResponse(id, 502, [(ERROR_HEADER, "tunnel disconnected")], [])
  }

  function TimedOutResponse(id: Uuid): Message {
    HttpResponse(id, 504, [(ERROR_HEADER, "tunnel response deadline exceeded")], [])
  }

  function Answer(p: Pending, cause: Answerer): Reply {
    match cause
    case ByClient(response) => Reply(p.sender, response, cause)
    case ByClose(_) => Reply(p.sender, DisconnectedResponse(p.requestId), cause)
    case BySweep(_) => Reply(p.sender, TimedOutResponse(p.requestId), cause)
  }

  /** What an answer must be: it reaches the handler of a registered request, names that request, and is
      a client's response, a 502 for the closing of that request's tunnel, or a 504 no earlier than its deadline. */
  ghost predicate Justified(registered: map<Uuid, Pending>, r: Reply) {
    r.channel in registered &&
    match r.cause
    case ByClient(response) => r.message == response && response.HttpResponse? && response.id == r.channel
    case ByClose(t) =>
      t == registered[r.channel].tunnelId
      && r.message == HttpResponse(r.channel, 502, [("x-expose-error", "tunnel disconnected")], [])
    case BySweep(now) =>
      registered[r.channel].deadline <= now
      && r.message == HttpResponse(r.channel, 504, [("x-expose-error", "tunnel response deadline exceeded")], [])
  }

  /** Every pending request is filed under its own id, with its own channel. */
  ghost predicate SelfKeyed(requests: map<Uuid, Pending>) {
    forall k :: k in requests ==> requests[k].requestId == k && requests[k].sender == k
  }

  /** Which requests a cause may answer. */
  ghost predicate MayAnswer(p: Pending, cause: Answerer) {
    match cause
    case ByClient(response) => response.HttpResponse? && response.id == p.requestId
    case ByClose(t) => p.tunnelId == t
    case BySweep(now) => p.deadline <= now
  }

  ghost predicate Answered(replies: seq<Reply>, id: Uuid) {
    exists i :: 0 <= i < |replies| && replies[i].channel == id
  }

  ghost predicate OneReplyEach(replies: seq<Reply>) {
    forall i, j :: 0 <= i < j < |replies| ==> replies[i].channel != replies[j].channel
  }

  /** How many answers a sweep sent. */
  function SweepReplies(replies: seq<Reply>): nat {
    if replies == [] then 0 else
      SweepReplies(replies[..|replies| - 1]) + if replies[|replies| - 1].cause.BySweep? then 1 else 0
  }
}
