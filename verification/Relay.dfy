/** The WebSocket relay after the upgrade: the client pump, the provider pump, the two write
    pumps and the handler as one step system. A step runs from one point where a goroutine
    waits (or gives the lock away) to the next; every interleaving is a list of actions. The chain
    is seen only through its verdict on error responses and its policy on methods. */
module Relay {
  import opened Wrappers
  import opened Rpc
  import opened Chains
  import opened Connections

  const MAX_BATCH_SIZE: nat := 100
  const MAX_BAD_REQUESTS: nat := 10

  /** What the read pumps hand on; Garbage stands for a message that does not decode. */
  datatype ClientFrame = ClientGarbage | ClientBatch(reqs: seq<Request>)
  datatype ProviderFrame = ProviderGarbage | ProviderReply(res: Response)

  /** A message for the client comes from the provider or is a rejection made here. */
  datatype Out = FromProvider(res: Response) | Local(res: Response)

  datatype Side = ClientSide | ProviderSide
  datatype Thread = ClientPumpThread | ProviderPumpThread | HandlerThread

  /** The connections a goroutine still has to Close, and how far the first call has got. */
  datatype Stage = Begin | Offer | Cancel
  datatype Closing = Closing(todo: seq<Side>, stage: Stage)

  /** flush is unset until the rest of the queue has been counted. */
  datatype ClientPump =
    | CSelect
    | CReject(left: seq<Response>)
    | CSend(reqs: seq<Request>)
    | CWrite(res: Response, flush: Option<nat>)
    | CFlush(n: nat)
    | CClose(k: Closing)
    | CExit

  /** last marks the response after which the pump closes everything. */
  datatype ProviderPump =
    | PSelect
    | PWrite(req: Request, flush: Option<nat>)
    | PFlush(n: nat)
    | PSend(res: Response, last: bool)
    | PClose(k: Closing)
    | PExit

  datatype Handler = HWait | HClose(k: Closing) | HExit

  datatype Exchange = Sent(key: string, methodName: string) | Got(res: Response)

  /** A call on the provider: MarkMethodUnsupported or MarkUnhealthy. */
  datatype Mark = Lacks(name: string) | Lost(rateLimited: bool)

  /** The four channels the pumps receive from. */
  datatype Channels = Channels(
    recvC: seq<ClientFrame>, recvP: seq<ProviderFrame>, requests: seq<Request>, responses: seq<Response>)

  /** What happened so far: frames read by the pumps, messages a pump gave up on its way out,
      requests forwarded and responses seen by the provider pump, and the calls it made on its
      provider in return. */
  datatype Log = Log(
    readC: seq<ClientFrame>, readP: seq<ProviderFrame>,
    abandonedReqs: seq<Request>, abandonedRes: seq<Response>,
    history: seq<Exchange>, marks: seq<Mark>)

  datatype State = State(
    judge: ErrorHandler, policy: Policy,
    proxyDone: bool,
    client: Conn<Out>, provider: Conn<Request>,
    q: Channels,
    cp: ClientPump, pp: ProviderPump, h: Handler,
    badRequests: nat,
    pending: map<string, string>,
    log: Log)

  function Initial(judge: ErrorHandler, policy: Policy): State {
    State(judge, policy, false, Open(), Open(), Channels([], [], [], []), CSelect, PSelect, HWait, 0, map[],
          Log([], [], [], [], [], []))
  }

  // -------------------------------------------------------------------- actions

  datatype CpAction =
    CpSeesDone | CpReceives | CpTakes | CpQueues | CpGivesUp | CpWrites | CpDrops | CpFlushes

  datatype PpAction =
    PpSeesDone | PpReceives | PpTakes | PpQueues | PpGivesUp | PpWrites | PpDrops | PpFlushes

  datatype CloseAction =
    CloseBegins(th: Thread) | CloseHandsOver(th: Thread) | CloseSeesDone(th: Thread) | CloseCancels(th: Thread)

  datatype Action =
    // the outside world
    | ClientFrameArrives(cf: ClientFrame)
    | ProviderFrameArrives(pf: ProviderFrame)
    | ReadFails(side: Side)
    | PrimaryIsBack
    | ShutdownBegins
    // the write pumps
    | ClientWriter(w: WriterAction)
    | ProviderWriter(w: WriterAction)
    // the pumps
    | ByCp(c: CpAction)
    | ByPp(p: PpAction)
    // the handler
    | HSeesProxyDone | HSeesClientDone | HSeesProviderDone
    // a Close call made by one of the three
    | ByCloser(k: CloseAction)

  // ------------------------------------------------------------- contexts by side

  predicate Done(s: State, x: Side) { if x.ClientSide? then s.client.done else s.provider.done }

  predicate Closed(s: State, x: Side) { if x.ClientSide? then s.client.closed else s.provider.closed }

  predicate WriterSelecting(s: State, x: Side) {
    if x.ClientSide? then s.client.w.Selecting? else s.provider.w.Selecting?
  }

  predicate WriterGone(s: State, x: Side) {
    if x.ClientSide? then s.client.w.Exited? else s.provider.w.Exited?
  }

  predicate AnyDone(s: State) { s.proxyDone || s.client.done || s.provider.done }

  function WithDone(s: State, x: Side): State {
    if x.ClientSide? then s.(client := s.client.(done := true)) else s.(provider := s.provider.(done := true))
  }

  function WithClosed(s: State, x: Side): State {
    if x.ClientSide? then s.(client := s.client.(closed := true)) else s.(provider := s.provider.(closed := true))
  }

  function WithCloseFrame(s: State, x: Side): State {
    if x.ClientSide? then s.(client := AcceptClose(s.client)) else s.(provider := AcceptClose(s.provider))
  }

  // --------------------------------------------------------------- the client pump

  predicate BadFrame(f: ClientFrame) { f.ClientGarbage? || f.reqs == [] || |f.reqs| > MAX_BATCH_SIZE }

  const CLOSE_BOTH: Closing := Closing([ClientSide, ProviderSide], Begin)
  const CLOSE_PROVIDER_FIRST: Closing := Closing([ProviderSide, ClientSide], Begin)

  function ReceiveFromClient(s: State): State
    requires s.q.recvC != []
  {
    var f := s.q.recvC[0];
    var s1 := s.(q := s.q.(recvC := s.q.recvC[1..]), log := s.log.(readC := s.log.readC + [f]));
    if BadFrame(f) then
      if s.badRequests + 1 > MAX_BAD_REQUESTS
      then s1.(badRequests := s.badRequests + 1, proxyDone := true, cp := CClose(CLOSE_BOTH))
      else s1.(badRequests := s.badRequests + 1)
    else
      match Rejections(s.policy, f.reqs)
      case Some(rs) => s1.(badRequests := 0, cp := CReject(rs))
      case None => s1.(badRequests := 0, cp := CSend(f.reqs))
  }

  /** The message the client pump has in hand for the client. */
  function InHand(cp: ClientPump): Option<Out> {
    match cp
    case CReject(left) => if left == [] then None else Some(Local(left[0]))
    case CWrite(res, _) => Some(FromProvider(res))
    case _ => None
  }

  /** Where the client pump goes after writing it. */
  function AfterWrite(s: State): ClientPump {
    match s.cp
    case CReject(left) => if |left| <= 1 then CSelect else CReject(left[1..])
    case CWrite(_, flush) => CFlush(if flush.Some? then flush.value else |s.q.responses|)
    case other => other
  }

  predicate CpEnabled(s: State, a: CpAction) {
    match a
    case CpSeesDone => s.cp == CSelect && s.client.done
    case CpReceives => s.cp == CSelect && s.q.recvC != []
    case CpTakes => s.cp == CSelect && s.q.responses != []
    case CpQueues => s.cp.CSend? && s.cp.reqs != [] && |s.q.requests| < QUEUE
    case CpGivesUp => s.cp.CSend? && AnyDone(s)
    case CpWrites => InHand(s.cp).Some? && HasRoom(s.client)
    case CpDrops => InHand(s.cp).Some? && s.client.done
    case CpFlushes => s.cp.CFlush? && (s.cp.n == 0 || s.q.responses != [])
  }

  function CpStep(s: State, a: CpAction): State
    requires CpEnabled(s, a)
  {
    match a
    case CpSeesDone => s.(cp := CExit)
    case CpReceives => ReceiveFromClient(s)
    case CpTakes => s.(cp := CWrite(s.q.responses[0], None), q := s.q.(responses := s.q.responses[1..]))
    case CpQueues =>
      s.(q := s.q.(requests := s.q.requests + [s.cp.reqs[0]]),
         cp := if |s.cp.reqs| == 1 then CSelect else CSend(s.cp.reqs[1..]))
    case CpGivesUp => s.(cp := CExit, log := s.log.(abandonedReqs := s.log.abandonedReqs + s.cp.reqs))
    case CpWrites => s.(client := Push(s.client, InHand(s.cp).value), cp := AfterWrite(s))
    case CpDrops => s.(cp := AfterWrite(s))
    case CpFlushes =>
      if s.cp.n == 0 then s.(cp := CSelect)
      else s.(cp := CWrite(s.q.responses[0], Some(s.cp.n - 1)), q := s.q.(responses := s.q.responses[1..]))
  }

  // ------------------------------------------------------------- the provider pump

  /** A request is remembered before it is written, unless it has no key. */
  function Track(s: State, req: Request): State {
    s.(pending := if ReqKey(req) != "" then s.pending[ReqKey(req) := req.methodName] else s.pending,
       log := s.log.(history := s.log.history + [Sent(ReqKey(req), req.methodName)]))
  }

  function TakeRequest(s: State, flush: Option<nat>): State
    requires s.q.requests != []
  {
    Track(s, s.q.requests[0]).(q := s.q.(requests := s.q.requests[1..]), pp := PWrite(s.q.requests[0], flush))
  }

  function Attributed(pending: map<string, string>, key: string): string {
    if key != "" && key in pending then pending[key] else ""
  }

  function ReceiveFromProvider(s: State): State
    requires s.q.recvP != []
  {
    var s1 := s.(q := s.q.(recvP := s.q.recvP[1..]), log := s.log.(readP := s.log.readP + [s.q.recvP[0]]));
    match s.q.recvP[0]
    case ProviderGarbage => s1.(proxyDone := true, pp := PClose(CLOSE_PROVIDER_FIRST))
    case ProviderReply(res) =>
      var s2 := s1.(pending := if ResKey(res) != "" then s.pending - {ResKey(res)} else s.pending,
                    log := s1.log.(history := s.log.history + [Got(res)]));
      if !IsError(res) then s2.(pp := PSend(res, false)) else
        match s.judge(res)
        case NotSupported =>
          s2.(pp := PSend(res, false),
              log := s2.log.(marks := s.log.marks + [Lacks(Attributed(s.pending, ResKey(res)))]))
        case Unhealthy(rateLimited) =>
          s2.(pp := PSend(res, true), log := s2.log.(marks := s.log.marks + [Lost(rateLimited)]))
        case _ => s2.(pp := PSend(res, false))
  }

  /** After its last response the pump ends the proxy and closes both connections. */
  function AfterSend(s: State, gone: bool): State
    requires s.pp.PSend?
  {
    if s.pp.last then s.(proxyDone := true, pp := PClose(CLOSE_BOTH))
    else s.(pp := if gone then PExit else PSelect)
  }

  predicate PpEnabled(s: State, a: PpAction) {
    match a
    case PpSeesDone => s.pp == PSelect && s.provider.done
    case PpReceives => s.pp == PSelect && s.q.recvP != []
    case PpTakes => s.pp == PSelect && s.q.requests != []
    case PpQueues => s.pp.PSend? && |s.q.responses| < QUEUE
    case PpGivesUp => s.pp.PSend? && (s.proxyDone || s.provider.done)
    case PpWrites => s.pp.PWrite? && HasRoom(s.provider)
    case PpDrops => s.pp.PWrite? && s.provider.done
    case PpFlushes => s.pp.PFlush? && (s.pp.n == 0 || s.q.requests != [])
  }

  function PpStep(s: State, a: PpAction): State
    requires PpEnabled(s, a)
  {
    match a
    case PpSeesDone => s.(pp := PExit)
    case PpReceives => ReceiveFromProvider(s)
    case PpTakes => TakeRequest(s, None)
    case PpQueues => AfterSend(s.(q := s.q.(responses := s.q.responses + [s.pp.res])), false)
    case PpGivesUp => AfterSend(s.(log := s.log.(abandonedRes := s.log.abandonedRes + [s.pp.res])), true)
    case PpWrites => s.(provider := Push(s.provider, s.pp.req), pp := AfterForward(s))
    case PpDrops => s.(pp := AfterForward(s))
    case PpFlushes => if s.pp.n == 0 then s.(pp := PSelect) else TakeRequest(s, Some(s.pp.n - 1))
  }

  function AfterForward(s: State): ProviderPump
    requires s.pp.PWrite?
  {
    PFlush(if s.pp.flush.Some? then s.pp.flush.value else |s.q.requests|)
  }

  // -------------------------------------------------------- the handler and Close

  function ClosingOf(s: State, th: Thread): Option<Closing> {
    match th
    case ClientPumpThread => if s.cp.CClose? then Some(s.cp.k) else None
    case ProviderPumpThread => if s.pp.PClose? then Some(s.pp.k) else None
    case HandlerThread => if s.h.HClose? then Some(s.h.k) else None
  }

  /** The goroutine goes on closing; the handler cancels the proxy context when it returns. */
  function WithClosing(s: State, th: Thread, k: Closing): State {
    match th
    case ClientPumpThread => s.(cp := if k.todo == [] then CExit else CClose(k))
    case ProviderPumpThread => s.(pp := if k.todo == [] then PExit else PClose(k))
    case HandlerThread => if k.todo == [] then s.(h := HExit, proxyDone := true) else s.(h := HClose(k))
  }

  predicate CloseEnabled(s: State, a: CloseAction) {
    match a
    case CloseBegins(th) => Calling(s, th, Begin)
    case CloseHandsOver(th) => Calling(s, th, Offer) && WriterSelecting(s, Target(s, th))
    case CloseSeesDone(th) => Calling(s, th, Offer) && Done(s, Target(s, th))
    case CloseCancels(th) => Calling(s, th, Cancel)
  }

  predicate Calling(s: State, th: Thread, stage: Stage) {
    var k := ClosingOf(s, th);
    k.Some? && k.value.todo != [] && k.value.stage == stage
  }

  function Target(s: State, th: Thread): Side
    requires ClosingOf(s, th).Some? && ClosingOf(s, th).value.todo != []
  {
    ClosingOf(s, th).value.todo[0]
  }

  /** What a step of Close does to the connection, and where the caller is afterwards. */
  function Effect(s: State, a: CloseAction): State
    requires CloseEnabled(s, a)
  {
    var x := Target(s, a.th);
    match a
    case CloseBegins(_) => if Closed(s, x) then s else WithClosed(s, x)
    case CloseHandsOver(_) => WithCloseFrame(s, x)
    case CloseSeesDone(_) => s
    case CloseCancels(_) => WithDone(s, x)
  }

  function Progress(s: State, a: CloseAction): Closing
    requires CloseEnabled(s, a)
  {
    var todo := ClosingOf(s, a.th).value.todo;
    match a
    case CloseBegins(_) => if Closed(s, todo[0]) then Closing(todo[1..], Begin) else Closing(todo, Offer)
    case CloseHandsOver(_) => Closing(todo, Cancel)
    case CloseSeesDone(_) => Closing(todo, Cancel)
    case CloseCancels(_) => Closing(todo[1..], Begin)
  }

  function CloseStep(s: State, a: CloseAction): State
    requires CloseEnabled(s, a)
  {
    WithClosing(Effect(s, a), a.th, Progress(s, a))
  }

  // ---------------------------------------------------------------------- one step

  predicate Enabled(s: State, a: Action) {
    match a
    case ClientFrameArrives(_) => |s.q.recvC| < QUEUE
    case ProviderFrameArrives(_) => |s.q.recvP| < QUEUE
    case ReadFails(_) => true
    case PrimaryIsBack => s.h == HWait
    case ShutdownBegins => s.h == HWait
    case ClientWriter(w) => WriterEnabled(s.client, w)
    case ProviderWriter(w) => WriterEnabled(s.provider, w)
    case HSeesProxyDone => s.h == HWait && s.proxyDone
    case HSeesClientDone => s.h == HWait && s.client.done
    case HSeesProviderDone => s.h == HWait && s.provider.done
    case ByCp(c) => CpEnabled(s, c)
    case ByPp(p) => PpEnabled(s, p)
    case ByCloser(k) => CloseEnabled(s, k)
  }

  function Step(s: State, a: Action): State {
    if !Enabled(s, a) then s else
      match a
      case ClientFrameArrives(f) => s.(q := s.q.(recvC := s.q.recvC + [f]))
      case ProviderFrameArrives(f) => s.(q := s.q.(recvP := s.q.recvP + [f]))
      case ReadFails(x) => WithDone(s, x)
      case PrimaryIsBack => s.(h := HClose(CLOSE_BOTH))
      case ShutdownBegins => s.(h := HClose(CLOSE_BOTH))
      case ClientWriter(w) => s.(client := WriterStep(s.client, w))
      case ProviderWriter(w) => s.(provider := WriterStep(s.provider, w))
      case HSeesProxyDone => s.(h := HExit)
      case HSeesClientDone => s.(h := HClose(Closing([ProviderSide], Begin)))
      case HSeesProviderDone => s.(h := HClose(Closing([ClientSide], Begin)))
      case ByCp(c) => CpStep(s, c)
      case ByPp(p) => PpStep(s, p)
      case ByCloser(k) => CloseStep(s, k)
  }

  function RunFrom(s: State, actions: seq<Action>): State {
    if actions == [] then s
    else Step(RunFrom(s, actions[..|actions| - 1]), actions[|actions| - 1])
  }

  function Run(judge: ErrorHandler, policy: Policy, actions: seq<Action>): State {
    RunFrom(Initial(judge, policy), actions)
  }

  lemma {:induction false} RunFromConcat(s: State, first: seq<Action>, second: seq<Action>)
    ensures RunFrom(s, first + second) == RunFrom(RunFrom(s, first), second)
    decreases |second|
  {
    if second == [] {
      assert first + second == first;
    } else {
      RunFromConcat(s, first, second[..|second| - 1]);
      assert (first + second)[..|first + second| - 1] == first + second[..|second| - 1];
    }
  }
}
