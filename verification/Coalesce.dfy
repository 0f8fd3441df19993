/** Identical concurrent calls share one upstream call. */
module Coalesce {
  import opened Wrappers
  import opened Rpc
  import opened Chains
  import opened Runs

  // ------------------------------------------------------------------------ the key

  const SEPARATOR: string := "\0"

  function CallKey(methodName: string, params: string): string { methodName + SEPARATOR + params }

  function KeyOf(r: Request): string { CallKey(r.methodName, r.params) }

  predicate Plain(methodName: string) { '\0' !in methodName }

  predicate Continues(longer: string, shorter: string) { shorter + SEPARATOR <= longer }

  /** Different methods can share a key exactly when one goes on after the other and a separator. */
  lemma KeysCollideExactly(m1: string, m2: string)
    ensures (exists p1, p2 :: CallKey(m1, p1) == CallKey(m2, p2)) <==>
      m1 == m2 || Continues(m1, m2) || Continues(m2, m1)
  {
    if p1, p2 :| CallKey(m1, p1) == CallKey(m2, p2) {
      var k1, k2 := CallKey(m1, p1), CallKey(m2, p2);
      assert k1[..|m1|] == m1 && k2[..|m2|] == m2;
      if |m1| < |m2| {
        assert k1[..|m1| + 1] == m1 + SEPARATOR;
      } else if |m2| < |m1| {
        assert k2[..|m2| + 1] == m2 + SEPARATOR;
      }
    }
    if m1 == m2 {
      assert CallKey(m1, "") == CallKey(m2, "");
    } else if Continues(m1, m2) {
      assert CallKey(m1, "") == CallKey(m2, m1[|m2| + 1..] + SEPARATOR);
    } else if Continues(m2, m1) {
      assert CallKey(m2, "") == CallKey(m1, m2[|m1| + 1..] + SEPARATOR);
    }
  }

  lemma ContinuesMeansSeparator(longer: string, shorter: string)
    ensures Continues(longer, shorter) ==> !Plain(longer)
  {
    if Continues(longer, shorter) {
      assert longer[|shorter|] == '\0';
    }
  }

  /** For methods without a separator a key stands for one method and one text of parameters. */
  lemma KeyIsInjective(m1: string, p1: string, m2: string, p2: string)
    requires Plain(m1) && Plain(m2)
    ensures CallKey(m1, p1) == CallKey(m2, p2) <==> m1 == m2 && p1 == p2
  {
    if CallKey(m1, p1) == CallKey(m2, p2) {
      KeysCollideExactly(m1, m2);
      ContinuesMeansSeparator(m1, m2);
      ContinuesMeansSeparator(m2, m1);
      assert CallKey(m1, p1)[|m1| + 1..] == p1 && CallKey(m2, p2)[|m2| + 1..] == p2;
    }
  }

  const EVM_STATE_METHODS: seq<string> := [
    "eth_call", "eth_getBalance", "eth_getCode", "eth_getStorageAt", "eth_getTransactionCount", "eth_estimateGas",
    "eth_gasPrice", "eth_feeHistory", "eth_maxPriorityFeePerGas"
  ]

  const EVM_CHAIN_METHODS: seq<string> := [
    "eth_getTransactionByHash", "eth_getTransactionReceipt", "eth_getBlockByNumber", "eth_getBlockByHash",
    "eth_getBlockReceipts", "eth_getLogs", "eth_blockNumber", "eth_chainId", "net_version", "web3_clientVersion"
  ]

  const SOLANA_METHODS: seq<string> := [
    "getAccountInfo", "getMultipleAccounts", "getBalance", "getBlock", "getBlockHeight", "getSlot", "getTransaction",
    "getSignatureStatuses", "getLatestBlockhash", "getEpochInfo", "getVersion", "getGenesisHash", "getHealth",
    "getTokenAccountBalance"
  ]

  const BTC_METHODS: seq<string> := [
    "getblock", "getblockhash", "getblockheader", "getblockcount", "getblockchaininfo", "getrawtransaction",
    "getnetworkinfo", "getmempoolinfo", "gettxout", "estimatesmartfee"
  ]

  predicate Coalesceable(kind: Kind, methodName: string) {
    match kind
    case Solana => methodName in SOLANA_METHODS
    case Btc => methodName in BTC_METHODS
    case _ => methodName in EVM_STATE_METHODS || methodName in EVM_CHAIN_METHODS
  }

  lemma EvmStateIsPlain(methodName: string)
    requires methodName in EVM_STATE_METHODS
    ensures Plain(methodName)
  {
  }

  lemma EvmChainIsPlain(methodName: string)
    requires methodName in EVM_CHAIN_METHODS
    ensures Plain(methodName)
  {
  }

  lemma SolanaIsPlain(methodName: string)
    requires methodName in SOLANA_METHODS
    ensures Plain(methodName)
  {
  }

  lemma BtcIsPlain(methodName: string)
    requires methodName in BTC_METHODS
    ensures Plain(methodName)
  {
  }

  lemma CoalesceableIsPlain(kind: Kind, methodName: string)
    requires Coalesceable(kind, methodName)
    ensures Plain(methodName)
  {
    match kind
    case Solana => SolanaIsPlain(methodName);
    case Btc => BtcIsPlain(methodName);
    case _ => if methodName in EVM_STATE_METHODS { EvmStateIsPlain(methodName); } else { EvmChainIsPlain(methodName); }
  }

  // ---------------------------------------------------------------------- the group

  /** What the shared call comes to: the response to its one request, or an error. */
  datatype Upshot = Value(response: Response) | Error(code: int)

  datatype Phase = Arriving | Waiting(call: nat) | Served(call: nat, reply: Upshot) | Gone

  datatype Client = Client(request: Request, phase: Phase)

  /** An upstream call, made with the request of whoever came first. */
  datatype Call = Call(request: Request, upshot: Option<Upshot>)

  /** inflight names the open call for each key. */
  datatype Group = Group(clients: seq<Client>, calls: seq<Call>, inflight: map<string, nat>)

  datatype Action = Arrive(x: nat) | Finish(call: nat, upshot: Upshot) | Receive(x: nat) | Leave(x: nat)

  /** The shared response with this client's own id; an error is passed on as it is. */
  function Stamped(upshot: Upshot, id: Id): Upshot {
    match upshot
    case Value(response) => Value(response.(id := id))
    case Error(_) => upshot
  }

  function Becomes(g: Group, x: nat, phase: Phase): Group
    requires x < |g.clients|
  {
    g.(clients := g.clients[x := g.clients[x].(phase := phase)])
  }

  function Joined(g: Group, x: nat): Group
    requires x < |g.clients|
  {
    var r := g.clients[x].request;
    if KeyOf(r) in g.inflight then Becomes(g, x, Waiting(g.inflight[KeyOf(r)]))
    else Becomes(g, x, Waiting(|g.calls|)).(
           calls := g.calls + [Call(r, None)], inflight := g.inflight[KeyOf(r) := |g.calls|])
  }

  function Finished(g: Group, i: nat, upshot: Upshot): Group
    requires i < |g.calls|
  {
    g.(calls := g.calls[i := g.calls[i].(upshot := Some(upshot))], inflight := g.inflight - {KeyOf(g.calls[i].request)})
  }

  predicate CanReceive(g: Group, x: nat) {
    && x < |g.clients| && g.clients[x].phase.Waiting? && g.clients[x].phase.call < |g.calls|
    && g.calls[g.clients[x].phase.call].upshot.Some?
  }

  function Received(g: Group, x: nat): Group
    requires CanReceive(g, x)
  {
    var i := g.clients[x].phase.call;
    Becomes(g, x, Served(i, Stamped(g.calls[i].upshot.value, g.clients[x].request.id)))
  }

  function Step(g: Group, a: Action): (after: Group)
    ensures |after.clients| == |g.clients| && |after.calls| >= |g.calls|
  {
    match a
    case Arrive(x) => if x < |g.clients| && g.clients[x].phase.Arriving? then Joined(g, x) else g
    case Finish(i, upshot) => if i < |g.calls| && g.calls[i].upshot.None? then Finished(g, i, upshot) else g
    case Receive(x) => if CanReceive(g, x) then Received(g, x) else g
    case Leave(x) => if x < |g.clients| && g.clients[x].phase.Waiting? then Becomes(g, x, Gone) else g
  }

  function Run(g: Group, actions: seq<Action>): (after: Group)
    ensures |after.clients| == |g.clients| && |after.calls| >= |g.calls|
  {
    if actions == [] then g else Step(Run(g, actions[..|actions| - 1]), actions[|actions| - 1])
  }

  predicate Init(g: Group) {
    g.calls == [] && g.inflight == map[] && forall x :: 0 <= x < |g.clients| ==> g.clients[x].phase.Arriving?
  }

  // ---------------------------------------------------------------------- invariant

  /** The open calls are exactly those the group knows by their key. */
  predicate OpenCalls(g: Group) {
    && (forall k :: k in g.inflight ==>
          g.inflight[k] < |g.calls| && g.calls[g.inflight[k]].upshot.None?
            && KeyOf(g.calls[g.inflight[k]].request) == k)
    && (forall i :: 0 <= i < |g.calls| && g.calls[i].upshot.None? ==>
          KeyOf(g.calls[i].request) in g.inflight && g.inflight[KeyOf(g.calls[i].request)] == i)
  }

  predicate OwnCall(g: Group, c: Client, i: nat) { i < |g.calls| && KeyOf(g.calls[i].request) == KeyOf(c.request) }

  predicate ClientFits(g: Group, c: Client) {
    match c.phase
    case Waiting(i) => OwnCall(g, c, i)
    case Served(i, reply) =>
      OwnCall(g, c, i) && g.calls[i].upshot.Some? && reply == Stamped(g.calls[i].upshot.value, c.request.id)
    case _ => true
  }

  ghost predicate Inv(g: Group) { OpenCalls(g) && forall x :: 0 <= x < |g.clients| ==> ClientFits(g, g.clients[x]) }

  /** Calls keep their request and, once it is there, their result. */
  predicate Grows(g: Group, h: Group) {
    && |g.clients| == |h.clients| && |g.calls| <= |h.calls|
    && (forall i :: 0 <= i < |g.calls| ==> h.calls[i].request == g.calls[i].request)
    && (forall i :: 0 <= i < |g.calls| && g.calls[i].upshot.Some? ==> h.calls[i] == g.calls[i])
    && (forall x :: 0 <= x < |g.clients| ==> h.clients[x].request == g.clients[x].request)
  }

  lemma ClientsStillFit(g: Group, h: Group, x: nat)
    requires Inv(g) && Grows(g, h) && x < |g.clients|
    ensures ClientFits(h, g.clients[x])
  {
    assert ClientFits(g, g.clients[x]);
  }

  lemma JoinKeepsInv(g: Group, x: nat)
    requires Inv(g) && x < |g.clients|
    ensures Inv(Joined(g, x)) && Grows(g, Joined(g, x))
  {
    var h := Joined(g, x);
    forall y | 0 <= y < |h.clients|
      ensures ClientFits(h, h.clients[y])
    {
      ClientsStillFit(g, h, y);
    }
  }

  lemma FinishKeepsInv(g: Group, i: nat, upshot: Upshot)
    requires Inv(g) && i < |g.calls| && g.calls[i].upshot.None?
    ensures Inv(Finished(g, i, upshot)) && Grows(g, Finished(g, i, upshot))
  {
    var h := Finished(g, i, upshot);
    forall y | 0 <= y < |h.clients|
      ensures ClientFits(h, h.clients[y])
    {
      ClientsStillFit(g, h, y);
    }
  }

  lemma MoveKeepsInv(g: Group, x: nat, phase: Phase)
    requires Inv(g) && x < |g.clients| && ClientFits(g, g.clients[x].(phase := phase))
    ensures Inv(Becomes(g, x, phase)) && Grows(g, Becomes(g, x, phase))
  {
    var h := Becomes(g, x, phase);
    forall y | 0 <= y < |h.clients|
      ensures ClientFits(h, h.clients[y])
    {
      ClientsStillFit(g, h, y);
    }
  }

  lemma StepKeepsInv(g: Group, a: Action)
    requires Inv(g)
    ensures Inv(Step(g, a)) && Grows(g, Step(g, a))
  {
    match a
    case Arrive(x) => if x < |g.clients| && g.clients[x].phase.Arriving? { JoinKeepsInv(g, x); }
    case Finish(i, upshot) => if i < |g.calls| && g.calls[i].upshot.None? { FinishKeepsInv(g, i, upshot); }
    case Receive(x) =>
      if CanReceive(g, x) {
        assert ClientFits(g, g.clients[x]);
        var i := g.clients[x].phase.call;
        MoveKeepsInv(g, x, Served(i, Stamped(g.calls[i].upshot.value, g.clients[x].request.id)));
      }
    case Leave(x) => if x < |g.clients| && g.clients[x].phase.Waiting? { MoveKeepsInv(g, x, Gone); }
  }

  lemma {:induction false} RunKeepsInv(g: Group, actions: seq<Action>)
    requires Inv(g)
    ensures Inv(Run(g, actions)) && Grows(g, Run(g, actions))
  {
    if actions != [] {
      RunKeepsInv(g, actions[..|actions| - 1]);
      StepKeepsInv(Run(g, actions[..|actions| - 1]), actions[|actions| - 1]);
    }
  }

  // --------------------------------------------------------------------- consequences

  /** In every run at most one upstream call per method and parameters is open. */
  lemma OneOpenCallPerKey(g: Group, actions: seq<Action>, i: nat, j: nat)
    requires Init(g)
    requires i < |Run(g, actions).calls| && j < |Run(g, actions).calls| && i != j
    ensures var calls := Run(g, actions).calls;
      calls[i].upshot.None? && calls[j].upshot.None? ==> KeyOf(calls[i].request) != KeyOf(calls[j].request)
  {
    RunKeepsInv(g, actions);
  }

  /** Whoever is served gets the answer to its own method and parameters, complete but for the id,
      which is its own. */
  lemma AnswerIsOwn(g: Group, actions: seq<Action>, x: nat)
    requires Init(g) && x < |g.clients| && Run(g, actions).clients[x].phase.Served?
    requires forall y :: 0 <= y < |g.clients| ==> Plain(g.clients[y].request.methodName)
    ensures var h, own := Run(g, actions), g.clients[x].request;
      var i := h.clients[x].phase.call;
      && i < |h.calls| && h.calls[i].upshot.Some?
      && h.calls[i].request.methodName == own.methodName && h.calls[i].request.params == own.params
      && h.clients[x].phase.reply == match h.calls[i].upshot.value
         case Value(response) =>
           Value(Response(response.version, own.id, response.result, response.methodName, response.params,
               response.error))
         case Error(code) => Error(code)
  {
    RunKeepsInv(g, actions);
    CallersAreClients(g, actions);
    var h := Run(g, actions);
    assert ClientFits(h, h.clients[x]);
    var leader := h.calls[h.clients[x].phase.call].request;
    KeyIsInjective(leader.methodName, leader.params, g.clients[x].request.methodName, g.clients[x].request.params);
  }

  ghost predicate SentBySomebody(g: Group, r: Request) {
    exists y :: 0 <= y < |g.clients| && g.clients[y].request == r
  }

  lemma CallerIsClient(g: Group, a: Action, i: nat)
    requires Inv(g) && i < |Step(g, a).calls|
    ensures (i < |g.calls| && Step(g, a).calls[i].request == g.calls[i].request)
      || SentBySomebody(g, Step(g, a).calls[i].request)
  {
    StepKeepsInv(g, a);
    if i >= |g.calls| {
      assert a.Arrive? && Step(g, a).calls[i].request == g.clients[a.x].request;
    }
  }

  /** Every upstream call is made with some client's request. */
  lemma {:induction false} CallersAreClients(g: Group, actions: seq<Action>)
    requires Init(g)
    ensures forall i :: 0 <= i < |Run(g, actions).calls| ==> SentBySomebody(g, Run(g, actions).calls[i].request)
  {
    if actions != [] {
      var before, a := actions[..|actions| - 1], actions[|actions| - 1];
      CallersAreClients(g, before);
      RunKeepsInv(g, before);
      var m := Run(g, before);
      forall i | 0 <= i < |Step(m, a).calls|
        ensures SentBySomebody(g, Step(m, a).calls[i].request)
      {
        CallerIsClient(m, a, i);
        if SentBySomebody(m, Step(m, a).calls[i].request) {
          var y :| 0 <= y < |m.clients| && m.clients[y].request == Step(m, a).calls[i].request;
          assert g.clients[y].request == m.clients[y].request;
        }
      }
    }
  }

  /** Nobody is served from a call that was over before it came. */
  lemma {:induction false} NoStaleAnswers(g: Group, before: seq<Action>, after: seq<Action>, x: nat, i: nat)
    requires Init(g) && x < |g.clients| && Run(g, before).clients[x].phase.Arriving?
    requires i < |Run(g, before).calls| && Run(g, before).calls[i].upshot.Some?
    ensures Apart(Run(Run(g, before), after), x, i)
  {
    if after != [] {
      var m, last := Run(Run(g, before), after[..|after| - 1]), after[|after| - 1];
      NoStaleAnswers(g, before, after[..|after| - 1], x, i);
      RunKeepsInv(g, before);
      RunKeepsInv(Run(g, before), after[..|after| - 1]);
      NotJoinedLate(m, last, x, i);
    }
  }

  /** The client is neither waiting for this call nor served from it. */
  predicate Apart(g: Group, x: nat, i: nat)
    requires x < |g.clients|
  {
    var phase := g.clients[x].phase;
    !(phase.Waiting? && phase.call == i) && !(phase.Served? && phase.call == i)
  }

  lemma NotJoinedLate(g: Group, a: Action, x: nat, i: nat)
    requires Inv(g) && x < |g.clients| && i < |g.calls| && g.calls[i].upshot.Some? && Apart(g, x, i)
    ensures Apart(Step(g, a), x, i)
  {
  }

  /** Nobody waits in vain: the call it waits for is over and its answer ready, or still open and
      its end, whatever it is, brings the answer. */
  lemma WaiterGetsAnswer(g: Group, actions: seq<Action>, x: nat, upshot: Upshot)
    requires Init(g) && x < |g.clients| && Run(g, actions).clients[x].phase.Waiting?
    ensures var h := Run(g, actions);
      var i := h.clients[x].phase.call;
      i < |h.calls| &&
      Step(Step(h, Finish(i, upshot)), Receive(x)).clients[x].phase
        == Served(i, Stamped(if h.calls[i].upshot.Some? then h.calls[i].upshot.value else upshot,
            g.clients[x].request.id))
  {
    RunKeepsInv(g, actions);
    var h := Run(g, actions);
    assert ClientFits(h, h.clients[x]);
  }

  // ------------------------------------------------------------------------ departures

  function WithoutDeparture(actions: seq<Action>, x: nat): seq<Action> {
    if actions == [] then [] else
      var before, last := WithoutDeparture(actions[..|actions| - 1], x), actions[|actions| - 1];
      if last == Leave(x) then before else before + [last]
  }

  /** The two groups differ at most in how far client x has come. */
  predicate SameForOthers(g: Group, h: Group, x: nat) {
    && g.calls == h.calls && g.inflight == h.inflight && |g.clients| == |h.clients|
    && (forall y :: 0 <= y < |g.clients| && y != x ==> g.clients[y] == h.clients[y])
    && (x < |g.clients| ==> g.clients[x].request == h.clients[x].request
                            && (g.clients[x].phase.Arriving? <==> h.clients[x].phase.Arriving?))
  }

  /** A client that leaves, even the one whose request went upstream, makes no difference to any
      upstream call nor to any other client. */
  lemma {:induction false} DepartureHarmsNobody(g: Group, actions: seq<Action>, x: nat)
    ensures SameForOthers(Run(g, actions), Run(g, WithoutDeparture(actions, x)), x)
  {
    if actions != [] {
      var before, last := actions[..|actions| - 1], actions[|actions| - 1];
      DepartureHarmsNobody(g, before, x);
      var kept := WithoutDeparture(before, x);
      if last != Leave(x) {
        assert (kept + [last])[..|kept|] == kept;
        StepSameForOthers(Run(g, before), Run(g, kept), last, x);
      }
    }
  }

  lemma StepSameForOthers(g: Group, h: Group, a: Action, x: nat)
    requires SameForOthers(g, h, x)
    ensures SameForOthers(Step(g, a), Step(h, a), x)
  {
    match a
    case Arrive(y) =>
      if y < |g.clients| && g.clients[y].phase.Arriving? { JoinSameForOthers(g, h, y, x); }
    case Finish(_, _) =>
    case Receive(y) => ReceiveSameForOthers(g, h, y, x);
    case Leave(_) =>
  }

  lemma JoinSameForOthers(g: Group, h: Group, y: nat, x: nat)
    requires SameForOthers(g, h, x) && y < |g.clients| && g.clients[y].phase.Arriving?
    ensures SameForOthers(Joined(g, y), Joined(h, y), x)
  {
  }

  lemma ReceiveSameForOthers(g: Group, h: Group, y: nat, x: nat)
    requires SameForOthers(g, h, x)
    ensures SameForOthers(Step(g, Receive(y)), Step(h, Receive(y)), x)
  {
  }

  // ------------------------------------------------------------- arriving and leaving

  /** A call with this key is open. */
  ghost predicate OpenFor(g: Group, k: string) {
    exists i: nat :: i < |g.calls| && g.calls[i].upshot.None? && KeyOf(g.calls[i].request) == k
  }

  /** In every run a client that arrives waits for an open call with its own method and parameters: the one
      there is, or a new one with its own request if there is none. */
  lemma ArrivingShares(g: Group, actions: seq<Action>, x: nat)
    requires Init(g) && x < |g.clients| && Run(g, actions).clients[x].phase.Arriving?
    requires forall y :: 0 <= y < |g.clients| ==> Plain(g.clients[y].request.methodName)
    ensures var was, own := Run(g, actions), g.clients[x].request;
      var now := Step(was, Arrive(x));
      && now.clients[x].phase.Waiting?
      && var i := now.clients[x].phase.call;
         && i < |now.calls| && now.calls[i].upshot.None?
         && now.calls[i].request.methodName == own.methodName && now.calls[i].request.params == own.params
         && (if OpenFor(was, KeyOf(own)) then now.calls == was.calls
             else now.calls == was.calls + [Call(own, None)] && i == |was.calls|)
  {
    RunKeepsInv(g, actions);
    CallersAreClients(g, actions);
    var was, own := Run(g, actions), g.clients[x].request;
    if KeyOf(own) in was.inflight {
      var i := was.inflight[KeyOf(own)];
      var leader := was.calls[i].request;
      KeyIsInjective(leader.methodName, leader.params, own.methodName, own.params);
      assert OpenFor(was, KeyOf(own));
    }
  }

  /** Nobody else's step changes where a client is. */
  lemma OthersLeaveClient(g: Group, a: Action, x: nat)
    requires x < |g.clients|
    ensures (a.Arrive? || a.Receive? || a.Leave?) && a.x != x ==> Step(g, a).clients[x] == g.clients[x]
    ensures a.Finish? ==> Step(g, a).clients[x] == g.clients[x]
  {
  }

  /** A client is still to come exactly if it has not arrived, and gone only if it left. */
  lemma {:induction false} ComingsAndGoings(g: Group, actions: seq<Action>, x: nat)
    requires Init(g) && x < |g.clients|
    ensures var phase := Run(g, actions).clients[x].phase;
      && (phase.Arriving? <==> Arrive(x) !in actions)
      && (phase.Gone? ==> Leave(x) in actions)
      && (phase.Served? ==> Receive(x) in actions)
      && (phase.Waiting? || phase.Gone? || phase.Served? ==> Arrive(x) in actions)
  {
    if actions != [] {
      var before, a := actions[..|actions| - 1], actions[|actions| - 1];
      ComingsAndGoings(g, before, x);
      RunKeepsInv(g, before);
      OthersLeaveClient(Run(g, before), a, x);
      assert actions == before + [a];
    }
  }

  /** A client that leaves while it waits is gone, and no longer served. */
  lemma LeavingEnds(g: Group, x: nat)
    requires x < |g.clients| && g.clients[x].phase.Waiting?
    ensures Step(g, Leave(x)).clients[x].phase.Gone? && Step(Step(g, Leave(x)), Receive(x)) == Step(g, Leave(x))
  {
  }

  /** Such a step ends open call i, with this result. */
  function EndsWith(i: nat, upshot: Upshot): (Group, Action) -> bool {
    (g: Group, a: Action) => a == Finish(i, upshot) && i < |g.calls| && g.calls[i].upshot.None?
  }

  function RunOf(g: Group): seq<Action> -> Group { actions => Run(g, actions) }

  /** In every run the result of a call is the one its end brought. */
  lemma ResultsAreEnds(g: Group, actions: seq<Action>, i: nat, upshot: Upshot)
    requires Init(g)
    ensures var h := Run(g, actions);
      i < |h.calls| && h.calls[i].upshot == Some(upshot) <==>
        exists k: nat :: Took(RunOf(g), actions, k, EndsWith(i, upshot))
  {
    var flag := (h: Group) => i < |h.calls| && h.calls[i].upshot == Some(upshot);
    forall before: seq<Action>, a: Action
      ensures Run(g, before + [a]) == Step(Run(g, before), a)
    {
      assert (before + [a])[..|before + [a]| - 1] == before;
    }
    forall h, a
      ensures flag(Step(h, a)) <==> flag(h) || EndsWith(i, upshot)(h, a)
    {
    }
    FlagExactly(RunOf(g), Step, actions, EndsWith(i, upshot), flag);
  }
}
