/** The card worker: one client handle with its cache, a bounded request queue, one worker thread, one-shot replies.

    A run is any list of steps; a step that is not enabled does nothing. The client's calls can be cancelled at any
    point between submitting a request and receiving its reply. */
module CardProtocol {
  import opened Wrappers
  import opened Card

  const MAX_HANDSHAKE_REQUEST := 32

  datatype Op = Dh(peerPk: Bytes) | PubKey

  /** `id` numbers the accepted requests; it stands for the request's one-shot reply channel. */
  datatype Request = Request(id: nat, op: Op)

  /** `Dropped` is a reply channel closed without an answer. */
  datatype Reply = DhReply(result: Result<Bytes, SmartcardError>) | KeyReply(key: Bytes) | Dropped

  datatype Served = Served(req: Request, reply: Reply)

  /** Why the client asks: to fill its cache, for a handshake, or for its public key. */
  datatype Why = Priming | Mixing | Identity

  datatype Waiting = Waiting(id: nat, why: Why)

  /** What a caller saw. `req` is the request that was answered, or `None` for a call that returned at once. */
  datatype Returned = Returned(req: Option<nat>, why: Why, op: Op, reply: Reply)

  datatype Worker = Idle | Busy(req: Request) | Halted

  /** What the worker was started with. */
  datatype Context = Context(w: World, ident: string, pin: string)

  /** `accepted`, `served` and `returned` are histories: the requests that entered the queue, those answered, and the
      results the client's callers saw. */
  datatype State = State(
    cache: map<Bytes, Bytes>,
    waiting: Option<Waiting>,
    alive: bool,
    queue: seq<Request>,
    worker: Worker,
    card: CardState,
    accepted: seq<Request>,
    served: seq<Served>,
    returned: seq<Returned>)

  datatype Step =
    | Mix(peerPk: Bytes)
    | Prime(peerPk: Bytes)
    | AskPublicKey
    | Forget(peerPk: Bytes)
    | Cancel
    | DropHandle
    | Receive
    | Serve
    | Halt
    | Outside(chips: map<nat, Chip>)

  /** The state after a successful open. */
  function Opening(card: CardState): State {
    State(map[], None, true, [], Idle, card, [], [], [])
  }

  predicate Enabled(s: State, step: Step) {
    match step
    case Mix(_) => s.alive && s.waiting.None?
    case Prime(_) => s.alive && s.waiting.None?
    case AskPublicKey => s.alive && s.waiting.None?
    case Forget(_) => s.alive && s.waiting.None?
    case Cancel => s.waiting.Some?
    case DropHandle => s.alive
    case Receive => s.worker.Idle? && s.queue != []
    case Serve => s.worker.Busy?
    case Halt => s.worker.Idle? && s.queue == [] && !s.alive
    case Outside(chips) => chips.Keys == s.card.chips.Keys
  }

  /** The state after a failed open: the worker has ended, and there is no handle to send it anything. */
  function NeverOpened(card: CardState): State {
    State(map[], None, false, [], Halted, card, [], [], [])
  }

  function Give(s: State, req: Option<nat>, why: Why, op: Op, reply: Reply): State {
    s.(returned := s.returned + [Returned(req, why, op, reply)])
  }

  /** `try_send`: refused when the worker is gone or the queue is full. */
  function Submit(s: State, why: Why, op: Op): State {
    if s.worker.Halted? then Give(s, None, why, op, DhReply(Err(CardError)))
    else if |s.queue| >= MAX_HANDSHAKE_REQUEST then Give(s, None, why, op, DhReply(Err(QueueFull)))
    else
      var r := Request(|s.accepted|, op);
      s.(queue := s.queue + [r], accepted := s.accepted + [r], waiting := Some(Waiting(r.id, why)))
  }

  /** One request on the card. */
  function Execute(c: Context, card: CardState, op: Op): (CardState, Reply) {
    match op
    case Dh(pk) =>
      var (card1, r) := DecipherWithRetry(c.w, card, c.ident, c.pin, pk);
      (card1, DhReply(r))
    case PubKey =>
      var (card1, k) := ReadPublicKey(c.w, card);
      (card1, if k.Some? then KeyReply(k.value) else Dropped)
  }

  /** The reply reaches the client only if the client still waits for this very request; priming stores a key. */
  function Deliver(s: State, req: Request, reply: Reply): State {
    if s.waiting.None? || s.waiting.value.id != req.id then s else
    var why := s.waiting.value.why;
    var s1 := Give(s.(waiting := None), Some(req.id), why, req.op, reply);
    if why.Priming? && req.op.Dh? && reply.DhReply? && reply.result.Ok? then
      s1.(cache := s.cache[req.op.peerPk := reply.result.value])
    else s1
  }

  function Next(c: Context, s: State, step: Step): State
    requires Enabled(s, step)
  {
    match step
    case Mix(pk) =>
      if pk in s.cache then Give(s, None, Mixing, Dh(pk), DhReply(Ok(s.cache[pk])))
      else Submit(s, Mixing, Dh(pk))
    case Prime(pk) => Submit(s, Priming, Dh(pk))
    case AskPublicKey => Submit(s, Identity, PubKey)
    case Forget(pk) => s.(cache := s.cache - {pk})
    case Cancel => s.(waiting := None)
    case DropHandle => s.(alive := false, waiting := None, cache := map[])
    case Receive => s.(worker := Busy(s.queue[0]), queue := s.queue[1..])
    case Serve =>
      var (card1, reply) := Execute(c, s.card, s.worker.req.op);
      var s1 := s.(card := card1, worker := Idle, served := s.served + [Served(s.worker.req, reply)]);
      Deliver(s1, s.worker.req, reply)
    case Halt => s.(worker := Halted)
    case Outside(chips) => s.(card := s.card.(chips := chips))
  }

  function Run(c: Context, s: State, steps: seq<Step>): State
    decreases |steps|
  {
    if steps == [] then s
    else Run(c, if Enabled(s, steps[0]) then Next(c, s, steps[0]) else s, steps[1..])
  }

  // ---------------------------------------------------------------- the invariant

  function Requests(served: seq<Served>): (r: seq<Request>)
    ensures |r| == |served|
  {
    seq(|served|, i requires 0 <= i < |served| => served[i].req)
  }

  function InService(s: State): seq<Request> {
    if s.worker.Busy? then [s.worker.req] else []
  }

  /** Every accepted request is in exactly one place, and the places are in order: answered, in service, queued. */
  ghost predicate InOrder(s: State) {
    && Requests(s.served) + InService(s) + s.queue == s.accepted
    && forall i :: 0 <= i < |s.accepted| ==> s.accepted[i].id == i
  }

  /** The request a client waits for is still on its way, and asks for what the client wants. */
  predicate WaitsRightly(s: State) {
    s.waiting.Some? ==>
      && s.alive && |s.served| <= s.waiting.value.id < |s.accepted|
      && (s.accepted[s.waiting.value.id].op.PubKey? <==> s.waiting.value.why.Identity?)
  }

  /** A result for `op` is what it should be. */
  ghost predicate Right(c: Context, op: Op, reply: Reply) {
    && (op.Dh? && reply.DhReply? && reply.result.Ok? ==> SharedSecret(c.w, c.ident, op.peerPk, reply.result.value))
    && (reply.KeyReply? ==> IsPublicKey(c.w, c.ident, reply.key))
  }

  /** `k` is the public key in the decryption slot of a card bearing `ident`. */
  ghost predicate IsPublicKey(w: World, ident: string, k: Bytes) {
    exists id: nat :: w.ident(id) == ident && KeySlotOk(w, id) && k == w.publicKey(id).value[..KEY_LEN]
  }

  /** What callers were handed are the recorded answers to their requests; no answer is handed out twice. */
  ghost predicate Delivered(s: State) {
    && (forall r :: r in s.returned && r.req.Some? ==>
          r.req.value < |s.served| && s.served[r.req.value] == Served(Request(r.req.value, r.op), r.reply))
    && (forall i, j :: 0 <= i < j < |s.returned| && s.returned[i].req.Some? && s.returned[j].req.Some? ==>
          s.returned[i].req.value < s.returned[j].req.value)
  }

  /** A priming of this key was answered by the card and awaited to its end, and this is its result. */
  ghost predicate PrimedWith(returned: seq<Returned>, pk: Bytes, k: Bytes) {
    exists r :: r in returned && r.req.Some? && r.why.Priming? && r.op == Dh(pk) && r.reply == DhReply(Ok(k))
  }

  ghost predicate CacheIsPrimed(s: State) {
    forall pk :: pk in s.cache ==> PrimedWith(s.returned, pk, s.cache[pk])
  }

  /** Everything cached, answered or handed out is what it should be. */
  ghost predicate AllRight(c: Context, s: State) {
    && (forall pk :: pk in s.cache ==> SharedSecret(c.w, c.ident, pk, s.cache[pk]))
    && (forall d :: d in s.served ==> (d.req.op.Dh? <==> d.reply.DhReply?) && Right(c, d.req.op, d.reply))
    && (forall r :: r in s.returned ==> Right(c, r.op, r.reply))
  }

  ghost predicate Inv(c: Context, s: State) {
    && InOrder(s) && WaitsRightly(s) && Delivered(s) && CacheIsPrimed(s) && AllRight(c, s)
    && |s.queue| <= MAX_HANDSHAKE_REQUEST
    && (s.worker.Halted? ==> s.queue == [] && !s.alive)
    && c.w.ident(s.card.held) == c.ident
  }

  lemma OpeningInv(c: Context, card: CardState)
    requires c.w.ident(card.held) == c.ident
    ensures Inv(c, Opening(card))
  {
  }

  /** What the worker's start leads to. */
  function Launched(c: Context, st: CardState, requested: string): State {
    var (st1, r) := OpenAndVerify(c.w, st, requested, c.pin);
    if r.Opened? then Opening(st1) else NeverOpened(st1)
  }

  /** The worker serves requests only after a successful open, with the ident and the PIN of the card it opened.
      After any other open nothing is ever accepted, served or returned, and the PIN is tried at most once, whatever
      follows. */
  lemma {:induction false} OpenOrNothing(c: Context, st: CardState, requested: string, steps: seq<Step>)
    requires var r := OpenAndVerify(c.w, st, requested, c.pin).1; r.Opened? ==> c.ident == r.ident
    ensures var (st1, r) := OpenAndVerify(c.w, st, requested, c.pin);
            var s := Run(c, Launched(c, st, requested), steps);
            if r.Opened? then Inv(c, s) && st1.held in st1.chips && st1.chips[st1.held].pin == c.pin else
              && s.accepted == [] && s.served == [] && s.returned == [] && s.cache == map[] && !s.alive
              && s.card.verifies <= st.verifies + 1 && s.card.reconnects == st.reconnects
  {
    OpenSpends(c.w, st, requested, c.pin);
    var st1 := OpenAndVerify(c.w, st, requested, c.pin).0;
    if Launched(c, st, requested).alive {
      OpeningInv(c, st1);
      RunKeeps(c, Opening(st1), steps);
    } else {
      NeverServes(c, st1, steps);
    }
  }

  /** Without a handle only the cards change. */
  lemma {:induction false} NeverServes(c: Context, card: CardState, steps: seq<Step>)
    ensures var s := Run(c, NeverOpened(card), steps);
            s == NeverOpened(card.(chips := s.card.chips))
    decreases |steps|
  {
    if steps != [] {
      NeverServes(c, if steps[0].Outside? && Enabled(NeverOpened(card), steps[0]) then card.(chips := steps[0].chips)
                     else card, steps[1..]);
    }
  }

  lemma RequestsSnoc(served: seq<Served>, d: Served)
    ensures Requests(served + [d]) == Requests(served) + [d.req]
  {
  }

  lemma GiveKeeps(c: Context, s: State, why: Why, op: Op, reply: Reply)
    requires Inv(c, s) && Right(c, op, reply)
    ensures Inv(c, Give(s, None, why, op, reply))
  {
    StillPrimed(s, [Returned(None, why, op, reply)]);
  }

  lemma StillPrimed(s: State, more: seq<Returned>)
    requires CacheIsPrimed(s)
    ensures forall pk :: pk in s.cache ==> PrimedWith(s.returned + more, pk, s.cache[pk])
  {
    forall pk | pk in s.cache ensures PrimedWith(s.returned + more, pk, s.cache[pk]) {
      var r :| && r in s.returned && r.req.Some? && r.why.Priming? && r.op == Dh(pk)
               && r.reply == DhReply(Ok(s.cache[pk]));
      assert r in s.returned + more;
    }
  }

  lemma SubmitKeeps(c: Context, s: State, why: Why, op: Op)
    requires Inv(c, s) && s.alive && s.waiting.None? && (op.PubKey? <==> why.Identity?)
    ensures Inv(c, Submit(s, why, op))
  {
    if |s.queue| < MAX_HANDSHAKE_REQUEST {
      var r := Request(|s.accepted|, op);
      assert Requests(s.served) + InService(s) + (s.queue + [r]) == s.accepted + [r];
    }
  }

  lemma ReceiveKeeps(c: Context, s: State)
    requires Inv(c, s) && Enabled(s, Receive)
    ensures Inv(c, Next(c, s, Receive))
  {
    assert InService(s) + s.queue == [s.queue[0]] + s.queue[1..];
    assert Requests(s.served) + [s.queue[0]] + s.queue[1..] == Requests(s.served) + ([s.queue[0]] + s.queue[1..]);
    assert Requests(s.served) + InService(s) + s.queue == Requests(s.served) + (InService(s) + s.queue);
  }

  lemma ExecuteRight(c: Context, card: CardState, op: Op)
    requires c.w.ident(card.held) == c.ident
    ensures var (card1, reply) := Execute(c, card, op);
            c.w.ident(card1.held) == c.ident && Right(c, op, reply) && (op.Dh? <==> reply.DhReply?)
  {
    if op.Dh? {
      HeldKeepsIdent(c.w, card, c.ident, c.pin, op.peerPk);
      SuccessIsSharedSecret(c.w, card, c.ident, c.pin, op.peerPk);
    }
  }

  lemma ServeKeeps(c: Context, s: State)
    requires Inv(c, s) && Enabled(s, Serve)
    ensures Inv(c, Next(c, s, Serve))
  {
    var req := s.worker.req;
    var (card1, reply) := Execute(c, s.card, req.op);
    ExecuteRight(c, s.card, req.op);
    var d := Served(req, reply);
    RequestsSnoc(s.served, d);
    assert Requests(s.served) + [req] + [] + s.queue == s.accepted;
    assert s.accepted[|s.served|] == req;
    var s1 := s.(card := card1, worker := Idle, served := s.served + [d]);
    assert InOrder(s1);
    DeliverKeeps(c, s1, req, reply);
  }

  /** `s` is a state in which the last answer has been recorded but not yet delivered. */
  lemma DeliverKeeps(c: Context, s: State, req: Request, reply: Reply)
    requires |s.served| > 0 && s.served[|s.served| - 1] == Served(req, reply) && req.id == |s.served| - 1
    requires req.id < |s.accepted| && s.accepted[req.id] == req
    requires s.waiting.Some? ==>
               && s.alive && req.id <= s.waiting.value.id < |s.accepted|
               && (s.accepted[s.waiting.value.id].op.PubKey? <==> s.waiting.value.why.Identity?)
    requires Inv(c, s.(waiting := None)) && Right(c, req.op, reply)
    requires forall r :: r in s.returned && r.req.Some? ==> r.req.value < req.id
    ensures Inv(c, Deliver(s, req, reply))
  {
    DeliverPrimes(s, req, reply);
    DeliverDelivers(s, req, reply);
    DeliverRight(c, s, req, reply);
  }

  lemma DeliverRight(c: Context, s: State, req: Request, reply: Reply)
    requires AllRight(c, s) && Right(c, req.op, reply)
    ensures AllRight(c, Deliver(s, req, reply))
  {
  }

  lemma DeliverPrimes(s: State, req: Request, reply: Reply)
    requires CacheIsPrimed(s)
    ensures CacheIsPrimed(Deliver(s, req, reply))
  {
    if s.waiting.Some? && s.waiting.value.id == req.id {
      var r, e := Returned(Some(req.id), s.waiting.value.why, req.op, reply), Deliver(s, req, reply);
      StillPrimed(s, [r]);
      assert r in e.returned;
    }
  }

  lemma DeliverDelivers(s: State, req: Request, reply: Reply)
    requires |s.served| > 0 && s.served[|s.served| - 1] == Served(req, reply) && req.id == |s.served| - 1
    requires Delivered(s) && forall r :: r in s.returned && r.req.Some? ==> r.req.value < req.id
    ensures Delivered(Deliver(s, req, reply))
  {
  }

  lemma StepKeeps(c: Context, s: State, step: Step)
    requires Inv(c, s) && Enabled(s, step)
    ensures Inv(c, Next(c, s, step))
  {
    match step {
      case Mix(pk) =>
        if pk in s.cache {
          GiveKeeps(c, s, Mixing, Dh(pk), DhReply(Ok(s.cache[pk])));
        } else {
          SubmitKeeps(c, s, Mixing, Dh(pk));
        }
      case Prime(pk) => SubmitKeeps(c, s, Priming, Dh(pk));
      case AskPublicKey => SubmitKeeps(c, s, Identity, PubKey);
      case Receive => ReceiveKeeps(c, s);
      case Serve => ServeKeeps(c, s);
      case Forget(_) =>
      case Cancel =>
      case DropHandle =>
      case Halt =>
      case Outside(_) =>
    }
  }

  /** Every reachable state satisfies the invariant. */
  lemma {:induction false} RunKeeps(c: Context, s: State, steps: seq<Step>)
    requires Inv(c, s)
    ensures Inv(c, Run(c, s, steps))
    decreases |steps|
  {
    if steps != [] {
      if Enabled(s, steps[0]) {
        StepKeeps(c, s, steps[0]);
        RunKeeps(c, Next(c, s, steps[0]), steps[1..]);
      } else {
        RunKeeps(c, s, steps[1..]);
      }
    }
  }

  // ---------------------------------------------------------------- what follows for every run

  /** In every reachable state: the accepted requests are those answered, the one in service and those queued, in
      this order and once each; at most 32 are queued and 33 in flight; and every answer is a right one for its own
      request. */
  lemma WorkerProtocol(c: Context, card: CardState, steps: seq<Step>)
    requires c.w.ident(card.held) == c.ident
    ensures var s := Run(c, Opening(card), steps);
            && InOrder(s) && Requests(s.served) <= s.accepted
            && |s.queue| <= 32 && |s.accepted| - |s.served| <= 33
            && AllRight(c, s)
  {
    OpeningInv(c, card);
    RunKeeps(c, Opening(card), steps);
    var s := Run(c, Opening(card), steps);
    assert s.accepted == Requests(s.served) + (InService(s) + s.queue);
  }

  /** In every reachable state: what a caller was handed is the answer recorded for its own request, and no answer was
      handed out twice; and every cached secret was handed to a caller that primed it. */
  lemma AnswersReachTheirCallers(c: Context, card: CardState, steps: seq<Step>)
    requires c.w.ident(card.held) == c.ident
    ensures var s := Run(c, Opening(card), steps); Delivered(s) && CacheIsPrimed(s)
  {
    OpeningInv(c, card);
    RunKeeps(c, Opening(card), steps);
  }

  /** Exactly when the answer to a DH request is a key: if the held card answers at once, or, after one reconnect, the
      first card shown with the ident does. If the card answers at once, that key is the answer. */
  lemma ServeSucceedsIff(c: Context, s: State, pk: Bytes)
    requires Enabled(s, Serve) && s.worker.req.op == Dh(pk)
    ensures var s1 := Next(c, s, Serve);
            && |s1.served| == |s.served| + 1 && s1.served[..|s.served|] == s.served
            && s1.card == DecipherWithRetry(c.w, s.card, c.ident, c.pin, pk).0
            && var Served(req, reply) := s1.served[|s.served|];
               && req == s.worker.req && reply.DhReply?
               && (reply.result.Ok? <==> CanSucceed(c.w, s.card, c.ident, c.pin, pk))
               && (CardAnswers(c.w, s.card, c.pin, pk) ==>
                     reply.result == Ok(c.w.dh(c.w.secret(s.card.held), pk)[..32]))
  {
    RequestSucceedsIff(c.w, s.card, c.ident, c.pin, pk);
  }

  /** One failure of whatever kind is absorbed by the worker: if the card can be found again and the second attempt
      meets no obstacle, the request is answered with a key. */
  lemma ServeRecovers(c: Context, s: State, pk: Bytes, id: nat)
    requires Enabled(s, Serve) && s.worker.req.op == Dh(pk)
    requires id in s.card.chips && s.card.chips[id].pin == c.pin && s.card.chips[id].tries > 0
    requires var readers := c.w.readers(s.card.clock + 1);
             readers.Some? && exists i :: FirstWithIdent(c.w, readers.value, c.ident, i) && readers.value[i].chip == id
    requires var tick := s.card.clock + 2; c.w.transactionOk(tick) && c.w.verifyOk(tick) && c.w.decipherOk(tick)
    requires var ss := c.w.dh(c.w.secret(id), pk); |ss| >= 32 && exists i :: 0 <= i < 32 && ss[i] != 0
    ensures var s1 := Next(c, s, Serve);
            && |s1.served| == |s.served| + 1 && s1.served[|s.served|].req == s.worker.req
            && s1.served[|s.served|].reply.DhReply? && s1.served[|s.served|].reply.result.Ok?
            && (!CardAnswers(c.w, s.card, c.pin, pk) ==>
                  s1.card.held == id && s1.card.reconnects == s.card.reconnects + 1)
  {
    FindsFirst(c.w, c.w.readers(s.card.clock + 1).value, c.ident);
    RetryRecovers(c.w, s.card, c.ident, c.pin, pk, id);
  }

  /** The answer to a public-key request is the key of the card held, or the reply channel is dropped. */
  lemma ServesPublicKey(c: Context, s: State)
    requires Enabled(s, Serve) && s.worker.req.op == PubKey
    ensures var s1, tick, held := Next(c, s, Serve), s.card.clock, s.card.held;
            && |s1.served| == |s.served| + 1
            && s1.served[|s.served|]
               == Served(s.worker.req,
                         if c.w.transactionOk(tick) && c.w.keyReadOk(tick)
                            && c.w.publicKey(held).Some? && |c.w.publicKey(held).value| >= 32
                         then KeyReply(c.w.publicKey(held).value[..32]) else Dropped)
  {
  }

  /** The calls that send a request: a handshake whose secret is not cached, a priming, cached or not, and the
      question for the public key. */
  predicate Asks(s: State, step: Step, why: Why, op: Op) {
    || (op.Dh? && step == Mix(op.peerPk) && why == Mixing && op.peerPk !in s.cache)
    || (op.Dh? && step == Prime(op.peerPk) && why == Priming)
    || (step == AskPublicKey && op == PubKey && why == Identity)
  }

  /** In every reachable state such a call is accepted exactly while the worker lives and fewer than 32 requests are
      queued: the request goes to the end of the queue and the caller waits for it. Otherwise the call returns at once
      with the reason. The cache stays as it is. */
  lemma AcceptedIffRoom(c: Context, s: State, step: Step, why: Why, op: Op)
    requires Enabled(s, step) && Asks(s, step, why, op)
    ensures var s1, req := Next(c, s, step), Request(|s.accepted|, op);
            && s1.cache == s.cache && s1.served == s.served && s1.worker == s.worker && s1.card == s.card
            && if !s.worker.Halted? && |s.queue| < 32 then
                 && s1.queue == s.queue + [req] && s1.accepted == s.accepted + [req]
                 && s1.waiting == Some(Waiting(req.id, why)) && s1.returned == s.returned
               else
                 && s1.queue == s.queue && s1.accepted == s.accepted && s1.waiting.None?
                 && s1.returned == s.returned
                      + [Returned(None, why, op, DhReply(Err(if s.worker.Halted? then CardError else QueueFull)))]
  {
  }

  predicate Succeeds(op: Op, reply: Reply, pk: Bytes) {
    op == Dh(pk) && reply.DhReply? && reply.result.Ok?
  }

  /** `k` is what the key of the held card and the peer's key make, and it is not zero. */
  predicate SecretOfHeld(c: Context, card: CardState, pk: Bytes, k: Bytes) {
    var ss := c.w.dh(c.w.secret(card.held), pk);
    |ss| >= KEY_LEN && k == ss[..KEY_LEN] && !AllZero(k)
  }

  /** Cache agreement: every successful result for a peer key, and the cached value, is the secret of the card held
      now with that key; so a cache hit returns what a successful call to the card would return now. */
  lemma CacheAgreement(c: Context, card: CardState, steps: seq<Step>, pk: Bytes)
    requires c.w.ident(card.held) == c.ident && IdentFixesKey(c.w)
    ensures var s := Run(c, Opening(card), steps);
            && (pk in s.cache ==> SecretOfHeld(c, s.card, pk, s.cache[pk]))
            && (forall r :: r in s.returned && Succeeds(r.op, r.reply, pk) ==>
                  SecretOfHeld(c, s.card, pk, r.reply.result.value))
            && (forall d :: d in s.served && Succeeds(d.req.op, d.reply, pk) ==>
                  SecretOfHeld(c, s.card, pk, d.reply.result.value))
            && var now := Execute(c, s.card, Dh(pk)).1;
               pk in s.cache && Succeeds(Dh(pk), now, pk) ==> now == DhReply(Ok(s.cache[pk]))
  {
    OpeningInv(c, card);
    RunKeeps(c, Opening(card), steps);
    var s := Run(c, Opening(card), steps);
    forall k | SharedSecret(c.w, c.ident, pk, k) ensures SecretOfHeld(c, s.card, pk, k) {
      SharedSecretOfHeld(c.w, c.ident, s.card.held, pk, k);
    }
    ExecuteRight(c, s.card, Dh(pk));
  }

  /** A caller that keeps waiting gets the answer to its own request, when that request is served. */
  lemma WaiterGetsOwnAnswer(c: Context, s: State)
    requires Inv(c, s) && Enabled(s, Serve) && s.waiting.Some?
    ensures var s1 := Next(c, s, Serve);
            var Waiting(id, why) := s.waiting.value;
            if s.worker.req.id == id then
              && s.worker.req == s.accepted[id] && s1.waiting.None?
              && s1.returned == s.returned
                              + [Returned(Some(id), why, s.worker.req.op, Execute(c, s.card, s.worker.req.op).1)]
            else s1.waiting == s.waiting && s1.returned == s.returned
  {
    assert Requests(s.served) + [s.worker.req] + s.queue == s.accepted;
    assert s.accepted[|s.served|] == s.worker.req;
  }

  /** Request `n` was accepted, nobody waits for it, and nobody has been handed its answer. */
  ghost predicate Abandoned(s: State, n: nat, req: Request) {
    && n < |s.accepted| && s.accepted[n] == req
    && (s.waiting.Some? ==> s.waiting.value.id != n)
    && forall r :: r in s.returned ==> r.req != Some(n)
  }

  /** Cancelling while waiting, whether the request is queued or in service: over any continuation no caller is ever
      handed the answer, and the worker serves the request in its turn all the same. */
  lemma CancelledIsServedAnyway(c: Context, s: State, steps: seq<Step>)
    requires Inv(c, s) && s.waiting.Some?
    ensures var n, e := s.waiting.value.id, Run(c, Next(c, s, Cancel), steps);
            && n < |s.accepted| && Abandoned(e, n, s.accepted[n])
            && (|e.served| > n ==> e.served[n].req == s.accepted[n])
  {
    var n, s1 := s.waiting.value.id, Next(c, s, Cancel);
    StaysAbandoned(c, s1, steps, n, s.accepted[n]);
    StepKeeps(c, s, Cancel);
    RunKeeps(c, s1, steps);
    var e := Run(c, s1, steps);
    if |e.served| > n {
      assert Requests(e.served)[n] == (Requests(e.served) + InService(e) + e.queue)[n];
    }
  }

  lemma {:induction false} StaysAbandoned(c: Context, s: State, steps: seq<Step>, n: nat, req: Request)
    requires Abandoned(s, n, req)
    ensures Abandoned(Run(c, s, steps), n, req)
    decreases |steps|
  {
    if steps != [] {
      StaysAbandoned(c, if Enabled(s, steps[0]) then Next(c, s, steps[0]) else s, steps[1..], n, req);
    }
  }

  predicate Forgets(step: Step, pk: Bytes) {
    step == Forget(pk) || step.DropHandle?
  }

  lemma StepKeepsCached(c: Context, s: State, step: Step, pk: Bytes)
    requires Inv(c, s) && IdentFixesKey(c.w) && pk in s.cache && Enabled(s, step) && !Forgets(step, pk)
    ensures var s1 := Next(c, s, step); pk in s1.cache && s1.cache[pk] == s.cache[pk]
  {
    StepKeeps(c, s, step);
    var s1 := Next(c, s, step);
    if !step.Outside? {
      SharedSecretOfHeld(c.w, c.ident, s.card.held, pk, s.cache[pk]);
      SharedSecretOfHeld(c.w, c.ident, s.card.held, pk, s1.cache[pk]);
    }
  }

  /** Once a peer's secret is cached it stays, whatever happens, until the peer is forgotten or the handle dropped. */
  lemma {:induction false} StaysCached(c: Context, s: State, steps: seq<Step>, pk: Bytes)
    requires Inv(c, s) && IdentFixesKey(c.w) && pk in s.cache
    requires forall step :: step in steps ==> !Forgets(step, pk)
    ensures var e := Run(c, s, steps); pk in e.cache && e.cache[pk] == s.cache[pk]
    decreases |steps|
  {
    if steps != [] {
      assert steps[0] in steps;
      if Enabled(s, steps[0]) {
        StepKeeps(c, s, steps[0]);
        StepKeepsCached(c, s, steps[0], pk);
        StaysCached(c, Next(c, s, steps[0]), steps[1..], pk);
      } else {
        StaysCached(c, s, steps[1..], pk);
      }
    }
  }

  /** A priming that was awaited to its successful end makes every later handshake with that peer a cache hit,
      whatever happens in between, until the peer is forgotten or the handle dropped: it returns the primed secret
      at once, with neither queue nor card involved. */
  lemma PrimedThenHit(c: Context, s: State, pk: Bytes, k: Bytes, steps: seq<Step>)
    requires Inv(c, s) && IdentFixesKey(c.w) && Enabled(s, Serve)
    requires s.waiting == Some(Waiting(s.worker.req.id, Priming))
    requires s.worker.req.op == Dh(pk) && Execute(c, s.card, Dh(pk)).1 == DhReply(Ok(k))
    requires forall step :: step in steps ==> !Forgets(step, pk)
    ensures var e := Run(c, Next(c, s, Serve), steps);
            Enabled(e, Mix(pk)) ==> Next(c, e, Mix(pk)) == Give(e, None, Mixing, Dh(pk), DhReply(Ok(k)))
  {
    StepKeeps(c, s, Serve);
    assert Next(c, s, Serve).cache == s.cache[pk := k];
    StaysCached(c, Next(c, s, Serve), steps, pk);
  }

  /** The peer's secret is neither cached nor on its way into the cache. */
  ghost predicate Uncached(s: State, pk: Bytes) {
    && pk !in s.cache
    && (s.waiting.Some? && s.waiting.value.why.Priming? ==>
          s.waiting.value.id < |s.accepted| && s.accepted[s.waiting.value.id].op != Dh(pk))
  }

  lemma StepKeepsUncached(c: Context, s: State, step: Step, pk: Bytes)
    requires Inv(c, s) && Enabled(s, step) && Uncached(s, pk) && step != Prime(pk)
    ensures Uncached(Next(c, s, step), pk)
  {
    if step.Serve? {
      assert (Requests(s.served) + [s.worker.req] + s.queue)[|s.served|] == s.worker.req;
    }
  }

  /** Only priming caches: without a priming of the peer its secret stays out of the cache over any run, whatever else
      is asked of the card. */
  lemma {:induction false} OnlyPrimingCaches(c: Context, s: State, steps: seq<Step>, pk: Bytes)
    requires Inv(c, s) && Uncached(s, pk) && Prime(pk) !in steps
    ensures Uncached(Run(c, s, steps), pk)
    decreases |steps|
  {
    if steps != [] {
      assert steps[0] in steps;
      if Enabled(s, steps[0]) {
        StepKeeps(c, s, steps[0]);
        StepKeepsUncached(c, s, steps[0], pk);
        OnlyPrimingCaches(c, Next(c, s, steps[0]), steps[1..], pk);
      } else {
        OnlyPrimingCaches(c, s, steps[1..], pk);
      }
    }
  }

  /** Once a peer is forgotten every handshake with it goes to the card again, over any run, until it is primed
      anew; no other peer is forgotten with it. */
  lemma ForgottenMisses(c: Context, s: State, steps: seq<Step>, pk: Bytes)
    requires Inv(c, s) && Enabled(s, Forget(pk)) && Prime(pk) !in steps
    ensures var s1 := Next(c, s, Forget(pk));
            var e := Run(c, s1, steps);
            && (forall other :: other != pk && other in s.cache ==>
                  other in s1.cache && s1.cache[other] == s.cache[other])
            && Asks(e, Mix(pk), Mixing, Dh(pk))
  {
    StepKeeps(c, s, Forget(pk));
    OnlyPrimingCaches(c, Next(c, s, Forget(pk)), steps, pk);
  }

  /** Once the handle is dropped nothing more is accepted and nobody is handed anything, over any run. */
  lemma {:induction false} DroppedIsSilent(c: Context, s: State, steps: seq<Step>)
    requires !s.alive && s.waiting.None?
    ensures var e := Run(c, s, steps);
            !e.alive && e.waiting.None? && e.accepted == s.accepted && e.returned == s.returned && e.cache == s.cache
    decreases |steps|
  {
    if steps != [] {
      DroppedIsSilent(c, if Enabled(s, steps[0]) then Next(c, s, steps[0]) else s, steps[1..]);
    }
  }

  // ---------------------------------------------------------------- termination

  /** What the worker still has to do. */
  function Measure(s: State): nat {
    2 * |s.queue| + |InService(s)| + if s.worker.Halted? then 0 else 1
  }

  /** The worker's only possible step. */
  function WorkerStep(s: State): Step {
    if s.worker.Busy? then Serve else if s.queue != [] then Receive else Halt
  }

  /** Once the handle is gone, every worker step brings the end closer and no other step pushes it away; a worker step
      is possible until the worker has halted. */
  lemma Progress(c: Context, s: State, step: Step)
    requires Enabled(s, step) && !s.alive
    ensures Measure(Next(c, s, step)) <= Measure(s) && !Next(c, s, step).alive
    ensures step.Receive? || step.Serve? || step.Halt? ==> Measure(Next(c, s, step)) < Measure(s)
    ensures !s.worker.Halted? ==> Enabled(s, WorkerStep(s))
  {
  }

  /** The worker left to itself. */
  function Drained(c: Context, s: State): State
    requires !s.alive
    decreases Measure(s)
  {
    if s.worker.Halted? then s else Drained(c, Next(c, s, WorkerStep(s)))
  }

  /** After the handle is dropped the worker answers everything that was accepted, in order, and halts. */
  lemma {:induction false} DrainsAndHalts(c: Context, s: State)
    requires Inv(c, s) && !s.alive
    ensures var e := Drained(c, s);
            e.worker.Halted? && e.accepted == s.accepted && Requests(e.served) == s.accepted && e.returned == s.returned
    decreases Measure(s)
  {
    if s.worker.Halted? {
      assert Requests(s.served) + [] + [] == Requests(s.served);
    } else {
      StepKeeps(c, s, WorkerStep(s));
      DrainsAndHalts(c, Next(c, s, WorkerStep(s)));
    }
  }

  /** From the moment the handle is dropped, whatever happens meanwhile: the worker left to itself then answers
      exactly what had been accepted, in order, and halts; the secrets are forgotten at once. */
  lemma DropDrains(c: Context, s: State, steps: seq<Step>)
    requires Inv(c, s) && Enabled(s, DropHandle)
    ensures var e := Run(c, Next(c, s, DropHandle), steps);
            && !e.alive && e.cache == map[] && e.returned == s.returned
            && var d := Drained(c, e); d.worker.Halted? && Requests(d.served) == s.accepted && d.returned == s.returned
  {
    var s1 := Next(c, s, DropHandle);
    StepKeeps(c, s, DropHandle);
    RunKeeps(c, s1, steps);
    DroppedIsSilent(c, s1, steps);
    DrainsAndHalts(c, Run(c, s1, steps));
  }

  // ---------------------------------------------------------------- the PIN

  function DhServed(served: seq<Served>): nat {
    if served == [] then 0
    else DhServed(served[..|served| - 1]) + if served[|served| - 1].req.op.Dh? then 1 else 0
  }

  /** At most two verify attempts and one reconnect per answered DH request, counted from `v` and `r`. */
  predicate WithinBudget(s: State, v: nat, r: nat) {
    s.card.verifies <= v + 2 * DhServed(s.served) && s.card.reconnects <= r + DhServed(s.served)
  }

  lemma ServeWithinBudget(c: Context, s: State, v: nat, r: nat)
    requires WithinBudget(s, v, r) && Enabled(s, Serve)
    ensures WithinBudget(Next(c, s, Serve), v, r)
  {
    var op := s.worker.req.op;
    if op.Dh? {
      RequestBudget(c.w, s.card, c.ident, c.pin, op.peerPk);
    }
    var (card1, reply) := Execute(c, s.card, op);
    var d := Served(s.worker.req, reply);
    assert (s.served + [d])[..|s.served|] == s.served;
    assert DhServed(s.served + [d]) == DhServed(s.served) + if op.Dh? then 1 else 0;
  }

  /** Over a whole run the card is asked to verify at most twice, and reconnected at most once, per answered DH
      request. */
  lemma {:induction false} RunBudget(c: Context, s: State, steps: seq<Step>, v: nat, r: nat)
    requires WithinBudget(s, v, r)
    ensures WithinBudget(Run(c, s, steps), v, r)
    decreases |steps|
  {
    if steps != [] {
      if Enabled(s, steps[0]) {
        if steps[0].Serve? {
          ServeWithinBudget(c, s, v, r);
        }
        RunBudget(c, Next(c, s, steps[0]), steps[1..], v, r);
      } else {
        RunBudget(c, s, steps[1..], v, r);
      }
    }
  }

  /** From `chips` to `later` no PIN has changed and no counter has worsened. */
  ghost predicate NoWorse(chips: map<nat, Chip>, later: map<nat, Chip>) {
    && later.Keys == chips.Keys
    && forall id :: id in chips ==> later[id].pin == chips[id].pin && chips[id].tries <= later[id].tries
  }

  /** Others neither change a PIN nor spend tries. */
  ghost predicate OthersGentle(c: Context, s: State, steps: seq<Step>)
    decreases |steps|
  {
    steps == [] ||
    (&& (steps[0].Outside? && Enabled(s, steps[0]) ==> NoWorse(s.card.chips, steps[0].chips))
     && OthersGentle(c, if Enabled(s, steps[0]) then Next(c, s, steps[0]) else s, steps[1..]))
  }

  lemma StepNoWorse(c: Context, s: State, step: Step)
    requires Inv(c, s) && PinIs(c.w, s.card.chips, c.ident, c.pin) && Enabled(s, step)
    requires step.Outside? ==> NoWorse(s.card.chips, step.chips)
    ensures NoWorse(s.card.chips, Next(c, s, step).card.chips)
  {
    if step.Serve? && s.worker.req.op.Dh? {
      RightPinNeverCosts(c.w, s.card, c.ident, c.pin, s.worker.req.op.peerPk);
      RequestBudget(c.w, s.card, c.ident, c.pin, s.worker.req.op.peerPk);
    }
  }

  lemma NoWorseChain(w: World, a: map<nat, Chip>, b: map<nat, Chip>, d: map<nat, Chip>, ident: string, pin: string)
    requires NoWorse(a, b)
    ensures PinIs(w, a, ident, pin) ==> PinIs(w, b, ident, pin)
    ensures NoWorse(b, d) ==> NoWorse(a, d)
  {
  }

  /** If the PIN verified at open stays the PIN, no number of requests and reconnects ever worsens a counter. */
  lemma {:induction false} PinNeverSpent(c: Context, s: State, steps: seq<Step>)
    requires Inv(c, s) && PinIs(c.w, s.card.chips, c.ident, c.pin) && OthersGentle(c, s, steps)
    ensures NoWorse(s.card.chips, Run(c, s, steps).card.chips)
    decreases |steps|
  {
    if steps != [] {
      if Enabled(s, steps[0]) {
        var s1 := Next(c, s, steps[0]);
        StepKeeps(c, s, steps[0]);
        StepNoWorse(c, s, steps[0]);
        NoWorseChain(c.w, s.card.chips, s1.card.chips, Run(c, s, steps).card.chips, c.ident, c.pin);
        PinNeverSpent(c, s1, steps[1..]);
      } else {
        PinNeverSpent(c, s, steps[1..]);
      }
    }
  }

  // ---------------------------------------------------------------- the handle and the worker, in place

  class CardHandle {
    const c: Context
    const reader: CardReader
    var ssCache: map<Bytes, Bytes>
    var waiting: Option<Waiting>
    var alive: bool
    var queue: seq<Request>
    var worker: Worker
    var nextId: nat
    ghost var accepted: seq<Request>
    ghost var served: seq<Served>
    ghost var returned: seq<Returned>

    ghost function Current(): State
      reads this, reader
    {
      State(ssCache, waiting, alive, queue, worker, reader.st, accepted, served, returned)
    }

    ghost predicate Valid()
      reads this, reader
    {
      reader.world == c.w && nextId == |accepted|
    }

    constructor (c: Context, reader: CardReader)
      requires reader.world == c.w
      ensures this.c == c && this.reader == reader && Valid() && Current() == Opening(reader.st)
    {
      this.c := c;
      this.reader := reader;
      ssCache, waiting, alive, queue, worker, nextId := map[], None, true, [], Idle, 0;
      accepted, served, returned := [], [], [];
    }

    /** Pushes a request on the queue and starts waiting; a refusal is returned to the caller at once. */
    method TrySend(why: Why, op: Op) returns (refused: Option<SmartcardError>)
      requires Valid()
      modifies this
      ensures Valid() && Current() == Submit(old(Current()), why, op)
      ensures refused.Some? <==> old(worker.Halted? || |queue| >= MAX_HANDSHAKE_REQUEST)
    {
      refused := None;
      if worker.Halted? {
        refused := Some(CardError);
      } else if |queue| >= MAX_HANDSHAKE_REQUEST {
        refused := Some(QueueFull);
      }
      if refused.Some? {
        returned := returned + [Returned(None, why, op, DhReply(Err(refused.value)))];
      } else {
        var r := Request(nextId, op);
        queue := queue + [r];
        accepted := accepted + [r];
        waiting := Some(Waiting(nextId, why));
        nextId := nextId + 1;
      }
    }

    /** `async_x25519`, up to the point where it returns or starts to wait. */
    method AsyncX25519(peerPk: Bytes)
      requires Valid() && Enabled(Current(), Mix(peerPk))
      modifies this
      ensures Valid() && Current() == Next(c, old(Current()), Mix(peerPk))
    {
      if peerPk in ssCache {
        returned := returned + [Returned(None, Mixing, Dh(peerPk), DhReply(Ok(ssCache[peerPk])))];
      } else {
        var refused := TrySend(Mixing, Dh(peerPk));
      }
    }

    /** `prime_ss`, up to the point where it returns or starts to wait. */
    method PrimeSs(peerPk: Bytes)
      requires Valid() && Enabled(Current(), Prime(peerPk))
      modifies this
      ensures Valid() && Current() == Next(c, old(Current()), Prime(peerPk))
    {
      var refused := TrySend(Priming, Dh(peerPk));
    }

    method ForgetPeer(peerPk: Bytes)
      requires Valid() && Enabled(Current(), Forget(peerPk))
      modifies this
      ensures Valid() && Current() == Next(c, old(Current()), Forget(peerPk))
    {
      ssCache := ssCache - {peerPk};
    }

    /** The request on the card. */
    method ExecuteNow(op: Op) returns (reply: Reply)
      requires reader.world == c.w
      modifies reader`st
      ensures (reader.st, reply) == Execute(c, old(reader.st), op)
    {
      match op {
        case Dh(pk) =>
          var r := reader.DecipherNow(c.ident, c.pin, pk);
          reply := DhReply(r);
        case PubKey =>
          var k := reader.ReadPublicKeyNow();
          reply := if k.Some? then KeyReply(k.value) else Dropped;
      }
    }

    /** `reply.send`, and the waiting caller going on with the answer if it is still there. */
    method ReplyTo(req: Request, reply: Reply)
      requires Valid()
      modifies this
      ensures Valid() && Current() == Deliver(old(Current()), req, reply)
    {
      if waiting.Some? && waiting.value.id == req.id {
        var why := waiting.value.why;
        returned := returned + [Returned(Some(req.id), why, req.op, reply)];
        waiting := None;
        if why.Priming? && req.op.Dh? && reply.DhReply? && reply.result.Ok? {
          ssCache := ssCache[req.op.peerPk := reply.result.value];
        }
      }
    }

    /** One turn of the worker loop: take the oldest request, execute it, reply. */
    method WorkerTurn()
      requires Valid() && Enabled(Current(), Receive)
      modifies this, reader`st
      ensures Valid() && Current() == Next(c, Next(c, old(Current()), Receive), Serve)
    {
      var req := queue[0];
      worker, queue := Busy(req), queue[1..];
      ghost var s := Current();
      assert s == Next(c, old(Current()), Receive);
      var reply := ExecuteNow(req.op);
      worker, served := Idle, served + [Served(req, reply)];
      assert Current() == s.(card := reader.st, worker := Idle, served := s.served + [Served(req, reply)]);
      ReplyTo(req, reply);
    }

    /** The worker loop once the sender is gone: it serves what is queued and ends. */
    method RunToEnd()
      requires Valid() && !alive && worker.Idle?
      modifies this, reader`st
      ensures Valid() && Current() == Drained(c, old(Current()))
    {
      while queue != []
        invariant Valid() && !alive && worker.Idle?
        invariant Drained(c, Current()) == Drained(c, old(Current()))
        decreases |queue|
      {
        WorkerTurn();
      }
      worker := Halted;
    }
  }
}
