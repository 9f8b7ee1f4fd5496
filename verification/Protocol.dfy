/**
 The payment protocol as a transition system. Receipt uploads, provider notices, the timeout
 scan and order creation run as in-flight handlers that act on stale copies; any of them may
 stop after any step, a queued task may be delivered any number of times, and the provider may
 answer anything. Every database statement and every item transaction is one atomic step. No
 lock is assumed.
 */
module Protocol {
  import opened Common
  import opened Items
  import opened Orders

  // ----- products, tasks, nonces

  /** `priced` says whether the price list has an entry in the default currency. */
  datatype Product = Product(thirdPartyIds: map<PaymentType, string>, priced: bool, rewards: Option<RewardList>)

  /** The reward list a product hands out. */
  function Listed(p: Product): RewardList { Unmarshal(Marshal(p.rewards)) }

  datatype Task =
    | GrantTask(orderId: nat, uid: nat, rewards: Snapshot)
    | RevokeTask(orderId: nat, uid: nat, rewards: Snapshot)

  datatype Kind = GrantKind | RevokeKind

  /** A task ID; module Names renders it as text. */
  datatype TaskRef = TaskRef(kind: Kind, orderId: nat)

  /** A nonce row; module Names renders it as the indexed columns. */
  datatype Nonce = Nonce(uid: nat, kind: Kind, orderId: nat)

  function RefOf(t: Task): TaskRef {
    TaskRef(if t.GrantTask? then GrantKind else RevokeKind, t.orderId)
  }

  /** The nonce row whose presence means that a task's work is committed. */
  function NonceOf(t: Task): Nonce {
    Nonce(t.uid, if t.GrantTask? then GrantKind else RevokeKind, t.orderId)
  }

  // ----- handlers

  datatype Origin =
    | Upload(uid: nat, credential: string)
    | Notice(credential: string)
    | Scan(orderId: nat, expiredAt: int)
    | Creation(uid: nat, paymentType: PaymentType, productId: int)

  /** The next step of a handler, with the local values it carries into that step. */
  datatype Pc =
    | Start
    | Ask(asUid: Option<nat>, credential: string)
    | Bind(uid: nat, tp: ThirdPartyOrder)
    | ReadBack(uid: nat, tp: ThirdPartyOrder)
    | ReadProduct(order: Order, tp: ThirdPartyOrder)
    | SaveRewards(order: Order, tp: ThirdPartyOrder, rewards: Snapshot)
    | SendGrant(order: Order, tp: ThirdPartyOrder, rewards: Snapshot)
    | SetPurchased(order: Order, tp: ThirdPartyOrder)
    | Complete(order: Order, tp: ThirdPartyOrder)
    | SetCancelled(order: Order, tp: ThirdPartyOrder)
    | SendRevoke(order: Order, tp: ThirdPartyOrder)
    | SetRefunded(order: Order, tp: ThirdPartyOrder)
    | CloseUnpaid
    | CloseWaiting(order: Order, tp: ThirdPartyOrder)
    | LookForPending(params: CreateParams)
    | InsertOrder(params: CreateParams)

  datatype Handler = Handler(origin: Origin, pc: Pc)

  // ----- global state

  /** The four faces of an order row's status and reason, in the only order they may appear. */
  datatype Phase = PendingPhase | TimeoutPhase | PurchasedPhase | RefundedPhase

  function PhaseOf(o: Order): Phase {
    match o.status
    case Purchased => PurchasedPhase
    case Cancelled => if o.reason == TimeoutReason then TimeoutPhase else RefundedPhase
    case _ => PendingPhase
  }

  /** One committed item transaction: its task, the clock and the item configuration it saw. */
  datatype Entry = Entry(task: Task, at: int, stacks: map<int, StackMode>)

  datatype State = State(
    now: int,
    products: map<int, Product>,
    stacks: map<int, StackMode>,
    orders: map<nat, Order>,
    nextOrderId: nat,
    queue: map<TaskRef, Task>,
    nonces: set<Nonce>,
    items: Inventory,
    consumed: set<string>,                  // credentials this system completed at the provider
    handlers: map<nat, Handler>,
    // history
    sent: set<Task>,                        // every task the queue ever accepted
    phases: map<nat, seq<Phase>>,           // status history of each order
    ledger: seq<Entry>,                     // committed item transactions, in order
    quotes: map<nat, set<RewardList>>,      // reward lists read from the configuration for each order
    answers: set<ThirdPartyOrder>,          // every provider answer
    sightings: set<nat>)                    // orders the scan saw Pending, old enough and without a credential

  const TIMEOUT_SECONDS := 900

  /** What a handler's step leaves alone. */
  predicate Framed(s: State, s': State) {
    && s'.items == s.items && s'.ledger == s.ledger && s'.nonces == s.nonces && s'.now == s.now
    && s'.quotes == s.quotes && s'.orders.Keys == s.orders.Keys
  }

  /** Writes one order row and notes the status change in the history. */
  function Put(s: State, o: Order): (s': State)
    requires o.id in s.phases && s.phases[o.id] != []
    ensures s'.handlers == s.handlers && s'.orders == s.orders[o.id := o] && s'.sightings == s.sightings
    ensures o.id in s.orders ==> Framed(s, s')
  {
    var seen := s.phases[o.id];
    s.(orders := s.orders[o.id := o],
       phases := if seen[|seen| - 1] == PhaseOf(o) then s.phases else s.phases[o.id := seen + [PhaseOf(o)]])
  }

  function Go(s: State, h: nat, pc: Pc): (s': State)
    requires h in s.handlers
    ensures s'.orders == s.orders && Framed(s, s') && s'.sightings == s.sightings
    ensures s'.handlers == s.handlers[h := s.handlers[h].(pc := pc)]
  {
    s.(handlers := s.handlers[h := s.handlers[h].(pc := pc)])
  }

  function Drop(s: State, h: nat): (s': State)
    ensures s'.orders == s.orders && Framed(s, s') && s'.sightings == s.sightings
    ensures s'.handlers == s.handlers - {h}
  {
    s.(handlers := s.handlers - {h})
  }

  /** A task is added unless one with its ID is still in the queue. */
  function Enqueue(s: State, t: Task): (s': State)
    ensures s'.handlers == s.handlers && s'.orders == s.orders && Framed(s, s') && s'.sightings == s.sightings
  {
    if RefOf(t) in s.queue then s else s.(queue := s.queue[RefOf(t) := t], sent := s.sent + {t})
  }

  /** Histories are kept for every row, and a row knows its own key. */
  predicate Tracked(s: State) {
    && s.phases.Keys == s.orders.Keys && s.quotes.Keys == s.orders.Keys
    && forall o :: o in s.orders ==> s.orders[o].id == o && s.phases[o] != []
  }

  predicate ProductMatches(origin: Origin, tp: ThirdPartyOrder, o: Order) {
    && tp.productId == o.thirdPartyProductId
    && (origin.Notice? || tp.productId != "")
  }

  /** Handlers other than `h` are where they were. */
  ghost predicate OthersSame(s: State, h: nat, s': State) {
    forall k | k != h :: (k in s'.handlers <==> k in s.handlers) && (k in s.handlers ==> s'.handlers[k] == s.handlers[k])
  }

  predicate TimedOutRow(s: State, o: nat) { o in s.orders && PhaseOf(s.orders[o]) == TimeoutPhase }

  /** The step neither closes an order by timeout, nor records a sighting, nor starts an insert. */
  ghost predicate Quiet(s: State, h: nat, s': State) {
    && Framed(s, s') && s'.sightings == s.sightings && OthersSame(s, h, s')
    && (h in s'.handlers ==> !s'.handlers[h].pc.InsertOrder?)
    && (forall o :: TimedOutRow(s', o) ==> TimedOutRow(s, o))
  }

  /** Where the decision table sends a handler that has just read its copy of the order; None ends it. */
  function NextPc(origin: Origin, o: Order, tp: ThirdPartyOrder): (r: Option<Pc>)
    ensures r.Some? ==> !r.value.InsertOrder?
  {
    match Decide(o.status, o.reason, tp.status)
    case Purchase => Some(ReadProduct(o, tp))
    case Cancel => Some(SetCancelled(o, tp))
    case Revoke => Some(SendRevoke(o, tp))
    case CompleteOnly => Some(Complete(o, tp))
    case Nothing(r) => if r == Waiting && origin.Scan? then Some(CloseWaiting(o, tp)) else None
    case Refuse => None
  }

  function Dispatch(s: State, h: nat, o: Order, tp: ThirdPartyOrder): (s': State)
    requires h in s.handlers
    ensures Quiet(s, h, s')
  {
    match NextPc(s.handlers[h].origin, o, tp)
    case Some(pc) => Go(s, h, pc)
    case None => Drop(s, h)
  }

  function CloseByTimeout(s: State, h: nat, orderId: nat, expiredAt: int): (s': State)
    requires Tracked(s)
    ensures Framed(s, s') && s'.sightings == s.sightings && OthersSame(s, h, s') && h !in s'.handlers
    ensures forall o :: TimedOutRow(s', o) && !TimedOutRow(s, o) ==> o == orderId && ExpiredPending(s.orders[o], expiredAt)
  {
    if orderId in s.orders && ExpiredPending(s.orders[orderId], expiredAt)
    then Drop(Put(s, TimedOut(s.orders[orderId], s.now)), h)
    else Drop(s, h)
  }

  /** The step leaves every order row alone. */
  ghost predicate RowsKept(s: State, h: nat, s': State) { s'.orders == s.orders && OthersSame(s, h, s') }

  /** The scan has just seen this order Pending, old enough and without a credential. */
  predicate SightedBy(origin: Origin, s: State, o: nat) {
    && origin.Scan? && origin.orderId == o && o in s.orders && ExpiredPending(s.orders[o], origin.expiredAt)
    && (s.orders[o].credential == None || s.orders[o].credential == Some(""))
  }

  function BeginScan(s: State, h: nat, orderId: nat, expiredAt: int): (s': State)
    requires h in s.handlers
    ensures RowsKept(s, h, s') && Framed(s, s') && (h in s'.handlers ==> !s'.handlers[h].pc.InsertOrder?)
    ensures s'.sightings == s.sightings
            || (s'.sightings == s.sightings + {orderId} && SightedBy(Scan(orderId, expiredAt), s, orderId))
  {
    if orderId !in s.orders || !ExpiredPending(s.orders[orderId], expiredAt) then Drop(s, h)
    else
      var o := s.orders[orderId];
      if o.credential == None || o.credential == Some("") then
        Go(s, h, CloseUnpaid).(sightings := s.sightings + {orderId})
      else if o.paymentType != Google then Drop(s, h)
      else Go(s, h, Ask(Some(o.uid), o.credential.value))
  }

  function BeginCreation(s: State, h: nat, uid: nat, paymentType: PaymentType, productId: int): (s': State)
    requires h in s.handlers
    ensures RowsKept(s, h, s') && Framed(s, s') && s'.sightings == s.sightings && (h in s'.handlers ==> !s'.handlers[h].pc.InsertOrder?)
  {
    if paymentType != Google || productId !in s.products then Drop(s, h)
    else
      var p := s.products[productId];
      if paymentType !in p.thirdPartyIds || p.thirdPartyIds[paymentType] == "" || !p.priced then Drop(s, h)
      else
        var rewards := if p.rewards.None? then NoSnapshot else Marshal(p.rewards);
        Go(s, h, LookForPending(CreateParams(uid, productId, p.thirdPartyIds[paymentType], paymentType, rewards)))
  }

  function StartStep(s: State, h: nat): (s': State)
    requires h in s.handlers
    ensures RowsKept(s, h, s') && Framed(s, s') && (h in s'.handlers ==> !s'.handlers[h].pc.InsertOrder?)
    ensures forall o :: o in s'.sightings && o !in s.sightings ==> SightedBy(s.handlers[h].origin, s, o)
  {
    match s.handlers[h].origin
    case Scan(orderId, expiredAt) => BeginScan(s, h, orderId, expiredAt)
    case Creation(uid, paymentType, productId) => BeginCreation(s, h, uid, paymentType, productId)
    case _ => Drop(s, h)
  }

  predicate PendingFor(o: Order, p: CreateParams) {
    o.uid == p.uid && o.paymentType == p.paymentType && o.productId == p.productId && o.status == Pending
  }

  function LookStep(s: State, h: nat, p: CreateParams): (s': State)
    requires h in s.handlers
    ensures RowsKept(s, h, s') && Framed(s, s') && s'.sightings == s.sightings
    ensures h in s'.handlers ==> s'.handlers[h].pc == InsertOrder(p) && forall id :: id in s.orders ==> !PendingFor(s.orders[id], p)
  {
    if exists id :: id in s.orders && PendingFor(s.orders[id], p) then Drop(s, h) else Go(s, h, InsertOrder(p))
  }

  function InsertStep(s: State, h: nat, p: CreateParams): (s': State)
    ensures s'.orders == s.orders[s.nextOrderId := NewOrder(s.nextOrderId, p, s.now)] && s'.handlers == s.handlers - {h}
    ensures s'.quotes == s.quotes[s.nextOrderId := {}] && s'.items == s.items && s'.ledger == s.ledger && s'.sightings == s.sightings
  {
    var o := NewOrder(s.nextOrderId, p, s.now);
    Drop(s.(orders := s.orders[o.id := o], nextOrderId := s.nextOrderId + 1,
            phases := s.phases[o.id := [PendingPhase]], quotes := s.quotes[o.id := {}]), h)
  }

  function BindStep(s: State, h: nat, uid: nat, tp: ThirdPartyOrder): (s': State)
    requires h in s.handlers && Tracked(s)
    ensures Quiet(s, h, s')
  {
    var id := tp.internalOrderId;
    if tp.uid != uid || tp.credential == "" then Drop(s, h)
    else if id in s.orders && CanBind(s.orders[id], uid, Google, tp.internalProductId, tp.credential, tp.orderId) then
      var o := Bound(s.orders[id], tp.credential, tp.orderId);
      assert PhaseOf(o) == PhaseOf(s.orders[id]) && o.id == id;
      if Conflicts(s.orders, o) then Drop(s, h) else Go(Put(s, o), h, ReadBack(uid, tp))
    else Go(s, h, ReadBack(uid, tp))
  }

  function ReadBackStep(s: State, h: nat, uid: nat, tp: ThirdPartyOrder): (s': State)
    requires h in s.handlers
    ensures Quiet(s, h, s')
  {
    var id := tp.internalOrderId;
    if id !in s.orders then Drop(s, h)
    else
      var o := s.orders[id];
      if BoundTo(o, uid, Google, tp.internalProductId, tp.credential, tp.orderId)
         && ProductMatches(s.handlers[h].origin, tp, o)
      then Dispatch(s, h, o, tp)
      else Drop(s, h)
  }

  function ReadProductStep(s: State, h: nat, o: Order, tp: ThirdPartyOrder): (s': State)
    requires h in s.handlers
    ensures RowsKept(s, h, s') && s'.sightings == s.sightings && (h in s'.handlers ==> !s'.handlers[h].pc.InsertOrder?)
    ensures s'.items == s.items && s'.ledger == s.ledger
    ensures || s'.quotes == s.quotes
            || (o.productId in s.products && o.id in s.quotes
                && s'.quotes == s.quotes[o.id := s.quotes[o.id] + {Listed(s.products[o.productId])}])
  {
    if o.productId !in s.products || o.id !in s.quotes then Drop(s, h)
    else
      var p := s.products[o.productId];
      Go(s, h, SaveRewards(o, tp, Marshal(p.rewards))).(quotes := s.quotes[o.id := s.quotes[o.id] + {Listed(p)}])
  }

  function SaveRewardsStep(s: State, h: nat, o: Order, tp: ThirdPartyOrder, rewards: Snapshot): (s': State)
    requires h in s.handlers && Tracked(s)
    ensures Quiet(s, h, s')
  {
    if o.id !in s.orders then Drop(s, h)
    else Go(Put(s, s.orders[o.id].(rewards := rewards)), h, SendGrant(o, tp, rewards))
  }

  function SendGrantStep(s: State, h: nat, o: Order, tp: ThirdPartyOrder, rewards: Snapshot): (s': State)
    requires h in s.handlers
    ensures Quiet(s, h, s')
  {
    Go(Enqueue(s, GrantTask(o.id, o.uid, rewards)), h, SetPurchased(o, tp))
  }

  function SetPurchasedStep(s: State, h: nat, o: Order, tp: ThirdPartyOrder): (s': State)
    requires h in s.handlers && Tracked(s)
    ensures Quiet(s, h, s')
  {
    if o.id !in s.orders || !CanPurchase(s.orders[o.id]) then Drop(s, h)
    else Go(Put(s, MarkedPurchased(s.orders[o.id], tp)), h, Complete(o, tp))
  }

  function CompleteStep(s: State, h: nat, tp: ThirdPartyOrder): (s': State)
    ensures Quiet(s, h, s')
  {
    Drop(if tp.consumed then s else s.(consumed := s.consumed + {tp.credential}), h)
  }

  function SetCancelledStep(s: State, h: nat, o: Order, tp: ThirdPartyOrder): (s': State)
    requires Tracked(s)
    ensures Quiet(s, h, s')
  {
    if o.id !in s.orders || s.orders[o.id].status != Pending then Drop(s, h)
    else Drop(Put(s, MarkedCancelled(s.orders[o.id], tp, s.now)), h)
  }

  function SendRevokeStep(s: State, h: nat, o: Order, tp: ThirdPartyOrder): (s': State)
    requires h in s.handlers
    ensures Quiet(s, h, s')
  {
    Go(Enqueue(s, RevokeTask(o.id, o.uid, o.rewards)), h, SetRefunded(o, tp))
  }

  function SetRefundedStep(s: State, h: nat, o: Order, tp: ThirdPartyOrder): (s': State)
    requires Tracked(s)
    ensures Quiet(s, h, s')
  {
    if o.id !in s.orders || s.orders[o.id].status != Purchased then Drop(s, h)
    else Drop(Put(s, MarkedRefunded(s.orders[o.id], tp, s.now)), h)
  }

  function CloseStep(s: State, h: nat): (s': State)
    requires h in s.handlers && Tracked(s)
    ensures Framed(s, s') && s'.sightings == s.sightings && OthersSame(s, h, s') && h !in s'.handlers
  {
    var origin, pc := s.handlers[h].origin, s.handlers[h].pc;
    if origin.Scan? && pc.CloseUnpaid? then CloseByTimeout(s, h, origin.orderId, origin.expiredAt)
    else if origin.Scan? && pc.CloseWaiting? then CloseByTimeout(s, h, pc.order.id, origin.expiredAt)
    else Drop(s, h)
  }

  /** One step of a handler; waiting for the provider (`Ask`) is a step of its own. */
  function Advance(s: State, h: nat): State
    requires h in s.handlers && Tracked(s) && !s.handlers[h].pc.Ask?
  {
    match s.handlers[h].pc
    case Start => StartStep(s, h)
    case Bind(uid, tp) => BindStep(s, h, uid, tp)
    case ReadBack(uid, tp) => ReadBackStep(s, h, uid, tp)
    case ReadProduct(o, tp) => ReadProductStep(s, h, o, tp)
    case SaveRewards(o, tp, rewards) => SaveRewardsStep(s, h, o, tp, rewards)
    case SendGrant(o, tp, rewards) => SendGrantStep(s, h, o, tp, rewards)
    case SetPurchased(o, tp) => SetPurchasedStep(s, h, o, tp)
    case Complete(_, tp) => CompleteStep(s, h, tp)
    case SetCancelled(o, tp) => SetCancelledStep(s, h, o, tp)
    case SendRevoke(o, tp) => SendRevokeStep(s, h, o, tp)
    case SetRefunded(o, tp) => SetRefundedStep(s, h, o, tp)
    case CloseUnpaid => CloseStep(s, h)
    case CloseWaiting(_, _) => CloseStep(s, h)
    case LookForPending(p) => LookStep(s, h, p)
    case InsertOrder(p) => InsertStep(s, h, p)
    case Ask(_, _) => s
  }

  datatype Action =
    | Begin(h: nat, origin: Origin)
    | Stop(h: nat)                           // crash, error or timeout of a handler
    | Answer(h: nat, tp: ThirdPartyOrder)    // the provider answers a query
    | Move(h: nat)
    | Deliver(task: Task, items: Inventory)  // one delivery of a task commits its transaction
    | Ack(ref: TaskRef)                        // a delivery returned success and the queue forgets its entry
    | Tick(now: int)
    | SetProduct(productId: int, product: Option<Product>)
    | SetStacks(stacks: map<int, StackMode>)

  function FirstPc(origin: Origin): Pc {
    match origin
    case Upload(uid, credential) => Ask(Some(uid), credential)
    case Notice(credential) => Ask(None, credential)
    case _ => Start
  }

  /** The transaction a delivery commits; a nonce that is already there, or a missing grant, commits nothing. */
  ghost predicate Commits(s: State, t: Task, items: Inventory) {
    && NonceOf(t) !in s.nonces
    && match t
       case GrantTask(_, uid, rewards) => Grants(s.items, uid, Unmarshal(rewards), s.stacks, s.now, items)
       case RevokeTask(id, uid, rewards) =>
         Nonce(uid, GrantKind, id) in s.nonces && Revokes(s.items, uid, Unmarshal(rewards), s.now, items)
  }

  ghost predicate Next(s: State, a: Action, s': State) {
    && Tracked(s)
    && match a
       case Begin(h, origin) =>
         && h !in s.handlers && (origin.Scan? ==> origin.expiredAt <= s.now - TIMEOUT_SECONDS)
         && s' == s.(handlers := s.handlers[h := Handler(origin, FirstPc(origin))])
       case Stop(h) => h in s.handlers && s' == Drop(s, h)
       case Answer(h, tp) =>
         && h in s.handlers && s.handlers[h].pc.Ask? && tp.credential == s.handlers[h].pc.credential
         && var uid := if s.handlers[h].pc.asUid.Some? then s.handlers[h].pc.asUid.value else tp.uid;
            s' == Go(s, h, Bind(uid, tp)).(answers := s.answers + {tp})
       case Move(h) => h in s.handlers && !s.handlers[h].pc.Ask? && s' == Advance(s, h)
       case Deliver(t, items) =>
         && t in s.sent && Commits(s, t, items)
         && s' == s.(items := items, nonces := s.nonces + {NonceOf(t)}, ledger := s.ledger + [Entry(t, s.now, s.stacks)])
       case Ack(ref) => ref in s.queue && NonceOf(s.queue[ref]) in s.nonces && s' == s.(queue := s.queue - {ref})
       case Tick(now) => now >= s.now && s' == s.(now := now)
       case SetProduct(p, product) =>
         s' == s.(products := match product case Some(x) => s.products[p := x] case None => s.products - {p})
       case SetStacks(stacks) => s' == s.(stacks := stacks)
  }

  /** No orders, tasks, nonces or handlers yet; any clock after the epoch, configuration and inventory. */
  ghost predicate Init(s: State) {
    && s.now > 0 && Valid(s.items)
    && s.orders == map[] && s.queue == map[] && s.nonces == {} && s.consumed == {} && s.handlers == map[]
    && s.sent == {} && s.phases == map[] && s.ledger == [] && s.quotes == map[] && s.answers == {} && s.sightings == {}
  }

  ghost predicate Steps(s: State, s': State) { exists a :: Next(s, a, s') }

  /** A finite execution, state by state. */
  ghost predicate IsRun(tr: seq<State>) {
    |tr| > 0 && forall i :: 0 <= i < |tr| - 1 ==> Steps(tr[i], tr[i + 1])
  }

  ghost predicate IsRunFromInit(tr: seq<State>) { IsRun(tr) && Init(tr[0]) }
}
