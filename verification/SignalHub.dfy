/** The coalescing wake-up hub of apps/showcase/audio_events.py: `SignalHub`.

  `record` and `notify` run in request threads, `_deliver` and the waiters on the
  event loop. A queue holds one token however many notifications arrive. The
  state machine interleaves all of them; the theorem is that no wake-up is lost.
 */
module SignalHub {

  /** `asyncio.Queue(maxsize=1)`. */
  class WakeQueue {
    var full: bool

    constructor ()
      ensures !full
    {
      full := false;
    }

    /** `queue.get()` when there is a token. */
    method Get()
      requires full
      modifies this
      ensures !full
    {
      full := false;
    }
  }

  datatype Loop = NoLoop | Running | Closed

  class Hub {
    const limit: nat
    var queues: set<WakeQueue>
    var loop: Loop
    /** Callbacks handed to `call_soon_threadsafe` that have not run yet. */
    var scheduled: nat

    ghost predicate Valid()
      reads this
    {
      |queues| <= limit && (queues != {} ==> loop != NoLoop)
    }

    constructor (limit: nat)
      ensures Valid() && this.limit == limit && queues == {} && loop == NoLoop && scheduled == 0
    {
      this.limit := limit;
      queues := {};
      loop := NoLoop;
      scheduled := 0;
    }

    /** Runs on the event loop, so the loop is running; `null` is the OverflowError of the source. */
    method Subscribe() returns (queue: WakeQueue?)
      requires Valid() && loop != Closed
      modifies this
      ensures Valid() && scheduled == old(scheduled)
      ensures queue == null <==> |old(queues)| >= limit
      ensures queue == null ==> queues == old(queues) && loop == old(loop)
      ensures queue != null ==>
        fresh(queue) && !queue.full && queues == old(queues) + {queue} && loop == Running
    {
      if |queues| >= limit {
        return null;
      }
      loop := Running;
      queue := new WakeQueue();
      queues := queues + {queue};
    }

    method Unsubscribe(queue: WakeQueue)
      requires Valid()
      modifies this
      ensures Valid() && queues == old(queues) - {queue} && loop == old(loop) && scheduled == old(scheduled)
    {
      if queue in queues {
        assert |queues - {queue}| == |queues| - 1;
      } else {
        assert queues - {queue} == queues;
      }
      queues := queues - {queue};
    }

    method Notify()
      requires Valid()
      modifies this
      ensures Valid() && queues == old(queues) && loop == old(loop)
      ensures scheduled == old(scheduled) + if loop == Running then 1 else 0
    {
      if loop == Running {
        scheduled := scheduled + 1;
      }
    }

    method Deliver()
      requires Valid() && scheduled > 0
      modifies this, queues
      ensures Valid() && queues == old(queues) && loop == old(loop) && scheduled == old(scheduled) - 1
      ensures forall queue | queue in queues :: queue.full
    {
      scheduled := scheduled - 1;
      var rest := queues;
      while rest != {}
        invariant rest <= queues == old(queues) && Valid()
        invariant loop == old(loop) && scheduled == old(scheduled) - 1
        invariant forall queue | queue in queues - rest :: queue.full
        decreases rest
      {
        var queue :| queue in rest;
        if !queue.full {
          queue.full := true;
        }
        rest := rest - {queue};
      }
    }
  }

  // ---- All interleavings ----

  /** Where the loop of `audio_probe` or `audio_confirm` stands. */
  datatype Stage =
    | Fresh     // about to take a snapshot
    | Checking  // snapshot taken, receipts being read
    | Waiting   // blocked in `queue.get()`

  /** `seen`: how many records had been made when the latest check began. */
  datatype Waiter = Waiter(stage: Stage, token: bool, seen: nat)

  datatype System = System(
    limit: nat,
    waiters: map<nat, Waiter>,
    loop: Loop,
    scheduled: nat,
    recorded: nat,
    notified: set<nat>)

  datatype Action =
    | Subscribe(w: nat)
    | Unsubscribe(w: nat)
    | Snapshot(w: nat)
    | Block(w: nat)
    | Take(w: nat)
    | Timeout(w: nat)
    | Record
    | Notify(record: nat)
    | Deliver
    | Close

  function Wake(waiters: map<nat, Waiter>): map<nat, Waiter> {
    map w | w in waiters :: waiters[w].(token := true)
  }

  predicate AtStage(s: System, w: nat, stage: Stage) {
    w in s.waiters && s.waiters[w].stage == stage && s.loop == Running
  }

  function Moved(s: System, w: nat, waiter: Waiter): System {
    s.(waiters := s.waiters[w := waiter])
  }

  /** One atomic step; an action that is not possible now changes nothing. */
  function Next(s: System, a: Action): System {
    match a
    case Subscribe(w) =>
      if w in s.waiters || s.loop == Closed || |s.waiters| >= s.limit then s
      else Moved(s, w, Waiter(Fresh, false, 0)).(loop := Running)
    case Unsubscribe(w) => s.(waiters := s.waiters - {w})
    case Snapshot(w) =>
      if AtStage(s, w, Fresh) then Moved(s, w, s.waiters[w].(stage := Checking, seen := s.recorded)) else s
    case Block(w) =>
      if AtStage(s, w, Checking) then Moved(s, w, s.waiters[w].(stage := Waiting)) else s
    case Take(w) =>
      if AtStage(s, w, Waiting) && s.waiters[w].token
      then Moved(s, w, s.waiters[w].(stage := Fresh, token := false)) else s
    case Timeout(w) =>
      if AtStage(s, w, Waiting) then Moved(s, w, s.waiters[w].(stage := Fresh)) else s
    case Record => s.(recorded := s.recorded + 1)
    case Notify(r) =>
      if r < s.recorded
      then s.(notified := s.notified + {r}, scheduled := s.scheduled + if s.loop == Running then 1 else 0)
      else s
    case Deliver =>
      if s.scheduled > 0 && s.loop == Running
      then s.(scheduled := s.scheduled - 1, waiters := Wake(s.waiters)) else s
    case Close => s.(loop := Closed)
  }

  function Run(limit: nat, actions: seq<Action>): System {
    if actions == [] then System(limit, map[], NoLoop, 0, 0, {})
    else Next(Run(limit, actions[..|actions| - 1]), actions[|actions| - 1])
  }

  /** The waiter has seen every notified record, or something will make it look again. */
  ghost predicate Attended(s: System, w: Waiter) {
    w.stage == Fresh || w.token || s.scheduled > 0 || forall r | r in s.notified :: r < w.seen
  }

  ghost predicate Inv(s: System) {
    && |s.waiters| <= s.limit
    && (s.waiters != map[] ==> s.loop != NoLoop)
    && (forall r | r in s.notified :: r < s.recorded)
    && (s.loop != Closed ==> forall w | w in s.waiters :: Attended(s, s.waiters[w]))
  }

  lemma MovedKeepsInv(s: System, w: nat, waiter: Waiter)
    requires Inv(s) && w in s.waiters && (s.loop != Closed ==> Attended(s, waiter))
    ensures Inv(Moved(s, w, waiter))
  {
    var t := Moved(s, w, waiter);
    assert t.waiters.Keys == s.waiters.Keys;
    assert |t.waiters| == |t.waiters.Keys| == |s.waiters|;
  }

  lemma SubscribeKeepsInv(s: System, w: nat)
    requires Inv(s)
    ensures Inv(Next(s, Subscribe(w)))
  {
    var t := Next(s, Subscribe(w));
    if t != s {
      assert t.waiters.Keys == s.waiters.Keys + {w};
      assert |t.waiters| == |t.waiters.Keys| == |s.waiters.Keys| + 1;
    }
  }

  lemma UnsubscribeKeepsInv(s: System, w: nat)
    requires Inv(s)
    ensures Inv(Next(s, Unsubscribe(w)))
  {
    var t := Next(s, Unsubscribe(w));
    assert t.waiters.Keys == s.waiters.Keys - {w};
    if w in s.waiters {
      assert |t.waiters| == |t.waiters.Keys| == |s.waiters.Keys| - 1;
    } else {
      assert t.waiters == s.waiters;
    }
  }

  lemma NextKeepsInv(s: System, a: Action)
    requires Inv(s)
    ensures Inv(Next(s, a))
  {
    match a
    case Subscribe(w) => SubscribeKeepsInv(s, w);
    case Unsubscribe(w) => UnsubscribeKeepsInv(s, w);
    case Snapshot(w) =>
      if AtStage(s, w, Fresh) {
        MovedKeepsInv(s, w, s.waiters[w].(stage := Checking, seen := s.recorded));
      }
    case Block(w) =>
      if AtStage(s, w, Checking) {
        assert Attended(s, s.waiters[w]);
        MovedKeepsInv(s, w, s.waiters[w].(stage := Waiting));
      }
    case Take(w) =>
      if AtStage(s, w, Waiting) && s.waiters[w].token {
        MovedKeepsInv(s, w, s.waiters[w].(stage := Fresh, token := false));
      }
    case Timeout(w) =>
      if AtStage(s, w, Waiting) {
        MovedKeepsInv(s, w, s.waiters[w].(stage := Fresh));
      }
    case Record =>
    case Notify(record) =>
    case Deliver =>
      assert Wake(s.waiters).Keys == s.waiters.Keys;
      assert |Wake(s.waiters)| == |s.waiters|;
    case Close =>
  }

  lemma {:induction false} RunKeepsInv(limit: nat, actions: seq<Action>)
    ensures Inv(Run(limit, actions)) && Run(limit, actions).limit == limit
  {
    if actions != [] {
      RunKeepsInv(limit, actions[..|actions| - 1]);
      NextKeepsInv(Run(limit, actions[..|actions| - 1]), actions[|actions| - 1]);
    }
  }

  /** A waiter left blocked with nothing on the way began its latest check after every notified record. */
  lemma NoLostWakeUp(limit: nat, actions: seq<Action>, w: nat)
    requires var s := Run(limit, actions);
             AtStage(s, w, Waiting) && !s.waiters[w].token && s.scheduled == 0
    ensures var s := Run(limit, actions);
            forall r | r in s.notified :: r < s.waiters[w].seen
  {
    RunKeepsInv(limit, actions);
    var s := Run(limit, actions);
    assert Attended(s, s.waiters[w]);
  }

  /** So a notified record that a blocked waiter missed leaves a step that wakes it. */
  lemma MissedRecordCanBeDelivered(limit: nat, actions: seq<Action>, w: nat, record: nat)
    requires var s := Run(limit, actions);
             AtStage(s, w, Waiting) && record in s.notified && record >= s.waiters[w].seen
    ensures var s := Run(limit, actions);
            AtStage(Next(s, Take(w)), w, Fresh) || AtStage(Next(Next(s, Deliver), Take(w)), w, Fresh)
  {
    RunKeepsInv(limit, actions);
    var s := Run(limit, actions);
    assert Attended(s, s.waiters[w]);
  }

  lemma QueuesNeverExceedLimit(limit: nat, actions: seq<Action>)
    ensures |Run(limit, actions).waiters| <= limit
  {
    RunKeepsInv(limit, actions);
  }

  // ---- The hub takes the steps of the state machine ----

  /** Each waiter holds a queue of its own, and together they hold all of them. */
  ghost predicate HoldsAll(queues: set<WakeQueue>, held: map<nat, WakeQueue>) {
    queues == held.Values && forall v, w | v in held && w in held && v != w :: held[v] != held[w]
  }

  /** `held` are the queues the waiters hold; the rest of `s` is where the threads stand. */
  ghost predicate Abstracts(hub: Hub, held: map<nat, WakeQueue>, s: System)
    reads hub, held.Values
  {
    && hub.limit == s.limit && hub.loop == s.loop && hub.scheduled == s.scheduled
    && held.Keys == s.waiters.Keys && |hub.queues| == |s.waiters.Keys| && HoldsAll(hub.queues, held)
    && forall w | w in held :: held[w].full == s.waiters[w].token
  }

  lemma AddedQueue(queues: set<WakeQueue>, held: map<nat, WakeQueue>, w: nat, queue: WakeQueue)
    requires HoldsAll(queues, held) && w !in held && queue !in queues
    ensures HoldsAll(queues + {queue}, held[w := queue]) && |queues + {queue}| == |queues| + 1
  {
    var after := held[w := queue];
    forall v | v in held ensures held[v] in queues {
      assert held[v] in held.Values;
    }
    forall q | q in held.Values ensures q in after.Values {
      var v :| v in held && held[v] == q;
      assert v in after && after[v] == q;
    }
    assert w in after && after[w] == queue;
    assert after.Values == queues + {queue};
  }

  lemma RemovedQueue(queues: set<WakeQueue>, held: map<nat, WakeQueue>, w: nat)
    requires HoldsAll(queues, held) && w in held
    ensures HoldsAll(queues - {held[w]}, held - {w}) && |queues - {held[w]}| == |queues| - 1
  {
    var after := held - {w};
    assert held[w] in held.Values;
    forall q | q in held.Values && q != held[w] ensures q in after.Values {
      var v :| v in held && held[v] == q;
      assert v in after && after[v] == q;
    }
    forall q | q in after.Values ensures q in held.Values && q != held[w] {
      var v :| v in after && after[v] == q;
      assert v in held && held[v] == q;
    }
    assert after.Values == queues - {held[w]};
  }

  lemma SubscribeMoves(s: System, w: nat)
    ensures var t := Next(s, Subscribe(w));
            if w in s.waiters || s.loop == Closed || |s.waiters.Keys| >= s.limit then t == s
            else t == s.(waiters := s.waiters[w := Waiter(Fresh, false, 0)], loop := Running)
                 && t.waiters.Keys == s.waiters.Keys + {w} && |t.waiters.Keys| == |s.waiters.Keys| + 1
  {
    assert |s.waiters| == |s.waiters.Keys|;
    assert s.waiters[w := Waiter(Fresh, false, 0)].Keys == s.waiters.Keys + {w};
  }

  lemma SubscribedAbstracts(hub: Hub, held: map<nat, WakeQueue>, s: System, t: System, w: nat, queue: WakeQueue)
    requires held.Keys == s.waiters.Keys && forall v | v in held :: held[v].full == s.waiters[v].token
    requires t == s.(waiters := s.waiters[w := Waiter(Fresh, false, 0)], loop := Running) && !queue.full
    requires hub.limit == t.limit && hub.loop == t.loop && hub.scheduled == t.scheduled
    requires HoldsAll(hub.queues, held[w := queue]) && |hub.queues| == |t.waiters.Keys|
    ensures Abstracts(hub, held[w := queue], t)
  {
    hide HoldsAll;
  }

  method SubscribeStep(hub: Hub, held: map<nat, WakeQueue>, s: System, w: nat) returns (after: map<nat, WakeQueue>)
    requires hub.Valid() && Abstracts(hub, held, s)
    modifies hub
    ensures hub.Valid() && Abstracts(hub, after, Next(s, Subscribe(w)))
    ensures forall v | v in after :: (v in held && after[v] == held[v]) || fresh(after[v])
  {
    hide HoldsAll, Next;
    after := held;
    SubscribeMoves(s, w);
    if w !in held && hub.loop != Closed {
      ghost var queues := hub.queues;
      var queue := hub.Subscribe();
      if queue != null {
        after := held[w := queue];
        AddedQueue(queues, held, w, queue);
        SubscribedAbstracts(hub, held, s, Next(s, Subscribe(w)), w, queue);
      }
    }
  }

  method UnsubscribeStep(hub: Hub, held: map<nat, WakeQueue>, s: System, w: nat) returns (after: map<nat, WakeQueue>)
    requires hub.Valid() && Abstracts(hub, held, s)
    modifies hub
    ensures hub.Valid() && Abstracts(hub, after, Next(s, Unsubscribe(w)))
    ensures forall v | v in after :: v in held && after[v] == held[v]
  {
    hide HoldsAll;
    after := held - {w};
    assert Next(s, Unsubscribe(w)).waiters.Keys == s.waiters.Keys - {w};
    if w in held {
      RemovedQueue(hub.queues, held, w);
      hub.Unsubscribe(held[w]);
    } else {
      assert after == held;
    }
  }

  method TakeStep(hub: Hub, held: map<nat, WakeQueue>, s: System, w: nat)
    requires hub.Valid() && Abstracts(hub, held, s)
    modifies held.Values
    ensures hub.Valid() && Abstracts(hub, held, Next(s, Take(w)))
  {
    if AtStage(s, w, Waiting) && held[w].full {
      held[w].Get();
      assert Next(s, Take(w)).waiters.Keys == s.waiters.Keys;
    }
  }

  method DeliverStep(hub: Hub, held: map<nat, WakeQueue>, s: System)
    requires hub.Valid() && Abstracts(hub, held, s)
    modifies hub, held.Values
    ensures hub.Valid() && Abstracts(hub, held, Next(s, Deliver))
  {
    if hub.scheduled > 0 && hub.loop == Running {
      hub.Deliver();
      assert Wake(s.waiters).Keys == s.waiters.Keys;
    }
  }

  /** The steps of a waiter that do not touch the hub. */
  lemma ThreadStep(hub: Hub, held: map<nat, WakeQueue>, s: System, a: Action)
    requires Abstracts(hub, held, s) && (a.Snapshot? || a.Block? || a.Timeout? || a.Record?)
    ensures Abstracts(hub, held, Next(s, a))
  {
    hide HoldsAll;
    assert Next(s, a).waiters.Keys == s.waiters.Keys;
  }

  /** One action on the hub and its queues is one step of the state machine. */
  method Act(hub: Hub, held: map<nat, WakeQueue>, s: System, a: Action) returns (after: map<nat, WakeQueue>)
    requires hub.Valid() && Abstracts(hub, held, s)
    modifies hub, held.Values
    ensures hub.Valid() && Abstracts(hub, after, Next(s, a))
    ensures forall v | v in after :: (v in held && after[v] == held[v]) || fresh(after[v])
  {
    after := held;
    if a.Subscribe? {
      after := SubscribeStep(hub, held, s, a.w);
    } else if a.Unsubscribe? {
      after := UnsubscribeStep(hub, held, s, a.w);
    } else if a.Take? {
      TakeStep(hub, held, s, a.w);
    } else if a.Deliver? {
      DeliverStep(hub, held, s);
    } else if a.Notify? {
      if a.record < s.recorded {
        hub.Notify();
      }
    } else if a.Close? {
      hub.loop := Closed;
    } else {
      ThreadStep(hub, held, s, a);
    }
  }

  /** A new hub through any interleaving: it never holds too many queues, and loses no wake-up. */
  method Interleave(hub: Hub, actions: seq<Action>) returns (held: map<nat, WakeQueue>, s: System)
    requires hub.Valid() && hub.queues == {} && hub.loop == NoLoop && hub.scheduled == 0
    modifies hub
    ensures hub.Valid() && s == Run(hub.limit, actions) && Abstracts(hub, held, s)
    ensures |hub.queues| <= hub.limit
    ensures forall w | w in held && AtStage(s, w, Waiting) && !held[w].full && hub.scheduled == 0 ::
              forall r | r in s.notified :: r < s.waiters[w].seen
  {
    held, s := map[], Run(hub.limit, []);
    for i := 0 to |actions|
      invariant hub.Valid() && s == Run(hub.limit, actions[..i]) && Abstracts(hub, held, s)
      invariant forall w | w in held :: fresh(held[w])
    {
      assert actions[..i + 1][..i] == actions[..i];
      held := Act(hub, held, s, actions[i]);
      s := Next(s, actions[i]);
    }
    assert actions[..|actions|] == actions;
    forall w | AtStage(s, w, Waiting) && !s.waiters[w].token && s.scheduled == 0
      ensures forall r | r in s.notified :: r < s.waiters[w].seen
    {
      NoLostWakeUp(hub.limit, actions, w);
    }
  }
}
