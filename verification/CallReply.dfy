/**
 Call/reply over the transport: many endpoints, a network that may reorder, duplicate, delay and lose envelopes,
 and one step per channel operation or critical section of the code. Inbox names are the shared prefix followed by
 the pod id, so an inbox is named by its pod here. Call ids are unique, as the random ids are meant to be.
 */
module CallReply {
  import opened Order

  type PodId = GoString
  type CallId = GoString

  datatype HandlerOutcome = HandlerOk(result: Bytes) | HandlerError(text: GoString)

  datatype Envelope =
    | CallEnvelope(id: CallId, reply: Option<PodId>, target: GoString, rpc: GoString, args: Bytes)
    | ReplyEnvelope(id: CallId, error: GoString, result: Bytes)

  /** "endpoint busy" */
  const BUSY: GoString := [101, 110, 100, 112, 111, 105, 110, 116, 32, 98, 117, 115, 121]

  /** "no handler for <target>.<method>" */
  function NoHandler(target: GoString, rpc: GoString): GoString {
    [110, 111, 32, 104, 97, 110, 100, 108, 101, 114, 32, 102, 111, 114, 32] + target + [46] + rpc
  }

  function Ascii(s: string): (b: GoString)
    requires forall i :: 0 <= i < |s| ==> s[i] < 128 as char
    ensures |b| == |s| && forall i :: 0 <= i < |s| ==> b[i] as int == s[i] as int
  {
    seq(|s|, i requires 0 <= i < |s| => s[i] as int as Byte)
  }

  /** The texts of the two refusals. */
  lemma RefusalTexts(target: GoString, rpc: GoString)
    ensures BUSY == Ascii("endpoint busy")
    ensures NoHandler(target, rpc) == Ascii("no handler for ") + target + Ascii(".") + rpc
  {
    assert Ascii(".") == [46];
  }

  function ReplyOf(id: CallId, o: HandlerOutcome): Envelope {
    match o
    case HandlerOk(result) => ReplyEnvelope(id, [], result)
    case HandlerError(text) => ReplyEnvelope(id, text, [])
  }

  /** What Call returns to its caller. */
  datatype Outcome = Returned(result: Bytes) | RemoteError(text: GoString) | GaveUp

  function Read(r: Envelope): Outcome
    requires r.ReplyEnvelope?
  {
    if r.error != [] then RemoteError(r.error) else Returned(r.result)
  }

  /** A remote call: what was asked of which pod, its slot in the pending map and its reply channel. */
  datatype CallRecord = CallRecord(
    caller: PodId, target: GoString, rpc: GoString, args: Bytes, route: PodId,
    pending: bool, box: seq<Envelope>, outcome: Option<Outcome>)

  datatype Pc = Arrived | Found | Admitted | Running | Replying(reply: Envelope) | Releasing | Finished

  /** One goroutine inside an endpoint: a served envelope, or a call on the endpoint's own target. */
  datatype Task = Task(
    pod: PodId, local: bool, id: CallId, reply: Option<PodId>, target: GoString, rpc: GoString, args: Bytes,
    pc: Pc, held: bool, attempts: seq<Envelope>)

  /** A handler execution on behalf of a served envelope. */
  datatype Execution = Execution(pod: PodId, id: CallId, target: GoString, rpc: GoString, args: Bytes,
                                 outcome: HandlerOutcome)

  /** `looked` are replies whose channel deliverReply has looked up but not yet sent to. */
  datatype System = System(
    calls: map<CallId, CallRecord>,
    tasks: map<nat, Task>,
    slots: map<PodId, nat>,
    handlers: set<(PodId, GoString, GoString)>,
    net: set<(PodId, Envelope)>,
    looked: set<Envelope>,
    executions: set<Execution>)

  /** What a task does next; `published` says whether the transport took the reply. */
  datatype TaskStep = Acquire | Lookup | Run(outcome: HandlerOutcome) | SendReply(published: bool) | Release

  datatype Step =
    | Register(pod: PodId, target: GoString, rpc: GoString)
    | Unregister(pod: PodId, target: GoString)
    | StartCall(id: CallId, caller: PodId, target: GoString, rpc: GoString, args: Bytes, route: PodId)
    | PublishCall(id: CallId)
    | DeliverCall(pod: PodId, env: Envelope, i: nat)
    | StartLocal(pod: PodId, target: GoString, rpc: GoString, args: Bytes, i: nat)
    | Advance(i: nat, ts: TaskStep)
    | LookupReply(pod: PodId, reply: Envelope)
    | PushReply(reply: Envelope)
    | TakeReply(id: CallId)
    | GiveUp(id: CallId)
    | Forget(id: CallId)

  function Slots(s: System, pod: PodId): nat {
    if pod in s.slots then s.slots[pod] else 0
  }

  function Asked(id: CallId, c: CallRecord): Envelope {
    CallEnvelope(id, Some(c.caller), c.target, c.rpc, c.args)
  }

  /** serveCall, and callLocal, which looks the handler up before it takes a slot. */
  function NextTask(t: Task, ts: TaskStep, free: bool, registered: bool): Task {
    match ts
    case Acquire =>
      if t.pc != (if t.local then Found else Arrived) then t
      else if free then t.(held := true, pc := if t.local then Running else Admitted)
      else t.(pc := if t.local then Finished else Replying(ReplyEnvelope(t.id, BUSY, [])))
    case Lookup =>
      if t.pc != (if t.local then Arrived else Admitted) then t
      else if registered then t.(pc := if t.local then Found else Running)
      else t.(pc := if t.local then Finished else Replying(ReplyEnvelope(t.id, NoHandler(t.target, t.rpc), [])))
    case Run(o) =>
      if t.pc != Running then t else t.(pc := if t.local then Releasing else Replying(ReplyOf(t.id, o)))
    case SendReply(_) =>
      if !t.pc.Replying? then t
      else t.(pc := Releasing, attempts := if t.reply.Some? then t.attempts + [t.pc.reply] else t.attempts)
    case Release =>
      if t.pc != Releasing then t else t.(pc := Finished, held := false)
  }

  /** Sending to and receiving from the semaphore channel. */
  function NextSlots(s: System, t: Task, t': Task): map<PodId, nat> {
    if t'.held && !t.held then s.slots[t.pod := Slots(s, t.pod) + 1]
    else if t.held && !t'.held && Slots(s, t.pod) > 0 then s.slots[t.pod := Slots(s, t.pod) - 1]
    else s.slots
  }

  function FireTask(cap: PodId -> nat, s: System, i: nat, ts: TaskStep): System
    requires i in s.tasks
  {
    var t := s.tasks[i];
    var t' := NextTask(t, ts, Slots(s, t.pod) < cap(t.pod), (t.pod, t.target, t.rpc) in s.handlers);
    System(
      s.calls,
      s.tasks[i := t'],
      NextSlots(s, t, t'),
      s.handlers,
      s.net + (if ts.SendReply? && ts.published && t.pc.Replying? && t.reply.Some? then {(t.reply.value, t.pc.reply)}
               else {}),
      s.looked,
      s.executions +
      if ts.Run? && t.pc == Running && !t.local then {Execution(t.pod, t.id, t.target, t.rpc, t.args, ts.outcome)}
      else {})
  }

  function Fire(cap: PodId -> nat, s: System, step: Step): System {
    match step
    case Register(pod, target, rpc) => s.(handlers := s.handlers + {(pod, target, rpc)})
    case Unregister(pod, target) => s.(handlers := set h | h in s.handlers && !(h.0 == pod && h.1 == target))
    case StartCall(id, caller, target, rpc, args, route) =>
      if id in s.calls then s
      else s.(calls := s.calls[id := CallRecord(caller, target, rpc, args, route, true, [], None)])
    case PublishCall(id) =>
      if id !in s.calls then s else s.(net := s.net + {(s.calls[id].route, Asked(id, s.calls[id]))})
    case DeliverCall(pod, env, i) =>
      if (pod, env) !in s.net || !env.CallEnvelope? || i in s.tasks then s
      else s.(tasks := s.tasks[i := Task(pod, false, env.id, env.reply, env.target, env.rpc, env.args, Arrived, false,
                                         [])])
    case StartLocal(pod, target, rpc, args, i) =>
      if i in s.tasks then s
      else s.(tasks := s.tasks[i := Task(pod, true, [], None, target, rpc, args, Arrived, false, [])])
    case Advance(i, ts) =>
      if i !in s.tasks then s else FireTask(cap, s, i, ts)
    case LookupReply(pod, r) =>
      if (pod, r) !in s.net || !r.ReplyEnvelope? || r.id !in s.calls || s.calls[r.id].caller != pod
          || !s.calls[r.id].pending then s
      else s.(looked := s.looked + {r})
    case PushReply(r) =>
      if r !in s.looked || r.id !in s.calls || s.calls[r.id].box != [] then s
      else s.(calls := s.calls[r.id := s.calls[r.id].(box := [r])])
    case TakeReply(id) =>
      if id !in s.calls || s.calls[id].outcome.Some? || s.calls[id].box == [] || !s.calls[id].box[0].ReplyEnvelope?
          then s
      else s.(calls := s.calls[id := s.calls[id].(outcome := Some(Read(s.calls[id].box[0])), box := [])])
    case GiveUp(id) =>
      if id !in s.calls || s.calls[id].outcome.Some? then s
      else s.(calls := s.calls[id := s.calls[id].(outcome := Some(GaveUp))])
    case Forget(id) =>
      if id !in s.calls || s.calls[id].outcome.None? then s
      else s.(calls := s.calls[id := s.calls[id].(pending := false)])
  }

  function After(cap: PodId -> nat, steps: seq<Step>): System {
    if steps == [] then System(map[], map[], map[], {}, {}, {}, {})
    else Fire(cap, After(cap, steps[..|steps| - 1]), steps[|steps| - 1])
  }

  // ---------------------------------------------------------------- who asked what of whom

  /** An envelope or task carries exactly what a call asked of the pod its route named. */
  ghost predicate Genuine(s: System, pod: PodId, id: CallId, reply: Option<PodId>, target: GoString, rpc: GoString,
                          args: Bytes) {
    && id in s.calls
    && s.calls[id].route == pod && reply == Some(s.calls[id].caller)
    && s.calls[id].target == target && s.calls[id].rpc == rpc && s.calls[id].args == args
  }

  ghost predicate Ran(s: System, id: CallId, o: HandlerOutcome)
    requires id in s.calls
  {
    var c := s.calls[id];
    Execution(c.route, id, c.target, c.rpc, c.args, o) in s.executions
  }

  /** A reply that the routed pod had reason to give to this call. */
  ghost predicate Earned(s: System, r: Envelope) {
    && r.ReplyEnvelope? && r.id in s.calls
    && (|| r == ReplyEnvelope(r.id, BUSY, [])
        || r == ReplyEnvelope(r.id, NoHandler(s.calls[r.id].target, s.calls[r.id].rpc), [])
        || exists o :: Ran(s, r.id, o) && r == ReplyOf(r.id, o))
  }

  /** An outcome that the routed pod had reason to cause. */
  ghost predicate Deserved(s: System, id: CallId, o: Outcome)
    requires id in s.calls
  {
    match o
    case GaveUp => true
    case Returned(result) => Ran(s, id, HandlerOk(result)) || (result == [] && Ran(s, id, HandlerError([])))
    case RemoteError(text) =>
      text == BUSY || text == NoHandler(s.calls[id].target, s.calls[id].rpc) || Ran(s, id, HandlerError(text))
  }

  ghost predicate InFlightOk(s: System, pod: PodId, env: Envelope) {
    match env
    case CallEnvelope(id, reply, target, rpc, args) => Genuine(s, pod, id, reply, target, rpc, args)
    case ReplyEnvelope(id, _, _) => Earned(s, env) && s.calls[id].caller == pod
  }

  ghost predicate TaskOk(s: System, t: Task) {
    && (!t.local ==> Genuine(s, t.pod, t.id, t.reply, t.target, t.rpc, t.args))
    && (t.pc.Replying? ==> Earned(s, t.pc.reply) && t.pc.reply.id == t.id && !t.local)
    && (t.held ==> t.pc != Arrived && t.pc != Found && t.pc != Finished)
    && (t.pc == Admitted || t.pc == Running ==> t.held)
    && (t.local ==> t.attempts == [] && t.pc != Admitted)
    && (!t.local ==> t.pc != Found)
    && (!t.local ==> if t.pc == Releasing || t.pc == Finished
                     then |t.attempts| == 1 && t.attempts[0].ReplyEnvelope? && t.attempts[0].id == t.id
                         && Earned(s, t.attempts[0])
                     else t.attempts == [])
  }

  ghost predicate CallOk(s: System, id: CallId)
    requires id in s.calls
  {
    var c := s.calls[id];
    && |c.box| <= 1 && (c.box != [] ==> Earned(s, c.box[0]) && c.box[0].id == id)
    && (c.outcome.Some? ==> Deserved(s, id, c.outcome.value))
    && (c.outcome.None? ==> c.pending)
  }

  function Holders(s: System, pod: PodId): set<nat> {
    set i | i in s.tasks && s.tasks[i].pod == pod && s.tasks[i].held
  }

  ghost predicate SlotsOk(cap: PodId -> nat, s: System, pod: PodId) {
    Slots(s, pod) == |Holders(s, pod)| <= cap(pod)
  }

  ghost predicate Inv(cap: PodId -> nat, s: System) {
    && (forall pod, env {:trigger InFlightOk(s, pod, env)} :: (pod, env) in s.net ==> InFlightOk(s, pod, env))
    && (forall r {:trigger Earned(s, r)} :: r in s.looked ==> Earned(s, r))
    && (forall i {:trigger s.tasks[i]} :: i in s.tasks ==> TaskOk(s, s.tasks[i]))
    && (forall id {:trigger CallOk(s, id)} :: id in s.calls ==> CallOk(s, id))
    && (forall pod {:trigger SlotsOk(cap, s, pod)} :: SlotsOk(cap, s, pod))
  }

  predicate SameQuestion(c: CallRecord, c': CallRecord) {
    c'.route == c.route && c'.caller == c.caller && c'.target == c.target && c'.rpc == c.rpc && c'.args == c.args
  }

  /** Calls keep what they asked, and executions are never undone. */
  ghost predicate Extends(s: System, s': System) {
    && s.executions <= s'.executions
    && (forall id {:trigger s'.calls[id]} {:trigger s.calls[id]} :: id in s.calls ==>
        id in s'.calls && SameQuestion(s.calls[id], s'.calls[id]))
  }

  lemma StepExtends(cap: PodId -> nat, s: System, step: Step)
    ensures Extends(s, Fire(cap, s, step))
  {
    var s' := Fire(cap, s, step);
    ExecutionsGrow(cap, s, step);
    forall id | id in s.calls ensures id in s'.calls && SameQuestion(s.calls[id], s'.calls[id]) {
      QuestionKept(cap, s, step, id);
    }
  }

  lemma ExecutionsGrow(cap: PodId -> nat, s: System, step: Step)
    ensures s.executions <= Fire(cap, s, step).executions
  {
  }

  lemma QuestionKept(cap: PodId -> nat, s: System, step: Step, id: CallId)
    requires id in s.calls
    ensures id in Fire(cap, s, step).calls && SameQuestion(s.calls[id], Fire(cap, s, step).calls[id])
  {
  }

  lemma EarnedGrows(s: System, s': System, r: Envelope)
    requires Extends(s, s') && Earned(s, r)
    ensures Earned(s', r)
  {
    if o :| Ran(s, r.id, o) && r == ReplyOf(r.id, o) {
      assert Ran(s', r.id, o);
    }
  }

  lemma InFlightGrows(s: System, s': System, pod: PodId, env: Envelope)
    requires Extends(s, s') && InFlightOk(s, pod, env)
    ensures InFlightOk(s', pod, env)
  {
    if env.ReplyEnvelope? {
      EarnedGrows(s, s', env);
    }
  }

  lemma TaskGrows(s: System, s': System, t: Task)
    requires Extends(s, s') && TaskOk(s, t)
    ensures TaskOk(s', t)
  {
    if t.pc.Replying? {
      EarnedGrows(s, s', t.pc.reply);
    }
    if !t.local && (t.pc == Releasing || t.pc == Finished) {
      EarnedGrows(s, s', t.attempts[0]);
    }
  }

  lemma ReadDeserved(s: System, r: Envelope)
    requires Earned(s, r)
    ensures Deserved(s, r.id, Read(r))
  {
  }

  lemma NetKept(cap: PodId -> nat, s: System, step: Step, pod: PodId, env: Envelope)
    requires Inv(cap, s) && (pod, env) in Fire(cap, s, step).net
    ensures InFlightOk(Fire(cap, s, step), pod, env)
  {
    var s' := Fire(cap, s, step);
    StepExtends(cap, s, step);
    if (pod, env) in s.net {
      assert InFlightOk(s, pod, env);
      InFlightGrows(s, s', pod, env);
    } else if step.Advance? {
      assert TaskOk(s, s.tasks[step.i]);
      EarnedGrows(s, s', env);
    }
  }

  /** A task's own step keeps what is promised about it. */
  lemma TaskAdvances(cap: PodId -> nat, s: System, i: nat, ts: TaskStep)
    requires i in s.tasks && TaskOk(s, s.tasks[i])
    ensures TaskOk(FireTask(cap, s, i, ts), FireTask(cap, s, i, ts).tasks[i])
  {
    var t, s' := s.tasks[i], FireTask(cap, s, i, ts);
    TaskGrows(s, s', t);
    if ts.Run? && t.pc == Running && !t.local {
      assert Ran(s', t.id, ts.outcome);
    }
  }

  lemma TaskKept(cap: PodId -> nat, s: System, step: Step, j: nat)
    requires Inv(cap, s) && j in Fire(cap, s, step).tasks
    ensures TaskOk(Fire(cap, s, step), Fire(cap, s, step).tasks[j])
  {
    var s' := Fire(cap, s, step);
    StepExtends(cap, s, step);
    if j !in s.tasks {
      if step.DeliverCall? {
        assert InFlightOk(s, step.pod, step.env);
      }
    } else if step.Advance? && step.i == j {
      TaskAdvances(cap, s, j, step.ts);
    } else {
      TaskGrows(s, s', s.tasks[j]);
    }
  }

  lemma CallGrows(s: System, s': System, id: CallId)
    requires Extends(s, s') && id in s.calls && CallOk(s, id) && s'.calls[id] == s.calls[id]
    ensures CallOk(s', id)
  {
    if s.calls[id].box != [] {
      EarnedGrows(s, s', s.calls[id].box[0]);
    }
  }

  /** A step on a call's own record keeps what is promised about it. */
  lemma CallAdvances(s: System, s': System, id: CallId, c: CallRecord)
    requires id in s.calls && CallOk(s, id) && s' == s.(calls := s.calls[id := c])
    requires c == s.calls[id].(box := c.box, outcome := c.outcome, pending := c.pending)
    requires c.box == [] || c.box == s.calls[id].box || (|c.box| == 1 && Earned(s, c.box[0]) && c.box[0].id == id)
    requires || c.outcome == s.calls[id].outcome || c.outcome == Some(GaveUp)
             || (s.calls[id].box != [] && c.outcome == Some(Read(s.calls[id].box[0])))
    requires c.outcome.None? ==> c.pending
    ensures CallOk(s', id)
  {
    if s.calls[id].box != [] {
      ReadDeserved(s, s.calls[id].box[0]);
    }
    if c.box != [] {
      EarnedGrows(s, s', c.box[0]);
    }
  }

  lemma CallKept(cap: PodId -> nat, s: System, step: Step, id: CallId)
    requires Inv(cap, s) && id in Fire(cap, s, step).calls
    ensures CallOk(Fire(cap, s, step), id)
  {
    var s' := Fire(cap, s, step);
    StepExtends(cap, s, step);
    if id in s.calls {
      assert CallOk(s, id);
      assert step.PushReply? && step.reply in s.looked ==> Earned(s, step.reply);
      if s'.calls[id] == s.calls[id] {
        CallGrows(s, s', id);
      } else {
        OwnStep(cap, s, step, id);
        CallAdvances(s, s', id, s'.calls[id]);
      }
    }
  }

  /** What a step that changes a call's record does to it. */
  lemma OwnStep(cap: PodId -> nat, s: System, step: Step, id: CallId)
    requires id in s.calls && Fire(cap, s, step).calls[id] != s.calls[id] && CallOk(s, id)
    requires step.PushReply? && step.reply in s.looked ==> Earned(s, step.reply)
    ensures var s', c := Fire(cap, s, step), Fire(cap, s, step).calls[id];
            && s' == s.(calls := s.calls[id := c])
               && c == s.calls[id].(box := c.box, outcome := c.outcome, pending := c.pending)
            && (c.box == [] || c.box == s.calls[id].box || (|c.box| == 1 && Earned(s, c.box[0]) && c.box[0].id == id))
            && (|| c.outcome == s.calls[id].outcome || c.outcome == Some(GaveUp)
                || (s.calls[id].box != [] && c.outcome == Some(Read(s.calls[id].box[0]))))
            && (c.outcome.None? ==> c.pending)
  {
  }

  /** A slot is only taken when one is free. */
  lemma AdmittedOnlyIfFree(t: Task, ts: TaskStep, free: bool, registered: bool)
    ensures NextTask(t, ts, free, registered).pod == t.pod
    ensures NextTask(t, ts, free, registered).held && !t.held ==> free
  {
  }

  lemma SlotsCount(cap: PodId -> nat, s: System, s': System, i: nat, t': Task, pod: PodId)
    requires i in s.tasks && SlotsOk(cap, s, pod)
    requires s'.tasks == s.tasks[i := t'] && t'.pod == s.tasks[i].pod && s'.slots == NextSlots(s, s.tasks[i], t')
    requires t'.held && !s.tasks[i].held ==> Slots(s, t'.pod) < cap(t'.pod)
    ensures SlotsOk(cap, s', pod)
  {
    var t, was, now := s.tasks[i], Holders(s, pod), Holders(s', pod);
    if t.pod != pod || t.held == t'.held {
      assert now == was;
    } else if t'.held {
      assert now == was + {i} && i !in was;
    } else {
      assert i in was && now == was - {i};
    }
  }

  lemma SlotsKept(cap: PodId -> nat, s: System, step: Step, pod: PodId)
    requires Inv(cap, s)
    ensures SlotsOk(cap, Fire(cap, s, step), pod)
  {
    assert SlotsOk(cap, s, pod);
    if step.Advance? && step.i in s.tasks {
      var t := s.tasks[step.i];
      AdmittedOnlyIfFree(t, step.ts, Slots(s, t.pod) < cap(t.pod), (t.pod, t.target, t.rpc) in s.handlers);
      SlotsCount(cap, s, Fire(cap, s, step), step.i, Fire(cap, s, step).tasks[step.i], pod);
    } else {
      OthersKeepSlots(cap, s, step, pod);
    }
  }

  /** A task that comes in holds no slot, and only a task's own step takes or returns one. */
  lemma OthersKeepSlots(cap: PodId -> nat, s: System, step: Step, pod: PodId)
    requires !step.Advance? || step.i !in s.tasks
    ensures Fire(cap, s, step).slots == s.slots && Holders(Fire(cap, s, step), pod) == Holders(s, pod)
  {
  }

  lemma LookedKept(cap: PodId -> nat, s: System, step: Step, r: Envelope)
    requires Inv(cap, s) && r in Fire(cap, s, step).looked
    ensures Earned(Fire(cap, s, step), r)
  {
    StepExtends(cap, s, step);
    if r in s.looked {
      assert Earned(s, r);
    } else {
      assert InFlightOk(s, step.pod, r);
    }
    EarnedGrows(s, Fire(cap, s, step), r);
  }

  lemma StepKeepsInv(cap: PodId -> nat, s: System, step: Step)
    requires Inv(cap, s)
    ensures Inv(cap, Fire(cap, s, step))
  {
    var s' := Fire(cap, s, step);
    forall pod, env | (pod, env) in s'.net ensures InFlightOk(s', pod, env) { NetKept(cap, s, step, pod, env); }
    forall r | r in s'.looked ensures Earned(s', r) { LookedKept(cap, s, step, r); }
    forall i | i in s'.tasks ensures TaskOk(s', s'.tasks[i]) { TaskKept(cap, s, step, i); }
    forall id | id in s'.calls ensures CallOk(s', id) { CallKept(cap, s, step, id); }
    forall pod ensures SlotsOk(cap, s', pod) { SlotsKept(cap, s, step, pod); }
  }

  lemma {:induction false} RunsKeepInv(cap: PodId -> nat, steps: seq<Step>)
    ensures Inv(cap, After(cap, steps))
  {
    if steps == [] {
      forall pod ensures SlotsOk(cap, After(cap, steps), pod) {
        assert Holders(After(cap, steps), pod) == {};
      }
    } else {
      RunsKeepInv(cap, steps[..|steps| - 1]);
      StepKeepsInv(cap, After(cap, steps[..|steps| - 1]), steps[|steps| - 1]);
    }
  }

  // ---------------------------------------------------------------- main theorems

  /**
   Call safety. In every run, a result a remote Call returns is the result of a handler execution for its own id,
   target, method and arguments on the pod its route named; so is a handler error; the only other remote errors
   are that pod's "endpoint busy" and "no handler". A handler error with empty text reads as an empty result.
   */
  lemma CallSafety(cap: PodId -> nat, steps: seq<Step>, id: CallId)
    requires id in After(cap, steps).calls && After(cap, steps).calls[id].outcome.Some?
    ensures var s := After(cap, steps);
            var c := s.calls[id];
            match c.outcome.value
            case GaveUp => true
            case Returned(result) =>
              || Execution(c.route, id, c.target, c.rpc, c.args, HandlerOk(result)) in s.executions
              || (result == [] && Execution(c.route, id, c.target, c.rpc, c.args, HandlerError([])) in s.executions)
            case RemoteError(text) =>
              || text == BUSY || text == NoHandler(c.target, c.rpc)
              || Execution(c.route, id, c.target, c.rpc, c.args, HandlerError(text)) in s.executions
  {
    RunsKeepInv(cap, steps);
    assert CallOk(After(cap, steps), id);
  }

  /** Processing a reply touches no call but the one it names, and nothing at all once that call is forgotten. */
  lemma ReplyIsolation(cap: PodId -> nat, s: System, pod: PodId, r: Envelope, id: CallId)
    requires r.ReplyEnvelope? && id in s.calls && id != r.id
    ensures var s' := Fire(cap, Fire(cap, s, LookupReply(pod, r)), PushReply(r));
            id in s'.calls && s'.calls[id] == s.calls[id] && s'.tasks == s.tasks && s'.slots == s.slots
    ensures (r.id !in s.calls || !s.calls[r.id].pending) ==> Fire(cap, s, LookupReply(pod, r)) == s
  {
  }

  /**
   After a target is unregistered, a call on it that is already admitted is told there is no handler; calls on
   other targets, or on other pods, find what they would have found.
   */
  lemma UnregisteredIsRefused(cap: PodId -> nat, s: System, pod: PodId, target: GoString, i: nat)
    requires i in s.tasks && s.tasks[i].pc == Admitted && !s.tasks[i].local
    ensures var t := s.tasks[i];
            var t' := Fire(cap, Fire(cap, s, Unregister(pod, target)), Advance(i, Lookup)).tasks[i];
            if t.pod == pod && t.target == target then
              t'.pc == Replying(ReplyEnvelope(t.id, Ascii("no handler for ") + t.target + Ascii(".") + t.rpc, []))
            else t' == Fire(cap, s, Advance(i, Lookup)).tasks[i]
  {
    RefusalTexts(s.tasks[i].target, s.tasks[i].rpc);
  }

  /** A call that has its outcome leaves the pending map, and no later reply to it is looked up. */
  lemma ForgottenIsDeaf(cap: PodId -> nat, s: System, id: CallId, pod: PodId, r: Envelope)
    requires id in s.calls && s.calls[id].outcome.Some? && r.ReplyEnvelope? && r.id == id
    ensures var s' := Fire(cap, s, Forget(id));
            id in s'.calls && s'.calls[id].outcome == s.calls[id].outcome && Fire(cap, s', LookupReply(pod, r)) == s'
  {
  }

  /** The first reply in a call's channel stays, and a caller whose context ends gives up on a call without outcome. */
  lemma FirstReplyStays(cap: PodId -> nat, s: System, r: Envelope, id: CallId)
    requires id in s.calls
    ensures s.calls[id].box != [] ==> Fire(cap, s, PushReply(r)).calls[id].box == s.calls[id].box
    ensures s.calls[id].outcome.None? ==> Fire(cap, s, GiveUp(id)).calls[id].outcome == Some(GaveUp)
  {
  }

  /** A reply the transport did not take has been attempted and is not on the network. */
  lemma RefusedReplyIsLost(cap: PodId -> nat, s: System, i: nat)
    requires i in s.tasks && s.tasks[i].pc.Replying? && s.tasks[i].reply.Some?
    ensures var s' := Fire(cap, s, Advance(i, SendReply(false)));
            s'.net == s.net && s'.tasks[i].attempts == s.tasks[i].attempts + [s.tasks[i].pc.reply]
  {
  }

  /** What a Call has returned never changes again, whatever arrives later. */
  lemma {:induction false} OutcomeStable(cap: PodId -> nat, steps: seq<Step>, more: seq<Step>, id: CallId)
    requires id in After(cap, steps).calls && After(cap, steps).calls[id].outcome.Some?
    ensures id in After(cap, steps + more).calls
    ensures After(cap, steps + more).calls[id].outcome == After(cap, steps).calls[id].outcome
  {
    if more == [] {
      assert steps + more == steps;
    } else {
      OutcomeStable(cap, steps, more[..|more| - 1], id);
      assert (steps + more)[..|steps + more| - 1] == steps + more[..|more| - 1];
      StepKeepsOutcome(cap, After(cap, steps + more[..|more| - 1]), more[|more| - 1], id);
    }
  }

  lemma StepKeepsOutcome(cap: PodId -> nat, s: System, step: Step, id: CallId)
    requires id in s.calls && s.calls[id].outcome.Some?
    ensures id in Fire(cap, s, step).calls && Fire(cap, s, step).calls[id].outcome == s.calls[id].outcome
  {
  }

  /** Handler admission: slots held are exactly the admissions in progress and never exceed the cap. */
  lemma AdmissionBounded(cap: PodId -> nat, steps: seq<Step>, pod: PodId)
    ensures var s := After(cap, steps);
            var running := set i | i in s.tasks && s.tasks[i].pod == pod && s.tasks[i].pc == Running;
            && Slots(s, pod) == |Holders(s, pod)| <= cap(pod)
            && running <= Holders(s, pod) && |running| <= cap(pod)
  {
    RunsKeepInv(cap, steps);
    var s := After(cap, steps);
    assert SlotsOk(cap, s, pod);
    var running := set i | i in s.tasks && s.tasks[i].pod == pod && s.tasks[i].pc == Running;
    SubsetSize(running, Holders(s, pod));
  }

  /** A completed served envelope has attempted exactly one reply, with its own id, and holds no slot. */
  lemma OneReplyEach(cap: PodId -> nat, steps: seq<Step>, i: nat)
    requires i in After(cap, steps).tasks && !After(cap, steps).tasks[i].local
    ensures var t := After(cap, steps).tasks[i];
            && |t.attempts| <= 1
            && (t.pc == Finished ==>
                |t.attempts| == 1 && t.attempts[0].ReplyEnvelope? && t.attempts[0].id == t.id && !t.held)
  {
    RunsKeepInv(cap, steps);
  }

  /** A Call gives up only because its context ended or its endpoint closed, never because of a reply it read. */
  lemma {:induction false} GivesUpOnlyWhenTold(cap: PodId -> nat, steps: seq<Step>, id: CallId) returns (j: nat)
    requires id in After(cap, steps).calls && After(cap, steps).calls[id].outcome == Some(GaveUp)
    ensures j < |steps| && steps[j] == GiveUp(id)
  {
    var init, step := steps[..|steps| - 1], steps[|steps| - 1];
    var s := After(cap, init);
    if id in s.calls && s.calls[id].outcome == Some(GaveUp) {
      j := GivesUpOnlyWhenTold(cap, init, id);
    } else {
      j := |init|;
      GivingUpIsAStep(cap, s, step, id);
    }
  }

  lemma GivingUpIsAStep(cap: PodId -> nat, s: System, step: Step, id: CallId)
    requires id in Fire(cap, s, step).calls && Fire(cap, s, step).calls[id].outcome == Some(GaveUp)
    requires !(id in s.calls && s.calls[id].outcome == Some(GaveUp))
    ensures step == GiveUp(id)
  {
  }

  // ---------------------------------------------------------------- a call from end to end

  lemma Grow(cap: PodId -> nat, steps: seq<Step>, s: System, step: Step) returns (steps': seq<Step>, s': System)
    requires s == After(cap, steps)
    ensures steps' == steps + [step] && s' == After(cap, steps') == Fire(cap, s, step)
  {
    steps' := steps + [step];
    assert steps'[..|steps|] == steps;
    s' := Fire(cap, s, step);
  }

  /** A call has reached the routed pod, where its handler is registered. */
  lemma CallArrives(cap: PodId -> nat, caller: PodId, pod: PodId, target: GoString, rpc: GoString, args: Bytes,
                    id: CallId) returns (steps: seq<Step>)
    ensures var s := After(cap, steps);
            && s.calls == map[id := CallRecord(caller, target, rpc, args, pod, true, [], None)]
            && s.tasks == map[0 := Task(pod, false, id, Some(caller), target, rpc, args, Arrived, false, [])]
            && s.slots == map[] && (pod, target, rpc) in s.handlers
  {
    var s := After(cap, []);
    steps, s := Grow(cap, [], s, Register(pod, target, rpc));
    steps, s := Grow(cap, steps, s, StartCall(id, caller, target, rpc, args, pod));
    steps, s := Grow(cap, steps, s, PublishCall(id));
    steps, s := Grow(cap, steps, s, DeliverCall(pod, Asked(id, s.calls[id]), 0));
  }

  /** The handler has run and the reply is on the network. */
  lemma HandlerRuns(cap: PodId -> nat, caller: PodId, pod: PodId, target: GoString, rpc: GoString, args: Bytes,
                    id: CallId, o: HandlerOutcome)
    returns (steps: seq<Step>)
    requires cap(pod) > 0
    ensures var s := After(cap, steps);
            && s.calls == map[id := CallRecord(caller, target, rpc, args, pod, true, [], None)]
            && (caller, ReplyOf(id, o)) in s.net && Execution(pod, id, target, rpc, args, o) in s.executions
  {
    steps := CallArrives(cap, caller, pod, target, rpc, args, id);
    var s := After(cap, steps);
    steps, s := Grow(cap, steps, s, Advance(0, Acquire));
    assert s.tasks[0].pc == Admitted;
    steps, s := Grow(cap, steps, s, Advance(0, Lookup));
    assert s.tasks[0].pc == Running;
    steps, s := Grow(cap, steps, s, Advance(0, Run(o)));
    assert s.tasks[0].pc == Replying(ReplyOf(id, o));
    steps, s := Grow(cap, steps, s, Advance(0, SendReply(true)));
  }

  /** What a caller is told of what its handler did: an error with empty text is an empty result. */
  function Told(o: HandlerOutcome): Outcome {
    match o
    case HandlerOk(result) => Returned(result)
    case HandlerError(text) => if text == [] then Returned([]) else RemoteError(text)
  }

  /**
   Whatever the handler of a call returns can reach its caller: for every call and every outcome there is a run in
   which the handler on the routed pod has that outcome and Call returns exactly what it amounts to.
   */
  lemma OutcomeReaches(cap: PodId -> nat, caller: PodId, pod: PodId, target: GoString, rpc: GoString, args: Bytes,
                       id: CallId, o: HandlerOutcome)
    returns (steps: seq<Step>)
    requires cap(pod) > 0
    ensures var s := After(cap, steps);
            && id in s.calls && s.calls[id].caller == caller && s.calls[id].route == pod
            && Execution(pod, id, target, rpc, args, o) in s.executions
            && s.calls[id].outcome == Some(Told(o)) && s.calls[id].box == []
  {
    steps := HandlerRuns(cap, caller, pod, target, rpc, args, id, o);
    var s, r := After(cap, steps), ReplyOf(id, o);
    steps, s := Grow(cap, steps, s, LookupReply(caller, r));
    steps, s := Grow(cap, steps, s, PushReply(r));
    assert s.calls[id].box == [r];
    steps, s := Grow(cap, steps, s, TakeReply(id));
  }

  /** A call on the endpoint's own target has found its handler and been admitted. */
  lemma LocalAdmitted(cap: PodId -> nat, pod: PodId, target: GoString, rpc: GoString, args: Bytes)
    returns (steps: seq<Step>)
    requires cap(pod) > 0
    ensures var s := After(cap, steps);
            && s.tasks == map[0 := Task(pod, true, [], None, target, rpc, args, Running, true, [])]
            && s.slots == map[pod := 1] && s.net == {} && s.executions == {}
  {
    var s := After(cap, []);
    steps, s := Grow(cap, [], s, Register(pod, target, rpc));
    steps, s := Grow(cap, steps, s, StartLocal(pod, target, rpc, args, 0));
    var t := Task(pod, true, [], None, target, rpc, args, Arrived, false, []);
    assert s.tasks == map[0 := t] && s.slots == map[];
    steps, s := Grow(cap, steps, s, Advance(0, Lookup));
    assert s.tasks == map[0 := t.(pc := Found)];
    steps, s := Grow(cap, steps, s, Advance(0, Acquire));
  }

  /** It then runs its handler and gives the slot back, with no reply sent. */
  lemma LocalCallRuns(cap: PodId -> nat, pod: PodId, target: GoString, rpc: GoString, args: Bytes, o: HandlerOutcome)
    returns (steps: seq<Step>)
    requires cap(pod) > 0
    ensures var s := After(cap, steps);
            && s.tasks == map[0 := Task(pod, true, [], None, target, rpc, args, Finished, false, [])]
            && Slots(s, pod) == 0 && s.net == {} && s.executions == {} && Advance(0, Run(o)) in steps
  {
    steps := LocalAdmitted(cap, pod, target, rpc, args);
    var s := After(cap, steps);
    steps, s := Grow(cap, steps, s, Advance(0, Run(o)));
    assert Advance(0, Run(o)) in steps && s.tasks[0].pc == Releasing;
    steps, s := Grow(cap, steps, s, Advance(0, Release));
  }

  /**
   The caller of a handler that failed is told so if and only if the error has a text: with an empty one, Call
   returns an empty result. There is such a run for every call and every text.
   */
  lemma FailureReadsAsSuccess(cap: PodId -> nat, caller: PodId, pod: PodId, target: GoString, rpc: GoString,
                              args: Bytes, id: CallId, text: GoString)
    returns (steps: seq<Step>)
    requires cap(pod) > 0
    ensures var s := After(cap, steps);
            && id in s.calls && s.calls[id].route == pod
            && Execution(pod, id, target, rpc, args, HandlerError(text)) in s.executions
            && s.calls[id].outcome.Some? && (s.calls[id].outcome.value == Returned([]) <==> text == [])
            && (text != [] ==> s.calls[id].outcome.value == RemoteError(text))
  {
    steps := OutcomeReaches(cap, caller, pod, target, rpc, args, id, HandlerError(text));
  }
}
