/**
 One endpoint's own code, method by method: handler table, pending map, handler semaphore,
 serveCall, callLocal and reply delivery. Its replies are those of the task machine, so what
 CallReply proves for every interleaving is about this code.
 */
module Endpoint {
  import opened Order
  import opened CallReply

  type Handler = Bytes -> HandlerOutcome
  type HandlerTable = map<GoString, map<GoString, Handler>>

  datatype LocalOutcome = LocalReturn(outcome: HandlerOutcome) | LocalNoHandler | LocalBusy

  datatype Registration = Registered | Refused | RouteFailed

  predicate Has(handlers: HandlerTable, target: GoString, rpc: GoString) {
    target in handlers && rpc in handlers[target]
  }

  /** The reply serveCall owes to a call: the semaphore is tried before the handler is looked up. */
  function Answer(free: bool, handlers: HandlerTable, c: Envelope): Envelope
    requires c.CallEnvelope?
  {
    if !free then ReplyEnvelope(c.id, BUSY, [])
    else if !Has(handlers, c.target, c.rpc) then ReplyEnvelope(c.id, NoHandler(c.target, c.rpc), [])
    else ReplyOf(c.id, handlers[c.target][c.rpc](c.args))
  }

  /** Running a served task of the machine alone, step by step, makes exactly this one reply and gives its slot back. */
  lemma AnswerIsTaskRun(pod: PodId, free: bool, handlers: HandlerTable, c: Envelope)
    requires c.CallEnvelope?
    ensures var reg := Has(handlers, c.target, c.rpc);
            var o := if reg then handlers[c.target][c.rpc](c.args) else HandlerOk([]);
            var t0 := Task(pod, false, c.id, c.reply, c.target, c.rpc, c.args, Arrived, false, []);
            var t1 := NextTask(NextTask(NextTask(t0, Acquire, free, reg), Lookup, free, reg), Run(o), free, reg);
            var t2 := NextTask(NextTask(t1, SendReply(true), free, reg), Release, free, reg);
            t2.pc == Finished && !t2.held && t2.attempts == if c.reply.Some? then [Answer(free, handlers, c)] else []
  {
  }

  class Endpoint {
    const cap: nat
    var handlers: HandlerTable
    var pending: map<CallId, seq<Envelope>>
    var slots: nat
    ghost var attempted: seq<(PodId, Envelope)>
    ghost var executed: seq<(GoString, GoString, Bytes)>

    ghost predicate Valid()
      reads this
    {
      slots <= cap && forall id :: id in pending ==> |pending[id]| <= 1
    }

    constructor (cap: nat)
      ensures Valid() && this.cap == cap && handlers == map[] && pending == map[] && slots == 0 && attempted == []
              && executed == []
    {
      this.cap := cap;
      handlers, pending, slots, attempted, executed := map[], map[], 0, [], [];
    }

    /**
     Register refuses empty names and a missing handler. The first handler of a target also publishes the route;
     when that fails the caller is told, and the handler is installed all the same.
     */
    method Register(target: GoString, rpc: GoString, h: Option<Handler>, routeOk: bool)
      returns (r: Registration, published: bool)
      requires Valid()
      modifies this`handlers
      ensures Valid() && (r == Refused <==> target == [] || rpc == [] || h.None?)
      ensures r == RouteFailed <==> r != Refused && target !in old(handlers) && !routeOk
      ensures published == (r == Registered && target !in old(handlers))
      ensures r == Refused ==> handlers == old(handlers)
      ensures r != Refused ==> Has(handlers, target, rpc) && handlers[target][rpc] == h.value
      ensures forall t, m :: (t, m) != (target, rpc) ==> (Has(handlers, t, m) <==> Has(old(handlers), t, m))
      ensures forall t, m :: (t, m) != (target, rpc) && Has(handlers, t, m) && Has(old(handlers), t, m) ==>
              handlers[t][m] == old(handlers)[t][m]
    {
      if target == [] || rpc == [] || h.None? {
        return Refused, false;
      }
      var first := target !in handlers;
      var methods := if first then map[] else handlers[target];
      handlers := handlers[target := methods[rpc := h.value]];
      if !first {
        return Registered, false;
      }
      return if routeOk then Registered else RouteFailed, routeOk;
    }

    method Unregister(target: GoString)
      requires Valid()
      modifies this`handlers
      ensures Valid() && handlers == old(handlers) - {target}
      ensures forall rpc :: !Has(handlers, target, rpc)
    {
      handlers := handlers - {target};
    }

    /** sendReply: no address, no reply. */
    method SendReply(inbox: Option<PodId>, reply: Envelope)
      modifies this`attempted
      ensures attempted == old(attempted) + if inbox.None? then [] else [(inbox.value, reply)]
    {
      if inbox.None? {
        return;
      }
      attempted := attempted + [(inbox.value, reply)];
    }

    /**
     serveCall: one reply at most, the slot given back on every path, the handler run only when admitted and
     found.
     */
    method ServeCall(c: Envelope)
      requires Valid() && c.CallEnvelope?
      modifies this`slots, this`attempted, this`executed
      ensures Valid() && slots == old(slots)
      ensures attempted ==
              old(attempted) + if c.reply.None? then [] else [(c.reply.value, Answer(old(slots) < cap, handlers, c))]
      ensures executed ==
              old(executed) +
                  if old(slots) < cap && Has(handlers, c.target, c.rpc) then [(c.target, c.rpc, c.args)] else []
    {
      if slots == cap {
        SendReply(c.reply, ReplyEnvelope(c.id, BUSY, []));
        return;
      }
      slots := slots + 1;
      if c.target !in handlers || c.rpc !in handlers[c.target] {
        SendReply(c.reply, ReplyEnvelope(c.id, NoHandler(c.target, c.rpc), []));
        slots := slots - 1;
        return;
      }
      executed := executed + [(c.target, c.rpc, c.args)];
      var outcome := handlers[c.target][c.rpc](c.args);
      var reply := match outcome {
        case HandlerError(text) => ReplyEnvelope(c.id, text, [])
        case HandlerOk(result) => ReplyEnvelope(c.id, [], result)
      };
      SendReply(c.reply, reply);
      slots := slots - 1;
    }

    /** callLocal: the handler is looked up first, then the semaphore is tried. */
    method CallLocal(target: GoString, rpc: GoString, args: Bytes) returns (o: LocalOutcome)
      requires Valid()
      modifies this`slots, this`executed
      ensures Valid() && slots == old(slots)
      ensures o == if !Has(handlers, target, rpc) then LocalNoHandler
                   else if old(slots) == cap then LocalBusy
                   else LocalReturn(handlers[target][rpc](args))
      ensures executed == old(executed) + if o.LocalReturn? then [(target, rpc, args)] else []
    {
      if target !in handlers || rpc !in handlers[target] {
        return LocalNoHandler;
      }
      if slots == cap {
        return LocalBusy;
      }
      slots := slots + 1;
      executed := executed + [(target, rpc, args)];
      o := LocalReturn(handlers[target][rpc](args));
      slots := slots - 1;
    }

    /** The part of Call that enters the pending map. */
    method BeginCall(id: CallId)
      requires Valid() && id !in pending
      modifies this`pending
      ensures Valid() && pending == old(pending)[id := []]
    {
      pending := pending[id := []];
    }

    /** deliverReply: only the named call's channel can change, and only if it is pending and still empty. */
    method DeliverReply(r: Envelope) returns (known: bool)
      requires Valid() && r.ReplyEnvelope?
      modifies this`pending
      ensures Valid() && known == (r.id in old(pending)) && pending.Keys == old(pending).Keys
      ensures forall id :: id in pending ==>
                pending[id] == if id == r.id && old(pending)[id] == [] then [r] else old(pending)[id]
    {
      if r.id !in pending {
        return false;
      }
      if |pending[r.id]| < 1 {
        pending := pending[r.id := [r]];
      }
      return true;
    }

    /** The end of Call: take a reply if one is there, give up otherwise, and leave the pending map either way. */
    method EndCall(id: CallId) returns (o: Outcome)
      requires Valid() && id in pending && (pending[id] != [] ==> pending[id][0].ReplyEnvelope?)
      modifies this`pending
      ensures Valid() && pending == old(pending) - {id}
      ensures o == if old(pending)[id] == [] then GaveUp else Read(old(pending)[id][0])
    {
      o := if pending[id] == [] then GaveUp else Read(pending[id][0]);
      pending := pending - {id};
    }
  }
}
