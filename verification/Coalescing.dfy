/**
 * Request coalescing as an interleaving of goroutines. Each call of `Do` is a process with a program
 * counter; a step is one critical section, one unlocked read or write, one run of `fn`, or one channel event.
 */
module Coalescing {
  import opened Wrappers

  type Value = Option<string>
  type Err = Option<string>

  /** A pending entry; `done` is the closed channel. */
  datatype Call = Call(done: bool, val: Value, err: Err)

  datatype Pc =
    | Start
    // leader: owns the entry until its delete
    | Running(call: nat)
    | Ran(call: nat, val: Value, err: Err)
    | ValWritten(call: nat, val: Value, err: Err)
    | ErrWritten(call: nat, val: Value, err: Err)
    | Closed(call: nat, val: Value, err: Err)
    | Deleted(call: nat, val: Value, err: Err)
    | LeaderReturned(call: nat, val: Value, err: Err)
    // waiter
    | Waiting(call: nat)
    | Woken(call: nat)
    | ValRead(call: nat, val: Value)
    | WaiterReturned(call: nat, val: Value, err: Err)
    | TimedOut(call: nat)

  datatype Proc = Proc(key: string, pc: Pc)

  /** `leaders[c]` records which process created call `c`; no step reads it. */
  datatype State = State(procs: seq<Proc>, calls: seq<Call>, pending: map<string, nat>, leaders: seq<nat>)

  datatype Event =
    | Arrive(key: string)
    | Enter(p: nat)
    | FnReturns(p: nat, val: Value, err: Err)
    | WriteVal(p: nat)
    | WriteErr(p: nat)
    | Close(p: nat)
    | Delete(p: nat)
    | LeaderReturns(p: nat)
    | Wake(p: nat)
    | ReadVal(p: nat)
    | WaiterReturns(p: nat)
    | Timeout(p: nat)

  const INITIAL := State([], [], map[], [])

  /** A process at `pc` can take the step `e`. */
  predicate Ready(calls: seq<Call>, pc: Pc, e: Event) {
    match e
    case Arrive(_) => true
    case Enter(_) => pc.Start?
    case FnReturns(_, _, _) => pc.Running?
    case WriteVal(_) => pc.Ran? && pc.call < |calls|
    case WriteErr(_) => pc.ValWritten? && pc.call < |calls|
    case Close(_) => pc.ErrWritten? && pc.call < |calls|
    case Delete(_) => pc.Closed?
    case LeaderReturns(_) => pc.Deleted?
    case Wake(_) => pc.Waiting? && pc.call < |calls| && calls[pc.call].done
    case ReadVal(_) => pc.Woken? && pc.call < |calls|
    case WaiterReturns(_) => pc.ValRead? && pc.call < |calls|
    case Timeout(_) => pc.Waiting?
  }

  predicate Enabled(s: State, e: Event) {
    e.Arrive? || (e.p < |s.procs| && Ready(s.calls, s.procs[e.p].pc, e))
  }

  function Goto(s: State, p: nat, pc: Pc): State
    requires p < |s.procs|
  {
    s.(procs := s.procs[p := s.procs[p].(pc := pc)])
  }

  function Step(s: State, e: Event): State
    requires Enabled(s, e)
  {
    match e
    case Arrive(key) => s.(procs := s.procs + [Proc(key, Start)])
    case Enter(p) =>
      var key := s.procs[p].key;
      if key in s.pending then
        Goto(s, p, Waiting(s.pending[key]))
      else
        var c := |s.calls|;
        Goto(s, p, Running(c)).(calls := s.calls + [Call(false, None, None)], pending := s.pending[key := c],
                                leaders := s.leaders + [p])
    case FnReturns(p, val, err) => Goto(s, p, Ran(s.procs[p].pc.call, val, err))
    case WriteVal(p) =>
      var pc := s.procs[p].pc;
      Goto(s, p, ValWritten(pc.call, pc.val, pc.err)).(calls := s.calls[pc.call := s.calls[pc.call].(val := pc.val)])
    case WriteErr(p) =>
      var pc := s.procs[p].pc;
      Goto(s, p, ErrWritten(pc.call, pc.val, pc.err)).(calls := s.calls[pc.call := s.calls[pc.call].(err := pc.err)])
    case Close(p) =>
      var pc := s.procs[p].pc;
      Goto(s, p, Closed(pc.call, pc.val, pc.err)).(calls := s.calls[pc.call := s.calls[pc.call].(done := true)])
    case Delete(p) =>
      var pc := s.procs[p].pc;
      Goto(s, p, Deleted(pc.call, pc.val, pc.err)).(pending := s.pending - {s.procs[p].key})
    case LeaderReturns(p) =>
      var pc := s.procs[p].pc;
      Goto(s, p, LeaderReturned(pc.call, pc.val, pc.err))
    case Wake(p) => Goto(s, p, Woken(s.procs[p].pc.call))
    case ReadVal(p) =>
      var c := s.procs[p].pc.call;
      Goto(s, p, ValRead(c, s.calls[c].val))
    case WaiterReturns(p) =>
      var pc := s.procs[p].pc;
      Goto(s, p, WaiterReturned(pc.call, pc.val, s.calls[pc.call].err))
    case Timeout(p) => Goto(s, p, TimedOut(s.procs[p].pc.call))
  }

  /** The state after a schedule; none when some step was not enabled. */
  function Run(s: State, schedule: seq<Event>): Option<State>
    decreases |schedule|
  {
    if schedule == [] then Some(s)
    else if Enabled(s, schedule[0]) then Run(Step(s, schedule[0]), schedule[1..])
    else None
  }

  // ----- The invariant -----

  predicate Owning(pc: Pc) {
    pc.Running? || pc.Ran? || pc.ValWritten? || pc.ErrWritten? || pc.Closed?
  }

  predicate Leading(pc: Pc) {
    Owning(pc) || pc.Deleted? || pc.LeaderReturned?
  }

  predicate Joined(pc: Pc) {
    pc.Waiting? || pc.Woken? || pc.ValRead? || pc.WaiterReturned? || pc.TimedOut?
  }

  /** Calls and leaders are in one-to-one correspondence; a waiter shares its leader's key. */
  ghost predicate Linked(s: State) {
    && |s.leaders| == |s.calls|
    && (forall c | 0 <= c < |s.calls| ::
          s.leaders[c] < |s.procs| && Leading(s.procs[s.leaders[c]].pc) && s.procs[s.leaders[c]].pc.call == c)
    && (forall p | 0 <= p < |s.procs| && Leading(s.procs[p].pc) ::
          s.procs[p].pc.call < |s.calls| && s.leaders[s.procs[p].pc.call] == p)
    && (forall p | 0 <= p < |s.procs| && Joined(s.procs[p].pc) ::
          s.procs[p].pc.call < |s.calls| && s.procs[s.leaders[s.procs[p].pc.call]].key == s.procs[p].key)
  }

  /** `pending` holds exactly the leaders not yet past their delete, each under its own call. */
  ghost predicate PendingIsOwners(s: State)
    requires Linked(s)
  {
    && (forall k | k in s.pending ::
          && s.pending[k] < |s.calls|
          && s.procs[s.leaders[s.pending[k]]].key == k
          && Owning(s.procs[s.leaders[s.pending[k]]].pc))
    && (forall p | 0 <= p < |s.procs| && Owning(s.procs[p].pc) ::
          s.procs[p].key in s.pending && s.pending[s.procs[p].key] == s.procs[p].pc.call)
  }

  /** What the shared record of a call holds, given where its leader and a waiter are. */
  ghost predicate Agrees(call: Call, pc: Pc) {
    match pc
    case Running(_) => !call.done
    case Ran(_, _, _) => !call.done
    case ValWritten(_, v, _) => !call.done && call.val == v
    case ErrWritten(_, v, e) => call == Call(false, v, e)
    case Closed(_, v, e) => call == Call(true, v, e)
    case Deleted(_, v, e) => call == Call(true, v, e)
    case LeaderReturned(_, v, e) => call == Call(true, v, e)
    case Woken(_) => call.done
    case ValRead(_, v) => call.done && call.val == v
    case WaiterReturned(_, v, e) => call == Call(true, v, e)
    case _ => true
  }

  ghost predicate RecordsAgree(s: State)
    requires Linked(s)
  {
    forall p | 0 <= p < |s.procs| && (Leading(s.procs[p].pc) || Joined(s.procs[p].pc)) ::
      Agrees(s.calls[s.procs[p].pc.call], s.procs[p].pc)
  }

  ghost predicate Inv(s: State) {
    Linked(s) && PendingIsOwners(s) && RecordsAgree(s)
  }

  lemma ArrivalKeepsInv(s: State, key: string)
    requires Inv(s)
    ensures Inv(s.(procs := s.procs + [Proc(key, Start)]))
  {
    var t := s.(procs := s.procs + [Proc(key, Start)]);
    assert forall q | 0 <= q < |s.procs| :: t.procs[q] == s.procs[q];
  }

  lemma LeaderMoveKeepsLinks(s: State, p: nat, pc: Pc, call: Call)
    requires Inv(s) && p < |s.procs|
    requires Leading(s.procs[p].pc) && Leading(pc) && pc.call == s.procs[p].pc.call
    requires Owning(pc) == Owning(s.procs[p].pc)
    requires Agrees(call, pc)
    requires call == s.calls[pc.call] || !s.calls[pc.call].done
    ensures Linked(Goto(s, p, pc).(calls := s.calls[pc.call := call]))
  {
    var t := Goto(s, p, pc).(calls := s.calls[pc.call := call]);
    assert forall q | 0 <= q < |s.procs| && q != p :: t.procs[q] == s.procs[q];
    assert t.procs[p].key == s.procs[p].key;
  }

  /** A leader moves on, possibly writing its own record while the channel is still open. */
  lemma LeaderMoveKeepsInv(s: State, p: nat, pc: Pc, call: Call)
    requires Inv(s) && p < |s.procs|
    requires Leading(s.procs[p].pc) && Leading(pc) && pc.call == s.procs[p].pc.call
    requires Owning(pc) == Owning(s.procs[p].pc)
    requires Agrees(call, pc)
    requires call == s.calls[pc.call] || !s.calls[pc.call].done
    ensures Inv(Goto(s, p, pc).(calls := s.calls[pc.call := call]))
  {
    var t := Goto(s, p, pc).(calls := s.calls[pc.call := call]);
    assert forall q | 0 <= q < |s.procs| && q != p :: t.procs[q] == s.procs[q];
    assert t.procs[p].key == s.procs[p].key;
    LeaderMoveKeepsLinks(s, p, pc, call);
    assert forall q | 0 <= q < |s.procs| && Leading(t.procs[q].pc) && t.procs[q].pc.call == pc.call :: q == p;
    assert PendingIsOwners(t);
  }

  lemma WaiterMoveKeepsLinks(s: State, p: nat, pc: Pc)
    requires Linked(s) && p < |s.procs| && Joined(s.procs[p].pc) && Joined(pc) && pc.call == s.procs[p].pc.call
    ensures Linked(Goto(s, p, pc))
  {
    var t := Goto(s, p, pc);
    assert forall q | 0 <= q < |s.procs| && q != p :: t.procs[q] == s.procs[q];
    assert t.procs[p].key == s.procs[p].key;
  }

  lemma WaiterMoveKeepsInv(s: State, p: nat, pc: Pc)
    requires Inv(s) && p < |s.procs|
    requires Joined(s.procs[p].pc) && Joined(pc) && pc.call == s.procs[p].pc.call
    requires Agrees(s.calls[pc.call], pc)
    ensures Inv(Goto(s, p, pc))
  {
    var t := Goto(s, p, pc);
    WaiterMoveKeepsLinks(s, p, pc);
    assert forall q | 0 <= q < |s.procs| && q != p :: t.procs[q] == s.procs[q];
    assert t.procs[p].key == s.procs[p].key;
    assert PendingIsOwners(t);
  }

  lemma JoiningKeepsInv(s: State, p: nat)
    requires Inv(s) && p < |s.procs| && s.procs[p].pc.Start? && s.procs[p].key in s.pending
    ensures Inv(Goto(s, p, Waiting(s.pending[s.procs[p].key])))
  {
    var t := Goto(s, p, Waiting(s.pending[s.procs[p].key]));
    assert forall q | 0 <= q < |s.procs| && q != p :: t.procs[q] == s.procs[q];
    assert t.procs[p].key == s.procs[p].key;
    assert Linked(t);
    assert PendingIsOwners(t);
  }

  lemma LeadingBeginsKeepsLinks(s: State, p: nat)
    requires Inv(s) && p < |s.procs| && s.procs[p].pc.Start? && s.procs[p].key !in s.pending
    ensures Linked(Step(s, Enter(p)))
  {
    var t := Step(s, Enter(p));
    assert forall q | 0 <= q < |s.procs| && q != p :: t.procs[q] == s.procs[q];
    assert forall c | 0 <= c < |s.calls| :: t.calls[c] == s.calls[c] && t.leaders[c] == s.leaders[c];
    assert t.procs[p].key == s.procs[p].key;
  }

  lemma LeadingBeginsKeepsPending(s: State, p: nat)
    requires Inv(s) && p < |s.procs| && s.procs[p].pc.Start? && s.procs[p].key !in s.pending
    requires Linked(Step(s, Enter(p)))
    ensures PendingIsOwners(Step(s, Enter(p)))
  {
    var t := Step(s, Enter(p));
    assert forall q | 0 <= q < |s.procs| && q != p :: t.procs[q] == s.procs[q];
    assert forall c | 0 <= c < |s.calls| :: t.leaders[c] == s.leaders[c];
    assert t.procs[p].key == s.procs[p].key;
  }

  lemma LeadingBeginsKeepsInv(s: State, p: nat)
    requires Inv(s) && p < |s.procs| && s.procs[p].pc.Start? && s.procs[p].key !in s.pending
    ensures Inv(Step(s, Enter(p)))
  {
    var t := Step(s, Enter(p));
    LeadingBeginsKeepsLinks(s, p);
    LeadingBeginsKeepsPending(s, p);
    assert forall q | 0 <= q < |s.procs| && q != p :: t.procs[q] == s.procs[q];
    assert forall c | 0 <= c < |s.calls| :: t.calls[c] == s.calls[c];
  }

  lemma DeleteKeepsLinks(s: State, p: nat)
    requires Inv(s) && Enabled(s, Delete(p))
    ensures Linked(Step(s, Delete(p))) && RecordsAgree(Step(s, Delete(p)))
  {
    var t := Step(s, Delete(p));
    assert forall q | 0 <= q < |s.procs| && q != p :: t.procs[q] == s.procs[q];
    assert t.procs[p].key == s.procs[p].key;
  }

  lemma DeleteKeepsInv(s: State, p: nat)
    requires Inv(s) && Enabled(s, Delete(p))
    ensures Inv(Step(s, Delete(p)))
  {
    var t := Step(s, Delete(p));
    DeleteKeepsLinks(s, p);
    assert forall q | 0 <= q < |s.procs| && q != p :: t.procs[q] == s.procs[q];
    assert t.procs[p].key == s.procs[p].key;
    forall k | k in t.pending ensures s.leaders[s.pending[k]] != p {
      assert s.procs[s.leaders[s.pending[k]]].key == k;
    }
    forall q | 0 <= q < |s.procs| && Owning(t.procs[q].pc) ensures t.procs[q].key in t.pending {
      assert s.pending[s.procs[q].key] == s.procs[q].pc.call;
    }
    assert PendingIsOwners(t);
  }

  lemma LeaderStepKeepsInv(s: State, e: Event)
    requires Inv(s) && Enabled(s, e)
    requires e.FnReturns? || e.WriteVal? || e.WriteErr? || e.Close? || e.LeaderReturns?
    ensures Inv(Step(s, e))
  {
    var t := Step(s, e);
    var c := s.procs[e.p].pc.call;
    assert t == Goto(s, e.p, t.procs[e.p].pc).(calls := s.calls[c := t.calls[c]]);
    LeaderMoveKeepsInv(s, e.p, t.procs[e.p].pc, t.calls[c]);
  }

  lemma WaiterStepKeepsInv(s: State, e: Event)
    requires Inv(s) && Enabled(s, e)
    requires e.Wake? || e.ReadVal? || e.WaiterReturns? || e.Timeout?
    ensures Inv(Step(s, e))
  {
    WaiterMoveKeepsInv(s, e.p, Step(s, e).procs[e.p].pc);
  }

  lemma StepKeepsInv(s: State, e: Event)
    requires Inv(s) && Enabled(s, e)
    ensures Inv(Step(s, e))
  {
    match e {
      case Arrive(key) => ArrivalKeepsInv(s, key);
      case Enter(p) =>
        if s.procs[p].key in s.pending {
          JoiningKeepsInv(s, p);
        } else {
          LeadingBeginsKeepsInv(s, p);
        }
      case Delete(p) => DeleteKeepsInv(s, p);
      case Wake(_) => WaiterStepKeepsInv(s, e);
      case ReadVal(_) => WaiterStepKeepsInv(s, e);
      case WaiterReturns(_) => WaiterStepKeepsInv(s, e);
      case Timeout(_) => WaiterStepKeepsInv(s, e);
      case _ => LeaderStepKeepsInv(s, e);
    }
  }

  lemma {:induction false} RunKeepsInv(s: State, schedule: seq<Event>)
    requires Inv(s) && Run(s, schedule).Some?
    ensures Inv(Run(s, schedule).value)
    decreases |schedule|
  {
    if schedule != [] {
      StepKeepsInv(s, schedule[0]);
      RunKeepsInv(Step(s, schedule[0]), schedule[1..]);
    }
  }

  // ----- What every interleaving keeps -----

  /** Per key at most one process is between creating its entry and deleting it, so at most one runs `fn`. */
  lemma OneLeaderPerKey(schedule: seq<Event>, p: nat, q: nat)
    requires Run(INITIAL, schedule).Some?
    requires var s := Run(INITIAL, schedule).value;
             p < |s.procs| && q < |s.procs| && Owning(s.procs[p].pc) && Owning(s.procs[q].pc)
             && s.procs[p].key == s.procs[q].key
    ensures p == q
  {
    RunKeepsInv(INITIAL, schedule);
  }

  /** What `fn` gave process `p` in a schedule, in order. */
  function Results(schedule: seq<Event>, p: nat): seq<(Value, Err)>
    decreases |schedule|
  {
    if schedule == [] then []
    else
      var later := Results(schedule[1..], p);
      match schedule[0]
      case FnReturns(q, val, err) => if q == p then [(val, err)] + later else later
      case _ => later
  }

  lemma {:induction false} ResultsAreEvents(schedule: seq<Event>, p: nat, val: Value, err: Err)
    ensures (val, err) in Results(schedule, p) <==> FnReturns(p, val, err) in schedule
    decreases |schedule|
  {
    if schedule != [] {
      assert schedule == [schedule[0]] + schedule[1..];
      ResultsAreEvents(schedule[1..], p, val, err);
    }
  }

  /** What process `p` holds of its own run of `fn`. */
  function Carried(s: State, p: nat): seq<(Value, Err)> {
    if p < |s.procs| && Leading(s.procs[p].pc) && !s.procs[p].pc.Running? then
      [(s.procs[p].pc.val, s.procs[p].pc.err)]
    else []
  }

  lemma StepCarries(s: State, e: Event, p: nat)
    requires Enabled(s, e)
    ensures Carried(Step(s, e), p) == Carried(s, p) + Results([e], p)
  {
    assert [e][1..] == [] && Results([e][1..], p) == [];
    assert e.Arrive? || Step(s, e).procs == s.procs[e.p := Step(s, e).procs[e.p]];
  }

  lemma {:induction false} RunCarries(s: State, schedule: seq<Event>, p: nat)
    requires Run(s, schedule).Some?
    ensures Carried(Run(s, schedule).value, p) == Carried(s, p) + Results(schedule, p)
    decreases |schedule|
  {
    if schedule != [] {
      var e, rest := schedule[0], schedule[1..];
      StepCarries(s, e, p);
      assert [e][1..] == [] && Results([e][1..], p) == [];
      assert Results(schedule, p) == Results([e], p) + Results(rest, p);
      RunCarries(Step(s, e), rest, p);
    }
  }

  /**
   * A process that has returned as leader ran `fn` once, and returns the pair that run gave; one that waits or
   * has returned as waiter never ran it.
   */
  lemma LeadersReturnWhatFnGave(schedule: seq<Event>, p: nat)
    requires Run(INITIAL, schedule).Some?
    requires p < |Run(INITIAL, schedule).value.procs|
    ensures var pc := Run(INITIAL, schedule).value.procs[p].pc;
            && (pc.LeaderReturned? ==> FnReturns(p, pc.val, pc.err) in schedule)
            && (pc.LeaderReturned? ==> forall v, e | FnReturns(p, v, e) in schedule :: v == pc.val && e == pc.err)
            && (pc.LeaderReturned? ==> |Results(schedule, p)| == 1)
            && (Joined(pc) ==> forall v, e :: FnReturns(p, v, e) !in schedule)
  {
    RunCarries(INITIAL, schedule, p);
    var pc := Run(INITIAL, schedule).value.procs[p].pc;
    assert Carried(INITIAL, p) == [];
    forall v, e ensures (v, e) in Results(schedule, p) <==> FnReturns(p, v, e) in schedule {
      ResultsAreEvents(schedule, p, v, e);
    }
    if pc.LeaderReturned? {
      assert Results(schedule, p) == [(pc.val, pc.err)];
      assert (pc.val, pc.err) in Results(schedule, p);
    }
  }

  /**
   * A waiter that does not time out returns the one pair `fn` gave the leader of the call it joined; that leader
   * served the same key, published before the waiter woke, and returns the same pair.
   */
  lemma WaitersReturnTheirLeadersResult(schedule: seq<Event>, p: nat) returns (leader: nat)
    requires Run(INITIAL, schedule).Some?
    requires var s := Run(INITIAL, schedule).value; p < |s.procs| && s.procs[p].pc.WaiterReturned?
    ensures var s := Run(INITIAL, schedule).value;
            && leader < |s.procs| && leader != p && s.procs[leader].key == s.procs[p].key
            && (s.procs[leader].pc.Closed? || s.procs[leader].pc.Deleted? || s.procs[leader].pc.LeaderReturned?)
            && s.procs[leader].pc.call == s.procs[p].pc.call
            && s.procs[leader].pc.val == s.procs[p].pc.val && s.procs[leader].pc.err == s.procs[p].pc.err
    ensures var pc := Run(INITIAL, schedule).value.procs[p].pc;
            && FnReturns(leader, pc.val, pc.err) in schedule
            && forall v, e | FnReturns(leader, v, e) in schedule :: v == pc.val && e == pc.err
  {
    RunKeepsInv(INITIAL, schedule);
    var s := Run(INITIAL, schedule).value;
    leader := s.leaders[s.procs[p].pc.call];
    var pc := s.procs[p].pc;
    RunCarries(INITIAL, schedule, leader);
    assert Results(schedule, leader) == [(pc.val, pc.err)];
    assert (pc.val, pc.err) in Results(schedule, leader);
    forall v, e ensures (v, e) in Results(schedule, leader) <==> FnReturns(leader, v, e) in schedule {
      ResultsAreEvents(schedule, leader, v, e);
    }
  }

  /** The keys of the calls of `Do`, in order of arrival. */
  function Arrivals(schedule: seq<Event>): seq<string>
    decreases |schedule|
  {
    if schedule == [] then []
    else (if schedule[0].Arrive? then [schedule[0].key] else []) + Arrivals(schedule[1..])
  }

  function KeysOf(procs: seq<Proc>): seq<string> {
    seq(|procs|, p requires 0 <= p < |procs| => procs[p].key)
  }

  lemma StepAdmits(s: State, e: Event)
    requires Enabled(s, e)
    ensures KeysOf(Step(s, e).procs) == KeysOf(s.procs) + if e.Arrive? then [e.key] else []
  {
    if !e.Arrive? {
      assert Step(s, e).procs == s.procs[e.p := Step(s, e).procs[e.p]];
    }
  }

  lemma {:induction false} RunAdmits(s: State, schedule: seq<Event>)
    requires Run(s, schedule).Some?
    ensures KeysOf(Run(s, schedule).value.procs) == KeysOf(s.procs) + Arrivals(schedule)
    decreases |schedule|
  {
    if schedule != [] {
      var e, rest, keys := schedule[0], schedule[1..], KeysOf(s.procs);
      var mine := if e.Arrive? then [e.key] else [];
      StepAdmits(s, e);
      RunAdmits(Step(s, e), rest);
      assert Arrivals(schedule) == mine + Arrivals(rest);
      assert (keys + mine) + Arrivals(rest) == keys + (mine + Arrivals(rest));
    }
  }

  /** Process `p` is the call of `Do` that arrived `p`-th, and keeps the key it came with. */
  lemma ProcessesAreArrivals(schedule: seq<Event>)
    requires Run(INITIAL, schedule).Some?
    ensures var (s, keys) := (Run(INITIAL, schedule).value, Arrivals(schedule));
            |keys| == |s.procs| && forall p | 0 <= p < |keys| :: s.procs[p].key == keys[p]
  {
    RunAdmits(INITIAL, schedule);
    assert KeysOf(Run(INITIAL, schedule).value.procs) == Arrivals(schedule);
  }

  /**
   * A caller runs `fn` exactly when no call of its key is under way; otherwise it waits for that call, whose
   * leader has not deleted it yet. So a result is never served to a caller that comes after the delete.
   */
  lemma CallersJoinOnlyLiveCalls(schedule: seq<Event>, p: nat)
    requires Run(INITIAL, schedule).Some? && Enabled(Run(INITIAL, schedule).value, Enter(p))
    ensures var s := Run(INITIAL, schedule).value;
            var pc := Step(s, Enter(p)).procs[p].pc;
            && (forall q | 0 <= q < |s.procs| && s.procs[q].key == s.procs[p].key && Owning(s.procs[q].pc) ::
                  pc == Waiting(s.procs[q].pc.call))
            && (pc.Running? || exists q :: 0 <= q < |s.procs| && s.procs[q].key == s.procs[p].key
                                            && Owning(s.procs[q].pc) && pc == Waiting(s.procs[q].pc.call))
            && (forall q | 0 <= q < |s.procs| && (s.procs[q].pc.Deleted? || s.procs[q].pc.LeaderReturned?) ::
                  pc.call != s.procs[q].pc.call)
  {
    RunKeepsInv(INITIAL, schedule);
    var s := Run(INITIAL, schedule).value;
    var key := s.procs[p].key;
    if key in s.pending {
      var q := s.leaders[s.pending[key]];
      assert s.procs[q].key == key && Owning(s.procs[q].pc);
    }
  }

  /** A leader at its delete finds its own entry there, and removes no other process's entry. */
  lemma DeleteRemovesOnlyOwnEntry(schedule: seq<Event>, p: nat)
    requires Run(INITIAL, schedule).Some? && Enabled(Run(INITIAL, schedule).value, Delete(p))
    ensures var s := Run(INITIAL, schedule).value;
            var t := Step(s, Delete(p));
            && s.procs[p].key in s.pending && s.pending[s.procs[p].key] == s.procs[p].pc.call
            && t.pending == map k | k in s.pending && s.pending[k] != s.procs[p].pc.call :: s.pending[k]
  {
    RunKeepsInv(INITIAL, schedule);
    var s := Run(INITIAL, schedule).value;
    forall k | k in s.pending && s.pending[k] == s.procs[p].pc.call ensures k == s.procs[p].key {
      assert s.procs[s.leaders[s.pending[k]]].key == k;
    }
  }

  ghost function Owners(s: State): set<nat> {
    set p: nat | p < |s.procs| && Owning(s.procs[p].pc)
  }

  /** `Pending()` counts exactly the leaders between entry and delete. */
  lemma PendingCountsOwners(schedule: seq<Event>)
    requires Run(INITIAL, schedule).Some?
    ensures var s := Run(INITIAL, schedule).value; |s.pending| == |Owners(s)|
  {
    RunKeepsInv(INITIAL, schedule);
    var s := Run(INITIAL, schedule).value;
    OwnersMatchKeys(s, s.pending.Keys, Owners(s));
    assert |s.pending| == |s.pending.Keys|;
  }

  lemma {:induction false} OwnersMatchKeys(s: State, keys: set<string>, owners: set<nat>)
    requires forall p | p in owners :: p < |s.procs| && s.procs[p].key in keys
    requires forall p, q | p in owners && q in owners && s.procs[p].key == s.procs[q].key :: p == q
    requires forall k | k in keys :: exists p <- owners :: s.procs[p].key == k
    ensures |keys| == |owners|
    decreases owners
  {
    if owners == {} {
      assert keys == {};
    } else {
      var p :| p in owners;
      var k := s.procs[p].key;
      forall l | l in keys - {k} ensures exists q <- owners - {p} :: s.procs[q].key == l {
        var q :| q in owners && s.procs[q].key == l;
        assert q in owners - {p};
      }
      OwnersMatchKeys(s, keys - {k}, owners - {p});
    }
  }

  /**
   * Nobody waits on a call whose leader has gone: while the channel is open its leader still has a step to take; once
   * it is closed the waiter can wake; and it can time out whenever it waits.
   */
  lemma NoLostWakeup(schedule: seq<Event>, p: nat)
    requires Run(INITIAL, schedule).Some?
    requires var s := Run(INITIAL, schedule).value; p < |s.procs| && s.procs[p].pc.Waiting?
    ensures var s := Run(INITIAL, schedule).value;
            var c := s.procs[p].pc.call;
            && c < |s.calls| == |s.leaders| && s.leaders[c] < |s.procs|
            && (s.calls[c].done ==> Enabled(s, Wake(p)))
            && Enabled(s, Timeout(p)) && Step(s, Timeout(p)).procs[p].pc.TimedOut?
            && (!s.calls[c].done ==> Owning(s.procs[s.leaders[c]].pc) && !s.procs[s.leaders[c]].pc.Closed?)
  {
    RunKeepsInv(INITIAL, schedule);
  }

  // ----- Every call can end -----

  /** An upper bound on the steps a process has left. */
  function Rank(pc: Pc): nat {
    match pc
    case Start => 12
    case Running(_) => 7
    case Ran(_, _, _) => 6
    case ValWritten(_, _, _) => 5
    case ErrWritten(_, _, _) => 4
    case Closed(_, _, _) => 3
    case Deleted(_, _, _) => 2
    case Waiting(_) => 3
    case Woken(_) => 2
    case ValRead(_, _) => 1
    case _ => 0
  }

  predicate Ended(pc: Pc) {
    pc.LeaderReturned? || pc.WaiterReturned? || pc.TimedOut?
  }

  predicate Blocked(s: State, p: nat)
    requires p < |s.procs|
  {
    s.procs[p].pc.Waiting? && s.procs[p].pc.call < |s.calls| && !s.calls[s.procs[p].pc.call].done
  }

  /** The next step of a process, when it has one without giving up; `fn` may return anything. */
  function Next(pc: Pc, p: nat): Event
    requires !Ended(pc)
  {
    match pc
    case Start => Enter(p)
    case Running(_) => FnReturns(p, None, None)
    case Ran(_, _, _) => WriteVal(p)
    case ValWritten(_, _, _) => WriteErr(p)
    case ErrWritten(_, _, _) => Close(p)
    case Closed(_, _, _) => Delete(p)
    case Deleted(_, _, _) => LeaderReturns(p)
    case Waiting(_) => Wake(p)
    case Woken(_) => ReadVal(p)
    case ValRead(_, _) => WaiterReturns(p)
  }

  /** A process that is not blocked can always move, and moves on. */
  lemma UnblockedCanMove(s: State, p: nat)
    requires Inv(s) && p < |s.procs| && !Ended(s.procs[p].pc) && !Blocked(s, p)
    ensures var e := Next(s.procs[p].pc, p);
            Enabled(s, e) && (s.procs[p].pc.Start? || Rank(Step(s, e).procs[p].pc) < Rank(s.procs[p].pc))
  {
  }

  /** From any state reached, and without giving up, the leader of a call can publish. */
  lemma {:induction false} LeaderCanPublish(s: State, c: nat) returns (more: seq<Event>, r: State)
    requires Inv(s) && c < |s.calls|
    ensures Run(s, more) == Some(r) && Inv(r) && c < |r.calls| && r.calls[c].done
    ensures |r.procs| == |s.procs| && forall p | 0 <= p < |s.procs| && p != s.leaders[c] :: r.procs[p] == s.procs[p]
    ensures forall e | e in more :: !e.Timeout? && !e.Arrive?
    decreases Rank(s.procs[s.leaders[c]].pc)
  {
    more, r := [], s;
    if !s.calls[c].done {
      var e := Next(s.procs[s.leaders[c]].pc, s.leaders[c]);
      UnblockedCanMove(s, s.leaders[c]);
      StepKeepsInv(s, e);
      more, r := LeaderCanPublish(Step(s, e), c);
      more := [e] + more;
    }
  }

  /** A blocked process lets the leader publish first; any other takes its own steps to the end. */
  lemma {:induction false} CanEnd(s: State, p: nat) returns (more: seq<Event>)
    requires Inv(s) && p < |s.procs|
    ensures Run(s, more).Some? && p < |Run(s, more).value.procs| && Ended(Run(s, more).value.procs[p].pc)
    ensures Run(s, more).value.procs[p].pc.TimedOut? ==> s.procs[p].pc.TimedOut?
    ensures forall e | e in more :: !e.Timeout? && !e.Arrive?
    decreases Rank(s.procs[p].pc), Blocked(s, p)
  {
    more := [];
    if Blocked(s, p) {
      var waited, r := LeaderCanPublish(s, s.procs[p].pc.call);
      more := CanEnd(r, p);
      RunsJoin(s, waited, more);
      more := waited + more;
    } else if !Ended(s.procs[p].pc) {
      var e := Next(s.procs[p].pc, p);
      UnblockedCanMove(s, p);
      StepKeepsInv(s, e);
      more := CanEnd(Step(s, e), p);
      more := [e] + more;
    }
  }

  lemma {:induction false} RunsJoin(s: State, first: seq<Event>, second: seq<Event>)
    requires Run(s, first).Some?
    ensures Run(s, first + second) == Run(Run(s, first).value, second)
    decreases |first|
  {
    if first == [] {
      assert first + second == second;
    } else {
      RunsJoin(Step(s, first[0]), first[1..], second);
      assert (first + second)[1..] == first[1..] + second;
    }
  }

  /** No deadlock: from every state reached each call can return, no timeout used and no further call arriving. */
  lemma EveryCallCanReturn(schedule: seq<Event>, p: nat) returns (more: seq<Event>)
    requires Run(INITIAL, schedule).Some? && p < |Run(INITIAL, schedule).value.procs|
    requires !Run(INITIAL, schedule).value.procs[p].pc.TimedOut?
    ensures Run(INITIAL, schedule + more).Some?
    ensures var s := Run(INITIAL, schedule + more).value;
            p < |s.procs| && (s.procs[p].pc.LeaderReturned? || s.procs[p].pc.WaiterReturned?)
    ensures forall e | e in more :: !e.Timeout? && !e.Arrive?
  {
    RunKeepsInv(INITIAL, schedule);
    more := CanEnd(Run(INITIAL, schedule).value, p);
    RunsJoin(INITIAL, schedule, more);
  }
}
