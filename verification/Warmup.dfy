/** Warm-up rounds: which hot and idle prefixes are warmed, what each round spends, and how far warming can go. */
module Warmup {
  import opened Metering
  import opened Quota
  import opened Wrappers

  datatype Message = Message(role: string, content: string)

  /** A profiled prefix; `lastAccess` in minutes. */
  datatype Record = Record(fp: string, tenant: string, reqCount: int, hitTokens: int, lastAccess: real,
                           messages: seq<Message>)

  datatype Usage = Usage(promptTokens: int, cached: int)

  datatype Reply = Failed | Answered(usage: Option<Usage>)

  /** What the rest of the system answers while one candidate is looked at. */
  datatype Around = Around(total: int, node: string, clock: real, reply: Reply)

  datatype Config = Config(enabled: bool, canRoute: bool, canGenerate: bool, knowsTotal: bool, triggerReq: int,
                           triggerHitTokens: int, idleAfter: real, tailToken: string, capRatio: real, maxWarm: int)

  /** What is sent upstream. */
  datatype Call = Call(provider: string, fp: string, messages: seq<Message>)

  /** `buckets` is absent when no quota coordinator is set. */
  datatype State = State(buckets: Option<Buckets>, requests: int, late: int, input: int)

  datatype Outcome = Outcome(state: State, calls: seq<Call>, warmed: int)

  // ----- One candidate -----

  predicate Hot(c: Config, r: Record) {
    r.reqCount >= c.triggerReq || (c.triggerHitTokens > 0 && r.hitTokens >= c.triggerHitTokens)
  }

  /** Hot, idle for long enough, and with a payload to send. */
  predicate Due(c: Config, now: real, r: Record) {
    Hot(c, r) && now - r.lastAccess >= c.idleAfter && r.messages != []
  }

  predicate WithinCap(c: Config, total: int, input: int) {
    c.knowsTotal && total > 0 ==> input as real <= Gain(c.capRatio, total as real)
  }

  function WarmEvent(r: Record, a: Around): Event {
    Warm(Key(a.node, r.fp), a.clock)
  }

  /** Due, in numbers: enough requests or enough tokens hit, quiet for the idle time, and with a message to send. */
  lemma DueInNumbers(c: Config, now: real, r: Record)
    ensures Due(c, now, r) <==>
              && (r.reqCount >= c.triggerReq || (c.triggerHitTokens > 0 && r.hitTokens >= c.triggerHitTokens))
              && now - r.lastAccess >= c.idleAfter && |r.messages| > 0
  {
  }

  /** The quota is asked only for a due candidate that routes somewhere. */
  predicate Asks(c: Config, now: real, r: Record, a: Around) {
    Due(c, now, r) && a.node != ""
  }

  predicate Sends(c: Config, q: Quota.Config, now: real, r: Record, a: Around, s: State) {
    Asks(c, now, r, a) && (s.buckets.Some? ==> Granted(q, s.buckets.value, WarmEvent(r, a)))
  }

  function WithTail(messages: seq<Message>, tail: string): seq<Message>
    requires messages != []
  {
    messages[|messages| - 1 := messages[|messages| - 1].(content := tail)]
  }

  /** A due candidate ends the round when warming has used up its share. */
  predicate Stops(c: Config, now: real, r: Record, a: Around, s: State) {
    Due(c, now, r) && !WithinCap(c, a.total, s.input)
  }

  function Asked(c: Config, q: Quota.Config, now: real, r: Record, a: Around, s: State): Option<Buckets> {
    if s.buckets.Some? && Asks(c, now, r, a) then Some(Quota.Next(q, s.buckets.value, WarmEvent(r, a))) else s.buckets
  }

  function Tallied(s: State, reply: Reply): State {
    match reply
    case Failed => s
    case Answered(None) => s.(requests := s.requests + 1)
    case Answered(Some(u)) =>
      s.(requests := s.requests + 1, input := s.input + u.promptTokens,
         late := if u.cached == 0 then s.late + 1 else s.late)
  }

  /** The state after a candidate that does not end the round. */
  function Tried(c: Config, q: Quota.Config, now: real, r: Record, a: Around, s: State): State {
    var asked := s.(buckets := Asked(c, q, now, r, a, s));
    if Sends(c, q, now, r, a, s) then Tallied(asked, a.reply) else asked
  }

  function Sent(c: Config, q: Quota.Config, now: real, r: Record, a: Around, s: State): seq<Call> {
    if Sends(c, q, now, r, a, s) then [Call(a.node, r.fp, WithTail(r.messages, c.tailToken))] else []
  }

  predicate Succeeds(c: Config, q: Quota.Config, now: real, r: Record, a: Around, s: State) {
    Sends(c, q, now, r, a, s) && a.reply.Answered?
  }

  /**
   * What is done about a candidate, in numbers. It ends the round when it is due and warming has used more than its
   * share of the site's input; it is sent when it is due, routes somewhere, and its bucket, if any, holds more than
   * the reserve and a whole token; and an answer counts one request and its prompt tokens.
   */
  lemma CandidateInNumbers(c: Config, q: Quota.Config, now: real, r: Record, a: Around, s: State)
    ensures var due := && (r.reqCount >= c.triggerReq || (c.triggerHitTokens > 0 && r.hitTokens >= c.triggerHitTokens))
                       && now - r.lastAccess >= c.idleAfter && |r.messages| > 0;
            var after := Tried(c, q, now, r, a, s);
            && (Stops(c, now, r, a, s) <==>
                  due && c.knowsTotal && a.total > 0 && s.input as real > a.total as real * c.capRatio)
            && (|Sent(c, q, now, r, a, s)| == 1 <==>
                  && due && a.node != ""
                  && (s.buckets.Some? ==>
                        var b := Opened(q, s.buckets.value, a.node + "|" + r.fp, a.clock);
                        b.tokens > q.reserve * q.rpm && b.tokens >= 1.0))
            && |Sent(c, q, now, r, a, s)| <= 1
            && (|Sent(c, q, now, r, a, s)| == 0 || a.reply.Failed? ==>
                  after.requests == s.requests && after.input == s.input && after.late == s.late)
            && (|Sent(c, q, now, r, a, s)| == 1 && a.reply.Answered? ==>
                  && after.requests == s.requests + 1
                  && (a.reply.usage.None? ==> after.input == s.input && after.late == s.late)
                  && (a.reply.usage.Some? ==>
                        && after.input == s.input + a.reply.usage.value.promptTokens
                        && after.late == s.late + if a.reply.usage.value.cached == 0 then 1 else 0))
  {
    DueInNumbers(c, now, r);
    if s.buckets.Some? {
      NextInNumbers(q, s.buckets.value, WarmEvent(r, a));
    }
  }

  // ----- One round -----

  /** The round over the remaining candidates, `warmed` of which have already succeeded. */
  function Round(c: Config, q: Quota.Config, now: real, rs: seq<Record>, around: seq<Around>, s: State,
                 warmed: int): Outcome
    requires |rs| == |around|
    decreases |rs|
  {
    if rs == [] || warmed >= c.maxWarm || Stops(c, now, rs[0], around[0], s) then Outcome(s, [], warmed)
    else
      var n := if Succeeds(c, q, now, rs[0], around[0], s) then warmed + 1 else warmed;
      var rest := Round(c, q, now, rs[1..], around[1..], Tried(c, q, now, rs[0], around[0], s), n);
      rest.(calls := Sent(c, q, now, rs[0], around[0], s) + rest.calls)
  }

  /** A round that has already sent `calls`. */
  function Prefixed(calls: seq<Call>, rest: Outcome): Outcome {
    rest.(calls := calls + rest.calls)
  }

  lemma PrefixesCompose(a: seq<Call>, b: seq<Call>, rest: Outcome)
    ensures Prefixed(a, Prefixed(b, rest)) == Prefixed(a + b, rest)
  {
    assert a + (b + rest.calls) == a + b + rest.calls;
  }

  /** One pass of the loop, at candidate `i`. */
  lemma RoundFrom(c: Config, q: Quota.Config, now: real, rs: seq<Record>, around: seq<Around>, i: nat, s: State,
                  warmed: int)
    requires i < |rs| == |around| && warmed < c.maxWarm
    ensures var (r, a) := (rs[i], around[i]);
            Round(c, q, now, rs[i..], around[i..], s, warmed)
            == if Stops(c, now, r, a, s) then Outcome(s, [], warmed)
               else
                 var n := if Succeeds(c, q, now, r, a, s) then warmed + 1 else warmed;
                 Prefixed(Sent(c, q, now, r, a, s),
                          Round(c, q, now, rs[i + 1..], around[i + 1..], Tried(c, q, now, r, a, s), n))
  {
    assert rs[i..][1..] == rs[i + 1..] && around[i..][1..] == around[i + 1..];
  }

  predicate Runs(c: Config) {
    c.enabled && c.canRoute && c.canGenerate
  }

  function Ticked(c: Config, q: Quota.Config, now: real, rs: seq<Record>, around: seq<Around>, s: State): Outcome
    requires |rs| == |around|
  {
    if Runs(c) then Round(c, q, now, rs, around, s, 0) else Outcome(s, [], 0)
  }

  class WarmScheduler {
    const cfg: Config
    const quota: QuotaCoordinator?
    var requests: int
    var late: int
    var input: int

    constructor (c: Config, quota: QuotaCoordinator?)
      ensures this.quota == quota && requests == 0 && late == 0 && input == 0
      ensures cfg == c.(tailToken := if c.tailToken == "" then "." else c.tailToken,
                        maxWarm := if c.maxWarm <= 0 then 20 else c.maxWarm,
                        capRatio := if c.capRatio <= 0.0 then 0.02 else c.capRatio)
    {
      this.cfg := c.(tailToken := if c.tailToken == "" then "." else c.tailToken,
                     maxWarm := if c.maxWarm <= 0 then 20 else c.maxWarm,
                     capRatio := if c.capRatio <= 0.0 then 0.02 else c.capRatio);
      this.quota := quota;
      requests, late, input := 0, 0, 0;
    }

    ghost function Now(): State
      reads this, quota
    {
      State(if quota == null then None else Some(quota.buckets), requests, late, input)
    }

    ghost function Limits(): Quota.Config {
      if quota == null then Quota.Config(0.0, 0.0) else quota.cfg
    }

    method HotEnough(r: Record) returns (hot: bool)
      ensures hot == Hot(cfg, r)
    {
      if r.reqCount >= cfg.triggerReq {
        return true;
      }
      if cfg.triggerHitTokens > 0 && r.hitTokens >= cfg.triggerHitTokens {
        return true;
      }
      return false;
    }

    /** Asks for the site's total input only when it can. */
    method WithinGlobalCap(reading: int) returns (within: bool)
      ensures within == WithinCap(cfg, reading, input)
    {
      var total := 0;
      if cfg.knowsTotal {
        total := reading;
      }
      if total <= 0 {
        return true;
      }
      return input as real <= Gain(cfg.capRatio, total as real);
    }

    /** Sends the smallest request that warms a prefix and counts the answer. */
    method WarmOne(provider: string, r: Record, reply: Reply) returns (call: Call, ok: bool)
      requires r.messages != []
      modifies this
      ensures call == Call(provider, r.fp, WithTail(r.messages, cfg.tailToken))
      ensures ok == reply.Answered?
      ensures Now() == Tallied(old(Now()), reply)
    {
      var messages: seq<Message> := [];
      for i := 0 to |r.messages|
        invariant messages == r.messages[..i]
      {
        messages := messages + [r.messages[i]];
      }
      var last := messages[|messages| - 1];
      messages := messages[|messages| - 1 := last.(content := cfg.tailToken)];
      call := Call(provider, r.fp, messages);
      if reply.Failed? {
        return call, false;
      }
      requests := requests + 1;
      if reply.usage.Some? {
        input := input + reply.usage.value.promptTokens;
        if reply.usage.value.cached == 0 {
          late := late + 1;
        }
      }
      return call, true;
    }

    /** One pass of the loop over candidates. */
    method Visit(now: real, r: Record, a: Around) returns (stop: bool, sent: seq<Call>, ok: bool)
      modifies this, quota
      ensures stop == Stops(cfg, now, r, a, old(Now()))
      ensures stop ==> Now() == old(Now())
      ensures !stop ==> && Now() == Tried(cfg, Limits(), now, r, a, old(Now()))
                        && sent == Sent(cfg, Limits(), now, r, a, old(Now()))
                        && ok == Succeeds(cfg, Limits(), now, r, a, old(Now()))
    {
      stop, sent, ok := false, [], false;
      var hot := HotEnough(r);
      if !hot {
        return;
      }
      if now - r.lastAccess < cfg.idleAfter {
        return;
      }
      if |r.messages| == 0 {
        return;
      }
      var within := WithinGlobalCap(a.total);
      if !within {
        stop := true;
        return;
      }
      if a.node == "" {
        return;
      }
      if quota != null {
        var allowed := quota.WarmAllowed(a.node, r.fp, a.clock);
        if !allowed {
          return;
        }
      }
      var call;
      call, ok := WarmOne(a.node, r, a.reply);
      sent := [call];
    }

    /** One round over the hottest prefixes. */
    method Tick(now: real, candidates: seq<Record>, around: seq<Around>) returns (calls: seq<Call>)
      requires |candidates| == |around|
      modifies this, quota
      ensures var all := Ticked(cfg, Limits(), now, candidates, around, old(Now()));
              Now() == all.state && calls == all.calls
      ensures !cfg.enabled || !cfg.canRoute || !cfg.canGenerate ==> calls == [] && Now() == old(Now())
      ensures cfg.enabled && cfg.canRoute && cfg.canGenerate ==>
                calls == Round(cfg, Limits(), now, candidates, around, old(Now()), 0).calls
    {
      calls := [];
      if !cfg.enabled || !cfg.canRoute || !cfg.canGenerate {
        return;
      }
      ghost var q := Limits();
      ghost var all := Round(cfg, q, now, candidates, around, Now(), 0);
      var warmed, i := 0, 0;
      while i < |candidates|
        invariant 0 <= i <= |candidates|
        invariant all == Prefixed(calls, Round(cfg, q, now, candidates[i..], around[i..], Now(), warmed))
      {
        if warmed >= cfg.maxWarm {
          break;
        }
        ghost var s := Now();
        RoundFrom(cfg, q, now, candidates, around, i, s, warmed);
        var stop, sent, ok := Visit(now, candidates[i], around[i]);
        if stop {
          return;
        }
        ghost var n := if ok then warmed + 1 else warmed;
        PrefixesCompose(calls, sent, Round(cfg, q, now, candidates[i + 1..], around[i + 1..], Now(), n));
        calls := calls + sent;
        if ok {
          warmed := warmed + 1;
        }
        i := i + 1;
      }
    }
  }

  // ----- What a round spends -----

  /** The requests a round makes to the quota. */
  function Warms(c: Config, q: Quota.Config, now: real, rs: seq<Record>, around: seq<Around>, s: State,
                 warmed: int): seq<Event>
    requires |rs| == |around|
    decreases |rs|
  {
    if rs == [] || warmed >= c.maxWarm || Stops(c, now, rs[0], around[0], s) then []
    else
      var n := if Succeeds(c, q, now, rs[0], around[0], s) then warmed + 1 else warmed;
      var rest := Warms(c, q, now, rs[1..], around[1..], Tried(c, q, now, rs[0], around[0], s), n);
      if Asks(c, now, rs[0], around[0]) then [WarmEvent(rs[0], around[0])] + rest else rest
  }

  /** The calls that warm one prefix at one provider. */
  function CallsFor(calls: seq<Call>, key: string): int
    decreases |calls|
  {
    if calls == [] then 0
    else (if Key(calls[0].provider, calls[0].fp) == key then 1 else 0) + CallsFor(calls[1..], key)
  }

  lemma {:induction false} CallsForAppends(a: seq<Call>, b: seq<Call>, key: string)
    ensures CallsFor(a + b, key) == CallsFor(a, key) + CallsFor(b, key)
    decreases |a|
  {
    if a == [] {
      assert a + b == b;
    } else {
      assert (a + b)[1..] == a[1..] + b;
      CallsForAppends(a[1..], b, key);
    }
  }

  /** Every upstream call has spent one grant of its own bucket, and nothing else was spent. */
  lemma {:induction false} CallsSpendGrants(c: Config, q: Quota.Config, now: real, rs: seq<Record>,
                                            around: seq<Around>, s: State, warmed: int, key: string)
    requires |rs| == |around| && s.buckets.Some?
    ensures var all, es := Round(c, q, now, rs, around, s, warmed), Warms(c, q, now, rs, around, s, warmed);
            && CallsFor(all.calls, key) == WarmGrants(q, s.buckets.value, es, key)
            && all.state.buckets == Some(End(q, s.buckets.value, es))
    decreases |rs|
  {
    if !(rs == [] || warmed >= c.maxWarm || Stops(c, now, rs[0], around[0], s)) {
      var n := if Succeeds(c, q, now, rs[0], around[0], s) then warmed + 1 else warmed;
      var s' := Tried(c, q, now, rs[0], around[0], s);
      CallsSpendGrants(c, q, now, rs[1..], around[1..], s', n, key);
      var rest := Round(c, q, now, rs[1..], around[1..], s', n);
      CallsForAppends(Sent(c, q, now, rs[0], around[0], s), rest.calls, key);
      var es := Warms(c, q, now, rs[1..], around[1..], s', n);
      if Asks(c, now, rs[0], around[0]) {
        assert ([WarmEvent(rs[0], around[0])] + es)[1..] == es;
      }
    }
  }

  /** A round succeeds at most maxWarm times, counts each success once, and never succeeds without sending. */
  lemma {:induction false} RoundCounts(c: Config, q: Quota.Config, now: real, rs: seq<Record>, around: seq<Around>,
                                       s: State, warmed: int)
    requires |rs| == |around|
    ensures var all := Round(c, q, now, rs, around, s, warmed);
            && (warmed <= c.maxWarm ==> all.warmed <= c.maxWarm)
            && all.state.requests - s.requests == all.warmed - warmed
            && 0 <= all.warmed - warmed <= |all.calls|
            && 0 <= all.state.late - s.late <= all.warmed - warmed
    decreases |rs|
  {
    if !(rs == [] || warmed >= c.maxWarm || Stops(c, now, rs[0], around[0], s)) {
      var n := if Succeeds(c, q, now, rs[0], around[0], s) then warmed + 1 else warmed;
      RoundCounts(c, q, now, rs[1..], around[1..], Tried(c, q, now, rs[0], around[0], s), n);
    }
  }

  predicate Justifies(c: Config, now: real, r: Record, a: Around, call: Call) {
    && (r.reqCount >= c.triggerReq || (c.triggerHitTokens > 0 && r.hitTokens >= c.triggerHitTokens))
    && now - r.lastAccess >= c.idleAfter && r.messages != [] && a.node != ""
    && call.provider == a.node && call.fp == r.fp
    && call.messages == r.messages[..|r.messages| - 1] + [r.messages[|r.messages| - 1].(content := c.tailToken)]
  }

  /** Whatever is sent warms a due candidate at the node its keys route to, changing only the last message's content. */
  lemma {:induction false} OnlyDuePrefixesAreWarmed(c: Config, q: Quota.Config, now: real, rs: seq<Record>,
                                                    around: seq<Around>, s: State, warmed: int)
    requires |rs| == |around|
    ensures forall call | call in Round(c, q, now, rs, around, s, warmed).calls ::
              exists i | 0 <= i < |rs| :: Justifies(c, now, rs[i], around[i], call)
    decreases |rs|
  {
    if !(rs == [] || warmed >= c.maxWarm || Stops(c, now, rs[0], around[0], s)) {
      var n := if Succeeds(c, q, now, rs[0], around[0], s) then warmed + 1 else warmed;
      var s' := Tried(c, q, now, rs[0], around[0], s);
      OnlyDuePrefixesAreWarmed(c, q, now, rs[1..], around[1..], s', n);
      var rest := Round(c, q, now, rs[1..], around[1..], s', n);
      forall call | call in Round(c, q, now, rs, around, s, warmed).calls
        ensures exists i | 0 <= i < |rs| :: Justifies(c, now, rs[i], around[i], call)
      {
        if call in rest.calls {
          var i :| 0 <= i < |rs[1..]| && Justifies(c, now, rs[1..][i], around[1..][i], call);
          assert Justifies(c, now, rs[i + 1], around[i + 1], call);
        } else {
          assert Justifies(c, now, rs[0], around[0], call);
        }
      }
    }
  }

  /** With no cap, no quota and enough room in the round, every due candidate that routes somewhere is warmed. */
  lemma {:induction false} EveryDuePrefixIsWarmed(c: Config, q: Quota.Config, now: real, rs: seq<Record>,
                                                  around: seq<Around>, s: State, warmed: int)
    requires |rs| == |around| && s.buckets.None? && !c.knowsTotal && warmed + |rs| <= c.maxWarm
    ensures forall i | 0 <= i < |rs| && around[i].node != "" && |rs[i].messages| > 0
                && (rs[i].reqCount >= c.triggerReq || (c.triggerHitTokens > 0 && rs[i].hitTokens >= c.triggerHitTokens))
                && now - rs[i].lastAccess >= c.idleAfter ::
              exists call :: call in Round(c, q, now, rs, around, s, warmed).calls
                             && Justifies(c, now, rs[i], around[i], call)
    decreases |rs|
  {
    if rs != [] {
      var all := Round(c, q, now, rs, around, s, warmed).calls;
      var n := if Succeeds(c, q, now, rs[0], around[0], s) then warmed + 1 else warmed;
      var s' := Tried(c, q, now, rs[0], around[0], s);
      EveryDuePrefixIsWarmed(c, q, now, rs[1..], around[1..], s', n);
      var rest := Round(c, q, now, rs[1..], around[1..], s', n).calls;
      assert all == Sent(c, q, now, rs[0], around[0], s) + rest;
      forall i | 0 <= i < |rs| && Due(c, now, rs[i]) && around[i].node != ""
        ensures exists call :: call in all && Justifies(c, now, rs[i], around[i], call)
      {
        if i == 0 {
          assert Justifies(c, now, rs[0], around[0], all[0]);
        } else {
          var call :| call in rest && Justifies(c, now, rs[1..][i - 1], around[1..][i - 1], call);
          assert call in all;
        }
      }
    }
  }

  // ----- The cap on warming -----

  /** The prompt tokens of the last counted answer of a round, or `last` when there was none. */
  function LastCounted(c: Config, q: Quota.Config, now: real, rs: seq<Record>, around: seq<Around>, s: State,
                       warmed: int, last: int): int
    requires |rs| == |around|
    decreases |rs|
  {
    if rs == [] || warmed >= c.maxWarm || Stops(c, now, rs[0], around[0], s) then last
    else
      var a := around[0];
      var ok := Succeeds(c, q, now, rs[0], a, s);
      var counted := if ok && a.reply.usage.Some? then a.reply.usage.value.promptTokens else last;
      LastCounted(c, q, now, rs[1..], around[1..], Tried(c, q, now, rs[0], a, s),
                  if ok then warmed + 1 else warmed, counted)
  }

  /** Readings of the site's total input, positive and not going back, from `low` to `high`. */
  predicate Growing(around: seq<Around>, low: int, high: int)
    decreases |around|
  {
    if around == [] then 0 < low <= high else 0 < low <= around[0].total && Growing(around[1..], around[0].total, high)
  }

  /** Warming is over its share of `total` by no more than one answer of `last` prompt tokens. */
  predicate OverByOne(c: Config, total: int, input: int, last: int) {
    input as real <= Gain(c.capRatio, total as real) + last as real
  }

  lemma OverByOneGrows(c: Config, low: int, high: int, input: int, last: int)
    requires c.capRatio > 0.0 && low <= high && OverByOne(c, low, input, last)
    ensures OverByOne(c, high, input, last)
  {
    GainAdds(c.capRatio, low as real, (high - low) as real);
    GainSign(c.capRatio, (high - low) as real);
  }

  lemma TriedIsOverByOne(c: Config, q: Quota.Config, now: real, r: Record, a: Around, s: State, last: int)
    requires c.knowsTotal && a.total > 0 && !Stops(c, now, r, a, s) && OverByOne(c, a.total, s.input, last)
    ensures var counted := if Succeeds(c, q, now, r, a, s) && a.reply.usage.Some? then
                             a.reply.usage.value.promptTokens
                           else last;
            OverByOne(c, a.total, Tried(c, q, now, r, a, s).input, counted)
  {
  }

  /** While the total is positive and only grows, a round leaves warming over its share by at most its last answer. */
  lemma {:induction false} CapIsExceededByOneAnswer(c: Config, q: Quota.Config, now: real, rs: seq<Record>,
                                                    around: seq<Around>, s: State, warmed: int, last: int, low: int,
                                                    high: int)
    requires |rs| == |around| && c.knowsTotal && c.capRatio > 0.0 && Growing(around, low, high)
    requires OverByOne(c, low, s.input, last)
    ensures OverByOne(c, high, Round(c, q, now, rs, around, s, warmed).state.input,
                      LastCounted(c, q, now, rs, around, s, warmed, last))
    decreases |rs|
  {
    GrowingSpans(around, low, high);
    if rs == [] || warmed >= c.maxWarm || Stops(c, now, rs[0], around[0], s) {
      OverByOneGrows(c, low, high, s.input, last);
    } else {
      var a := around[0];
      OverByOneGrows(c, low, a.total, s.input, last);
      TriedIsOverByOne(c, q, now, rs[0], a, s, last);
      var ok := Succeeds(c, q, now, rs[0], a, s);
      var counted := if ok && a.reply.usage.Some? then a.reply.usage.value.promptTokens else last;
      CapIsExceededByOneAnswer(c, q, now, rs[1..], around[1..], Tried(c, q, now, rs[0], a, s),
                               if ok then warmed + 1 else warmed, counted, a.total, high);
    }
  }

  lemma {:induction false} GrowingSpans(around: seq<Around>, low: int, high: int)
    requires Growing(around, low, high)
    ensures 0 < low <= high
    decreases |around|
  {
    if around != [] {
      GrowingSpans(around[1..], around[0].total, high);
    }
  }

  // ----- Rounds among real traffic -----

  datatype Activity = Traffic(event: Event) | Warming(now: real, candidates: seq<Record>, around: seq<Around>)

  predicate WellFormed(a: Activity) {
    match a
    case Traffic(e) => !e.Warm?
    case Warming(_, rs, around) => |rs| == |around|
  }

  function Do(c: Config, q: Quota.Config, s: State, a: Activity): Outcome
    requires WellFormed(a) && s.buckets.Some?
  {
    match a
    case Traffic(e) => Outcome(s.(buckets := Some(Quota.Next(q, s.buckets.value, e))), [], 0)
    case Warming(now, rs, around) => Ticked(c, q, now, rs, around, s)
  }

  /** What an activity asks of the quota. */
  function Demands(c: Config, q: Quota.Config, s: State, a: Activity): seq<Event>
    requires WellFormed(a) && s.buckets.Some?
  {
    match a
    case Traffic(e) => [e]
    case Warming(now, rs, around) => if Runs(c) then Warms(c, q, now, rs, around, s, 0) else []
  }

  lemma DoMeetsDemands(c: Config, q: Quota.Config, s: State, a: Activity, key: string)
    requires WellFormed(a) && s.buckets.Some?
    ensures var es := Demands(c, q, s, a);
            && Do(c, q, s, a).state.buckets == Some(End(q, s.buckets.value, es))
            && CallsFor(Do(c, q, s, a).calls, key) == WarmGrants(q, s.buckets.value, es, key)
  {
    match a
    case Traffic(e) =>
      assert [e][1..] == [];
    case Warming(now, rs, around) =>
      if Runs(c) {
        CallsSpendGrants(c, q, now, rs, around, s, 0, key);
      }
  }

  function AllDemands(c: Config, q: Quota.Config, s: State, acts: seq<Activity>): seq<Event>
    requires s.buckets.Some? && forall a | a in acts :: WellFormed(a)
    decreases |acts|
  {
    if acts == [] then []
    else
      DoMeetsDemands(c, q, s, acts[0], "");
      Demands(c, q, s, acts[0]) + AllDemands(c, q, Do(c, q, s, acts[0]).state, acts[1..])
  }

  function AllCalls(c: Config, q: Quota.Config, s: State, acts: seq<Activity>): seq<Call>
    requires s.buckets.Some? && forall a | a in acts :: WellFormed(a)
    decreases |acts|
  {
    if acts == [] then []
    else
      DoMeetsDemands(c, q, s, acts[0], "");
      Do(c, q, s, acts[0]).calls + AllCalls(c, q, Do(c, q, s, acts[0]).state, acts[1..])
  }

  lemma {:induction false} GrantsAppend(q: Quota.Config, m: Buckets, a: seq<Event>, b: seq<Event>, key: string)
    ensures WarmGrants(q, m, a + b, key) == WarmGrants(q, m, a, key) + WarmGrants(q, End(q, m, a), b, key)
    decreases |a|
  {
    if a == [] {
      assert a + b == b;
    } else {
      assert (a + b)[1..] == a[1..] + b;
      GrantsAppend(q, Quota.Next(q, m, a[0]), a[1..], b, key);
    }
  }

  lemma {:induction false} AllCallsSpendGrants(c: Config, q: Quota.Config, s: State, acts: seq<Activity>, key: string)
    requires s.buckets.Some? && forall a | a in acts :: WellFormed(a)
    ensures CallsFor(AllCalls(c, q, s, acts), key) == WarmGrants(q, s.buckets.value, AllDemands(c, q, s, acts), key)
    decreases |acts|
  {
    if acts != [] {
      var first := Do(c, q, s, acts[0]);
      DoMeetsDemands(c, q, s, acts[0], key);
      AllCallsSpendGrants(c, q, first.state, acts[1..], key);
      CallsForAppends(first.calls, AllCalls(c, q, first.state, acts[1..]), key);
      GrantsAppend(q, s.buckets.value, Demands(c, q, s, acts[0]), AllDemands(c, q, first.state, acts[1..]), key);
    }
  }

  /**
   * However rounds and real requests interleave, the upstream calls that warm one prefix at one provider
   * within `until - from` minutes stay below rpm - reserve share + what the minutes earn + 1.
   */
  lemma WarmCallsAreBounded(c: Config, q: Quota.Config, s: State, acts: seq<Activity>, key: string, from: real,
                            until: real)
    requires s.buckets.Some? && forall a | a in acts :: WellFormed(a)
    requires q.rpm > 0.0 && InRange(q, s.buckets.value) && Ordered(AllDemands(c, q, s, acts), from, until)
    requires CallsFor(AllCalls(c, q, s, acts), key) > 0
    ensures CallsFor(AllCalls(c, q, s, acts), key) as real
            < q.rpm - Gain(q.rpm, q.reserve) + Gain(q.rpm, until - from) + 1.0
  {
    AllCallsSpendGrants(c, q, s, acts, key);
    WarmUpsAreBounded(q, s.buckets.value, AllDemands(c, q, s, acts), key, from, until);
  }

  // ----- The cap over a whole run -----

  function Final(c: Config, q: Quota.Config, s: State, acts: seq<Activity>): State
    requires s.buckets.Some? && forall a | a in acts :: WellFormed(a)
    decreases |acts|
  {
    if acts == [] then s
    else
      DoMeetsDemands(c, q, s, acts[0], "");
      Final(c, q, Do(c, q, s, acts[0]).state, acts[1..])
  }

  function LatestTotal(around: seq<Around>, low: int): int
    decreases |around|
  {
    if around == [] then low else LatestTotal(around[1..], around[0].total)
  }

  /** Across all rounds the readings are positive and do not go back, and end at `high` or before. */
  predicate GrowsOver(acts: seq<Activity>, low: int, high: int)
    decreases |acts|
  {
    if acts == [] then 0 < low <= high
    else match acts[0]
      case Traffic(_) => GrowsOver(acts[1..], low, high)
      case Warming(_, _, around) =>
        Growing(around, low, LatestTotal(around, low)) && GrowsOver(acts[1..], LatestTotal(around, low), high)
  }

  function LastOver(c: Config, q: Quota.Config, s: State, acts: seq<Activity>, last: int): int
    requires s.buckets.Some? && forall a | a in acts :: WellFormed(a)
    decreases |acts|
  {
    if acts == [] then last
    else
      DoMeetsDemands(c, q, s, acts[0], "");
      var counted := match acts[0]
        case Traffic(_) => last
        case Warming(now, rs, around) => if Runs(c) then LastCounted(c, q, now, rs, around, s, 0, last) else last;
      LastOver(c, q, Do(c, q, s, acts[0]).state, acts[1..], counted)
  }

  /** Over a whole run of rounds and real traffic, warming is over its share by at most the last answer it counted. */
  lemma {:induction false} CapHoldsOverARun(c: Config, q: Quota.Config, s: State, acts: seq<Activity>, last: int,
                                            low: int, high: int)
    requires s.buckets.Some? && forall a | a in acts :: WellFormed(a)
    requires c.knowsTotal && c.capRatio > 0.0 && GrowsOver(acts, low, high) && OverByOne(c, low, s.input, last)
    ensures OverByOne(c, high, Final(c, q, s, acts).input, LastOver(c, q, s, acts, last))
    decreases |acts|
  {
    if acts == [] {
      OverByOneGrows(c, low, high, s.input, last);
    } else {
      DoMeetsDemands(c, q, s, acts[0], "");
      var s' := Do(c, q, s, acts[0]).state;
      match acts[0]
      case Traffic(_) => CapHoldsOverARun(c, q, s', acts[1..], last, low, high);
      case Warming(now, rs, around) =>
        var latest := LatestTotal(around, low);
        GrowingSpans(around, low, latest);
        if Runs(c) {
          CapIsExceededByOneAnswer(c, q, now, rs, around, s, 0, last, low, latest);
          CapHoldsOverARun(c, q, s', acts[1..], LastCounted(c, q, now, rs, around, s, 0, last), latest, high);
        } else {
          OverByOneGrows(c, low, latest, s.input, last);
          CapHoldsOverARun(c, q, s', acts[1..], last, latest, high);
        }
    }
  }
}
