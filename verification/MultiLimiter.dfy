/** Three levels of token buckets: per key, per model, per provider; a request passes all or debits none. */
module MultiLimiter {
  import opened Wrappers
  import opened Metering

  /** Limits at or below zero mean unlimited. `lastFill` and all clock readings are in minutes. */
  datatype Bucket = Bucket(rpm: real, tpm: real, req: real, tok: real, lastFill: real)

  function NewBucket(rpm: int, tpm: int, now: real): Bucket {
    Bucket(rpm as real, tpm as real, rpm as real, tpm as real, now)
  }

  function Refill(b: Bucket, now: real): Bucket {
    if now - b.lastFill <= 0.0 then b
    else b.(lastFill := now,
            req := Topped(b.req, b.rpm, Gain(b.rpm, now - b.lastFill)),
            tok := Topped(b.tok, b.tpm, Gain(b.tpm, now - b.lastFill)))
  }

  predicate LacksRequests(b: Bucket) {
    b.rpm > 0.0 && b.req < 1.0
  }

  predicate LacksTokens(b: Bucket, tokens: int) {
    b.tpm > 0.0 && b.tok < tokens as real
  }

  function Debit(b: Bucket, tokens: int): Bucket {
    b.(req := if b.rpm > 0.0 then b.req - 1.0 else b.req,
       tok := if b.tpm > 0.0 then b.tok - tokens as real else b.tok)
  }

  // ----- The limiter as a value -----

  datatype Level = KeyLevel(key: string) | ModelLevel(model: string) | ProviderLevel

  datatype Limiter = Limiter(perKey: map<string, Bucket>, perModel: map<string, Bucket>, perProvider: Option<Bucket>)

  function At(s: Limiter, l: Level): Option<Bucket> {
    match l
    case KeyLevel(k) => if k in s.perKey then Some(s.perKey[k]) else None
    case ModelLevel(m) => if m in s.perModel then Some(s.perModel[m]) else None
    case ProviderLevel => s.perProvider
  }

  function Put(s: Limiter, l: Level, b: Bucket): Limiter {
    match l
    case KeyLevel(k) => s.(perKey := s.perKey[k := b])
    case ModelLevel(m) => s.(perModel := s.perModel[m := b])
    case ProviderLevel => s.(perProvider := Some(b))
  }

  datatype Verdict = Passed | RateLimited(level: Level) | TokenLimited(level: Level) | NotARequest

  predicate Denied(v: Verdict) {
    v.RateLimited? || v.TokenLimited?
  }

  function RefillAt(s: Limiter, l: Level, now: real): Limiter {
    if At(s, l).Some? then Put(s, l, Refill(At(s, l).value, now)) else s
  }

  function DebitAt(s: Limiter, l: Level, tokens: int): Limiter {
    if At(s, l).Some? then Put(s, l, Debit(At(s, l).value, tokens)) else s
  }

  function Complaint(s: Limiter, l: Level, tokens: int): Verdict {
    if At(s, l).Some? && LacksRequests(At(s, l).value) then RateLimited(l)
    else if At(s, l).Some? && LacksTokens(At(s, l).value, tokens) then TokenLimited(l)
    else Passed
  }

  /** One level: refilled, then judged. */
  function Screened(s: Limiter, l: Level, tokens: int, now: real): (Limiter, Verdict) {
    var t := RefillAt(s, l, now);
    (t, Complaint(t, l, tokens))
  }

  /** Screens key, model and provider in order, stopping at the first complaint; debits all three when there is none. */
  function Asked(s: Limiter, key: string, model: string, tokens: int, now: real): (Limiter, Verdict) {
    var (s1, v1) := Screened(s, KeyLevel(key), tokens, now);
    if v1 != Passed then (s1, v1) else
    var (s2, v2) := Screened(s1, ModelLevel(model), tokens, now);
    if v2 != Passed then (s2, v2) else
    var (s3, v3) := Screened(s2, ProviderLevel, tokens, now);
    if v3 != Passed then (s3, v3) else
    (DebitAt(DebitAt(DebitAt(s3, KeyLevel(key), tokens), ModelLevel(model), tokens), ProviderLevel, tokens), Passed)
  }

  class MultiRateLimiter {
    var perKey: map<string, Bucket>
    var perModel: map<string, Bucket>
    var perProvider: Option<Bucket>

    function View(): Limiter
      reads this
    {
      Limiter(perKey, perModel, perProvider)
    }

    constructor (providerRPM: int, providerTPM: int, now: real)
      ensures View() == Limiter(map[], map[], Some(NewBucket(providerRPM, providerTPM, now)))
    {
      perKey, perModel, perProvider := map[], map[], Some(NewBucket(providerRPM, providerTPM, now));
    }

    method SetKeyLimit(key: string, rpm: int, tpm: int, now: real)
      modifies this
      ensures View() == Put(old(View()), KeyLevel(key), NewBucket(rpm, tpm, now))
    {
      perKey := perKey[key := NewBucket(rpm, tpm, now)];
    }

    method SetModelLimit(model: string, rpm: int, tpm: int, now: real)
      modifies this
      ensures View() == Put(old(View()), ModelLevel(model), NewBucket(rpm, tpm, now))
    {
      perModel := perModel[model := NewBucket(rpm, tpm, now)];
    }

    method ClearKeyLimit(key: string)
      modifies this
      ensures View() == old(View()).(perKey := old(perKey) - {key})
    {
      perKey := perKey - {key};
    }

    method ClearModelLimit(model: string)
      modifies this
      ensures View() == old(View()).(perModel := old(perModel) - {model})
    {
      perModel := perModel - {model};
    }

    method Allow(key: string, model: string, tokens: int, now: real) returns (verdict: Verdict)
      modifies this
      ensures (View(), verdict) == Asked(old(View()), key, model, tokens, now)
      ensures verdict == Passed <==>
                && (key in old(perKey) ==> Suffices(Refill(old(perKey)[key], now), tokens))
                && (model in old(perModel) ==> Suffices(Refill(old(perModel)[model], now), tokens))
                && (old(perProvider).Some? ==> Suffices(Refill(old(perProvider).value, now), tokens))
    {
      PassesInNumbers(View(), key, model, tokens, now);
      if key in perKey {
        perKey := perKey[key := Refill(perKey[key], now)];
        if LacksRequests(perKey[key]) {
          return RateLimited(KeyLevel(key));
        }
        if LacksTokens(perKey[key], tokens) {
          return TokenLimited(KeyLevel(key));
        }
      }
      if model in perModel {
        perModel := perModel[model := Refill(perModel[model], now)];
        if LacksRequests(perModel[model]) {
          return RateLimited(ModelLevel(model));
        }
        if LacksTokens(perModel[model], tokens) {
          return TokenLimited(ModelLevel(model));
        }
      }
      if perProvider.Some? {
        perProvider := Some(Refill(perProvider.value, now));
        if LacksRequests(perProvider.value) {
          return RateLimited(ProviderLevel);
        }
        if LacksTokens(perProvider.value, tokens) {
          return TokenLimited(ProviderLevel);
        }
      }
      if key in perKey {
        perKey := perKey[key := Debit(perKey[key], tokens)];
      }
      if model in perModel {
        perModel := perModel[model := Debit(perModel[model], tokens)];
      }
      if perProvider.Some? {
        perProvider := Some(Debit(perProvider.value, tokens));
      }
      verdict := Passed;
    }
  }

  // ----- In numbers -----

  /** Time that passes earns a limited measure its rate, up to the limit; no time passing changes nothing. */
  lemma RefillInNumbers(b: Bucket, now: real)
    ensures var (r, minutes) := (Refill(b, now), now - b.lastFill);
            && r.rpm == b.rpm && r.tpm == b.tpm
            && (minutes <= 0.0 ==> r == b)
            && (minutes > 0.0 ==> r.lastFill == now)
            && (minutes > 0.0 && b.rpm > 0.0 ==>
                  r.req == if b.req + minutes * b.rpm <= b.rpm then b.req + minutes * b.rpm else b.rpm)
            && (minutes > 0.0 && b.tpm > 0.0 ==>
                  r.tok == if b.tok + minutes * b.tpm <= b.tpm then b.tok + minutes * b.tpm else b.tpm)
            && (b.rpm <= 0.0 ==> r.req == b.req)
            && (b.tpm <= 0.0 ==> r.tok == b.tok)
  {
  }

  /** A refilled bucket has a whole request left, and the tokens asked for; a limit at or below zero never binds. */
  predicate Suffices(b: Bucket, tokens: int) {
    (b.rpm <= 0.0 || b.req >= 1.0) && (b.tpm <= 0.0 || b.tok >= tokens as real)
  }

  /** Passed exactly when the refilled buckets of key, model and provider, where there are any, all suffice. */
  lemma PassesInNumbers(s: Limiter, key: string, model: string, tokens: int, now: real)
    ensures Asked(s, key, model, tokens, now).1 == Passed <==>
              && (key in s.perKey ==>
                    var b := Refill(s.perKey[key], now);
                    (b.rpm <= 0.0 || b.req >= 1.0) && (b.tpm <= 0.0 || b.tok >= tokens as real))
              && (model in s.perModel ==>
                    var b := Refill(s.perModel[model], now);
                    (b.rpm <= 0.0 || b.req >= 1.0) && (b.tpm <= 0.0 || b.tok >= tokens as real))
              && (s.perProvider.Some? ==>
                    var b := Refill(s.perProvider.value, now);
                    (b.rpm <= 0.0 || b.req >= 1.0) && (b.tpm <= 0.0 || b.tok >= tokens as real))
  {
  }

  /** A refusal names the first level that falls short, in the order key, model, provider; requests before tokens. */
  lemma RefusesInNumbers(s: Limiter, key: string, model: string, tokens: int, now: real)
    ensures var v := Asked(s, key, model, tokens, now).1;
            var keyFits := key in s.perKey ==> Suffices(Refill(s.perKey[key], now), tokens);
            var modelFits := model in s.perModel ==> Suffices(Refill(s.perModel[model], now), tokens);
            && (v == RateLimited(KeyLevel(key)) <==>
                  key in s.perKey && var b := Refill(s.perKey[key], now); b.rpm > 0.0 && b.req < 1.0)
            && (v == TokenLimited(KeyLevel(key)) <==>
                  key in s.perKey && var b := Refill(s.perKey[key], now);
                  (b.rpm <= 0.0 || b.req >= 1.0) && b.tpm > 0.0 && b.tok < tokens as real)
            && (v == RateLimited(ModelLevel(model)) <==>
                  keyFits && model in s.perModel && var b := Refill(s.perModel[model], now);
                  b.rpm > 0.0 && b.req < 1.0)
            && (v == TokenLimited(ModelLevel(model)) <==>
                  keyFits && model in s.perModel && var b := Refill(s.perModel[model], now);
                  (b.rpm <= 0.0 || b.req >= 1.0) && b.tpm > 0.0 && b.tok < tokens as real)
            && (v == RateLimited(ProviderLevel) <==>
                  keyFits && modelFits && s.perProvider.Some? && var b := Refill(s.perProvider.value, now);
                  b.rpm > 0.0 && b.req < 1.0)
            && (v == TokenLimited(ProviderLevel) <==>
                  keyFits && modelFits && s.perProvider.Some? && var b := Refill(s.perProvider.value, now);
                  (b.rpm <= 0.0 || b.req >= 1.0) && b.tpm > 0.0 && b.tok < tokens as real)
  {
  }

  /** An admitted request takes one request and its tokens from each limited measure of the three levels, no more. */
  lemma ChargesInNumbers(s: Limiter, key: string, model: string, tokens: int, now: real, l: Level)
    requires Asked(s, key, model, tokens, now).1 == Passed && At(s, l).Some?
    ensures var t := Asked(s, key, model, tokens, now).0;
            var r := Refill(At(s, l).value, now);
            && At(t, l).Some?
            && (if l == KeyLevel(key) || l == ModelLevel(model) || l == ProviderLevel then
                  var b := At(t, l).value;
                  && b.lastFill == r.lastFill && b.rpm == r.rpm && b.tpm == r.tpm
                  && b.req == (if r.rpm > 0.0 then r.req - 1.0 else r.req)
                  && b.tok == (if r.tpm > 0.0 then r.tok - tokens as real else r.tok)
                else At(t, l) == At(s, l))
  {
  }

  // ----- Refilling composes -----

  lemma ToppingComposes(level: real, limit: real, rate: real, x: real, y: real)
    requires y > 0.0 && limit == rate
    ensures Topped(Topped(level, limit, Gain(rate, x)), limit, Gain(rate, y)) == Topped(level, limit, Gain(rate, x + y))
  {
    GainAdds(rate, x, y);
    GainSign(rate, y);
  }

  /** Refilling at one reading and again later is refilling once at the later one. */
  lemma RefillComposes(b: Bucket, t1: real, t2: real)
    requires t1 <= t2
    ensures Refill(Refill(b, t1), t2) == Refill(b, t2)
  {
    if b.lastFill < t1 < t2 {
      var x, y := t1 - b.lastFill, t2 - t1;
      ToppingComposes(b.req, b.rpm, b.rpm, x, y);
      ToppingComposes(b.tok, b.tpm, b.tpm, x, y);
      assert x + y == t2 - b.lastFill;
    }
  }

  // ----- Denied requests are invisible -----

  datatype Event =
    | Request(key: string, model: string, tokens: int, now: real)
    | SetLimit(level: Level, rpm: int, tpm: int, now: real)
    | ClearLimit(level: Level, now: real)

  function Cleared(s: Limiter, l: Level): Limiter {
    match l
    case KeyLevel(k) => s.(perKey := s.perKey - {k})
    case ModelLevel(m) => s.(perModel := s.perModel - {m})
    case ProviderLevel => s
  }

  function Step(s: Limiter, e: Event): (Limiter, Verdict) {
    match e
    case Request(key, model, tokens, now) => Asked(s, key, model, tokens, now)
    // The provider's own limits are fixed at construction.
    case SetLimit(l, rpm, tpm, now) =>
      (if l.ProviderLevel? then s else Put(s, l, NewBucket(rpm, tpm, now)), NotARequest)
    case ClearLimit(l, _) => (Cleared(s, l), NotARequest)
  }

  /** Two limiters that no request at `now` or later can tell apart. */
  ghost predicate Alike(s: Limiter, t: Limiter, now: real) {
    forall l: Level ::
      && (At(s, l).Some? <==> At(t, l).Some?)
      && (At(s, l).Some? ==> Refill(At(s, l).value, now) == Refill(At(t, l).value, now))
  }

  lemma AlikeLater(s: Limiter, t: Limiter, now: real, later: real)
    requires Alike(s, t, now) && now <= later
    ensures Alike(s, t, later)
  {
    forall l: Level | At(s, l).Some?
      ensures Refill(At(s, l).value, later) == Refill(At(t, l).value, later)
    {
      RefillComposes(At(s, l).value, now, later);
      RefillComposes(At(t, l).value, now, later);
    }
  }

  lemma PutThenAt(s: Limiter, l: Level, b: Bucket, m: Level)
    ensures At(Put(s, l, b), m) == if m == l then Some(b) else At(s, m)
  {
  }

  lemma RefillingIsUnseen(s: Limiter, l: Level, now: real)
    ensures Alike(s, RefillAt(s, l, now), now)
  {
    forall m: Level | At(s, m).Some?
      ensures At(RefillAt(s, l, now), m).Some?
              && Refill(At(RefillAt(s, l, now), m).value, now) == Refill(At(s, m).value, now)
    {
      RefillComposes(At(s, m).value, now, now);
    }
  }

  lemma AlikeIsTransitive(s: Limiter, t: Limiter, u: Limiter, now: real)
    requires Alike(s, t, now) && Alike(t, u, now)
    ensures Alike(s, u, now)
  {
  }

  /** A denial leaves a limiter alike: it debits no level. */
  lemma DenialLeavesAlike(s: Limiter, key: string, model: string, tokens: int, now: real)
    requires Denied(Asked(s, key, model, tokens, now).1)
    ensures Alike(s, Asked(s, key, model, tokens, now).0, now)
  {
    var s1 := RefillAt(s, KeyLevel(key), now);
    var s2 := RefillAt(s1, ModelLevel(model), now);
    var s3 := RefillAt(s2, ProviderLevel, now);
    RefillingIsUnseen(s, KeyLevel(key), now);
    RefillingIsUnseen(s1, ModelLevel(model), now);
    RefillingIsUnseen(s2, ProviderLevel, now);
    AlikeIsTransitive(s, s1, s2, now);
    AlikeIsTransitive(s, s2, s3, now);
  }

  lemma ScreeningAlike(s: Limiter, t: Limiter, l: Level, tokens: int, now: real)
    requires Alike(s, t, now)
    ensures Alike(RefillAt(s, l, now), RefillAt(t, l, now), now)
    ensures At(RefillAt(s, l, now), l) == At(RefillAt(t, l, now), l)
    ensures Complaint(RefillAt(s, l, now), l, tokens) == Complaint(RefillAt(t, l, now), l, tokens)
  {
    RefillingIsUnseen(s, l, now);
    RefillingIsUnseen(t, l, now);
    assert Alike(RefillAt(s, l, now), s, now);
    AlikeIsTransitive(RefillAt(s, l, now), s, t, now);
    AlikeIsTransitive(RefillAt(s, l, now), t, RefillAt(t, l, now), now);
  }

  lemma DebitingAlike(s: Limiter, t: Limiter, l: Level, tokens: int, now: real)
    requires Alike(s, t, now) && At(s, l) == At(t, l)
    ensures Alike(DebitAt(s, l, tokens), DebitAt(t, l, tokens), now)
    ensures forall m | m != l :: At(DebitAt(s, l, tokens), m) == At(s, m) && At(DebitAt(t, l, tokens), m) == At(t, m)
  {
    forall m: Level | m != l
      ensures At(DebitAt(s, l, tokens), m) == At(s, m) && At(DebitAt(t, l, tokens), m) == At(t, m)
    {
    }
  }

  lemma OthersUntouched(s: Limiter, l: Level, now: real, m: Level)
    requires m != l
    ensures At(RefillAt(s, l, now), m) == At(s, m)
  {
  }

  /** Alike limiters answer a request alike and stay alike. */
  lemma RequestOnAlike(s: Limiter, t: Limiter, key: string, model: string, tokens: int, now: real)
    requires Alike(s, t, now)
    ensures Asked(s, key, model, tokens, now).1 == Asked(t, key, model, tokens, now).1
    ensures Alike(Asked(s, key, model, tokens, now).0, Asked(t, key, model, tokens, now).0, now)
  {
    var k, m, p := KeyLevel(key), ModelLevel(model), ProviderLevel;
    var s1, t1 := RefillAt(s, k, now), RefillAt(t, k, now);
    var s2, t2 := RefillAt(s1, m, now), RefillAt(t1, m, now);
    var s3, t3 := RefillAt(s2, p, now), RefillAt(t2, p, now);
    ScreeningAlike(s, t, k, tokens, now);
    ScreeningAlike(s1, t1, m, tokens, now);
    ScreeningAlike(s2, t2, p, tokens, now);
    OthersUntouched(s1, m, now, k);
    OthersUntouched(t1, m, now, k);
    OthersUntouched(s2, p, now, k);
    OthersUntouched(t2, p, now, k);
    OthersUntouched(s2, p, now, m);
    OthersUntouched(t2, p, now, m);
    var s4, t4 := DebitAt(s3, k, tokens), DebitAt(t3, k, tokens);
    var s5, t5 := DebitAt(s4, m, tokens), DebitAt(t4, m, tokens);
    DebitingAlike(s3, t3, k, tokens, now);
    DebitingAlike(s4, t4, m, tokens, now);
    DebitingAlike(s5, t5, p, tokens, now);
  }

  lemma StepOnAlike(s: Limiter, t: Limiter, e: Event)
    requires Alike(s, t, e.now)
    ensures Step(s, e).1 == Step(t, e).1 && Alike(Step(s, e).0, Step(t, e).0, e.now)
  {
    match e
    case Request(key, model, tokens, now) => RequestOnAlike(s, t, key, model, tokens, now);
    case SetLimit(l, rpm, tpm, now) =>
      if !l.ProviderLevel? {
        forall m: Level ensures At(Step(s, e).0, m) == if m == l then Some(NewBucket(rpm, tpm, now)) else At(s, m) {
          PutThenAt(s, l, NewBucket(rpm, tpm, now), m);
        }
        forall m: Level ensures At(Step(t, e).0, m) == if m == l then Some(NewBucket(rpm, tpm, now)) else At(t, m) {
          PutThenAt(t, l, NewBucket(rpm, tpm, now), m);
        }
      }
    case ClearLimit(l, _) =>
      forall m: Level
        ensures At(Step(s, e).0, m) == (if m == l && !l.ProviderLevel? then None else At(s, m))
        ensures At(Step(t, e).0, m) == (if m == l && !l.ProviderLevel? then None else At(t, m))
      {
      }
  }

  /** Readings never go back, and none is before `from`. */
  predicate Ordered(es: seq<Event>, from: real)
    decreases |es|
  {
    es == [] || (from <= es[0].now && Ordered(es[1..], es[0].now))
  }

  /** The verdict on each event of a run. */
  function Verdicts(s: Limiter, es: seq<Event>): (vs: seq<Verdict>)
    ensures |vs| == |es|
    decreases |es|
  {
    if es == [] then [] else [Step(s, es[0]).1] + Verdicts(Step(s, es[0]).0, es[1..])
  }

  lemma {:induction false} RunsOnAlike(s: Limiter, t: Limiter, es: seq<Event>, now: real)
    requires Alike(s, t, now) && Ordered(es, now)
    ensures Verdicts(s, es) == Verdicts(t, es)
    decreases |es|
  {
    if es != [] {
      AlikeLater(s, t, now, es[0].now);
      StepOnAlike(s, t, es[0]);
      RunsOnAlike(Step(s, es[0]).0, Step(t, es[0]).0, es[1..], es[0].now);
    }
  }

  function Drop<T>(xs: seq<T>, i: nat): seq<T>
    requires i < |xs|
  {
    xs[..i] + xs[i + 1..]
  }

  lemma DropFromCons<T>(x: T, xs: seq<T>, i: nat)
    requires i <= |xs|
    ensures Drop([x] + xs, i) == if i == 0 then xs else [x] + Drop(xs, i - 1)
  {
    if i > 0 {
      assert ([x] + xs)[..i] == [x] + xs[..i - 1];
    }
  }

  lemma VerdictsOfCons(s: Limiter, e: Event, rest: seq<Event>)
    ensures Verdicts(s, [e] + rest) == [Step(s, e).1] + Verdicts(Step(s, e).0, rest)
  {
    assert ([e] + rest)[1..] == rest;
  }

  /**
   * Deleting any one denied request from a run changes no other event's verdict, although a denial refills some
   * levels.
   */
  lemma {:induction false} DeniedRequestsAreInvisible(s: Limiter, es: seq<Event>, i: nat, from: real)
    requires Ordered(es, from) && i < |es| && Denied(Verdicts(s, es)[i])
    ensures Verdicts(s, Drop(es, i)) == Drop(Verdicts(s, es), i)
    decreases |es|
  {
    var e, rest := es[0], es[1..];
    var (t, v) := Step(s, e);
    assert es == [e] + rest;
    VerdictsOfCons(s, e, rest);
    DropFromCons(e, rest, i);
    DropFromCons(v, Verdicts(t, rest), i);
    if i == 0 {
      DenialLeavesAlike(s, e.key, e.model, e.tokens, e.now);
      RunsOnAlike(s, t, rest, e.now);
    } else {
      DeniedRequestsAreInvisible(t, rest, i - 1, e.now);
      VerdictsOfCons(s, e, Drop(rest, i - 1));
    }
  }

  // ----- The admission bound, for one bucket -----

  /** What a run of a limiter does to one bucket: leaves it, refills it, or refills and debits it. */
  datatype Use = Left(now: real) | Refilled(now: real) | Debited(tokens: int, now: real)

  function Used(b: Bucket, u: Use): Bucket {
    match u
    case Left(_) => b
    case Refilled(now) => Refill(b, now)
    case Debited(tokens, now) => Debit(Refill(b, now), tokens)
  }

  predicate Affordable(b: Bucket, u: Use) {
    u.Debited? ==> !LacksRequests(Refill(b, u.now)) && !LacksTokens(Refill(b, u.now), u.tokens)
  }

  /** A history of one bucket: readings do not go back, and no debit overdraws. */
  predicate History(b: Bucket, us: seq<Use>, from: real, until: real)
    decreases |us|
  {
    if us == [] then from <= until
    else from <= us[0].now && Affordable(b, us[0]) && History(Used(b, us[0]), us[1..], us[0].now, until)
  }

  function Requests(us: seq<Use>): int {
    if us == [] then 0 else (if us[0].Debited? then 1 else 0) + Requests(us[1..])
  }

  function Tokens(us: seq<Use>): int {
    if us == [] then 0 else (if us[0].Debited? then us[0].tokens else 0) + Tokens(us[1..])
  }

  function RequestDrains(us: seq<Use>): seq<Drain> {
    if us == [] then []
    else [Drain(us[0].now, !us[0].Left?, if us[0].Debited? then 1.0 else 0.0)] + RequestDrains(us[1..])
  }

  function TokenDrains(us: seq<Use>): seq<Drain> {
    if us == [] then []
    else [Drain(us[0].now, !us[0].Left?, if us[0].Debited? then us[0].tokens as real else 0.0)] + TokenDrains(us[1..])
  }

  predicate InRange(b: Bucket) {
    && (b.rpm > 0.0 ==> 0.0 <= b.req <= b.rpm)
    && (b.tpm > 0.0 ==> 0.0 <= b.tok <= b.tpm)
  }

  lemma ToppedStaysInRange(level: real, limit: real, minutes: real)
    requires limit > 0.0 && level >= 0.0 && minutes > 0.0
    ensures 0.0 <= Topped(level, limit, Gain(limit, minutes)) <= limit
  {
    GainSign(limit, minutes);
  }

  lemma RefillKeepsRange(b: Bucket, now: real)
    requires InRange(b)
    ensures InRange(Refill(b, now))
  {
    if b.lastFill < now {
      if b.rpm > 0.0 {
        ToppedStaysInRange(b.req, b.rpm, now - b.lastFill);
      }
      if b.tpm > 0.0 {
        ToppedStaysInRange(b.tok, b.tpm, now - b.lastFill);
      }
    }
  }

  lemma RefillHolds(b: Bucket, now: real)
    ensures Refill(b, now).req == Held(Earning(b.rpm), b.rpm, Meter(b.req, b.lastFill), now)
    ensures Refill(b, now).tok == Held(Earning(b.tpm), b.tpm, Meter(b.tok, b.lastFill), now)
    ensures Refill(b, now).lastFill == if now > b.lastFill then now else b.lastFill
    ensures Refill(b, now).rpm == b.rpm && Refill(b, now).tpm == b.tpm
  {
    EarningIsGain(b.rpm, now - b.lastFill);
    EarningIsGain(b.tpm, now - b.lastFill);
  }

  lemma {:induction false} RequestsDrain(b: Bucket, us: seq<Use>, from: real, until: real)
    requires b.rpm > 0.0 && b.req >= 0.0 && History(b, us, from, until)
    ensures Timed(RequestDrains(us), from, until) && Drained(RequestDrains(us)) == Requests(us) as real
    ensures Run(Earning(b.rpm), b.rpm, Meter(b.req, b.lastFill), RequestDrains(us)).level >= 0.0
    decreases |us|
  {
    if us != [] {
      var u := us[0];
      RefillHolds(b, u.now);
      EarningEarns(b.rpm);
      HeldIsWithin(Earning(b.rpm), b.rpm, Meter(b.req, b.lastFill), u.now);
      RequestsDrain(Used(b, u), us[1..], u.now, until);
      assert RequestDrains(us)[1..] == RequestDrains(us[1..]);
    }
  }

  lemma {:induction false} TokensDrain(b: Bucket, us: seq<Use>, from: real, until: real)
    requires b.tpm > 0.0 && b.tok >= 0.0 && History(b, us, from, until)
    ensures Timed(TokenDrains(us), from, until) && Drained(TokenDrains(us)) == Tokens(us) as real
    ensures Run(Earning(b.tpm), b.tpm, Meter(b.tok, b.lastFill), TokenDrains(us)).level >= 0.0
    decreases |us|
  {
    if us != [] {
      var u := us[0];
      RefillHolds(b, u.now);
      EarningEarns(b.tpm);
      HeldIsWithin(Earning(b.tpm), b.tpm, Meter(b.tok, b.lastFill), u.now);
      TokensDrain(Used(b, u), us[1..], u.now, until);
      assert TokenDrains(us)[1..] == TokenDrains(us[1..]);
    }
  }

  /** A bucket admits at most limit * (1 + minutes), of requests and of tokens. */
  lemma BucketBound(b: Bucket, us: seq<Use>, from: real, until: real)
    requires InRange(b) && History(b, us, from, until)
    ensures b.rpm > 0.0 ==> Requests(us) as real <= Allowance(b.rpm, until - from)
    ensures b.tpm > 0.0 ==> Tokens(us) as real <= Allowance(b.tpm, until - from)
  {
    if b.rpm > 0.0 {
      RequestsDrain(b, us, from, until);
      var m := Meter(b.req, b.lastFill);
      DrainBound(b.rpm, m, RequestDrains(us), from, until);
      EarningEarns(b.rpm);
      HeldIsWithin(Earning(b.rpm), b.rpm, Run(Earning(b.rpm), b.rpm, m, RequestDrains(us)), until);
    }
    if b.tpm > 0.0 {
      TokensDrain(b, us, from, until);
      var m := Meter(b.tok, b.lastFill);
      DrainBound(b.tpm, m, TokenDrains(us), from, until);
      EarningEarns(b.tpm);
      HeldIsWithin(Earning(b.tpm), b.tpm, Run(Earning(b.tpm), b.tpm, m, TokenDrains(us)), until);
    }
  }

  // ----- ... and for every level of the limiter at once -----

  /** An event asks something of a level. */
  predicate Concerns(e: Event, l: Level) {
    e.Request? && match l
                  case KeyLevel(k) => e.key == k
                  case ModelLevel(m) => e.model == m
                  case ProviderLevel => true
  }

  predicate Resets(e: Event, l: Level) {
    (e.SetLimit? || e.ClearLimit?) && e.level == l
  }

  predicate NoResets(es: seq<Event>, l: Level) {
    forall e | e in es :: !Resets(e, l)
  }

  /** The verdict admits the request and it concerns the level. */
  predicate Charged(v: Verdict, e: Event, l: Level) {
    v == Passed && Concerns(e, l)
  }

  /** A level has what a request needs, once refilled; one without a bucket or not concerned always has. */
  predicate CanAfford(s: Limiter, e: Event, l: Level) {
    e.Request? && At(s, l).Some? && Concerns(e, l) ==> Affordable(At(s, l).value, Debited(e.tokens, e.now))
  }

  /** All or nothing: a request is admitted exactly when its key, its model and the provider can all afford it. */
  lemma PassesExactlyWhen(s: Limiter, e: Event)
    requires e.Request?
    ensures Step(s, e).1 == Passed <==> forall l: Level :: CanAfford(s, e, l)
  {
    var k, m, p := KeyLevel(e.key), ModelLevel(e.model), ProviderLevel;
    var s1 := RefillAt(s, k, e.now);
    var s2 := RefillAt(s1, m, e.now);
    OthersUntouched(s, k, e.now, m);
    OthersUntouched(s, k, e.now, p);
    OthersUntouched(s1, m, e.now, p);
    assert Step(s, e).1 == Passed <==> CanAfford(s, e, k) && CanAfford(s, e, m) && CanAfford(s, e, p);
    assert forall l: Level | Concerns(e, l) :: l == k || l == m || l == p;
  }

  /** What a request does to the bucket of one level. */
  lemma RequestOnLevel(s: Limiter, e: Event, l: Level)
    requires At(s, l).Some? && e.Request?
    ensures var ((t, v), b) := (Step(s, e), At(s, l).value);
            if Charged(v, e, l) then
              Affordable(b, Debited(e.tokens, e.now)) && At(t, l) == Some(Used(b, Debited(e.tokens, e.now)))
            else
              At(t, l) == Some(b) || At(t, l) == Some(Used(b, Refilled(e.now)))
  {
    RefillComposes(At(s, l).value, e.now, e.now);
  }

  lemma SettingOnLevel(s: Limiter, e: Event, l: Level)
    requires !e.Request? && !Resets(e, l)
    ensures At(Step(s, e).0, l) == At(s, l) && !Charged(Step(s, e).1, e, l)
  {
    if e.SetLimit? && !e.level.ProviderLevel? {
      PutThenAt(s, e.level, NewBucket(e.rpm, e.tpm, e.now), l);
    }
  }

  /**
   * What one event does to the bucket of a level it does not reset: a debit exactly when an admitted request concerns
   * it.
   */
  lemma StepOnLevel(s: Limiter, e: Event, l: Level) returns (u: Use)
    requires At(s, l).Some? && !Resets(e, l)
    ensures var (t, v) := Step(s, e);
            && u.now == e.now && Affordable(At(s, l).value, u) && At(t, l) == Some(Used(At(s, l).value, u))
            && (Charged(v, e, l) ==> u == Debited(e.tokens, e.now))
            && (!Charged(v, e, l) ==> !u.Debited?)
  {
    var (t, v) := Step(s, e);
    u := if Charged(v, e, l) then Debited(e.tokens, e.now)
         else if At(t, l) == At(s, l) then Left(e.now)
         else Refilled(e.now);
    if e.Request? {
      RequestOnLevel(s, e, l);
    } else {
      SettingOnLevel(s, e, l);
    }
  }

  function AdmittedRequests(es: seq<Event>, vs: seq<Verdict>, l: Level): int
    requires |es| == |vs|
  {
    if es == [] then 0 else (if Charged(vs[0], es[0], l) then 1 else 0) + AdmittedRequests(es[1..], vs[1..], l)
  }

  function AdmittedTokens(es: seq<Event>, vs: seq<Verdict>, l: Level): int
    requires |es| == |vs|
  {
    if es == [] then 0 else (if Charged(vs[0], es[0], l) then es[0].tokens else 0) + AdmittedTokens(es[1..], vs[1..], l)
  }

  predicate AllBy(es: seq<Event>, until: real) {
    forall e | e in es :: e.now <= until
  }

  /**
   * A run without resets of a level is a history of its bucket, with the admitted requests and tokens as its debits.
   */
  lemma {:induction false} RunIsHistory(s: Limiter, es: seq<Event>, l: Level, from: real, until: real)
    returns (us: seq<Use>)
    requires At(s, l).Some? && Ordered(es, from) && AllBy(es, until) && from <= until && NoResets(es, l)
    ensures History(At(s, l).value, us, from, until)
    ensures Requests(us) == AdmittedRequests(es, Verdicts(s, es), l)
    ensures Tokens(us) == AdmittedTokens(es, Verdicts(s, es), l)
    decreases |es|
  {
    if es == [] {
      us := [];
    } else {
      var e, rest := es[0], es[1..];
      assert e in es && forall f | f in rest :: f in es;
      assert es == [e] + rest;
      VerdictsOfCons(s, e, rest);
      var u := StepOnLevel(s, e, l);
      var t := Step(s, e).0;
      var tail := RunIsHistory(t, rest, l, e.now, until);
      us := [u] + tail;
      assert us[1..] == tail && Verdicts(s, es)[1..] == Verdicts(t, rest);
    }
  }

  /**
   * Over any `until - from` minutes without a reset, a key, a model or the provider admits at most
   * rpm * (1 + minutes) requests and tpm * (1 + minutes) tokens (AllowanceIsProduct): all three levels at once.
   */
  lemma AdmissionBound(s: Limiter, es: seq<Event>, l: Level, from: real, until: real)
    requires At(s, l).Some? && InRange(At(s, l).value)
    requires Ordered(es, from) && AllBy(es, until) && from <= until && NoResets(es, l)
    ensures var b := At(s, l).value;
            && (b.rpm > 0.0 ==> AdmittedRequests(es, Verdicts(s, es), l) as real <= Allowance(b.rpm, until - from))
            && (b.tpm > 0.0 ==> AdmittedTokens(es, Verdicts(s, es), l) as real <= Allowance(b.tpm, until - from))
  {
    var us := RunIsHistory(s, es, l, from, until);
    BucketBound(At(s, l).value, us, from, until);
  }

  /** No level but `l` limits anything. */
  ghost predicate OnlyLimits(s: Limiter, l: Level) {
    forall m: Level | m != l && At(s, m).Some? :: At(s, m).value.rpm <= 0.0 && At(s, m).value.tpm <= 0.0
  }

  lemma BurstStep(s: Limiter, l: Level, e: Event, left: nat)
    requires At(s, l).Some? && OnlyLimits(s, l) && e.Request? && Concerns(e, l)
    requires var b := At(s, l).value; b.rpm > 0.0 && b.tpm <= 0.0 && b.req == left as real && b.lastFill == e.now
    ensures var (t, v) := Step(s, e);
            && v == (if left > 0 then Passed else RateLimited(l))
            && OnlyLimits(t, l) && At(t, l).Some?
            && At(t, l).value == At(s, l).value.(req := if left > 0 then (left - 1) as real else 0.0)
  {
    var (t, v) := Step(s, e);
    PassesInNumbers(s, e.key, e.model, e.tokens, e.now);
    RefusesInNumbers(s, e.key, e.model, e.tokens, e.now);
    forall m: Level | At(s, m).Some? ensures Refill(At(s, m).value, e.now).rpm == At(s, m).value.rpm
                                             && Refill(At(s, m).value, e.now).tpm == At(s, m).value.tpm
    {
      RefillInNumbers(At(s, m).value, e.now);
    }
    forall m: Level | m != l && At(t, m).Some? ensures At(t, m).value.rpm <= 0.0 && At(t, m).value.tpm <= 0.0 {
      var u := StepOnLevel(s, e, m);
    }
    var u := StepOnLevel(s, e, l);
  }

  /** A burst at one reading: with `left` requests in the one limited bucket the first `left` pass, and no other. */
  lemma {:induction false} BurstIsExact(s: Limiter, l: Level, es: seq<Event>, now: real, left: nat)
    requires At(s, l).Some? && OnlyLimits(s, l)
    requires var b := At(s, l).value; b.rpm > 0.0 && b.tpm <= 0.0 && b.req == left as real && b.lastFill == now
    requires forall e | e in es :: e.Request? && Concerns(e, l) && e.now == now
    ensures forall i | 0 <= i < |es| :: Verdicts(s, es)[i] == if i < left then Passed else RateLimited(l)
    decreases |es|
  {
    if es != [] {
      var e, rest := es[0], es[1..];
      assert e in es;
      BurstStep(s, l, e, left);
      BurstIsExact(Step(s, e).0, l, rest, now, if left > 0 then left - 1 else 0);
      assert es == [e] + rest;
      VerdictsOfCons(s, e, rest);
    }
  }

  /** A key, model or provider just given a limit of n requests a minute admits n of them at once, and not one more. */
  lemma FreshLimitAdmitsExactly(s: Limiter, l: Level, es: seq<Event>, n: nat, now: real)
    requires n > 0 && At(s, l) == Some(NewBucket(n, 0, now)) && OnlyLimits(s, l)
    requires forall e | e in es :: e.Request? && Concerns(e, l) && e.now == now
    ensures forall i | 0 <= i < |es| :: Verdicts(s, es)[i] == if i < n then Passed else RateLimited(l)
  {
    BurstIsExact(s, l, es, now, n);
  }

  ghost predicate AllInRange(s: Limiter) {
    forall l: Level | At(s, l).Some? :: InRange(At(s, l).value)
  }

  lemma ResetOrNew(s: Limiter, e: Event, l: Level)
    requires At(Step(s, e).0, l).Some? && (At(s, l).None? || Resets(e, l))
    ensures || At(Step(s, e).0, l) == At(s, l)
            || (e.SetLimit? && At(Step(s, e).0, l) == Some(NewBucket(e.rpm, e.tpm, e.now)))
  {
  }

  /** What a bucket could still take in before it is full, once refilled. */
  function Room(b: Bucket, now: real): real {
    b.tpm - Refill(b, now).tok
  }

  /** A use keeps a bucket in range unless it gives back more tokens than there is room for. */
  lemma UseKeepsRangeExactlyWhen(b: Bucket, u: Use)
    requires InRange(b) && Affordable(b, u)
    ensures InRange(Used(b, u)) <==> !(u.Debited? && b.tpm > 0.0 && (-u.tokens) as real > Room(b, u.now))
    ensures b.tpm > 0.0 ==> Room(b, u.now) >= 0.0
  {
    RefillKeepsRange(b, u.now);
  }

  predicate HasRequest(s: Limiter, e: Event, l: Level) {
    At(s, l).Some? && Concerns(e, l) ==> !LacksRequests(Refill(At(s, l).value, e.now))
  }

  predicate OverfillsLevel(s: Limiter, e: Event, l: Level) {
    && At(s, l).Some? && Concerns(e, l) && At(s, l).value.tpm > 0.0
    && e.Request? && (-e.tokens) as real > Room(At(s, l).value, e.now)
  }

  /**
   * Told from the buckets before the call: a negative token count, a request left at every level concerned, and less
   * room at some level than the tokens given back.
   */
  ghost predicate Overfills(s: Limiter, e: Event) {
    && e.Request? && e.tokens < 0
    && (forall l: Level :: HasRequest(s, e, l))
    && (exists l: Level :: OverfillsLevel(s, e, l))
  }

  /** A request of negative tokens is admitted exactly when every level concerned has a request left. */
  lemma NegativePassesExactlyWhen(s: Limiter, e: Event)
    requires AllInRange(s) && e.Request? && e.tokens < 0
    ensures Step(s, e).1 == Passed <==> forall l: Level :: HasRequest(s, e, l)
  {
    PassesExactlyWhen(s, e);
    forall l: Level | At(s, l).Some? && Concerns(e, l) ensures CanAfford(s, e, l) <==> HasRequest(s, e, l) {
      RefillKeepsRange(At(s, l).value, e.now);
    }
  }

  lemma LevelKeepsRange(s: Limiter, e: Event, l: Level)
    requires AllInRange(s) && At(Step(s, e).0, l).Some?
    ensures InRange(At(Step(s, e).0, l).value) <==> !(Step(s, e).1 == Passed && OverfillsLevel(s, e, l))
  {
    if At(s, l).Some? && !Resets(e, l) {
      var u := StepOnLevel(s, e, l);
      UseKeepsRangeExactlyWhen(At(s, l).value, u);
    } else {
      ResetOrNew(s, e, l);
    }
  }

  lemma OverfilledLevelStays(s: Limiter, e: Event, l: Level)
    requires AllInRange(s) && OverfillsLevel(s, e, l)
    ensures At(Step(s, e).0, l).Some? && e.tokens < 0
  {
    var u := StepOnLevel(s, e, l);
    UseKeepsRangeExactlyWhen(At(s, l).value, Refilled(e.now));
  }

  /** An event keeps every bucket in [0, limit] exactly when it does not overfill one; non-negative counts never do. */
  lemma StepKeepsRange(s: Limiter, e: Event)
    requires AllInRange(s)
    ensures AllInRange(Step(s, e).0) <==> !Overfills(s, e)
    ensures (e.Request? ==> e.tokens >= 0) ==> AllInRange(Step(s, e).0)
  {
    var t := Step(s, e).0;
    forall l: Level | At(t, l).Some?
      ensures InRange(At(t, l).value) <==> !(Step(s, e).1 == Passed && OverfillsLevel(s, e, l))
    {
      LevelKeepsRange(s, e, l);
    }
    forall l: Level | OverfillsLevel(s, e, l) ensures At(t, l).Some? && e.tokens < 0 {
      OverfilledLevelStays(s, e, l);
    }
    if e.Request? && e.tokens < 0 {
      NegativePassesExactlyWhen(s, e);
    }
  }

  /** The failing input: a provider limit of ten tokens, full, and a request of minus one. */
  lemma NegativeTokensCanOverfill()
    ensures var s := Limiter(map[], map[], Some(NewBucket(0, 10, 0.0)));
            AllInRange(s) && !AllInRange(Step(s, Request("", "", -1, 0.0)).0)
  {
    var b := NewBucket(0, 10, 0.0);
    var s, e := Limiter(map[], map[], Some(b)), Request("", "", -1, 0.0);
    assert Refill(b, 0.0) == b;
    assert OverfillsLevel(s, e, ProviderLevel);
    StepKeepsRange(s, e);
  }

  function End(s: Limiter, es: seq<Event>): Limiter
    decreases |es|
  {
    if es == [] then s else End(Step(s, es[0]).0, es[1..])
  }

  predicate NoNegativeTokens(es: seq<Event>) {
    forall e | e in es && e.Request? :: e.tokens >= 0
  }

  /** Over any run of requests with non-negative counts, limit changes included, every bucket stays in [0, limit]. */
  lemma {:induction false} RunKeepsRange(s: Limiter, es: seq<Event>)
    requires AllInRange(s) && NoNegativeTokens(es)
    ensures AllInRange(End(s, es))
    decreases |es|
  {
    if es != [] {
      assert es[0] in es;
      StepKeepsRange(s, es[0]);
      RunKeepsRange(Step(s, es[0]).0, es[1..]);
    }
  }
}
