/** The usage ledger: figures per key, per model, per day and in total, and the log that rebuilds them. */
module Ledger {
  import opened Wrappers

  /** An instant as its zone writes it: calendar day, second of that day, nanoseconds within the second, zone offset. */
  datatype Time = Time(day: int, second: int, nanos: int, offset: int)

  /** What the log keeps of an instant. */
  function Whole(t: Time): Time {
    t.(nanos := 0)
  }

  datatype Record = Record(key: string, provider: string, model: string, prompt: int, completion: int, cost: real,
                           ts: Time)

  datatype Usage = Usage(prompt: int, completion: int, requests: int, cost: real)

  datatype Tenant = Tenant(usage: Usage, lastRequest: Time, models: map<string, int>)

  datatype Figures = Figures(byKey: map<string, Tenant>, byModel: map<string, Usage>, total: Usage,
                             daily: map<string, int>)

  datatype Pricing = Pricing(input: real, output: real)

  function Zero(): Usage {
    Usage(0, 0, 0, 0.0)
  }

  function Grown(u: Usage, r: Record): Usage {
    Usage(u.prompt + r.prompt, u.completion + r.completion, u.requests + 1, u.cost + r.cost)
  }

  function Count(m: map<string, int>, name: string): int {
    if name in m then m[name] else 0
  }

  function KeyUsage(f: Figures, key: string): Usage {
    if key in f.byKey then f.byKey[key].usage else Zero()
  }

  function ModelUsage(f: Figures, model: string): Usage {
    if model in f.byModel then f.byModel[model] else Zero()
  }

  function ModelCounts(f: Figures, key: string): map<string, int> {
    if key in f.byKey then f.byKey[key].models else map[]
  }

  /** `format` writes a day as text. */
  function DayKey(format: int -> string, key: string, day: int): string {
    key + "|" + format(day)
  }

  function Recorded(format: int -> string, f: Figures, r: Record): Figures {
    var models := ModelCounts(f, r.key);
    var day := DayKey(format, r.key, r.ts.day);
    Figures(f.byKey[r.key := Tenant(Grown(KeyUsage(f, r.key), r), r.ts, models[r.model := Count(models, r.model) + 1])],
            f.byModel[r.model := Grown(ModelUsage(f, r.model), r)],
            Grown(f.total, r),
            f.daily[day := Count(f.daily, day) + r.prompt + r.completion])
  }

  function Nothing(): Figures {
    Figures(map[], map[], Zero(), map[])
  }

  /** The figures of a list of records, starting from nothing. */
  function Book(format: int -> string, rs: seq<Record>): Figures {
    if rs == [] then Nothing() else Recorded(format, Book(format, rs[..|rs| - 1]), rs[|rs| - 1])
  }

  // ----- The log -----

  /** A line of the log: the record it parses to, if any, and whether it is too long for the scanner. */
  datatype Line = Line(rec: Option<Record>, long: bool)

  /** The records a scan reads: lines that do not parse are skipped, a line that is too long ends the scan. */
  function Parsed(lines: seq<Line>): seq<Record>
    decreases |lines|
  {
    if lines == [] || lines[0].long then []
    else (if lines[0].rec.Some? then [lines[0].rec.value] else []) + Parsed(lines[1..])
  }

  function Written(tooLong: Record -> bool, r: Record): Line {
    Line(Some(r.(ts := Whole(r.ts))), tooLong(r))
  }

  function AllWritten(tooLong: Record -> bool, rs: seq<Record>): seq<Line> {
    if rs == [] then [] else AllWritten(tooLong, rs[..|rs| - 1]) + [Written(tooLong, rs[|rs| - 1])]
  }

  predicate AllShort(lines: seq<Line>) {
    forall i | 0 <= i < |lines| :: !lines[i].long
  }

  class CostTracker {
    const format: int -> string
    const tooLong: Record -> bool
    const persists: bool
    const appends: bool
    var byKey: map<string, Tenant>
    var byModel: map<string, Usage>
    var total: Usage
    var dailyTokens: map<string, int>
    var log: seq<Line>
    ghost var records: seq<Record>

    /** The figures are those of the records so far. */
    ghost predicate Valid()
      reads this
    {
      Now() == Book(format, records)
    }

    ghost function Now(): Figures
      reads `byKey, `byModel, `total, `dailyTokens
    {
      Figures(byKey, byModel, total, dailyTokens)
    }

    /** `disk` is the log found at start-up, if it can be read; `opens` says whether it can be opened for appending. */
    constructor (format: int -> string, tooLong: Record -> bool, persists: bool, disk: Option<seq<Line>>, opens: bool)
      ensures this.format == format && this.tooLong == tooLong && this.persists == persists
      ensures appends == (persists && opens)
      ensures log == if persists && disk.Some? then disk.value else []
      ensures Valid() && records == Parsed(log)
    {
      this.format, this.tooLong, this.persists, this.appends := format, tooLong, persists, persists && opens;
      byKey, byModel, total, dailyTokens := map[], map[], Zero(), map[];
      log := if persists && disk.Some? then disk.value else [];
      records := [];
      new;
      if persists {
        ReplayLog();
      }
    }

    method RecordLocked(r: Record)
      requires Valid()
      modifies this
      ensures Valid() && records == old(records) + [r] && log == old(log)
      ensures Now() == Recorded(format, old(Now()), r)
    {
      Grow(r);
      BookAppends(format, records, r);
      records := records + [r];
    }

    /** The fields a record changes: its key's figures, its model's, the totals and its key's day. */
    method Grow(r: Record)
      modifies `byKey, `byModel, `total, `dailyTokens
      ensures Now() == Recorded(format, old(Now()), r)
    {
      var tu := Tenant(Zero(), r.ts, map[]);
      if r.key in byKey {
        tu := byKey[r.key];
      }
      var models := tu.models[r.model := Count(tu.models, r.model) + 1];
      byKey := byKey[r.key := Tenant(Grown(tu.usage, r), r.ts, models)];
      var mu := Zero();
      if r.model in byModel {
        mu := byModel[r.model];
      }
      byModel := byModel[r.model := Grown(mu, r)];
      total := Grown(total, r);
      var day := DayKey(format, r.key, r.ts.day);
      dailyTokens := dailyTokens[day := Count(dailyTokens, day) + r.prompt + r.completion];
    }

    method AppendLog(r: Record)
      modifies `log
      ensures log == if appends then old(log) + [Written(tooLong, r)] else old(log)
    {
      if !appends {
        return;
      }
      log := log + [Written(tooLong, r)];
    }

    method ReplayLog()
      requires Valid() && records == []
      modifies this
      ensures log == old(log)
      ensures Valid() && records == Parsed(log)
    {
      var lines := log;
      var i := 0;
      assert lines[..|lines|] == lines;
      while i < |lines|
        invariant 0 <= i <= |lines| && log == lines && AllShort(lines[..i])
        invariant Valid() && records == Parsed(lines[..i])
      {
        ParsedOneMore(lines, i);
        if lines[i].long {
          break;
        }
        if lines[i].rec.Some? {
          RecordLocked(lines[i].rec.value);
        }
        i := i + 1;
      }
    }

    /** Records one request and, when it persists, logs it. */
    method Note(key: string, provider: string, model: string, prompt: int, completion: int, pricing: Option<Pricing>,
                now: Time)
      requires Valid()
      modifies this
      ensures var cost := if pricing.Some? then Cost(pricing.value, prompt, completion) else 0.0;
              var r := Record(key, provider, model, prompt, completion, cost, now);
              && Valid() && records == old(records) + [r] && Now() == Recorded(format, old(Now()), r)
              && log == if persists && appends then old(log) + [Written(tooLong, r)] else old(log)
      ensures |records| == |old(records)| + 1
      ensures var r := records[|old(records)|];
              && r.key == key && r.provider == provider && r.model == model
              && r.prompt == prompt && r.completion == completion && r.ts == now
              && (pricing.None? ==> r.cost == 0.0)
              && (pricing.Some? ==>
                    1_000_000.0 * r.cost
                    == Priced(prompt, pricing.value.input) + Priced(completion, pricing.value.output))
    {
      var cost := 0.0;
      if pricing.Some? {
        cost := Cost(pricing.value, prompt, completion);
        CostIsPerMillion(pricing.value, prompt, completion);
      }
      var r := Record(key, provider, model, prompt, completion, cost, now);
      RecordLocked(r);
      if persists {
        AppendLog(r);
      }
    }

    /** The tokens of the records of `key` on the day of `now`. */
    method DailyTokens(key: string, now: Time) returns (tokens: int)
      requires Valid() && Dated(format)
      ensures var u := SumOf(records, (r: Record) => r.key == key && r.ts.day == now.day);
              tokens == u.prompt + u.completion
    {
      DailyTokensAreSums(format, records, key, now.day);
      SameSelection(records, Among(OfKey(key), DayOf(), now.day),
                    (r: Record) => r.key == key && r.ts.day == now.day);
      tokens := Count(dailyTokens, DayKey(format, key, now.day));
    }
  }

  /** Prices are per million tokens. */
  function Cost(p: Pricing, prompt: int, completion: int): real {
    (prompt as real / 1_000_000.0) * p.input + (completion as real / 1_000_000.0) * p.output
  }

  function Priced(tokens: int, price: real): real {
    tokens as real * price
  }

  /** A million times the cost is prompt tokens times input price plus completion tokens times output price. */
  lemma CostIsPerMillion(p: Pricing, prompt: int, completion: int)
    ensures 1_000_000.0 * Cost(p, prompt, completion) == Priced(prompt, p.input) + Priced(completion, p.output)
  {
  }

  // ----- Every figure is a sum over the records -----

  /** What the selected records add up to. */
  function SumOf(rs: seq<Record>, selects: Record -> bool): Usage {
    if rs == [] then Zero()
    else
      var before := SumOf(rs[..|rs| - 1], selects);
      if selects(rs[|rs| - 1]) then Grown(before, rs[|rs| - 1]) else before
  }

  /** Selects one class among the records `within` selects. */
  function Among<C(==)>(within: Record -> bool, classOf: Record -> C, c: C): Record -> bool {
    r => within(r) && classOf(r) == c
  }

  function Tokens(u: Usage): int {
    u.prompt + u.completion
  }

  function Everyone(): Record -> bool {
    r => true
  }

  function OfKey(key: string): Record -> bool {
    (r: Record) => r.key == key
  }

  /** Days are written without '|' and different days differently. */
  ghost predicate Dated(format: int -> string) {
    && (forall d: int :: '|' !in format(d))
    && (forall d: int, e: int | format(d) == format(e) :: d == e)
  }

  lemma LastBarEndsKey(format: int -> string, key: string, day: int)
    requires Dated(format)
    ensures DayKey(format, key, day)[|key|] == '|'
    ensures forall i | |key| < i < |DayKey(format, key, day)| :: DayKey(format, key, day)[i] != '|'
  {
    var s := DayKey(format, key, day);
    forall i | |key| < i < |s| ensures s[i] != '|' {
      assert s[i] == format(day)[i - |key| - 1];
    }
  }

  /** The last '|' of a day key ends the API key, even when the API key contains one. */
  lemma DayKeysAreDistinct(format: int -> string, a: string, d: int, b: string, e: int)
    requires Dated(format) && DayKey(format, a, d) == DayKey(format, b, e)
    ensures a == b && d == e
  {
    LastBarEndsKey(format, a, d);
    LastBarEndsKey(format, b, e);
    assert |a| == |b|;
    assert DayKey(format, a, d)[..|a|] == a && DayKey(format, b, e)[..|b|] == b;
    assert DayKey(format, a, d)[|a| + 1..] == format(d) && DayKey(format, b, e)[|b| + 1..] == format(e);
  }

  lemma {:induction false} SameSelection(rs: seq<Record>, p: Record -> bool, q: Record -> bool)
    requires forall r :: p(r) == q(r)
    ensures SumOf(rs, p) == SumOf(rs, q)
  {
    if rs != [] {
      SameSelection(rs[..|rs| - 1], p, q);
    }
  }

  function KeyOf(): Record -> string {
    (r: Record) => r.key
  }

  function ModelOf(): Record -> string {
    (r: Record) => r.model
  }

  function DayOf(): Record -> int {
    (r: Record) => r.ts.day
  }

  lemma SumOfFront(rs: seq<Record>, selects: Record -> bool)
    requires rs != []
    ensures SumOf(rs, selects) == var before := SumOf(rs[..|rs| - 1], selects);
                                  if selects(rs[|rs| - 1]) then Grown(before, rs[|rs| - 1]) else before
  {
  }

  /**
   * A selection's sums, in fields: nothing at first, and each selected record adds its own tokens, cost and one
   * request.
   */
  lemma SumInFields(rs: seq<Record>, r: Record, selects: Record -> bool)
    ensures SumOf([], selects) == Usage(0, 0, 0, 0.0)
    ensures var (before, after) := (SumOf(rs, selects), SumOf(rs + [r], selects));
            && after.prompt == before.prompt + (if selects(r) then r.prompt else 0)
            && after.completion == before.completion + (if selects(r) then r.completion else 0)
            && after.requests == before.requests + (if selects(r) then 1 else 0)
            && after.cost == before.cost + (if selects(r) then r.cost else 0.0)
  {
    assert (rs + [r])[..|rs|] == rs;
  }

  lemma {:induction false} TotalIsSum(format: int -> string, rs: seq<Record>)
    ensures Book(format, rs).total == SumOf(rs, Everyone()) && Book(format, rs).total.requests == |rs|
  {
    if rs != [] {
      TotalIsSum(format, rs[..|rs| - 1]);
    }
  }

  /** A key's figures are the sums over its own records. */
  lemma {:induction false} KeyFiguresAreSums(format: int -> string, rs: seq<Record>, key: string)
    ensures KeyUsage(Book(format, rs), key) == SumOf(rs, OfKey(key))
    ensures KeyUsage(Book(format, rs), key) == SumOf(rs, Among(Everyone(), KeyOf(), key))
  {
    if rs != [] {
      KeyFiguresAreSums(format, rs[..|rs| - 1], key);
    }
  }

  /** The latest record of a key sets its last request. */
  lemma {:induction false} LastRequestIsLatest(format: int -> string, rs: seq<Record>, i: nat)
    requires i < |rs| && forall j | i < j < |rs| :: rs[j].key != rs[i].key
    ensures var keys := Book(format, rs).byKey; rs[i].key in keys && keys[rs[i].key].lastRequest == rs[i].ts
  {
    if i < |rs| - 1 {
      LastRequestIsLatest(format, rs[..|rs| - 1], i);
    }
  }

  lemma {:induction false} ModelFiguresAreSums(format: int -> string, rs: seq<Record>, model: string)
    ensures ModelUsage(Book(format, rs), model) == SumOf(rs, Among(Everyone(), ModelOf(), model))
  {
    if rs != [] {
      ModelFiguresAreSums(format, rs[..|rs| - 1], model);
    }
  }

  lemma {:induction false} ModelCountsAreSums(format: int -> string, rs: seq<Record>, key: string, model: string)
    ensures Count(ModelCounts(Book(format, rs), key), model) == SumOf(rs, Among(OfKey(key), ModelOf(), model)).requests
  {
    if rs != [] {
      ModelCountsAreSums(format, rs[..|rs| - 1], key, model);
    }
  }

  /** What the quota check reads: a key's tokens of one day, whatever characters keys contain. */
  lemma {:induction false} DailyTokensAreSums(format: int -> string, rs: seq<Record>, key: string, day: int)
    requires Dated(format)
    ensures Count(Book(format, rs).daily, DayKey(format, key, day))
            == Tokens(SumOf(rs, Among(OfKey(key), DayOf(), day)))
  {
    if rs != [] {
      var last := rs[|rs| - 1];
      DailyTokensAreSums(format, rs[..|rs| - 1], key, day);
      SumOfFront(rs, Among(OfKey(key), DayOf(), day));
      if DayKey(format, last.key, last.ts.day) == DayKey(format, key, day) {
        DayKeysAreDistinct(format, last.key, last.ts.day, key, day);
      }
    }
  }

  // ----- Sums over classes give back the whole -----

  predicate Distinct<C(==)>(cs: seq<C>) {
    forall i, j | 0 <= i < j < |cs| :: cs[i] != cs[j]
  }

  /** The parts of the classes listed, added up. */
  function AddedUp<C>(cs: seq<C>, part: C -> Usage): Usage
    decreases |cs|
  {
    if cs == [] then Zero()
    else
      var rest, p := AddedUp(cs[1..], part), part(cs[0]);
      Usage(p.prompt + rest.prompt, p.completion + rest.completion, p.requests + rest.requests, p.cost + rest.cost)
  }

  function Parts<C(==)>(rs: seq<Record>, within: Record -> bool, classOf: Record -> C): C -> Usage {
    c => SumOf(rs, Among(within, classOf, c))
  }

  lemma {:induction false} SamePartsSameSum<C>(cs: seq<C>, p: C -> Usage, q: C -> Usage)
    requires forall i | 0 <= i < |cs| :: p(cs[i]) == q(cs[i])
    ensures AddedUp(cs, p) == AddedUp(cs, q)
    decreases |cs|
  {
    if cs != [] {
      SamePartsSameSum(cs[1..], p, q);
    }
  }

  /** One more record grows the one class it belongs to. */
  lemma {:induction false} OneClassGrows<C>(cs: seq<C>, r: Record, c: C, p: C -> Usage, q: C -> Usage, i: int)
    requires Distinct(cs) && 0 <= i < |cs| && cs[i] == c
    requires forall k | 0 <= k < |cs| :: q(cs[k]) == if cs[k] == c then Grown(p(cs[k]), r) else p(cs[k])
    ensures AddedUp(cs, q) == Grown(AddedUp(cs, p), r)
    decreases |cs|
  {
    if i == 0 {
      SamePartsSameSum(cs[1..], p, q);
    } else {
      OneClassGrows(cs[1..], r, c, p, q, i - 1);
    }
  }

  predicate Covers<C(==)>(cs: seq<C>, rs: seq<Record>, within: Record -> bool, classOf: Record -> C) {
    forall i | 0 <= i < |rs| && within(rs[i]) :: classOf(rs[i]) in cs
  }

  /** However records are classified, the classes add up to the whole. */
  lemma {:induction false} ClassesAddUp<C>(cs: seq<C>, rs: seq<Record>, within: Record -> bool, classOf: Record -> C)
    requires Distinct(cs) && Covers(cs, rs, within, classOf)
    ensures AddedUp(cs, Parts(rs, within, classOf)) == SumOf(rs, within)
  {
    if rs == [] {
      NoRecordsAddUpToNothing(cs, Parts(rs, within, classOf));
    } else {
      var front, r := rs[..|rs| - 1], rs[|rs| - 1];
      ClassesAddUp(cs, front, within, classOf);
      var p, q := Parts(front, within, classOf), Parts(rs, within, classOf);
      forall c: C ensures q(c) == if within(r) && classOf(r) == c then Grown(p(c), r) else p(c) {
        SumOfFront(rs, Among(within, classOf, c));
      }
      if within(r) {
        var i :| 0 <= i < |cs| && cs[i] == classOf(r);
        OneClassGrows(cs, r, classOf(r), p, q, i);
      } else {
        SamePartsSameSum(cs, p, q);
      }
    }
  }

  lemma {:induction false} NoRecordsAddUpToNothing<C>(cs: seq<C>, p: C -> Usage)
    requires forall i | 0 <= i < |cs| :: p(cs[i]) == Zero()
    ensures AddedUp(cs, p) == Zero()
    decreases |cs|
  {
    if cs != [] {
      NoRecordsAddUpToNothing(cs[1..], p);
    }
  }

  lemma {:induction false} BookedNamesCover(format: int -> string, rs: seq<Record>, i: int)
    requires 0 <= i < |rs|
    ensures var f, r := Book(format, rs), rs[i];
            && r.key in f.byKey && r.model in f.byModel && r.model in f.byKey[r.key].models
            && DayKey(format, r.key, r.ts.day) in f.daily
  {
    if i < |rs| - 1 {
      BookedNamesCover(format, rs[..|rs| - 1], i);
    }
  }

  /** In every reachable ledger the per-key figures, added in any order, are the totals. */
  lemma KeysAddUpToTotal(format: int -> string, rs: seq<Record>, keys: seq<string>)
    requires Distinct(keys) && forall k | k in Book(format, rs).byKey :: k in keys
    ensures AddedUp(keys, k => KeyUsage(Book(format, rs), k)) == Book(format, rs).total
  {
    forall i | 0 <= i < |rs| ensures rs[i].key in keys {
      BookedNamesCover(format, rs, i);
    }
    forall k: string ensures KeyUsage(Book(format, rs), k) == Parts(rs, Everyone(), KeyOf())(k) {
      KeyFiguresAreSums(format, rs, k);
    }
    ClassesAddUp(keys, rs, Everyone(), KeyOf());
    SamePartsSameSum(keys, k => KeyUsage(Book(format, rs), k), Parts(rs, Everyone(), KeyOf()));
    TotalIsSum(format, rs);
  }

  /** Likewise the per-model figures. */
  lemma ModelsAddUpToTotal(format: int -> string, rs: seq<Record>, models: seq<string>)
    requires Distinct(models) && forall m | m in Book(format, rs).byModel :: m in models
    ensures AddedUp(models, m => ModelUsage(Book(format, rs), m)) == Book(format, rs).total
  {
    forall i | 0 <= i < |rs| ensures rs[i].model in models {
      BookedNamesCover(format, rs, i);
    }
    forall m: string ensures ModelUsage(Book(format, rs), m) == Parts(rs, Everyone(), ModelOf())(m) {
      ModelFiguresAreSums(format, rs, m);
    }
    ClassesAddUp(models, rs, Everyone(), ModelOf());
    SamePartsSameSum(models, m => ModelUsage(Book(format, rs), m), Parts(rs, Everyone(), ModelOf()));
    TotalIsSum(format, rs);
  }

  /** The counts listed, added up. */
  function Sum<C>(cs: seq<C>, count: C -> int): int
    decreases |cs|
  {
    if cs == [] then 0 else count(cs[0]) + Sum(cs[1..], count)
  }

  lemma {:induction false} SumsOfParts<C>(cs: seq<C>, p: C -> Usage)
    ensures Sum(cs, Requests(p)) == AddedUp(cs, p).requests
    ensures Sum(cs, TokenCounts(p)) == Tokens(AddedUp(cs, p))
    decreases |cs|
  {
    if cs != [] {
      SumsOfParts(cs[1..], p);
    }
  }

  lemma {:induction false} SameCountsSameSum<C>(cs: seq<C>, f: C -> int, g: C -> int)
    requires forall i | 0 <= i < |cs| :: f(cs[i]) == g(cs[i])
    ensures Sum(cs, f) == Sum(cs, g)
    decreases |cs|
  {
    if cs != [] {
      SameCountsSameSum(cs[1..], f, g);
    }
  }

  function CountsOf(f: Figures, key: string): string -> int {
    m => Count(ModelCounts(f, key), m)
  }

  function TokensOf(format: int -> string, f: Figures, key: string): int -> int {
    d => Count(f.daily, DayKey(format, key, d))
  }

  function Requests<C>(p: C -> Usage): C -> int {
    c => p(c).requests
  }

  function TokenCounts<C>(p: C -> Usage): C -> int {
    c => Tokens(p(c))
  }

  /** Each key's model counts add up to its requests. */
  lemma ModelCountsAddUpToRequests(format: int -> string, rs: seq<Record>, key: string, models: seq<string>)
    requires Distinct(models) && forall m | m in ModelCounts(Book(format, rs), key) :: m in models
    ensures Sum(models, CountsOf(Book(format, rs), key)) == KeyUsage(Book(format, rs), key).requests
  {
    forall i | 0 <= i < |rs| && OfKey(key)(rs[i]) ensures rs[i].model in models {
      BookedNamesCover(format, rs, i);
    }
    var p, counts := Parts(rs, OfKey(key), ModelOf()), CountsOf(Book(format, rs), key);
    forall i | 0 <= i < |models| ensures counts(models[i]) == Requests(p)(models[i]) {
      ModelCountsAreSums(format, rs, key, models[i]);
    }
    SameCountsSameSum(models, counts, Requests(p));
    SumsOfParts(models, p);
    ClassesAddUp(models, rs, OfKey(key), ModelOf());
    KeyFiguresAreSums(format, rs, key);
  }

  /** Each key's daily tokens add up to its prompt and completion tokens. */
  lemma DailyTokensAddUp(format: int -> string, rs: seq<Record>, key: string, days: seq<int>)
    requires Dated(format)
    requires Distinct(days) && forall d | DayKey(format, key, d) in Book(format, rs).daily :: d in days
    ensures Sum(days, TokensOf(format, Book(format, rs), key)) == Tokens(KeyUsage(Book(format, rs), key))
  {
    forall i | 0 <= i < |rs| && OfKey(key)(rs[i]) ensures rs[i].ts.day in days {
      BookedNamesCover(format, rs, i);
    }
    var p, counts := Parts(rs, OfKey(key), DayOf()), TokensOf(format, Book(format, rs), key);
    forall i | 0 <= i < |days| ensures counts(days[i]) == TokenCounts(p)(days[i]) {
      DailyTokensAreSums(format, rs, key, days[i]);
    }
    SameCountsSameSum(days, counts, TokenCounts(p));
    SumsOfParts(days, p);
    ClassesAddUp(days, rs, OfKey(key), DayOf());
    KeyFiguresAreSums(format, rs, key);
  }

  // ----- Restarting from the log -----

  lemma AllShortSplits(lines: seq<Line>)
    requires lines != []
    ensures AllShort(lines) <==> !lines[0].long && AllShort(lines[1..])
  {
    assert forall i | 1 <= i < |lines| :: lines[i] == lines[1..][i - 1];
  }

  /** A scan of more lines reads on only past lines that are all short enough. */
  lemma {:induction false} ParsedSplits(a: seq<Line>, b: seq<Line>)
    ensures Parsed(a + b) == if AllShort(a) then Parsed(a) + Parsed(b) else Parsed(a)
    decreases |a|
  {
    if a == [] {
      assert a + b == b;
    } else {
      assert (a + b)[1..] == a[1..] + b;
      AllShortSplits(a);
      ParsedSplits(a[1..], b);
    }
  }

  lemma ParsedOfOne(line: Line)
    ensures Parsed([line]) == if !line.long && line.rec.Some? then [line.rec.value] else []
  {
    assert [line][1..] == [];
  }

  lemma ParsedGrows(before: seq<Line>, line: Line)
    requires AllShort(before)
    ensures Parsed(before + [line]) == Parsed(before) + if !line.long && line.rec.Some? then [line.rec.value] else []
    ensures AllShort(before + [line]) <==> !line.long
  {
    ParsedSplits(before, [line]);
    ParsedOfOne(line);
    var all := before + [line];
    assert all[|before|] == line && forall i | 0 <= i < |before| :: all[i] == before[i];
  }

  lemma ParsedStops(before: seq<Line>, line: Line, after: seq<Line>)
    requires AllShort(before) && line.long
    ensures Parsed(before + [line] + after) == Parsed(before)
  {
    ParsedGrows(before, line);
    ParsedSplits(before + [line], after);
  }

  lemma SplitsAt<T>(xs: seq<T>, i: int)
    requires 0 <= i < |xs|
    ensures xs[..i + 1] == xs[..i] + [xs[i]] && xs == xs[..i] + [xs[i]] + xs[i + 1..]
  {
  }

  /** One step of the scan. */
  lemma ParsedOneMore(lines: seq<Line>, i: int)
    requires 0 <= i < |lines| && AllShort(lines[..i])
    ensures lines[i].long ==> Parsed(lines) == Parsed(lines[..i])
    ensures !lines[i].long ==>
              && AllShort(lines[..i + 1])
              && Parsed(lines[..i + 1]) == Parsed(lines[..i]) + if lines[i].rec.Some? then [lines[i].rec.value] else []
  {
    SplitsAt(lines, i);
    if lines[i].long {
      ParsedStops(lines[..i], lines[i], lines[i + 1..]);
    } else {
      ParsedGrows(lines[..i], lines[i]);
    }
  }

  /** Equal up to the sub-second part of the last requests. */
  ghost predicate Alike(f: Figures, g: Figures) {
    && f.byModel == g.byModel && f.total == g.total && f.daily == g.daily && f.byKey.Keys == g.byKey.Keys
    && forall k | k in f.byKey ::
         && f.byKey[k].usage == g.byKey[k].usage && f.byKey[k].models == g.byKey[k].models
         && Whole(f.byKey[k].lastRequest) == Whole(g.byKey[k].lastRequest)
  }

  function AllWhole(rs: seq<Record>): (cut: seq<Record>)
    ensures |cut| == |rs|
  {
    if rs == [] then [] else AllWhole(rs[..|rs| - 1]) + [rs[|rs| - 1].(ts := Whole(rs[|rs| - 1].ts))]
  }

  lemma RecordedAlike(format: int -> string, f: Figures, g: Figures, r: Record)
    requires Alike(f, g)
    ensures Alike(Recorded(format, f, r), Recorded(format, g, r.(ts := Whole(r.ts))))
  {
    assert KeyUsage(f, r.key) == KeyUsage(g, r.key) && ModelCounts(f, r.key) == ModelCounts(g, r.key);
  }

  lemma LastSplits<T>(start: seq<T>, rs: seq<T>)
    requires rs != []
    ensures start + rs == start + rs[..|rs| - 1] + [rs[|rs| - 1]]
  {
  }

  lemma BookAfter(format: int -> string, start: seq<Record>, rs: seq<Record>)
    requires rs != []
    ensures Book(format, start + rs) == Recorded(format, Book(format, start + rs[..|rs| - 1]), rs[|rs| - 1])
  {
    LastSplits(start, rs);
    BookAppends(format, start + rs[..|rs| - 1], rs[|rs| - 1]);
  }

  /** Booking the records with their times cut to seconds, after any common start. */
  lemma {:induction false} CutTimesBookAlike(format: int -> string, start: seq<Record>, rs: seq<Record>)
    ensures Alike(Book(format, start + rs), Book(format, start + AllWhole(rs)))
  {
    if rs == [] {
      assert AllWhole(rs) == rs;
    } else {
      var front, cut := rs[..|rs| - 1], AllWhole(rs);
      assert cut[..|cut| - 1] == AllWhole(front);
      CutTimesBookAlike(format, start, front);
      BookAfter(format, start, rs);
      BookAfter(format, start, cut);
      RecordedAlike(format, Book(format, start + front), Book(format, start + AllWhole(front)), rs[|rs| - 1]);
    }
  }

  lemma BookAppends(format: int -> string, rs: seq<Record>, r: Record)
    ensures Book(format, rs + [r]) == Recorded(format, Book(format, rs), r)
  {
    assert (rs + [r])[..|rs|] == rs;
  }

  lemma {:induction false} WrittenIsShort(tooLong: Record -> bool, rs: seq<Record>)
    ensures |AllWritten(tooLong, rs)| == |rs|
    ensures AllShort(AllWritten(tooLong, rs)) <==> forall i | 0 <= i < |rs| :: !tooLong(rs[i])
  {
    if rs != [] {
      var front, r := rs[..|rs| - 1], rs[|rs| - 1];
      var lines, line := AllWritten(tooLong, front), Written(tooLong, r);
      WrittenIsShort(tooLong, front);
      var all := AllWritten(tooLong, rs);
      assert all == lines + [line];
      assert all[|lines|] == line && forall i | 0 <= i < |lines| :: all[i] == lines[i];
      assert rs[|front|] == r && forall i | 0 <= i < |front| :: rs[i] == front[i];
    }
  }

  lemma {:induction false} WrittenParses(tooLong: Record -> bool, rs: seq<Record>)
    ensures AllShort(AllWritten(tooLong, rs)) ==> Parsed(AllWritten(tooLong, rs)) == AllWhole(rs)
    ensures !AllShort(AllWritten(tooLong, rs)) ==> |Parsed(AllWritten(tooLong, rs))| < |rs|
  {
    if rs != [] {
      var front, r := rs[..|rs| - 1], rs[|rs| - 1];
      var lines, line := AllWritten(tooLong, front), Written(tooLong, r);
      WrittenParses(tooLong, front);
      if AllShort(lines) {
        ParsedGrows(lines, line);
      } else {
        ParsedSplits(lines, [line]);
        assert !AllShort(lines + [line]) by {
          var i :| 0 <= i < |lines| && lines[i].long;
          assert (lines + [line])[i].long;
        }
      }
    }
  }

  lemma FewerRecordsDiffer(format: int -> string, fewer: seq<Record>, more: seq<Record>)
    requires |fewer| < |more|
    ensures !Alike(Book(format, more), Book(format, fewer))
  {
    TotalIsSum(format, fewer);
    TotalIsSum(format, more);
  }

  /** What a tracker that recorded `rs` adds to its log: nothing when the log is not open. */
  function Appended(appends: bool, tooLong: Record -> bool, rs: seq<Record>): seq<Line> {
    if appends then AllWritten(tooLong, rs) else []
  }

  /**
   * A tracker that found `found` in its log and then recorded `rs` is rebuilt by a restart, up to the sub-second part
   * of last requests, exactly when it recorded nothing, or its log is open and no line is too long for the scanner.
   */
  lemma RestartRebuildsExactlyWhen(format: int -> string, tooLong: Record -> bool, appends: bool, found: seq<Line>,
                                   rs: seq<Record>)
    ensures Alike(Book(format, Parsed(found) + rs), Book(format, Parsed(found + Appended(appends, tooLong, rs))))
            <==> rs == [] || (appends && AllShort(found) && forall i | 0 <= i < |rs| :: !tooLong(rs[i]))
  {
    var lines := Appended(appends, tooLong, rs);
    ParsedSplits(found, lines);
    WrittenParses(tooLong, rs);
    WrittenIsShort(tooLong, rs);
    if rs == [] {
      assert lines == [] && found + lines == found && Parsed(found) + rs == Parsed(found);
    } else if appends && AllShort(found) && AllShort(lines) {
      CutTimesBookAlike(format, Parsed(found), rs);
    } else {
      FewerRecordsDiffer(format, Parsed(found + lines), Parsed(found) + rs);
    }
  }

  /** The failing inputs: one record, too long for the scanner, or recorded while the log is not open. */
  lemma ARecordCanBeLost(format: int -> string, tooLong: Record -> bool, appends: bool, r: Record)
    requires !appends || tooLong(r)
    ensures !Alike(Book(format, [r]), Book(format, Parsed(Appended(appends, tooLong, [r]))))
  {
    RestartRebuildsExactlyWhen(format, tooLong, appends, [], [r]);
    assert [] + Appended(appends, tooLong, [r]) == Appended(appends, tooLong, [r]);
    assert Parsed([]) + [r] == [r];
    assert [r][0] == r;
  }
}
