/** Hot reload: the difference between two configurations, applied to the registry as a list of events. */
module Reload {
  import opened Registry
  import opened Wrappers

  datatype Event = Added(cfg: Config) | Updated(cfg: Config) | Removed(cfg: Config)

  /** Only these fields make a reload rebuild a provider. */
  predicate Same(a: Config, b: Config) {
    && a.baseUrl == b.baseUrl && a.apiKey == b.apiKey && a.timeoutMs == b.timeoutMs
    && a.defaultModel == b.defaultModel && a.models == b.models && a.enabled == b.enabled
  }

  // ----- Comparing configurations -----

  /** The enabled providers by name; of two with one name the later counts. */
  function Enabled(cfgs: seq<Config>): map<string, Config> {
    if cfgs == [] then map[]
    else
      var before, cfg := Enabled(cfgs[..|cfgs| - 1]), cfgs[|cfgs| - 1];
      if cfg.enabled then before[cfg.name := cfg] else before
  }

  function Change(last: map<string, Config>, cfg: Config): seq<Event> {
    if !cfg.enabled then []
    else if cfg.name !in last then [Added(cfg)]
    else if !Same(last[cfg.name], cfg) then [Updated(cfg)]
    else []
  }

  function Changes(last: map<string, Config>, cfgs: seq<Config>): seq<Event> {
    if cfgs == [] then [] else Changes(last, cfgs[..|cfgs| - 1]) + Change(last, cfgs[|cfgs| - 1])
  }

  predicate DistinctEvents(es: seq<Event>) {
    forall i, j | 0 <= i < j < |es| :: es[i].cfg.name != es[j].cfg.name
  }

  predicate Mentions(es: seq<Event>, name: string) {
    exists i :: 0 <= i < |es| && es[i].cfg.name == name
  }

  predicate RemovesFrom(e: Event, last: map<string, Config>) {
    e.cfg.name in last && e == Removed(last[e.cfg.name])
  }

  /** One removal for each name of `gone`, in any order. */
  ghost predicate Removes(es: seq<Event>, last: map<string, Config>, gone: set<string>) {
    && DistinctEvents(es)
    && (forall i | 0 <= i < |es| :: RemovesFrom(es[i], last) && es[i].cfg.name in gone)
    && (forall n | n in gone :: Mentions(es, n))
  }

  predicate Keyed(last: map<string, Config>) {
    forall n | n in last :: last[n].name == n
  }

  lemma {:induction false} EnabledIsKeyed(cfgs: seq<Config>)
    ensures Keyed(Enabled(cfgs))
    ensures forall n | n in Enabled(cfgs) :: Enabled(cfgs)[n].enabled
  {
    if cfgs != [] {
      EnabledIsKeyed(cfgs[..|cfgs| - 1]);
    }
  }

  /** An event list that turns `last` into the enabled part of `cfgs`. */
  ghost predicate Diff(es: seq<Event>, last: map<string, Config>, cfgs: seq<Config>) {
    var changes := Changes(last, cfgs);
    && |changes| <= |es| && es[..|changes|] == changes
    && Removes(es[|changes|..], last, last.Keys - Enabled(cfgs).Keys)
  }

  lemma {:induction false} ChangesInFields(last: map<string, Config>, cfgs: seq<Config>, c: Config)
    ensures Added(c) in Changes(last, cfgs) <==> c in cfgs && c.enabled && c.name !in last
    ensures Updated(c) in Changes(last, cfgs) <==>
              && c in cfgs && c.enabled && c.name in last
              && var was := last[c.name];
              || was.baseUrl != c.baseUrl || was.apiKey != c.apiKey || was.timeoutMs != c.timeoutMs
              || was.defaultModel != c.defaultModel || was.models != c.models || was.enabled != c.enabled
    ensures Removed(c) !in Changes(last, cfgs)
  {
    if cfgs != [] {
      var front, cfg := cfgs[..|cfgs| - 1], cfgs[|cfgs| - 1];
      assert cfgs == front + [cfg];
      ChangesInFields(last, front, c);
    }
  }

  lemma {:induction false} EnabledNames(cfgs: seq<Config>, name: string)
    ensures name in Enabled(cfgs) <==> exists c :: c in cfgs && c.enabled && c.name == name
  {
    if cfgs != [] {
      var front, cfg := cfgs[..|cfgs| - 1], cfgs[|cfgs| - 1];
      EnabledNames(front, name);
      assert cfgs == front + [cfg];
      assert cfg in cfgs && forall c | c in front :: c in cfgs;
    }
  }

  /**
   * A diff, entry by entry: an enabled one of a new name is added; one of a remembered name is an update exactly when
   * one of the six compared fields differs; and a remembered one that no enabled entry names any more is removed.
   */
  lemma DiffInFields(es: seq<Event>, last: map<string, Config>, cfgs: seq<Config>, c: Config)
    requires Keyed(last) && Diff(es, last, cfgs)
    ensures Added(c) in es <==> c in cfgs && c.enabled && c.name !in last
    ensures Updated(c) in es <==>
              && c in cfgs && c.enabled && c.name in last
              && var was := last[c.name];
              || was.baseUrl != c.baseUrl || was.apiKey != c.apiKey || was.timeoutMs != c.timeoutMs
              || was.defaultModel != c.defaultModel || was.models != c.models || was.enabled != c.enabled
    ensures Removed(c) in es <==>
              c.name in last && c == last[c.name] && forall d | d in cfgs && d.enabled :: d.name != c.name
  {
    var changes := Changes(last, cfgs);
    var removed := es[|changes|..];
    assert es == changes + removed;
    ChangesInFields(last, cfgs, c);
    RemovalsInFields(removed, last, last.Keys - Enabled(cfgs).Keys, c);
    EnabledNames(cfgs, c.name);
  }

  lemma RemovalsInFields(es: seq<Event>, last: map<string, Config>, gone: set<string>, c: Config)
    requires gone <= last.Keys && Removes(es, last, gone)
    ensures Added(c) !in es && Updated(c) !in es
    ensures Removed(c) in es <==> c.name in gone && c == last[c.name]
  {
    if c.name in gone && c == last[c.name] {
      assert Mentions(es, c.name);
      var i :| 0 <= i < |es| && es[i].cfg.name == c.name;
      assert RemovesFrom(es[i], last);
    }
  }

  // ----- Applying events -----

  function Applied(f: Factories, t: Tables, e: Event): Tables {
    match e
    case Added(cfg) => Registered(f, t, cfg)
    case Updated(cfg) => Registered(f, Unregistered(t, cfg.name), cfg)
    case Removed(cfg) => Unregistered(t, cfg.name)
  }

  function AllApplied(f: Factories, t: Tables, es: seq<Event>): Tables {
    if es == [] then t else Applied(f, AllApplied(f, t, es[..|es| - 1]), es[|es| - 1])
  }

  /** The callback of the gateway: each event acts on the registry in turn. */
  method Apply(mgr: Manager, es: seq<Event>)
    modifies mgr
    ensures mgr.factories == old(mgr.factories)
    ensures mgr.State() == AllApplied(mgr.factories, old(mgr.State()), es)
  {
    assert es[..|es|] == es;
    for i := 0 to |es|
      invariant mgr.factories == old(mgr.factories)
      invariant mgr.State() == AllApplied(mgr.factories, old(mgr.State()), es[..i])
    {
      assert es[..i + 1][..i] == es[..i];
      match es[i]
      case Added(cfg) =>
        var _ := mgr.Register(cfg);
      case Updated(cfg) =>
        mgr.Unregister(cfg.name);
        var _ := mgr.Register(cfg);
      case Removed(cfg) =>
        mgr.Unregister(cfg.name);
    }
  }

  class Watcher {
    const digest: string -> int
    const parse: string -> Option<seq<Config>>
    var lastHash: int
    var lastProviders: map<string, Config>

    constructor (digest: string -> int, parse: string -> Option<seq<Config>>)
      ensures this.digest == digest && this.parse == parse && lastProviders == map[]
    {
      this.digest, this.parse := digest, parse;
      lastHash, lastProviders := 0, map[];
    }

    /** What the watcher takes as already applied when it starts. */
    method UpdateHash(data: Option<string>)
      modifies this
      ensures data.None? ==> lastHash == old(lastHash) && lastProviders == old(lastProviders)
      ensures data.Some? ==>
                && lastHash == digest(data.value)
                && lastProviders == if parse(data.value).None? then old(lastProviders)
                                    else Enabled(parse(data.value).value)
    {
      if data.None? {
        return;
      }
      lastHash := digest(data.value);
      var parsed := parse(data.value);
      if parsed.Some? {
        var cfgs, next := parsed.value, map[];
        assert cfgs[..|cfgs|] == cfgs;
        for i := 0 to |cfgs|
          invariant next == Enabled(cfgs[..i])
        {
          assert cfgs[..i + 1][..i] == cfgs[..i];
          if cfgs[i].enabled {
            next := next[cfgs[i].name := cfgs[i]];
          }
        }
        lastProviders := next;
      }
    }

    /** A removal for each remembered name that `next` lacks, in whatever order the map yields them. */
    method Removals(next: map<string, Config>) returns (removed: seq<Event>)
      requires Keyed(lastProviders)
      ensures Removes(removed, lastProviders, lastProviders.Keys - next.Keys)
    {
      var names := lastProviders.Keys;
      removed := [];
      while names != {}
        invariant names <= lastProviders.Keys
        invariant Removes(removed, lastProviders, lastProviders.Keys - next.Keys - names)
        decreases |names|
      {
        ghost var gone := lastProviders.Keys - next.Keys - names;
        var name :| name in names;
        names := names - {name};
        if name !in next {
          RemovesOneMore(removed, lastProviders, gone, name);
          removed := removed + [Removed(lastProviders[name])];
          assert lastProviders.Keys - next.Keys - names == gone + {name};
        } else {
          assert lastProviders.Keys - next.Keys - names == gone;
        }
      }
      assert lastProviders.Keys - next.Keys - names == lastProviders.Keys - next.Keys;
    }

    /** Lists the changes in file order, then the removals in the order the map yields them. */
    method Compare(cfgs: seq<Config>) returns (es: seq<Event>)
      requires Keyed(lastProviders)
      modifies `lastProviders
      ensures Diff(es, old(lastProviders), cfgs)
      ensures lastProviders == Enabled(cfgs) && Keyed(lastProviders)
      ensures forall c :: Updated(c) in es <==>
                && c in cfgs && c.enabled && c.name in old(lastProviders)
                && var was := old(lastProviders)[c.name];
                || was.baseUrl != c.baseUrl || was.apiKey != c.apiKey || was.timeoutMs != c.timeoutMs
                || was.defaultModel != c.defaultModel || was.models != c.models || was.enabled != c.enabled
    {
      es := [];
      var next: map<string, Config> := map[];
      assert cfgs[..|cfgs|] == cfgs;
      for i := 0 to |cfgs|
        invariant next == Enabled(cfgs[..i])
        invariant es == Changes(lastProviders, cfgs[..i])
        invariant lastProviders == old(lastProviders)
      {
        assert cfgs[..i + 1][..i] == cfgs[..i];
        var p := cfgs[i];
        if !p.enabled {
          continue;
        }
        next := next[p.name := p];
        if p.name !in lastProviders {
          es := es + [Added(p)];
        } else if !Same(lastProviders[p.name], p) {
          es := es + [Updated(p)];
        }
      }
      var removed := Removals(next);
      ghost var changes := es;
      es := es + removed;
      assert es[..|changes|] == changes && es[|changes|..] == removed;
      forall c: Config {
        DiffInFields(es, lastProviders, cfgs, c);
      }
      lastProviders := next;
      EnabledIsKeyed(cfgs);
    }

    /** One poll of the file: unreadable, unchanged or unparsable contents leave everything as it was. */
    method Check(data: Option<string>, mgr: Manager?) returns (es: seq<Event>)
      requires Keyed(lastProviders)
      modifies this, mgr
      ensures Keyed(lastProviders)
      ensures var changed := data.Some? && digest(data.value) != old(lastHash) && parse(data.value).Some?;
              if changed then
                && lastHash == digest(data.value)
                && Diff(es, old(lastProviders), parse(data.value).value)
                && lastProviders == Enabled(parse(data.value).value)
              else
                lastHash == old(lastHash) && es == [] && lastProviders == old(lastProviders)
      ensures mgr != null ==>
                && mgr.factories == old(mgr.factories)
                && World(lastHash, lastProviders, mgr.State())
                   == Polled(digest, parse, mgr.factories, World(old(lastHash), old(lastProviders), old(mgr.State())),
                             Poll(data, es))
    {
      es := [];
      if data.None? {
        return;
      }
      var hash := digest(data.value);
      if hash == lastHash {
        return;
      }
      var parsed := parse(data.value);
      if parsed.None? {
        return;
      }
      es := Compare(parsed.value);
      lastHash := hash;
      if mgr != null && |es| > 0 {
        Apply(mgr, es);
      }
    }
  }

  lemma RemovesOneMore(es: seq<Event>, last: map<string, Config>, gone: set<string>, name: string)
    requires Keyed(last) && name in last && name !in gone && Removes(es, last, gone)
    ensures Removes(es + [Removed(last[name])], last, gone + {name})
  {
    var all := es + [Removed(last[name])];
    forall n | n in gone + {name} ensures Mentions(all, n) {
      if n in gone {
        var i :| 0 <= i < |es| && es[i].cfg.name == n;
        assert all[i].cfg.name == n;
      } else {
        assert all[|es|].cfg.name == n;
      }
    }
  }

  // ----- One name at a time -----

  function SlotAfter(f: Factories, s: Slot, e: Event): Slot {
    match e
    case Added(cfg) => SlotRegistered(f, s, cfg)
    case Updated(cfg) => SlotRegistered(f, SlotUnregistered(s), cfg)
    case Removed(_) => SlotUnregistered(s)
  }

  /** The events that name `name`. */
  function Touching(es: seq<Event>, name: string): seq<Event> {
    if es == [] then []
    else
      var before, e := Touching(es[..|es| - 1], name), es[|es| - 1];
      if e.cfg.name == name then before + [e] else before
  }

  function SlotAfterAll(f: Factories, s: Slot, es: seq<Event>): Slot {
    if es == [] then s else SlotAfter(f, SlotAfterAll(f, s, es[..|es| - 1]), es[|es| - 1])
  }

  lemma AppliedAt(f: Factories, t: Tables, e: Event, name: string)
    ensures At(Applied(f, t, e), name) == if e.cfg.name == name then SlotAfter(f, At(t, name), e) else At(t, name)
  {
    RegisteredAt(f, t, e.cfg, name);
    UnregisteredAt(t, e.cfg.name, name);
    RegisteredAt(f, Unregistered(t, e.cfg.name), e.cfg, name);
  }

  /** Events act on each name separately. */
  lemma {:induction false} EventsActByName(f: Factories, t: Tables, es: seq<Event>, name: string)
    ensures At(AllApplied(f, t, es), name) == SlotAfterAll(f, At(t, name), Touching(es, name))
  {
    if es != [] {
      EventsActByName(f, t, es[..|es| - 1], name);
      var e := es[|es| - 1];
      AppliedAt(f, AllApplied(f, t, es[..|es| - 1]), e, name);
      if e.cfg.name == name {
        assert (Touching(es[..|es| - 1], name) + [e])[..|Touching(es, name)| - 1] == Touching(es[..|es| - 1], name);
      }
    }
  }

  lemma {:induction false} TouchingAppends(a: seq<Event>, b: seq<Event>, name: string)
    ensures Touching(a + b, name) == Touching(a, name) + Touching(b, name)
  {
    if b == [] {
      assert a + b == a;
    } else {
      assert (a + b)[..|a + b| - 1] == a + b[..|b| - 1];
      TouchingAppends(a, b[..|b| - 1], name);
    }
  }

  lemma {:induction false} TouchingNothing(es: seq<Event>, name: string)
    requires forall i | 0 <= i < |es| :: es[i].cfg.name != name
    ensures Touching(es, name) == []
  {
    if es != [] {
      TouchingNothing(es[..|es| - 1], name);
    }
  }

  lemma {:induction false} TouchingOne(es: seq<Event>, name: string, i: int)
    requires 0 <= i < |es| && es[i].cfg.name == name && DistinctEvents(es)
    ensures Touching(es, name) == [es[i]]
  {
    if i == |es| - 1 {
      TouchingNothing(es[..|es| - 1], name);
    } else {
      TouchingOne(es[..|es| - 1], name, i);
    }
  }

  predicate DistinctNames(cfgs: seq<Config>) {
    forall i, j | 0 <= i < j < |cfgs| :: cfgs[i].name != cfgs[j].name
  }

  lemma {:induction false} EnabledIsListed(cfgs: seq<Config>, name: string)
    ensures name in Enabled(cfgs)
            ==> exists i :: 0 <= i < |cfgs| && cfgs[i].name == name && cfgs[i] == Enabled(cfgs)[name]
  {
    if cfgs != [] {
      var front, cfg := cfgs[..|cfgs| - 1], cfgs[|cfgs| - 1];
      EnabledIsListed(front, name);
      if cfg.enabled && cfg.name == name {
        assert cfgs[|cfgs| - 1] == Enabled(cfgs)[name];
      } else if name in Enabled(front) {
        var i :| 0 <= i < |front| && front[i].name == name && front[i] == Enabled(front)[name];
        assert cfgs[i] == Enabled(cfgs)[name];
      }
    }
  }

  lemma ChangeTouches(last: map<string, Config>, cfg: Config, name: string)
    ensures Touching(Change(last, cfg), name) == if cfg.name == name then Change(last, cfg) else []
  {
    var es := Change(last, cfg);
    if es != [] {
      assert |es| == 1 && es[..0] == [] && es[0].cfg == cfg;
      assert Touching(es[..0], name) == [];
    }
  }

  /** The enabled entries of one name, in file order. */
  function Occurrences(cfgs: seq<Config>, name: string): seq<Config> {
    if cfgs == [] then []
    else
      var before, cfg := Occurrences(cfgs[..|cfgs| - 1], name), cfgs[|cfgs| - 1];
      if cfg.enabled && cfg.name == name then before + [cfg] else before
  }

  lemma {:induction false} LastOccurrenceCounts(cfgs: seq<Config>, name: string)
    ensures var occ := Occurrences(cfgs, name);
            && (name in Enabled(cfgs) <==> occ != [])
            && (occ != [] ==> Enabled(cfgs)[name] == occ[|occ| - 1])
            && forall i | 0 <= i < |occ| :: occ[i].enabled && occ[i].name == name
  {
    if cfgs != [] {
      LastOccurrenceCounts(cfgs[..|cfgs| - 1], name);
    }
  }

  lemma {:induction false} DistinctOccursOnce(cfgs: seq<Config>, name: string)
    requires DistinctNames(cfgs)
    ensures Occurrences(cfgs, name) == if name in Enabled(cfgs) then [Enabled(cfgs)[name]] else []
  {
    if cfgs != [] {
      DistinctOccursOnce(cfgs[..|cfgs| - 1], name);
      EnabledIsListed(cfgs[..|cfgs| - 1], name);
    }
  }

  lemma ChangesOfOne(last: map<string, Config>, cfg: Config)
    ensures Changes(last, [cfg]) == Change(last, cfg)
  {
    assert [cfg][..0] == [] && Changes(last, [cfg][..0]) == [];
  }

  /** The changes that name `name` are the changes of its own entries. */
  lemma {:induction false} ChangesTouch(last: map<string, Config>, cfgs: seq<Config>, name: string)
    ensures Touching(Changes(last, cfgs), name) == Changes(last, Occurrences(cfgs, name))
  {
    if cfgs != [] {
      var front, cfg := cfgs[..|cfgs| - 1], cfgs[|cfgs| - 1];
      ChangesTouch(last, front, name);
      TouchingAppends(Changes(last, front), Change(last, cfg), name);
      ChangeTouches(last, cfg, name);
      if cfg.enabled && cfg.name == name {
        assert (Occurrences(front, name) + [cfg])[..|Occurrences(front, name)|] == Occurrences(front, name);
      }
    }
  }

  /** What a diff does to one name: the changes of its entries, or its removal. */
  lemma DiffTouches(es: seq<Event>, last: map<string, Config>, cfgs: seq<Config>, name: string)
    requires Diff(es, last, cfgs)
    ensures var occ := Occurrences(cfgs, name);
            Touching(es, name) == if occ != [] then Changes(last, occ)
                                  else if name in last then [Removed(last[name])]
                                  else []
  {
    var changes, next := Changes(last, cfgs), Enabled(cfgs);
    var removed := es[|changes|..];
    assert es == changes + removed;
    TouchingAppends(changes, removed, name);
    ChangesTouch(last, cfgs, name);
    LastOccurrenceCounts(cfgs, name);
    if name in last.Keys - next.Keys {
      assert Mentions(removed, name);
      var i :| 0 <= i < |removed| && removed[i].cfg.name == name;
      assert RemovesFrom(removed[i], last);
      TouchingOne(removed, name, i);
    } else {
      TouchingNothing(removed, name);
    }
  }

  /** With distinct names a diff touches each name at most once: by its change, or by its removal. */
  lemma DiffTouchesOnce(es: seq<Event>, last: map<string, Config>, cfgs: seq<Config>, name: string)
    requires DistinctNames(cfgs) && Diff(es, last, cfgs)
    ensures var next := Enabled(cfgs);
            Touching(es, name) == if name in next then Change(last, next[name])
                                  else if name in last then [Removed(last[name])]
                                  else []
  {
    DiffTouches(es, last, cfgs, name);
    DistinctOccursOnce(cfgs, name);
    if name in Enabled(cfgs) {
      ChangesOfOne(last, Enabled(cfgs)[name]);
    }
  }

  // ----- Convergence -----

  /** Built from, and showing, a configuration the same as the wanted one. */
  predicate RightAbout(s: Slot, want: Config) {
    s.provider.Some? && Same(s.provider.value, want) && s.config.Some? && Same(s.config.value, want)
  }

  /** The registry is right about a name: it holds what is wanted, or nothing when nothing is. */
  predicate Right(s: Slot, want: map<string, Config>, name: string) {
    if name in want then RightAbout(s, want[name]) else s.provider.None?
  }

  /** The provider there is, or else the first entry that builds. */
  function FirstBuilt(f: Factories, provider: Option<Config>, occ: seq<Config>): Option<Config> {
    if occ == [] then provider
    else
      var before, cfg := FirstBuilt(f, provider, occ[..|occ| - 1]), occ[|occ| - 1];
      if before.Some? then before else if Builds(f, cfg) then Some(cfg) else None
  }

  /** The last entry that differs from the remembered one. */
  function LastDiffering(was: Config, occ: seq<Config>): Option<Config> {
    if occ == [] then None
    else if !Same(was, occ[|occ| - 1]) then Some(occ[|occ| - 1])
    else LastDiffering(was, occ[..|occ| - 1])
  }

  /**
   * Whether reloading from `last` to `cfgs` leaves a name right, judged before the reload from the name's entries,
   * of which the last is the wanted one.
   */
  predicate Heals(f: Factories, s: Slot, last: map<string, Config>, cfgs: seq<Config>, name: string) {
    var occ := Occurrences(cfgs, name);
    if occ == [] then name in last || s.provider.None?
    else
      var want := occ[|occ| - 1];
      if name !in last then
        var built := FirstBuilt(f, s.provider, occ);
        built.Some? && Same(built.value, want)
      else
        var u := LastDiffering(last[name], occ);
        if u.Some? then Builds(f, u.value) && Same(u.value, want) else RightAbout(s, want)
  }

  predicate Entries(occ: seq<Config>, name: string) {
    forall i | 0 <= i < |occ| :: occ[i].enabled && occ[i].name == name
  }

  lemma SlotAfterMore(f: Factories, s: Slot, es: seq<Event>, e: Event)
    ensures SlotAfterAll(f, s, es + [e]) == SlotAfter(f, SlotAfterAll(f, s, es), e)
  {
    assert (es + [e])[..|es|] == es;
  }

  /** Additions of one name: the first that can be built stays, the last configuration shows. */
  lemma {:induction false} AdditionsLeave(f: Factories, s: Slot, last: map<string, Config>, occ: seq<Config>,
                                          name: string)
    requires name !in last && Entries(occ, name)
    ensures var r := SlotAfterAll(f, s, Changes(last, occ));
            && r.provider == FirstBuilt(f, s.provider, occ)
            && (occ != [] && r.provider.Some? ==> r.config == Some(occ[|occ| - 1]))
  {
    if occ != [] {
      var front, cfg := occ[..|occ| - 1], occ[|occ| - 1];
      AdditionsLeave(f, s, last, front, name);
      SlotAfterMore(f, s, Changes(last, front), Added(cfg));
    }
  }

  /** Updates of one name: only the last that differs from the remembered configuration counts. */
  lemma {:induction false} UpdatesLeave(f: Factories, s: Slot, last: map<string, Config>, occ: seq<Config>,
                                        name: string)
    requires name in last && Entries(occ, name)
    ensures var (r, u) := (SlotAfterAll(f, s, Changes(last, occ)), LastDiffering(last[name], occ));
            if u.None? then r == s
            else if Builds(f, u.value) then r.provider == u && r.config == u
            else r.provider.None?
  {
    if occ != [] {
      var front, cfg := occ[..|occ| - 1], occ[|occ| - 1];
      UpdatesLeave(f, s, last, front, name);
      if Same(last[name], cfg) {
        assert Changes(last, front) + [] == Changes(last, front);
      } else {
        SlotAfterMore(f, s, Changes(last, front), Updated(cfg));
      }
    }
  }

  /** A name that is listed: what its changes leave, judged from its entries. */
  lemma ListedNameHeals(f: Factories, s: Slot, last: map<string, Config>, occ: seq<Config>, name: string)
    requires occ != [] && Entries(occ, name)
    ensures var (want, built) := (occ[|occ| - 1], FirstBuilt(f, s.provider, occ));
            RightAbout(SlotAfterAll(f, s, Changes(last, occ)), want)
            <==> if name !in last then built.Some? && Same(built.value, want)
                 else
                   var u := LastDiffering(last[name], occ);
                   if u.Some? then Builds(f, u.value) && Same(u.value, want) else RightAbout(s, want)
  {
    if name in last {
      UpdatesLeave(f, s, last, occ, name);
    } else {
      AdditionsLeave(f, s, last, occ, name);
    }
  }

  lemma RemovalLeaves(f: Factories, s: Slot, cfg: Config)
    ensures SlotAfterAll(f, s, [Removed(cfg)]).provider.None?
  {
    assert [] + [Removed(cfg)] == [Removed(cfg)];
    SlotAfterMore(f, s, [], Removed(cfg));
  }

  /**
   * Exactly which names a reload leaves right: whatever the registry held, however often a name is listed, in any
   * order of removals.
   */
  lemma ReloadIsRightExactlyWhen(f: Factories, t: Tables, es: seq<Event>, last: map<string, Config>,
                                 cfgs: seq<Config>, name: string)
    requires Diff(es, last, cfgs)
    ensures Right(At(AllApplied(f, t, es), name), Enabled(cfgs), name) <==> Heals(f, At(t, name), last, cfgs, name)
  {
    var s, occ := At(t, name), Occurrences(cfgs, name);
    EventsActByName(f, t, es, name);
    DiffTouches(es, last, cfgs, name);
    LastOccurrenceCounts(cfgs, name);
    if occ != [] {
      ListedNameHeals(f, s, last, occ, name);
    } else if name in last {
      RemovalLeaves(f, s, last[name]);
    }
  }

  /** With distinct names: what is left of the condition. */
  lemma DistinctNamesHeal(f: Factories, s: Slot, last: map<string, Config>, cfgs: seq<Config>, name: string)
    requires DistinctNames(cfgs)
    ensures var next := Enabled(cfgs);
            Heals(f, s, last, cfgs, name)
            <==> if name !in next then name in last || s.provider.None?
                 else if name !in last then
                   (if s.provider.Some? then Same(s.provider.value, next[name]) else Builds(f, next[name]))
                 else if Same(last[name], next[name]) then Right(s, next, name)
                 else Builds(f, next[name])
  {
    DistinctOccursOnce(cfgs, name);
    if name in Enabled(cfgs) {
      var c := Enabled(cfgs)[name];
      assert [c][..0] == [];
      assert FirstBuilt(f, s.provider, [c][..0]) == s.provider;
      assert name in last ==> LastDiffering(last[name], [c][..0]) == None;
    }
  }

  /** Registry and configuration agree on every name. */
  ghost predicate Synced(t: Tables, want: map<string, Config>) {
    forall n: string :: Furnished(At(t, n), n) && Right(At(t, n), want, n)
  }

  lemma {:induction false} SlotStaysFurnished(f: Factories, s: Slot, es: seq<Event>, name: string)
    requires Furnished(s, name) && forall i | 0 <= i < |es| :: es[i].cfg.name == name
    ensures Furnished(SlotAfterAll(f, s, es), name)
  {
    if es != [] {
      SlotStaysFurnished(f, s, es[..|es| - 1], name);
    }
  }

  lemma {:induction false} TouchingNames(es: seq<Event>, name: string)
    ensures forall i | 0 <= i < |Touching(es, name)| :: Touching(es, name)[i].cfg.name == name
  {
    if es != [] {
      TouchingNames(es[..|es| - 1], name);
    }
  }

  /** Whatever events are applied, the tables stay in step with one another. */
  lemma EventsKeepConsistency(f: Factories, t: Tables, es: seq<Event>)
    requires Consistent(t)
    ensures Consistent(AllApplied(f, t, es))
  {
    forall name: string ensures Furnished(At(AllApplied(f, t, es), name), name) {
      assert Furnished(At(t, name), name);
      EventsActByName(f, t, es, name);
      TouchingNames(es, name);
      SlotStaysFurnished(f, At(t, name), Touching(es, name), name);
    }
  }

  /** A loadable configuration: its names differ and every enabled provider can be built. */
  predicate Loadable(f: Factories, cfgs: seq<Config>) {
    DistinctNames(cfgs) && forall i | 0 <= i < |cfgs| :: cfgs[i].enabled ==> Builds(f, cfgs[i])
  }

  /** A reload of a loadable configuration carries agreement over, through any chain of edits that emitted no event. */
  lemma ReloadConverges(f: Factories, t: Tables, es: seq<Event>, last: map<string, Config>, cfgs: seq<Config>)
    requires Synced(t, last) && Loadable(f, cfgs) && Diff(es, last, cfgs)
    ensures Synced(AllApplied(f, t, es), Enabled(cfgs))
  {
    var after, next := AllApplied(f, t, es), Enabled(cfgs);
    assert Consistent(t) by {
      forall n: string ensures Furnished(At(t, n), n) {
        assert Right(At(t, n), last, n);
      }
    }
    EventsKeepConsistency(f, t, es);
    forall n: string ensures Furnished(At(after, n), n) && Right(At(after, n), next, n) {
      assert Right(At(t, n), last, n);
      EnabledIsListed(cfgs, n);
      EnabledIsKeyed(cfgs);
      ReloadIsRightExactlyWhen(f, t, es, last, cfgs, n);
      DistinctNamesHeal(f, At(t, n), last, cfgs, n);
    }
  }

  function Empty(): Tables {
    Tables(map[], {}, map[], map[], map[], map[], map[])
  }

  lemma {:induction false} BootstrappedAt(f: Factories, cfgs: seq<Config>, name: string)
    requires Loadable(f, cfgs)
    ensures var s := At(Bootstrapped(f, Empty(), cfgs), name);
            Furnished(s, name) && Right(s, Enabled(cfgs), name)
  {
    if cfgs != [] {
      var front, cfg := cfgs[..|cfgs| - 1], cfgs[|cfgs| - 1];
      BootstrappedAt(f, front, name);
      EnabledIsListed(front, name);
      var before := Bootstrapped(f, Empty(), front);
      var noted := before.(configs := before.configs[cfg.name := cfg]);
      assert At(noted, name) == if name == cfg.name then At(before, name).(config := Some(cfg)) else At(before, name);
      RegisteredAt(f, noted, cfg, name);
    }
  }

  /** Starting up leaves the registry in agreement with the configuration it was started from. */
  lemma BootstrapIsSynced(f: Factories, cfgs: seq<Config>)
    requires Loadable(f, cfgs)
    ensures Synced(Bootstrapped(f, Empty(), cfgs), Enabled(cfgs))
  {
    var t := Bootstrapped(f, Empty(), cfgs);
    forall n: string ensures Furnished(At(t, n), n) && Right(At(t, n), Enabled(cfgs), n) {
      BootstrappedAt(f, cfgs, n);
    }
  }

  // ----- Whole runs -----

  datatype World = World(hash: int, last: map<string, Config>, tables: Tables)

  /** One poll: the contents read, if any, and the events it emits when it finds a change. */
  datatype Poll = Poll(data: Option<string>, events: seq<Event>)

  predicate Reloads(digest: string -> int, parse: string -> Option<seq<Config>>, w: World, p: Poll) {
    p.data.Some? && digest(p.data.value) != w.hash && parse(p.data.value).Some?
  }

  /** The state a call of Check leads to. */
  function Polled(digest: string -> int, parse: string -> Option<seq<Config>>, f: Factories, w: World, p: Poll): World {
    if Reloads(digest, parse, w, p) then
      World(digest(p.data.value), Enabled(parse(p.data.value).value), AllApplied(f, w.tables, p.events))
    else w
  }

  function AfterPolls(digest: string -> int, parse: string -> Option<seq<Config>>, f: Factories, w: World,
                      ps: seq<Poll>): World
    decreases |ps|
  {
    if ps == [] then w else AfterPolls(digest, parse, f, Polled(digest, parse, f, w, ps[0]), ps[1..])
  }

  /** Each poll that reloads emits a diff of what was last applied, in some order of removals. */
  ghost predicate Legal(digest: string -> int, parse: string -> Option<seq<Config>>, f: Factories, w: World,
                        ps: seq<Poll>)
    decreases |ps|
  {
    ps == [] || (
      && (Reloads(digest, parse, w, ps[0]) ==> Diff(ps[0].events, w.last, parse(ps[0].data.value).value))
      && Legal(digest, parse, f, Polled(digest, parse, f, w, ps[0]), ps[1..]))
  }

  /** The latest contents read that parse. */
  function Shown(parse: string -> Option<seq<Config>>, ps: seq<Poll>, shown: string): string
    decreases |ps|
  {
    if ps == [] then shown
    else
      var p := ps[0];
      Shown(parse, ps[1..], if p.data.Some? && parse(p.data.value).Some? then p.data.value else shown)
  }

  /** The watcher and the registry both stand at the contents `shown`. */
  ghost predicate StandsAt(digest: string -> int, parse: string -> Option<seq<Config>>, w: World, shown: string) {
    && w.hash == digest(shown) && parse(shown).Some?
    && w.last == Enabled(parse(shown).value) && Synced(w.tables, w.last)
  }

  /** `data` is what stood at the start, or was polled and parses. */
  predicate Seen(parse: string -> Option<seq<Config>>, ps: seq<Poll>, shown: string, data: string) {
    data == shown || exists p :: p in ps && p.data == Some(data) && parse(data).Some?
  }

  /** Among the contents of this run, equal digests mean equal contents. */
  ghost predicate NoClash(digest: string -> int, parse: string -> Option<seq<Config>>, ps: seq<Poll>, shown: string) {
    forall a: string, b: string
      | Seen(parse, ps, shown, a) && Seen(parse, ps, shown, b) && digest(a) == digest(b) :: a == b
  }

  lemma NoClashLater(digest: string -> int, parse: string -> Option<seq<Config>>, ps: seq<Poll>, shown: string,
                     later: string)
    requires ps != [] && NoClash(digest, parse, ps, shown) && Seen(parse, ps, shown, later)
    ensures NoClash(digest, parse, ps[1..], later)
  {
    forall a: string | Seen(parse, ps[1..], later, a) ensures Seen(parse, ps, shown, a) {
      if a != later {
        var p :| p in ps[1..] && p.data == Some(a) && parse(a).Some?;
        assert p in ps;
      }
    }
  }

  /**
   * Whatever is polled, the registry ends in agreement with the latest contents that parse, provided each of them
   * is loadable and no two contents of the run share a digest.
   */
  lemma {:induction false} PollingConverges(digest: string -> int, parse: string -> Option<seq<Config>>, f: Factories,
                                            w: World, ps: seq<Poll>, shown: string)
    requires StandsAt(digest, parse, w, shown) && Legal(digest, parse, f, w, ps) && NoClash(digest, parse, ps, shown)
    requires forall p | p in ps && p.data.Some? && parse(p.data.value).Some? :: Loadable(f, parse(p.data.value).value)
    ensures StandsAt(digest, parse, AfterPolls(digest, parse, f, w, ps), Shown(parse, ps, shown))
    decreases |ps|
  {
    if ps != [] {
      var p := ps[0];
      assert p in ps;
      var w' := Polled(digest, parse, f, w, p);
      var shown' := if p.data.Some? && parse(p.data.value).Some? then p.data.value else shown;
      assert Seen(parse, ps, shown, shown) && Seen(parse, ps, shown, shown');
      if Reloads(digest, parse, w, p) {
        ReloadConverges(f, w.tables, p.events, w.last, parse(p.data.value).value);
      }
      assert StandsAt(digest, parse, w', shown');
      NoClashLater(digest, parse, ps, shown, shown');
      PollingConverges(digest, parse, f, w', ps[1..], shown');
    }
  }

  /**
   * The registry serves exactly the enabled entries, field by field: each has its provider, built from the base URL,
   * key, timeout and models it lists now, behind a circuit breaker of its own; and there is no other provider.
   */
  ghost predicate Serves(t: Tables, cfgs: seq<Config>) {
    && (forall c | c in cfgs && c.enabled ::
          && c.name in t.providers && c.name in t.circuits
          && var p := t.providers[c.name];
          && p.name == c.name && p.baseUrl == c.baseUrl && p.apiKey == c.apiKey && p.timeoutMs == c.timeoutMs
          && p.defaultModel == c.defaultModel && p.models == c.models)
    && (forall n | n in t.providers :: exists c :: c in cfgs && c.enabled && c.name == n)
  }

  lemma {:induction false} EnabledHolds(cfgs: seq<Config>, i: nat)
    requires DistinctNames(cfgs) && i < |cfgs| && cfgs[i].enabled
    ensures cfgs[i].name in Enabled(cfgs) && Enabled(cfgs)[cfgs[i].name] == cfgs[i]
  {
    if i < |cfgs| - 1 {
      EnabledHolds(cfgs[..|cfgs| - 1], i);
    }
  }

  lemma SyncedServes(t: Tables, cfgs: seq<Config>)
    requires DistinctNames(cfgs) && Synced(t, Enabled(cfgs))
    ensures Serves(t, cfgs)
  {
    forall c | c in cfgs && c.enabled
      ensures && c.name in t.providers && c.name in t.circuits
              && var p := t.providers[c.name];
              && p.name == c.name && p.baseUrl == c.baseUrl && p.apiKey == c.apiKey && p.timeoutMs == c.timeoutMs
              && p.defaultModel == c.defaultModel && p.models == c.models
    {
      var i :| 0 <= i < |cfgs| && cfgs[i] == c;
      EnabledHolds(cfgs, i);
      assert Furnished(At(t, c.name), c.name) && Right(At(t, c.name), Enabled(cfgs), c.name);
    }
    forall n | n in t.providers ensures exists c :: c in cfgs && c.enabled && c.name == n {
      assert Right(At(t, n), Enabled(cfgs), n);
      EnabledNames(cfgs, n);
    }
  }

  /** A reload of a loadable configuration, in fields: from a registry in agreement to one that serves the new one. */
  lemma ReloadServes(f: Factories, t: Tables, es: seq<Event>, last: map<string, Config>, cfgs: seq<Config>)
    requires Synced(t, last) && Loadable(f, cfgs) && Diff(es, last, cfgs)
    ensures Serves(AllApplied(f, t, es), cfgs)
  {
    ReloadConverges(f, t, es, last, cfgs);
    SyncedServes(AllApplied(f, t, es), cfgs);
  }

  /** From start-up on, whatever is polled: the registry serves the latest contents that parse, field by field. */
  lemma PollingServes(digest: string -> int, parse: string -> Option<seq<Config>>, f: Factories, start: string,
                      ps: seq<Poll>)
    requires parse(start).Some? && Loadable(f, parse(start).value)
    requires var cfgs := parse(start).value;
             Legal(digest, parse, f, World(digest(start), Enabled(cfgs), Bootstrapped(f, Empty(), cfgs)), ps)
    requires NoClash(digest, parse, ps, start)
    requires forall p | p in ps && p.data.Some? && parse(p.data.value).Some? :: Loadable(f, parse(p.data.value).value)
    ensures var cfgs := parse(start).value;
            var w := AfterPolls(digest, parse, f,
                                World(digest(start), Enabled(cfgs), Bootstrapped(f, Empty(), cfgs)), ps);
            var shown := parse(Shown(parse, ps, start));
            shown.Some? && Serves(w.tables, shown.value)
  {
    var cfgs := parse(start).value;
    BootstrapIsSynced(f, cfgs);
    PollingConverges(digest, parse, f, World(digest(start), Enabled(cfgs), Bootstrapped(f, Empty(), cfgs)), ps, start);
    ShownIsLoadable(parse, f, ps, start);
    SyncedServes(AfterPolls(digest, parse, f, World(digest(start), Enabled(cfgs), Bootstrapped(f, Empty(), cfgs)),
                            ps).tables, parse(Shown(parse, ps, start)).value);
  }

  lemma {:induction false} ShownIsLoadable(parse: string -> Option<seq<Config>>, f: Factories, ps: seq<Poll>,
                                           shown: string)
    requires parse(shown).Some? && Loadable(f, parse(shown).value)
    requires forall p | p in ps && p.data.Some? && parse(p.data.value).Some? :: Loadable(f, parse(p.data.value).value)
    ensures var last := parse(Shown(parse, ps, shown)); last.Some? && Loadable(f, last.value)
    decreases |ps|
  {
    if ps != [] {
      var p := ps[0];
      assert p in ps;
      ShownIsLoadable(parse, f, ps[1..], if p.data.Some? && parse(p.data.value).Some? then p.data.value else shown);
    }
  }

  lemma TwoAdditionsAreDiff(a: Config, b: Config)
    requires a.enabled && b.enabled && a.name == b.name
    ensures Enabled([a, b]) == map[a.name := b]
    ensures Changes(map[], [a, b]) == [Added(a), Added(b)] && Diff([Added(a), Added(b)], map[], [a, b])
  {
    var es, cfgs := [Added(a), Added(b)], [a, b];
    assert cfgs[..1] == [a] && [a][..0] == [];
    assert Enabled([a][..0]) == map[] && Enabled([a]) == map[a.name := a];
    ChangesOfOne(map[], a);
    assert es[2..] == [];
  }

  lemma SecondReadUpdates(a: Config, b: Config)
    requires a.enabled && b.enabled && a.name == b.name && !Same(a, b)
    ensures Changes(map[a.name := b], [a, b]) == [Updated(a)]
  {
    var last := map[a.name := b];
    assert [a, b][..1] == [a];
    ChangesOfOne(last, a);
  }

  /** Why names must differ: with one name twice the registry keeps the first and the watcher remembers the second. */
  lemma DuplicateNamesDiverge(f: Factories, t: Tables, a: Config, b: Config)
    requires a.enabled && b.enabled && a.name == b.name && !Same(a, b) && a.name !in t.providers && Builds(f, a)
    ensures var es := [Added(a), Added(b)];
            && Diff(es, map[], [a, b])
            && !Right(At(AllApplied(f, t, es), a.name), Enabled([a, b]), a.name)
            && Changes(Enabled([a, b]), [a, b]) == [Updated(a)]
  {
    var es := [Added(a), Added(b)];
    TwoAdditionsAreDiff(a, b);
    SecondReadUpdates(a, b);
    assert es[..1] == [Added(a)] && [Added(a)][..0] == [];
    assert AllApplied(f, t, [Added(a)][..0]) == t;
    assert AllApplied(f, t, [Added(a)]) == Registered(f, t, a);
    assert AllApplied(f, t, es) == Registered(f, Registered(f, t, a), b);
  }

  lemma OneUpdateIsDiff(a: Config, b: Config)
    requires b.enabled && a.name == b.name && !Same(a, b)
    ensures Diff([Updated(b)], map[a.name := a], [b]) && Enabled([b]) == map[b.name := b]
  {
    var last, es := map[a.name := a], [Updated(b)];
    assert [b][..0] == [] && Enabled([b][..0]) == map[];
    ChangesOfOne(last, b);
    assert es[1..] == [];
    assert last.Keys - Enabled([b]).Keys == {};
  }

  /** A failing input: an update that cannot be built leaves the name without a provider. */
  lemma FailingFactoryLosesAProvider(f: Factories, t: Tables, a: Config, b: Config)
    requires a.enabled && b.enabled && a.name == b.name && !Same(a, b) && !Builds(f, b)
    ensures var (last, es) := (map[a.name := a], [Updated(b)]);
            && Diff(es, last, [b])
            && At(AllApplied(f, t, es), a.name).provider.None?
            && !Right(At(AllApplied(f, t, es), a.name), Enabled([b]), a.name)
  {
    var es := [Updated(b)];
    OneUpdateIsDiff(a, b);
    assert es[..0] == [] && AllApplied(f, t, es[..0]) == t;
    AppliedAt(f, t, Updated(b), a.name);
  }

  // ----- Names that stay wrong -----

  /** The contents list the name as it is remembered: with no other configuration, or not at all. */
  predicate Unchanged(last: map<string, Config>, cfgs: seq<Config>, name: string) {
    var occ := Occurrences(cfgs, name);
    if name in last then occ != [] && forall i | 0 <= i < |occ| :: Same(last[name], occ[i]) else occ == []
  }

  lemma {:induction false} SameNeverDiffers(was: Config, occ: seq<Config>)
    requires forall i | 0 <= i < |occ| :: Same(was, occ[i])
    ensures LastDiffering(was, occ) == None
  {
    if occ != [] {
      SameNeverDiffers(was, occ[..|occ| - 1]);
    }
  }

  /** A reload that does not change a name's configuration leaves the name as it was, right or wrong. */
  lemma UnchangedIsUntouched(f: Factories, t: Tables, es: seq<Event>, last: map<string, Config>, cfgs: seq<Config>,
                             name: string)
    requires Diff(es, last, cfgs) && Unchanged(last, cfgs, name)
    ensures At(AllApplied(f, t, es), name) == At(t, name)
    ensures name in Enabled(cfgs) <==> name in last
    ensures name in last ==> Same(last[name], Enabled(cfgs)[name])
  {
    var occ := Occurrences(cfgs, name);
    EventsActByName(f, t, es, name);
    DiffTouches(es, last, cfgs, name);
    LastOccurrenceCounts(cfgs, name);
    if name in last {
      SameNeverDiffers(last[name], occ);
      UpdatesLeave(f, At(t, name), last, occ, name);
    }
  }

  /** Each poll that reloads lists the name as it is remembered at that point. */
  ghost predicate StaysUnchanged(digest: string -> int, parse: string -> Option<seq<Config>>, f: Factories, w: World,
                                 ps: seq<Poll>, name: string)
    decreases |ps|
  {
    ps == [] || (
      && (Reloads(digest, parse, w, ps[0]) ==> Unchanged(w.last, parse(ps[0].data.value).value, name))
      && StaysUnchanged(digest, parse, f, Polled(digest, parse, f, w, ps[0]), ps[1..], name))
  }

  /** Until its configuration changes, a name the registry is wrong about stays wrong, and a right one right. */
  lemma {:induction false} RightnessNeedsAChange(digest: string -> int, parse: string -> Option<seq<Config>>,
                                                 f: Factories, w: World, ps: seq<Poll>, name: string)
    requires Legal(digest, parse, f, w, ps) && StaysUnchanged(digest, parse, f, w, ps, name)
    ensures var after := AfterPolls(digest, parse, f, w, ps);
            && At(after.tables, name) == At(w.tables, name)
            && (Right(At(after.tables, name), after.last, name) <==> Right(At(w.tables, name), w.last, name))
    decreases |ps|
  {
    if ps != [] {
      var p, w' := ps[0], Polled(digest, parse, f, w, ps[0]);
      if Reloads(digest, parse, w, p) {
        UnchangedIsUntouched(f, w.tables, p.events, w.last, parse(p.data.value).value, name);
      }
      RightnessNeedsAChange(digest, parse, f, w', ps[1..], name);
    }
  }
}
