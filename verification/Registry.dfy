/** The provider registry: what registering and unregistering do to every table it keeps. */
module Registry {
  import opened Wrappers

  /** `models` is absent when the list is missing; `rest` stands for the fields nothing here looks at. */
  datatype Config = Config(name: string, kind: string, baseUrl: string, apiKey: string, timeoutMs: int,
                           defaultModel: string, models: Option<seq<string>>, enabled: bool, maxConcurrency: int,
                           adaptive: bool, rpm: int, tpm: int, retryBudget: int, rest: string)

  datatype Limits = Limits(rpm: int, tpm: int)

  /** A constructed provider is known by the configuration it was built from. */
  datatype Tables = Tables(providers: map<string, Config>, circuits: set<string>, semaphores: map<string, int>,
                           adaptive: map<string, int>, limiters: map<string, Limits>, budgets: map<string, int>,
                           configs: map<string, Config>)

  /** For each kind, whether its factory constructs a configuration. */
  type Factories = map<string, Config -> bool>

  datatype Built = Provider(cfg: Config) | NoFactory | ConstructFails

  predicate Builds(f: Factories, cfg: Config) {
    cfg.kind in f && f[cfg.kind](cfg)
  }

  function Registered(f: Factories, t: Tables, cfg: Config): Tables {
    if cfg.name in t.providers then t.(configs := t.configs[cfg.name := cfg])
    else if !Builds(f, cfg) then t
    else
      Tables(t.providers[cfg.name := cfg], t.circuits + {cfg.name}, t.semaphores[cfg.name := cfg.maxConcurrency],
             if cfg.adaptive then t.adaptive[cfg.name := AdaptiveLimit(cfg)] else t.adaptive,
             t.limiters[cfg.name := Limits(cfg.rpm, cfg.tpm)], t.budgets[cfg.name := cfg.retryBudget],
             t.configs[cfg.name := cfg])
  }

  function Unregistered(t: Tables, name: string): Tables {
    t.(providers := t.providers - {name}, circuits := t.circuits - {name}, semaphores := t.semaphores - {name},
       limiters := t.limiters - {name}, configs := t.configs - {name})
  }

  function Bootstrapped(f: Factories, t: Tables, cfgs: seq<Config>): Tables {
    if cfgs == [] then t
    else
      var before := Bootstrapped(f, t, cfgs[..|cfgs| - 1]);
      var cfg := cfgs[|cfgs| - 1];
      var noted := before.(configs := before.configs[cfg.name := cfg]);
      if cfg.enabled then Registered(f, noted, cfg) else noted
  }

  /** Start-up notes every configuration, enabled or not; of two with one name the later stays. */
  lemma {:induction false} BootstrapNotesLast(f: Factories, t: Tables, cfgs: seq<Config>, i: nat)
    requires i < |cfgs| && forall j | i < j < |cfgs| :: cfgs[j].name != cfgs[i].name
    ensures var noted := Bootstrapped(f, t, cfgs).configs; cfgs[i].name in noted && noted[cfgs[i].name] == cfgs[i]
  {
    if i < |cfgs| - 1 {
      BootstrapNotesLast(f, t, cfgs[..|cfgs| - 1], i);
    }
  }

  class Manager {
    var providers: map<string, Config>
    var circuits: set<string>
    var factories: Factories
    var semaphores: map<string, int>
    var adaptiveSems: map<string, int>
    var ratelimiters: map<string, Limits>
    var retryBudgets: map<string, int>
    var allConfigs: map<string, Config>

    constructor ()
      ensures State() == Tables(map[], {}, map[], map[], map[], map[], map[]) && factories == map[]
    {
      providers, circuits, semaphores, adaptiveSems := map[], {}, map[], map[];
      ratelimiters, retryBudgets, allConfigs, factories := map[], map[], map[], map[];
    }

    ghost function State(): Tables
      reads this
    {
      Tables(providers, circuits, semaphores, adaptiveSems, ratelimiters, retryBudgets, allConfigs)
    }

    method RegisterFactory(kind: string, builds: Config -> bool)
      modifies `factories
      ensures factories == old(factories)[kind := builds]
    {
      factories := factories[kind := builds];
    }

    method Bootstrap(cfgs: seq<Config>)
      modifies this
      ensures factories == old(factories)
      ensures State() == Bootstrapped(factories, old(State()), cfgs)
    {
      assert cfgs[..|cfgs|] == cfgs;
      for i := 0 to |cfgs|
        invariant factories == old(factories)
        invariant State() == Bootstrapped(factories, old(State()), cfgs[..i])
      {
        assert cfgs[..i + 1][..i] == cfgs[..i];
        allConfigs := allConfigs[cfgs[i].name := cfgs[i]];
        if !cfgs[i].enabled {
          continue;
        }
        var _ := Register(cfgs[i]);
      }
    }

    /** A name already registered keeps its provider and only takes the new configuration. */
    method Register(cfg: Config) returns (built: Built)
      modifies this
      ensures factories == old(factories)
      ensures State() == Registered(factories, old(State()), cfg)
      ensures built == if cfg.name in old(providers) then Provider(old(providers)[cfg.name])
                       else if cfg.kind !in factories then NoFactory
                       else if !Builds(factories, cfg) then ConstructFails
                       else Provider(cfg)
    {
      if cfg.name in providers {
        allConfigs := allConfigs[cfg.name := cfg];
        return Provider(providers[cfg.name]);
      }
      if cfg.kind !in factories {
        return NoFactory;
      }
      var factory := factories[cfg.kind];
      if !factory(cfg) {
        return ConstructFails;
      }
      allConfigs := allConfigs[cfg.name := cfg];
      providers := providers[cfg.name := cfg];
      circuits := circuits + {cfg.name};
      semaphores := semaphores[cfg.name := cfg.maxConcurrency];
      if cfg.adaptive {
        var max := cfg.maxConcurrency;
        if max <= 0 {
          max := 100;
        }
        adaptiveSems := adaptiveSems[cfg.name := max];
      }
      ratelimiters := ratelimiters[cfg.name := Limits(cfg.rpm, cfg.tpm)];
      retryBudgets := retryBudgets[cfg.name := cfg.retryBudget];
      return Provider(cfg);
    }

    method Unregister(name: string)
      modifies this
      ensures factories == old(factories)
      ensures State() == Unregistered(old(State()), name)
    {
      providers := providers - {name};
      circuits := circuits - {name};
      semaphores := semaphores - {name};
      ratelimiters := ratelimiters - {name};
      allConfigs := allConfigs - {name};
    }
  }

  // ----- One name at a time -----

  /** What the tables hold for one name. */
  datatype Slot = Slot(provider: Option<Config>, circuit: bool, semaphore: Option<int>, adaptive: Option<int>,
                       limiter: Option<Limits>, budget: Option<int>, config: Option<Config>)

  function Lookup<T>(m: map<string, T>, name: string): Option<T> {
    if name in m then Some(m[name]) else None
  }

  function At(t: Tables, name: string): Slot {
    Slot(Lookup(t.providers, name), name in t.circuits, Lookup(t.semaphores, name), Lookup(t.adaptive, name),
         Lookup(t.limiters, name), Lookup(t.budgets, name), Lookup(t.configs, name))
  }

  function AdaptiveLimit(cfg: Config): int {
    if cfg.maxConcurrency <= 0 then 100 else cfg.maxConcurrency
  }

  function SlotRegistered(f: Factories, s: Slot, cfg: Config): Slot {
    if s.provider.Some? then s.(config := Some(cfg))
    else if !Builds(f, cfg) then s
    else
      Slot(Some(cfg), true, Some(cfg.maxConcurrency), if cfg.adaptive then Some(AdaptiveLimit(cfg)) else s.adaptive,
           Some(Limits(cfg.rpm, cfg.tpm)), Some(cfg.retryBudget), Some(cfg))
  }

  function SlotUnregistered(s: Slot): Slot {
    Slot(None, false, None, s.adaptive, None, s.budget, None)
  }

  /** Registering and unregistering touch one name only. */
  lemma RegisteredAt(f: Factories, t: Tables, cfg: Config, name: string)
    ensures At(Registered(f, t, cfg), name)
            == if name == cfg.name then SlotRegistered(f, At(t, name), cfg) else At(t, name)
  {
  }

  lemma UnregisteredAt(t: Tables, gone: string, name: string)
    ensures At(Unregistered(t, gone), name) == if name == gone then SlotUnregistered(At(t, name)) else At(t, name)
  {
  }

  /**
   * A name is either furnished in every table from its provider's configuration, or has neither provider nor live
   * parts.
   */
  predicate Furnished(s: Slot, name: string) {
    match s.provider
    case None => !s.circuit && s.semaphore.None? && s.limiter.None?
    case Some(p) =>
      && p.name == name && s.circuit && s.semaphore == Some(p.maxConcurrency) && s.limiter == Some(Limits(p.rpm, p.tpm))
      && s.budget == Some(p.retryBudget) && s.config.Some? && (p.adaptive ==> s.adaptive == Some(AdaptiveLimit(p)))
  }

  ghost predicate Consistent(t: Tables) {
    forall name: string :: Furnished(At(t, name), name)
  }

  /**
   * Unregistering undoes a registration of a new name but for three things: an adaptive semaphore and a retry budget
   * it created stay behind, and a configuration noted for the name before, as for a disabled provider, is gone.
   */
  lemma UnregisterUndoesRegister(f: Factories, t: Tables, cfg: Config, name: string)
    requires Furnished(At(t, cfg.name), cfg.name) && cfg.name !in t.providers
    ensures var (before, undone) := (At(t, name), At(Unregistered(Registered(f, t, cfg), cfg.name), name));
            undone == if name != cfg.name then before
                      else
                        before.(adaptive := if Builds(f, cfg) && cfg.adaptive then Some(AdaptiveLimit(cfg))
                                            else before.adaptive,
                                budget := if Builds(f, cfg) then Some(cfg.retryBudget) else before.budget,
                                config := None)
  {
    RegisteredAt(f, t, cfg, name);
    UnregisteredAt(Registered(f, t, cfg), cfg.name, name);
  }
}
