/** What all requests share, the tables, the key pool, the cache and the clock, and the atomic steps
    that other goroutines may take on it at any moment of a request. */
module World {
  import opened Prelude
  import opened KeyPool
  import opened Store
  import Discovery

  datatype WorldView = WorldView(db: Tables, pool: Keys, cache: Discovery.CacheState, now: nat)

  datatype EnvStep =
    | SetTables(db: Tables)
    | ReloadPool
    | CoolKey(provider: string, id: string)
    | CacheStep(event: Discovery.Event)
    | Tick(d: nat)

  /** One step; `cooldown` is the duration every request cools keys for. */
  function Env(w: WorldView, cooldown: int, e: EnvStep): WorldView {
    match e
    case SetTables(db) => w.(db := db)
    case ReloadPool =>
      if w.db.providers.None? then w
      else w.(pool := Loaded(w.pool, ProviderIds(w.db.providers.value), w.db.keys))
    case CoolKey(p, id) => w.(pool := Cooled(w.pool, p, id, w.now + cooldown))
    case CacheStep(event) => w.(cache := Discovery.Apply(w.cache, event))
    case Tick(d) => w.(now := w.now + d)
  }

  function EnvAll(w: WorldView, cooldown: int, steps: seq<EnvStep>): WorldView {
    if steps == [] then w
    else Env(EnvAll(w, cooldown, steps[..|steps| - 1]), cooldown, steps[|steps| - 1])
  }

  class World {
    const pool: Pool
    const cache: Discovery.Cache
    const cooldown: int
    var db: Tables
    var now: nat

    constructor (pool: Pool, cache: Discovery.Cache, cooldown: int, db: Tables, now: nat)
      ensures this.pool == pool && this.cache == cache && this.cooldown == cooldown
      ensures this.db == db && this.now == now
    {
      this.pool, this.cache, this.cooldown, this.db, this.now := pool, cache, cooldown, db, now;
    }

    ghost function View(): WorldView
      reads this, pool, cache
    {
      WorldView(db, pool.keys, cache.View(), now)
    }

    method Interfere(steps: seq<EnvStep>)
      modifies this, pool, cache
      ensures View() == EnvAll(old(View()), cooldown, steps)
    {
      for i := 0 to |steps|
        invariant View() == EnvAll(old(View()), cooldown, steps[..i])
      {
        assert steps[..i + 1][..i] == steps[..i];
        match steps[i]
        case SetTables(db') =>
          db := db';
        case ReloadPool =>
          var listed := if db.providers.None? then None else Some(ProviderIds(db.providers.value));
          var _ := pool.Load(listed, db.keys);
        case CoolKey(p, id) =>
          pool.MarkCooldown(p, id, now, cooldown);
        case CacheStep(event) =>
          Perform(event);
        case Tick(d) =>
          now := now + d;
      }
      assert steps[..|steps|] == steps;
    }

    method Perform(event: Discovery.Event)
      modifies cache
      ensures cache.View() == Discovery.Apply(old(cache.View()), event)
    {
      match event
      case RefreshOk(p, models, at) =>
        var row := Provider(p, p, p, OpenAI, true);
        var _ := cache.RefreshProvider(p, Ok(Some(row)), Some(Key("", "")), Ok(models), at);
      case RefreshFailed(p, why) =>
        cache.KeepPrevious(p, why);
      case Mark(p, m, at) =>
        cache.MarkRuntimeStale(p, m, at);
      case Remove(p) =>
        cache.RemoveProvider(p);
    }
  }
}
