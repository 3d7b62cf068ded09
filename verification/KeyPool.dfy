/** The in-memory pool of upstream API keys (internal/keypool/keypool.go). */
module KeyPool {
  import opened Prelude

  datatype APIKey = APIKey(id: string, value: string, enabled: bool)

  /** One pooled key; `cooldown` is an instant, 0 standing for Go's zero time. */
  datatype KeyState = KeyState(key: APIKey, cooldown: int)

  datatype Key = Key(id: string, value: string)

  /** Provider id to its keys, in stored (priority, label) order. */
  type Keys = map<string, seq<KeyState>>

  /** What the API key table answers for each listed provider; None is a failed query. */
  type KeyTable = map<string, Option<seq<APIKey>>>

  predicate Ready(s: KeyState, now: nat) {
    s.key.enabled && now >= s.cooldown
  }

  function FirstReady(states: seq<KeyState>, now: nat): Option<Key> {
    if states == [] then None
    else if Ready(states[0], now) then Some(Key(states[0].key.id, states[0].key.value))
    else FirstReady(states[1..], now)
  }

  function Usable(keys: Keys, provider: string, now: nat): Option<Key> {
    if provider in keys then FirstReady(keys[provider], now) else None
  }

  /** The first position from `i` on that holds `id`, or the length. */
  function Position(states: seq<KeyState>, id: string, i: nat := 0): (r: nat)
    requires i <= |states|
    ensures i <= r <= |states|
    decreases |states| - i
  {
    if i == |states| || states[i].key.id == id then i else Position(states, id, i + 1)
  }

  function Cooled(keys: Keys, provider: string, id: string, until: int): Keys {
    if provider !in keys then keys
    else
      var states := keys[provider];
      var i := Position(states, id);
      if i == |states| then keys
      else keys[provider := states[i := states[i].(cooldown := until)]]
  }

  function EnabledStates(rows: seq<APIKey>): seq<KeyState> {
    if rows == [] then []
    else
      var rest := EnabledStates(rows[..|rows| - 1]);
      var last := rows[|rows| - 1];
      if last.enabled then rest + [KeyState(last, 0)] else rest
  }

  function Loaded(keys: Keys, providers: seq<string>, table: KeyTable): Keys {
    if providers == [] then keys
    else
      var before := Loaded(keys, providers[..|providers| - 1], table);
      var p := providers[|providers| - 1];
      if p in table && table[p].None? then before
      else before[p := EnabledStates(if p in table then table[p].value else [])]
  }

  class Pool {
    var keys: Keys

    constructor ()
      ensures keys == map[]
    {
      keys := map[];
    }

    /** `listed` is None when the provider query itself fails: then nothing is loaded. Providers no
        longer listed, and those whose key query fails, keep the keys they had. */
    method Load(listed: Option<seq<string>>, table: KeyTable) returns (ok: bool)
      modifies this
      ensures ok == listed.Some?
      ensures keys == if ok then Loaded(old(keys), listed.value, table) else old(keys)
    {
      if listed.None? {
        return false;
      }
      var providers := listed.value;
      for n := 0 to |providers|
        invariant keys == Loaded(old(keys), providers[..n], table)
      {
        var p := providers[n];
        assert providers[..n + 1][..n] == providers[..n];
        if p in table && table[p].None? {
          continue;
        }
        var rows := if p in table then table[p].value else [];
        var states := [];
        for i := 0 to |rows|
          invariant states == EnabledStates(rows[..i])
        {
          assert rows[..i + 1][..i] == rows[..i];
          if rows[i].enabled {
            states := states + [KeyState(rows[i], 0)];
          }
        }
        assert rows[..|rows|] == rows;
        keys := keys[p := states];
      }
      assert providers[..|providers|] == providers;
      return true;
    }

    method Get(provider: string, now: nat) returns (r: Option<Key>)
      ensures r == Usable(keys, provider, now)
    {
      if provider !in keys || |keys[provider]| == 0 {
        return None;
      }
      var states := keys[provider];
      for i := 0 to |states|
        invariant FirstReady(states, now) == FirstReady(states[i..], now)
      {
        var s := states[i];
        if !s.key.enabled {
          continue;
        }
        if now < s.cooldown {
          continue;
        }
        return Some(Key(s.key.id, s.key.value));
      }
      return None;
    }

    method MarkCooldown(provider: string, id: string, now: nat, d: int)
      modifies this
      ensures keys == Cooled(old(keys), provider, id, now + d)
    {
      if provider !in keys {
        return;
      }
      var states := keys[provider];
      for i := 0 to |states|
        invariant keys == old(keys)
        invariant Position(states, id) == Position(states, id, i)
      {
        if states[i].key.id == id {
          keys := keys[provider := states[i := states[i].(cooldown := now + d)]];
          return;
        }
      }
    }
  }

  /** `Get` hands out the first enabled key that is not cooling, in stored order, and nothing
      exactly when there is none. */
  lemma {:induction false} UsableIsFirstReady(states: seq<KeyState>, now: nat)
    ensures FirstReady(states, now).None? <==> forall i | 0 <= i < |states| :: !Ready(states[i], now)
    ensures FirstReady(states, now).Some? ==>
              exists i | 0 <= i < |states| ::
                && Ready(states[i], now)
                && FirstReady(states, now).value == Key(states[i].key.id, states[i].key.value)
                && forall j | 0 <= j < i :: !Ready(states[j], now)
  {
    if states != [] && !Ready(states[0], now) {
      UsableIsFirstReady(states[1..], now);
      assert forall i | 1 <= i < |states| :: states[i] == states[1..][i - 1];
      assert forall i | 0 <= i < |states| - 1 :: states[1..][i] == states[i + 1];
      if FirstReady(states, now).Some? {
        var i :| 0 <= i < |states| - 1 && Ready(states[1..][i], now)
                 && FirstReady(states, now).value == Key(states[1..][i].key.id, states[1..][i].key.value)
                 && forall j | 0 <= j < i :: !Ready(states[1..][j], now);
        assert Ready(states[i + 1], now);
        assert forall j | 0 <= j < i + 1 :: !Ready(states[j], now);
      }
    }
  }

  /** No entry of `provider` under `id` is usable before `until`. */
  ghost predicate Cooling(keys: Keys, provider: string, id: string, until: int) {
    provider in keys ==>
      forall s | s in keys[provider] && s.key.id == id :: s.cooldown >= until
  }

  /** Key ids are a primary key, so no provider holds one twice. */
  ghost predicate UniqueIds(keys: Keys) {
    forall p, i, j | p in keys && 0 <= i < j < |keys[p]| :: keys[p][i].key.id != keys[p][j].key.id
  }

  lemma {:induction false} CoolingNotUsable(keys: Keys, provider: string, id: string, until: int, now: nat)
    requires Cooling(keys, provider, id, until) && now < until
    ensures Usable(keys, provider, now).Some? ==> Usable(keys, provider, now).value.id != id
  {
    if provider in keys {
      UsableIsFirstReady(keys[provider], now);
    }
  }

  lemma {:induction false} PositionFinds(states: seq<KeyState>, id: string, i: nat)
    requires i <= |states|
    ensures forall j | i <= j < Position(states, id, i) :: states[j].key.id != id
    ensures Position(states, id, i) < |states| ==> states[Position(states, id, i)].key.id == id
    decreases |states| - i
  {
    if i < |states| && states[i].key.id != id {
      PositionFinds(states, id, i + 1);
    }
  }

  /** Marking touches no other provider, keeps ids and order, and makes the key cool until then; what cools
      so far goes on cooling up to then. */
  lemma CooledEffect(keys: Keys, provider: string, id: string, until: int)
    ensures var after := Cooled(keys, provider, id, until);
            && after.Keys == keys.Keys
            && (forall p | p in keys && p != provider :: after[p] == keys[p])
            && (UniqueIds(keys) ==> UniqueIds(after) && Cooling(after, provider, id, until))
            && (forall p, k, t | Cooling(keys, p, k, t) && t <= until :: Cooling(after, p, k, t))
  {
    if provider in keys {
      PositionFinds(keys[provider], id, 0);
      var after: Keys := Cooled(keys, provider, id, until);
      assert |after[provider]| == |keys[provider]|;
      assert forall i | 0 <= i < |keys[provider]| :: after[provider][i].key == keys[provider][i].key;
    }
  }

  /** The states hold exactly the enabled keys of the rows, none of them cooling, in the rows' order:
      `at` says which row each is. */
  ghost predicate FreshAt(states: seq<KeyState>, rows: seq<APIKey>, at: seq<nat>) {
    && |at| == |states|
    && (forall i | 0 <= i < |at| :: at[i] < |rows| && states[i] == KeyState(rows[at[i]], 0) && rows[at[i]].enabled)
    && (forall i, j | 0 <= i < j < |at| :: at[i] < at[j])
    && (forall k: nat | k < |rows| && rows[k].enabled :: k in at)
  }

  ghost predicate Fresh(states: seq<KeyState>, rows: seq<APIKey>) {
    exists at :: FreshAt(states, rows, at)
  }

  lemma FreshNext(states: seq<KeyState>, rows: seq<APIKey>, at: seq<nat>)
    requires rows != [] && FreshAt(states, rows[..|rows| - 1], at)
    ensures var n := |rows| - 1;
            if rows[n].enabled then FreshAt(states + [KeyState(rows[n], 0)], rows, at + [n])
               else FreshAt(states, rows, at)
  {
    var n := |rows| - 1;
    var at' := if rows[n].enabled then at + [n] else at;
    forall k: nat | k < |rows| && rows[k].enabled
      ensures k in at'
    {
      if k < n {
        assert rows[..n][k] == rows[k];
      }
    }
  }

  lemma {:induction false} EnabledAreFresh(rows: seq<APIKey>)
    ensures Fresh(EnabledStates(rows), rows)
  {
    if rows != [] {
      var n := |rows| - 1;
      EnabledAreFresh(rows[..n]);
      var at :| FreshAt(EnabledStates(rows[..n]), rows[..n], at);
      FreshNext(EnabledStates(rows[..n]), rows, at);
    } else {
      assert FreshAt([], rows, []);
    }
  }

  /** One provider's entry after a load: its enabled keys in stored order, none of them cooling, if it
      was listed and its keys could be read, and otherwise what it was. */
  lemma {:induction false} LoadedEntry(keys: Keys, providers: seq<string>, table: KeyTable, p: string)
    ensures var after := Loaded(keys, providers, table);
            if p in providers && !(p in table && table[p].None?) then
              p in after && Fresh(after[p], if p in table then table[p].value else [])
            else (p in after <==> p in keys) && (p in after ==> after[p] == keys[p])
  {
    if providers != [] {
      var n := |providers| - 1;
      LoadedEntry(keys, providers[..n], table, p);
      assert providers == providers[..n] + [providers[n]];
      if !(p in table && table[p].None?) {
        EnabledAreFresh(if p in table then table[p].value else []);
      }
    }
  }

  /** State i is the first under the id. */
  ghost predicate FirstUnder(states: seq<KeyState>, id: string, i: nat) {
    i < |states| && states[i].key.id == id && forall j | 0 <= j < i :: states[j].key.id != id
  }

  /** The pool after a mark: the first state under the id cools until then, and every other state, of this
      provider or another, is what it was; where no state is under the id nothing changes. */
  lemma MarkedAlone(keys: Keys, provider: string, id: string, until: int)
    ensures var after := Cooled(keys, provider, id, until);
            && after.Keys == keys.Keys
            && (forall p | p in keys && p != provider :: after[p] == keys[p])
            && (provider in keys ==>
                  && |after[provider]| == |keys[provider]|
                  && forall i | 0 <= i < |keys[provider]| ::
                       && after[provider][i].key == keys[provider][i].key
                       && after[provider][i].cooldown
                          == if FirstUnder(keys[provider], id, i) then until else keys[provider][i].cooldown)
  {
    if provider in keys {
      PositionFinds(keys[provider], id, 0);
    }
  }

  /** Key k is the first one, in stored order, of the provider's ready keys under other ids. */
  ghost predicate FirstOther(states: seq<KeyState>, id: string, now: nat, k: Key) {
    exists i | 0 <= i < |states| ::
      && Ready(states[i], now) && states[i].key.id != id && k == Key(states[i].key.id, states[i].key.value)
      && forall j | 0 <= j < i && states[j].key.id != id :: !Ready(states[j], now)
  }

  /** So until that time the provider's other keys are handed out as before, the first ready one of them,
      and none only when no other is ready; and from that time on the marked key is ready again, if it
      is enabled. */
  lemma OthersStayUsable(keys: Keys, provider: string, id: string, until: int, now: nat)
    requires provider in keys && UniqueIds(keys)
    ensures var after := Cooled(keys, provider, id, until);
            && (now < until ==>
                  match Usable(after, provider, now)
                  case Some(k) => FirstOther(keys[provider], id, now, k)
                  case None => forall x | x in keys[provider] && x.key.id != id :: !Ready(x, now))
            && (now >= until ==>
                  forall i | 0 <= i < |keys[provider]| && keys[provider][i].key.id == id ::
                    Ready(after[provider][i], now) <==> keys[provider][i].key.enabled)
  {
    MarkedAlone(keys, provider, id, until);
    var before, after := keys[provider], Cooled(keys, provider, id, until)[provider];
    forall i | 0 <= i < |before|
      ensures before[i].key.id == id <==> FirstUnder(before, id, i)
    {
    }
    UsableIsFirstReady(after, now);
    if now < until {
      if FirstReady(after, now).Some? {
        var i :| 0 <= i < |after| && Ready(after[i], now)
                 && FirstReady(after, now).value == Key(after[i].key.id, after[i].key.value)
                 && forall j | 0 <= j < i :: !Ready(after[j], now);
        assert before[i].key.id != id;
      }
    }
  }
}
