/** The pool manager: pools by key, keys by upstream, and eviction of stale and surplus pools. */
module TransportPools {
  import opened PoolKeys

  /** A connection pool object: the `serial`-th one built, with the configuration it was built from. */
  datatype Pool = Pool(serial: nat, network: Network)
  datatype Answer = Granted(pool: Pool) | Refused

  /** `retired` are the pools whose idle connections were closed after they left the map. */
  datatype State = State(pools: map<string, Pool>, byUpstream: map<int, set<string>>, built: nat, retired: set<Pool>)

  const MAX_SIBLINGS := 4
  const EMPTY := State(map[], map[], 0, {})

  function KeysOf(byUpstream: map<int, set<string>>, upstream: int): set<string> {
    if upstream in byUpstream then byUpstream[upstream] else {}
  }

  function Siblings(keys: set<string>, n: Network): set<string> {
    set k | k in keys && HasPrefix(k, IdentityPrefix(n) + [NUL])
  }

  /** Which key sets detaching may leave, whatever order the maps are walked in: only keys of this
      identity, all of them up to the limit, and never without the requested one. */
  predicate Detaches(keys: set<string>, n: Network, kept: set<string>) {
    && kept <= Siblings(keys, n)
    && |kept| == (if |Siblings(keys, n)| <= MAX_SIBLINGS then |Siblings(keys, n)| else MAX_SIBLINGS)
    && (PoolKey(n) in Siblings(keys, n) ==> PoolKey(n) in kept)
  }

  function Pooled(pools: map<string, Pool>, keys: set<string>): set<Pool> {
    set k | k in keys && k in pools :: pools[k]
  }

  function Installed(s: State, n: Network): State {
    var pool := Pool(s.built, n);
    State(s.pools[PoolKey(n) := pool], s.byUpstream[n.upstream := KeysOf(s.byUpstream, n.upstream) + {PoolKey(n)}],
          s.built + 1, s.retired)
  }

  function Drop(s: State, upstream: int, kept: set<string>): State {
    var gone := KeysOf(s.byUpstream, upstream) - kept;
    s.(pools := s.pools - gone, byUpstream := s.byUpstream[upstream := kept],
       retired := s.retired + Pooled(s.pools, gone))
  }

  /** A request: an existing pool, a refusal, or a new pool and whatever detaching removes. */
  ghost predicate Requested(s: State, n: Network, constructible: bool, after: State, answer: Answer) {
    if PoolKey(n) in s.pools then after == s && answer == Granted(s.pools[PoolKey(n)])
    else if !constructible then after == s && answer == Refused
    else
      && answer == Granted(Pool(s.built, n))
      && exists kept :: Detaches(KeysOf(Installed(s, n).byUpstream, n.upstream), n, kept)
                        && after == Drop(Installed(s, n), n.upstream, kept)
  }

  function Invalidated(s: State, upstream: int): State {
    var gone := KeysOf(s.byUpstream, upstream);
    s.(pools := s.pools - gone, byUpstream := s.byUpstream - {upstream}, retired := s.retired + Pooled(s.pools, gone))
  }

  // ---- The invariant ----

  /** The two maps describe the same keys. */
  predicate MapsAgree(s: State) {
    && (forall k :: k in s.pools ==> PoolKey(s.pools[k].network) == k && Clean(s.pools[k].network)
                                     && k in KeysOf(s.byUpstream, s.pools[k].network.upstream))
    && (forall u, k :: u in s.byUpstream && k in s.byUpstream[u] ==> k in s.pools && s.pools[k].network.upstream == u)
  }

  predicate OneIdentityEach(s: State) {
    forall a, b :: a in s.pools && b in s.pools && s.pools[a].network.upstream == s.pools[b].network.upstream ==>
      SameIdentity(s.pools[a].network, s.pools[b].network)
  }

  predicate FewEach(s: State) {
    forall u :: u in s.byUpstream ==> |s.byUpstream[u]| <= MAX_SIBLINGS
  }

  predicate Live(s: State, serial: nat) {
    exists k :: k in s.pools && s.pools[k].serial == serial
  }

  predicate Retired(s: State, serial: nat) {
    exists p :: p in s.retired && p.serial == serial
  }

  /** Every pool ever built is either still in the map or retired, not both. */
  predicate NothingLeaks(s: State) {
    && (forall k :: k in s.pools ==> s.pools[k].serial < s.built && s.pools[k] !in s.retired)
    && (forall p :: p in s.retired ==> p.serial < s.built)
    && (forall i :: 0 <= i < s.built ==> Live(s, i) || Retired(s, i))
  }

  ghost predicate Valid(s: State) {
    MapsAgree(s) && OneIdentityEach(s) && FewEach(s) && NothingLeaks(s)
  }

  lemma InstalledAgrees(s: State, n: Network)
    requires MapsAgree(s) && Clean(n) && PoolKey(n) !in s.pools
    ensures MapsAgree(Installed(s, n))
  {
    var next := Installed(s, n);
    forall k | k in next.pools
      ensures PoolKey(next.pools[k].network) == k && Clean(next.pools[k].network)
      ensures k in KeysOf(next.byUpstream, next.pools[k].network.upstream)
    {
      if k != PoolKey(n) {
        assert k in s.pools && k in KeysOf(s.byUpstream, s.pools[k].network.upstream);
      }
    }
  }

  lemma DropAgrees(s: State, upstream: int, kept: set<string>)
    requires MapsAgree(s) && kept <= KeysOf(s.byUpstream, upstream)
    ensures MapsAgree(Drop(s, upstream, kept))
    ensures forall k :: k in Drop(s, upstream, kept).pools
                        <==> k in s.pools && (s.pools[k].network.upstream == upstream ==> k in kept)
  {
  }

  lemma InstallLeaksNothing(s: State, n: Network)
    requires NothingLeaks(s) && PoolKey(n) !in s.pools
    ensures NothingLeaks(Installed(s, n))
  {
    var next := Installed(s, n);
    forall i | 0 <= i < next.built ensures Live(next, i) || Retired(next, i) {
      if i == s.built {
        assert next.pools[PoolKey(n)].serial == i;
      } else if Live(s, i) {
        var k :| k in s.pools && s.pools[k].serial == i;
        assert k in next.pools && next.pools[k].serial == i;
      } else {
        assert Retired(s, i);
        var p :| p in s.retired && p.serial == i;
        assert p in next.retired;
      }
    }
  }

  lemma RemovalLeaksNothing(s: State, gone: set<string>, byUpstream: map<int, set<string>>)
    requires MapsAgree(s) && NothingLeaks(s)
    ensures NothingLeaks(State(s.pools - gone, byUpstream, s.built, s.retired + Pooled(s.pools, gone)))
  {
    var next := State(s.pools - gone, byUpstream, s.built, s.retired + Pooled(s.pools, gone));
    forall k | k in next.pools ensures next.pools[k] !in next.retired {
      forall g | g in gone && g in s.pools ensures s.pools[g] != s.pools[k] {
        assert PoolKey(s.pools[g].network) == g && PoolKey(s.pools[k].network) == k;
      }
    }
    forall i | 0 <= i < next.built ensures Live(next, i) || Retired(next, i) {
      if Live(s, i) {
        var k :| k in s.pools && s.pools[k].serial == i;
        if k in gone {
          assert s.pools[k] in next.retired;
        } else {
          assert k in next.pools;
        }
      } else {
        assert Retired(s, i);
        var p :| p in s.retired && p.serial == i;
        assert p in next.retired;
      }
    }
  }

  lemma DropKeepsOneIdentity(s: State, n: Network, kept: set<string>)
    requires Valid(s) && Clean(n) && PoolKey(n) !in s.pools
    requires Detaches(KeysOf(Installed(s, n).byUpstream, n.upstream), n, kept)
    ensures OneIdentityEach(Drop(Installed(s, n), n.upstream, kept))
  {
    var mid := Installed(s, n);
    var after := Drop(mid, n.upstream, kept);
    InstalledAgrees(s, n);
    DropAgrees(mid, n.upstream, kept);
    KeptHaveIdentity(mid, n, kept);
    forall a, b
      | a in after.pools && b in after.pools && after.pools[a].network.upstream == after.pools[b].network.upstream
      ensures SameIdentity(after.pools[a].network, after.pools[b].network)
    {
      if after.pools[a].network.upstream == n.upstream {
        assert a in kept && b in kept;
      } else {
        assert a in s.pools && b in s.pools && after.pools[a] == s.pools[a] && after.pools[b] == s.pools[b];
      }
    }
  }

  /** What a newly built pool leads to. */
  lemma BuildKeepsValid(s: State, n: Network, kept: set<string>)
    requires Valid(s) && Clean(n) && PoolKey(n) !in s.pools
    requires Detaches(KeysOf(Installed(s, n).byUpstream, n.upstream), n, kept)
    ensures Valid(Drop(Installed(s, n), n.upstream, kept))
  {
    var mid := Installed(s, n);
    InstalledAgrees(s, n);
    InstallLeaksNothing(s, n);
    DropAgrees(mid, n.upstream, kept);
    RemovalLeaksNothing(mid, KeysOf(mid.byUpstream, n.upstream) - kept, Drop(mid, n.upstream, kept).byUpstream);
    DropKeepsOneIdentity(s, n, kept);
  }

  /** Detaching spares the new pool and every pool of another upstream. */
  lemma BuildSpares(s: State, n: Network, kept: set<string>)
    requires MapsAgree(s) && Clean(n) && PoolKey(n) !in s.pools
    requires Detaches(KeysOf(Installed(s, n).byUpstream, n.upstream), n, kept)
    ensures var pools := Drop(Installed(s, n), n.upstream, kept).pools;
            && PoolKey(n) in pools && pools[PoolKey(n)] == Pool(s.built, n)
            && forall k :: k in s.pools && s.pools[k].network.upstream != n.upstream ==>
                 k in pools && pools[k] == s.pools[k]
  {
    var mid := Installed(s, n);
    InstalledAgrees(s, n);
    DropAgrees(mid, n.upstream, kept);
    PrefixTestIsIdentity(n, n);
    assert PoolKey(n) in Siblings(KeysOf(mid.byUpstream, n.upstream), n);
  }

  /** After a request the maps agree, each upstream has one identity and at most four pools, and the
      pool just granted is in the map under its own configuration, so it was not evicted. */
  lemma RequestKeepsValid(s: State, n: Network, constructible: bool, after: State, answer: Answer)
    requires Valid(s) && Clean(n) && Requested(s, n, constructible, after, answer)
    ensures Valid(after)
    ensures answer.Granted? ==>
              answer.pool.network == n && PoolKey(n) in after.pools && after.pools[PoolKey(n)] == answer.pool
    ensures answer.Refused? <==> PoolKey(n) !in s.pools && !constructible
    ensures forall k :: k in s.pools && s.pools[k].network.upstream != n.upstream ==>
              k in after.pools && after.pools[k] == s.pools[k]
  {
    if PoolKey(n) in s.pools {
      KeyIsInjective(s.pools[PoolKey(n)].network, n);
    } else if constructible {
      var kept :| Detaches(KeysOf(Installed(s, n).byUpstream, n.upstream), n, kept)
                  && after == Drop(Installed(s, n), n.upstream, kept);
      BuildKeepsValid(s, n, kept);
      BuildSpares(s, n, kept);
    }
  }

  lemma KeptHaveIdentity(s: State, n: Network, kept: set<string>)
    requires MapsAgree(s) && Clean(n) && Detaches(KeysOf(s.byUpstream, n.upstream), n, kept)
    ensures forall k :: k in kept ==> k in s.pools && SameIdentity(s.pools[k].network, n)
  {
    forall k | k in kept ensures k in s.pools && SameIdentity(s.pools[k].network, n) {
      PrefixTestIsIdentity(n, s.pools[k].network);
    }
  }

  lemma InvalidateKeepsValid(s: State, upstream: int)
    requires Valid(s)
    ensures Valid(Invalidated(s, upstream))
    ensures forall k :: k in Invalidated(s, upstream).pools <==> k in s.pools && s.pools[k].network.upstream != upstream
  {
    RemovalLeaksNothing(s, KeysOf(s.byUpstream, upstream), s.byUpstream - {upstream});
  }

  datatype Call = Request(n: Network, constructible: bool, answer: Answer) | Invalidate(upstream: int)

  ghost predicate Called(s: State, call: Call, after: State) {
    match call
    case Request(n, constructible, answer) => Clean(n) && Requested(s, n, constructible, after, answer)
    case Invalidate(upstream) => after == Invalidated(s, upstream)
  }

  /** A run lists the state after each call; eviction order is free. */
  ghost predicate Runs(states: seq<State>, calls: seq<Call>) {
    && |states| == |calls| + 1 && states[0] == EMPTY
    && forall i :: 0 <= i < |calls| ==> Called(states[i], calls[i], states[i + 1])
  }

  lemma {:induction false} PoolsStayValid(states: seq<State>, calls: seq<Call>, i: nat)
    requires Runs(states, calls) && i <= |calls|
    ensures Valid(states[i])
  {
    if i > 0 {
      PoolsStayValid(states, calls, i - 1);
      CallKeepsValid(states[i - 1], calls[i - 1], states[i]);
    }
  }

  lemma CallKeepsValid(s: State, call: Call, after: State)
    requires Valid(s) && Called(s, call, after)
    ensures Valid(after)
  {
    match call
    case Request(n, constructible, answer) => RequestKeepsValid(s, n, constructible, after, answer);
    case Invalidate(upstream) => InvalidateKeepsValid(s, upstream);
  }

  /** Over every sequence of requests and invalidations the two maps describe the same keys, each
      upstream has one identity and at most four pools, and no pool is lost; and every granted pool
      is in the map after its request, under exactly the configuration asked for. */
  lemma PoolsStayBounded(states: seq<State>, calls: seq<Call>, i: nat)
    requires Runs(states, calls) && i < |calls|
    ensures var s := states[i + 1];
            && (forall k :: k in s.pools <==> exists u :: u in s.byUpstream && k in s.byUpstream[u])
            && OneIdentityEach(s) && FewEach(s) && NothingLeaks(s)
            && (calls[i].Request? && calls[i].answer.Granted? ==>
                  && calls[i].answer.pool.network == calls[i].n
                  && PoolKey(calls[i].n) in s.pools && s.pools[PoolKey(calls[i].n)] == calls[i].answer.pool)
  {
    PoolsStayValid(states, calls, i);
    PoolsStayValid(states, calls, i + 1);
    var s := states[i + 1];
    forall k | k in s.pools ensures exists u :: u in s.byUpstream && k in s.byUpstream[u] {
      assert k in s.byUpstream[s.pools[k].network.upstream];
    }
    if calls[i].Request? {
      RequestKeepsValid(states[i], calls[i].n, calls[i].constructible, s, calls[i].answer);
    }
  }

  // ---- The manager object ----

  /** Walking one more key settles where it belongs. */
  lemma WalkedSplit(start: set<string>, siblings: set<string>, todo: set<string>, key: string)
    requires key in todo && todo <= start && siblings <= start
    ensures siblings - (todo - {key}) == if key in siblings then siblings - todo + {key} else siblings - todo
    ensures start - siblings - (todo - {key}) ==
            if key in siblings then start - siblings - todo else start - siblings - todo + {key}
  {
  }

  class Manager {
    var pools: map<string, Pool>
    var byUpstream: map<int, set<string>>
    var built: nat
    var retired: set<Pool>

    ghost function View(): State
      reads this
    {
      State(pools, byUpstream, built, retired)
    }

    constructor ()
      ensures View() == EMPTY
    {
      pools, byUpstream, built, retired := map[], map[], 0, {};
    }

    /** Walks the keys of the upstream in any order, drops other identities, then surplus siblings. */
    method DetachStaleLocked(n: Network) returns (stale: set<Pool>)
      requires n.upstream in byUpstream
      modifies this`pools, this`byUpstream
      ensures n.upstream in byUpstream
      ensures Detaches(old(byUpstream)[n.upstream], n, byUpstream[n.upstream])
      ensures byUpstream == old(byUpstream)[n.upstream := byUpstream[n.upstream]]
      ensures pools == old(pools) - (old(byUpstream)[n.upstream] - byUpstream[n.upstream])
      ensures stale == Pooled(old(pools), old(byUpstream)[n.upstream] - byUpstream[n.upstream])
    {
      var start := byUpstream[n.upstream];
      var same, others := DetachOtherIdentities(n, start);
      var keys, surplus := DetachSurplus(n, same);
      byUpstream := byUpstream[n.upstream := keys];
      stale := others + surplus;
      PooledSplit(old(pools), start, Siblings(start, n), keys);
    }

    /** Removes one key, and its pool if it has one. */
    method Detach(key: string, stale: set<Pool>, ghost before: map<string, Pool>, ghost gone: set<string>)
      returns (more: set<Pool>)
      requires pools == before - gone && stale == Pooled(before, gone) && key !in gone
      modifies this`pools
      ensures pools == before - (gone + {key}) && more == Pooled(before, gone + {key})
    {
      PooledAdd(before, gone, key);
      more := stale;
      if key in pools {
        more := more + {pools[key]};
        pools := pools - {key};
      }
    }

    /** `same` collects the keys of this identity; the map walk gives them in no particular order. */
    method DetachOtherIdentities(n: Network, start: set<string>) returns (same: set<string>, stale: set<Pool>)
      modifies this`pools
      ensures same == Siblings(start, n)
      ensures pools == old(pools) - (start - same)
      ensures stale == Pooled(old(pools), start - same)
    {
      same, stale := {}, {};
      var todo := start;
      ghost var gone: set<string> := {};
      ghost var siblings := Siblings(start, n);
      while exists k :: k in todo
        invariant todo <= start && same == siblings - todo && gone == start - siblings - todo
        invariant pools == old(pools) - gone && stale == Pooled(old(pools), gone)
        decreases |todo|
      {
        var key :| key in todo;
        WalkedSplit(start, siblings, todo, key);
        todo := todo - {key};
        same, stale, gone := SortKey(n, key, same, stale, old(pools), siblings, gone);
      }
      assert start - same == gone;
    }

    /** One turn of the walk. */
    method SortKey(n: Network, key: string, same: set<string>, stale: set<Pool>,
                   ghost before: map<string, Pool>, ghost siblings: set<string>, ghost gone: set<string>)
      returns (same': set<string>, stale': set<Pool>, ghost gone': set<string>)
      requires HasPrefix(key, IdentityPrefix(n) + [NUL]) <==> key in siblings
      requires pools == before - gone && stale == Pooled(before, gone) && key !in gone
      modifies this`pools
      ensures same' == (if key in siblings then same + {key} else same)
      ensures gone' == (if key in siblings then gone else gone + {key})
      ensures pools == before - gone' && stale' == Pooled(before, gone')
    {
      same', stale', gone' := same, stale, gone;
      if HasPrefix(key, IdentityPrefix(n) + [NUL]) {
        same' := same + {key};
      } else {
        stale' := Detach(key, stale, before, gone);
        gone' := gone + {key};
      }
    }

    method DetachSurplus(n: Network, same: set<string>) returns (keys: set<string>, stale: set<Pool>)
      modifies this`pools
      ensures keys <= same && |keys| == (if |same| <= MAX_SIBLINGS then |same| else MAX_SIBLINGS)
      ensures PoolKey(n) in same ==> PoolKey(n) in keys
      ensures pools == old(pools) - (same - keys)
      ensures stale == Pooled(old(pools), same - keys)
    {
      keys, stale := same, {};
      var excess := |same| - MAX_SIBLINGS;
      ghost var gone: set<string> := {};
      if excess > 0 {
        var todo := same;
        while (exists k :: k in todo) && excess != 0
          invariant excess >= 0 && |keys| == MAX_SIBLINGS + excess
          invariant gone !! keys && gone + keys == same && todo <= keys
          invariant keys - todo <= {PoolKey(n)}
          invariant PoolKey(n) in same ==> PoolKey(n) in keys
          invariant pools == old(pools) - gone && stale == Pooled(old(pools), gone)
          decreases |todo|
        {
          var key :| key in todo;
          todo := todo - {key};
          if key != PoolKey(n) {
            stale := Detach(key, stale, old(pools), gone);
            gone := gone + {key};
            keys := keys - {key};
            excess := excess - 1;
          }
        }
        AtMostOne(keys, todo, PoolKey(n));
      }
      assert same - keys == gone;
    }

    method GetTransport(n: Network, constructible: bool) returns (answer: Answer)
      modifies this
      ensures Requested(old(View()), n, constructible, View(), answer)
      ensures Valid(old(View())) && Clean(n) ==> Valid(View())
    {
      answer := GetOrBuild(n, constructible);
      if Valid(old(View())) && Clean(n) {
        RequestKeepsValid(old(View()), n, constructible, View(), answer);
      }
    }

    method GetOrBuild(n: Network, constructible: bool) returns (answer: Answer)
      modifies this
      ensures Requested(old(View()), n, constructible, View(), answer)
    {
      var key := PoolKey(n);
      if key in pools {
        return Granted(pools[key]);
      }
      if !constructible {
        return Refused;
      }
      var pool := Pool(built, n);
      built := built + 1;
      pools := pools[key := pool];
      var keys := if n.upstream in byUpstream then byUpstream[n.upstream] else {};
      byUpstream := byUpstream[n.upstream := keys + {key}];
      ghost var mid := View();
      assert mid == Installed(old(View()), n);
      var stale := DetachStaleLocked(n);
      CloseIdle(stale);
      assert View() == Drop(mid, n.upstream, byUpstream[n.upstream]);
      return Granted(pool);
    }

    method CloseIdle(stale: set<Pool>)
      modifies this`retired
      ensures retired == old(retired) + stale
    {
      var todo := stale;
      while exists p :: p in todo
        invariant todo <= stale && retired == old(retired) + (stale - todo)
        decreases |todo|
      {
        var pool :| pool in todo;
        todo := todo - {pool};
        retired := retired + {pool};
      }
    }

    method InvalidateUpstream(upstream: int)
      modifies this
      ensures View() == Invalidated(old(View()), upstream)
      ensures Valid(old(View())) ==> Valid(View())
    {
      var keys := if upstream in byUpstream then byUpstream[upstream] else {};
      byUpstream := byUpstream - {upstream};
      var stale := DetachAll(keys);
      CloseIdle(stale);
      if Valid(old(View())) {
        InvalidateKeepsValid(old(View()), upstream);
      }
    }

    method DetachAll(keys: set<string>) returns (stale: set<Pool>)
      modifies this`pools
      ensures pools == old(pools) - keys && stale == Pooled(old(pools), keys)
    {
      stale := {};
      var todo := keys;
      ghost var gone: set<string> := {};
      while exists k :: k in todo
        invariant gone !! todo && gone + todo == keys
        invariant pools == old(pools) - gone && stale == Pooled(old(pools), gone)
        decreases |todo|
      {
        var key :| key in todo;
        todo := todo - {key};
        stale := Detach(key, stale, old(pools), gone);
        gone := gone + {key};
      }
      assert gone == keys;
    }
  }

  /** When everything that could go is gone, at most the requested key is left over. */
  lemma AtMostOne(keys: set<string>, rest: set<string>, current: string)
    ensures rest == {} && keys - rest <= {current} ==> |keys| <= 1
  {
    if rest == {} && keys - rest <= {current} {
      assert keys <= {current};
      assert keys == {} || keys == {current};
    }
  }

  lemma PooledAdd(pools: map<string, Pool>, gone: set<string>, key: string)
    ensures Pooled(pools, gone + {key}) == Pooled(pools, gone) + if key in pools then {pools[key]} else {}
  {
  }

  lemma PooledSplit(pools: map<string, Pool>, start: set<string>, same: set<string>, kept: set<string>)
    requires kept <= same <= start
    ensures pools - (start - same) - (same - kept) == pools - (start - kept)
    ensures Pooled(pools, start - kept) == Pooled(pools, start - same) + Pooled(pools - (start - same), same - kept)
  {
    var rest := pools - (start - same);
    forall p | p in Pooled(pools, start - kept)
      ensures p in Pooled(pools, start - same) + Pooled(rest, same - kept)
    {
      var k :| k in start - kept && k in pools && pools[k] == p;
      if k in same {
        assert k in same - kept && k in rest && rest[k] == p;
      } else {
        assert k in start - same;
      }
    }
    forall p | p in Pooled(pools, start - same) ensures p in Pooled(pools, start - kept) {
      var k :| k in start - same && k in pools && pools[k] == p;
      assert k in start - kept;
    }
    forall p | p in Pooled(rest, same - kept) ensures p in Pooled(pools, start - kept) {
      var k :| k in same - kept && k in rest && rest[k] == p;
      assert k in start - kept && k in pools && pools[k] == p;
    }
  }
}
