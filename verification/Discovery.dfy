/** The tool discovery cache: a fast unlocked check, a re-check under the lock, throttling, and a TTL. `discover` is cut
    at its awaits (lock, sleep, provider search), so any interleaving of concurrent calls is a sequence of events. */
module Discovery {
  import opened Prelude
  import opened Text

  /** A candidate list, known by the candidates' names. */
  type Candidates = seq<string>
  type CallId = int

  datatype Config = Config(ttl: Time, minInterval: Time)

  datatype Entry = Entry(candidates: Candidates, expiresAt: Time)

  /** Where a `discover` call stands. A search remembers when the cache was last checked and how often it had been
      cleared by then. */
  datatype Call =
    | Queued(capability: string)
    | Sleeping(capability: string, until: Time, check: Check)
    | Searching(capability: string, check: Check)
    | Returned(capability: string, candidates: Candidates)
    | Aborted(capability: string)

  datatype Check = Check(at: Time, clears: nat)

  /** The history that matters to the guarantees: searches started, and searches that ended well. */
  datatype Started = Started(call: CallId, key: string, at: Time, check: Check, ended: nat)
  datatype Ended = Ended(call: CallId, key: string, at: Time, clears: nat, candidates: Candidates)

  datatype Service = Service(
    now: Time,
    cache: map<string, Entry>,
    lastCall: Time,
    lock: Option<CallId>,
    calls: map<CallId, Call>,
    clears: nat,
    started: seq<Started>,
    ended: seq<Ended>)

  function Initial(now: Time): Service {
    Service(now, map[], 0, None, map[], 0, [], [])
  }

  datatype Event =
    | Tick(elapsed: nat)
    | Begin(call: CallId, capability: string)
    | Acquire(call: CallId)
    | Wake(call: CallId)
    | Found(call: CallId, candidates: Candidates)
    | Abort(call: CallId)
    | Clear

  predicate Fresh(s: Service, key: string) {
    key in s.cache && s.now < s.cache[key].expiresAt
  }

  function MinWait(cfg: Config, s: Service): Time {
    Max(0, cfg.minInterval - (s.now - s.lastCall))
  }

  function StartSearch(s: Service, c: CallId, capability: string, check: Check): Service {
    s.(lock := Some(c),
       calls := s.calls[c := Searching(capability, check)],
       started := s.started + [Started(c, Normalize(capability), s.now, check, |s.ended|)])
  }

  /** The effect of one event. An event whose call is not at the matching await changes nothing. */
  function Next(cfg: Config, s: Service, e: Event): Service {
    match e
    case Tick(elapsed) => s.(now := s.now + elapsed)
    case Begin(c, capability) =>
      if c in s.calls then s else s.(calls := s.calls[c := Began(s, capability)])
    case Acquire(c) =>
      if c !in s.calls || !s.calls[c].Queued? || s.lock.Some? then s
      else Acquired(cfg, s, c, s.calls[c].capability)
    case Wake(c) =>
      if c !in s.calls || !s.calls[c].Sleeping? || s.now < s.calls[c].until then s
      else StartSearch(s, c, s.calls[c].capability, s.calls[c].check)
    case Found(c, candidates) =>
      if c !in s.calls || !s.calls[c].Searching? then s
      else FoundBy(cfg, s, c, s.calls[c].capability, candidates)
    case Abort(c) =>
      if c !in s.calls || s.calls[c].Returned? || s.calls[c].Aborted? then s
      else s.(calls := s.calls[c := Call.Aborted(s.calls[c].capability)],
              lock := if s.calls[c].Queued? then s.lock else None)
    case Clear => s.(cache := map[], clears := s.clears + 1)
  }

  function Began(s: Service, capability: string): Call {
    var key := Normalize(capability);
    if key == "" then Returned(capability, [])
    else if Fresh(s, key) then Returned(capability, s.cache[key].candidates)
    else Queued(capability)
  }

  function Acquired(cfg: Config, s: Service, c: CallId, capability: string): Service {
    var key, check := Normalize(capability), Check(s.now, s.clears);
    if Fresh(s, key) then s.(calls := s.calls[c := Returned(capability, s.cache[key].candidates)])
    else if MinWait(cfg, s) > 0 then
      s.(lock := Some(c), calls := s.calls[c := Sleeping(capability, s.now + MinWait(cfg, s), check)])
    else StartSearch(s, c, capability, check)
  }

  function FoundBy(cfg: Config, s: Service, c: CallId, capability: string, candidates: Candidates): Service {
    var key := Normalize(capability);
    s.(lastCall := s.now,
       cache := s.cache[key := Entry(candidates, s.now + cfg.ttl)],
       lock := None,
       calls := s.calls[c := Returned(capability, candidates)],
       ended := s.ended + [Ended(c, key, s.now, s.clears, candidates)])
  }

  function Run(cfg: Config, s: Service, es: seq<Event>): Service {
    if es == [] then s else Next(cfg, Run(cfg, s, es[..|es| - 1]), es[|es| - 1])
  }

  // --- the service -------------------------------------------------------------------------------------------------

  class ToolDiscoveryService {
    const config: Config
    var cache: map<string, Entry>
    var lastProviderCallAt: Time
    var locked: bool

    // The suspended `discover` calls, the clock and the history.
    ghost var state: Service

    constructor (config: Config, ghost now: Time)
      ensures Valid() && this.config == config && state == Initial(now)
    {
      this.config := config;
      cache, lastProviderCallAt, locked := map[], 0, false;
      state := Initial(now);
    }

    ghost predicate Valid()
      reads this
    {
      state.cache == cache && state.lastCall == lastProviderCallAt && (locked <==> state.lock.Some?)
    }

    /** `discover` up to the first await. `now` is the monotonic clock. */
    method DiscoverBegin(c: CallId, capability: string, now: Time) returns (hit: Option<Candidates>)
      requires Valid() && c !in state.calls && now == state.now
      modifies this`state
      ensures Valid() && state == Next(config, old(state), Begin(c, capability))
      ensures state.calls[c] == if hit.Some? then Returned(capability, hit.value) else Queued(capability)
    {
      var key := Normalize(capability);
      if key == "" {
        hit := Some([]);
      } else if key in cache && cache[key].expiresAt > now {
        hit := Some(cache[key].candidates);
      } else {
        hit := None;
      }
      state := Next(config, state, Begin(c, capability));
    }

    /** The lock has just been acquired: the second check, and the time to sleep. */
    method DiscoverLocked(c: CallId, capability: string, now: Time) returns (hit: Option<Candidates>, wait: Time)
      requires Valid() && c in state.calls && state.calls[c] == Queued(capability) && now == state.now && !locked
      modifies this
      ensures Valid() && state == Next(config, old(state), Acquire(c))
      ensures hit.Some? ==> state.calls[c] == Returned(capability, hit.value) && !locked
      ensures hit.None? && wait > 0 ==> state.calls[c].Sleeping? && state.calls[c].until == now + wait
      ensures hit.None? && wait <= 0 ==> state.calls[c].Searching?
    {
      var key := Normalize(capability);
      hit, wait := None, 0;
      if key in cache && cache[key].expiresAt > now {
        hit := Some(cache[key].candidates);
      } else {
        locked := true;
        wait := MinWaitSeconds(now);
      }
      state := Next(config, state, Acquire(c));
    }

    method MinWaitSeconds(now: Time) returns (wait: Time)
      requires state.lastCall == lastProviderCallAt && now == state.now
      ensures wait == MinWait(config, state)
    {
      var elapsed := now - lastProviderCallAt;
      var remaining := config.minInterval - elapsed;
      wait := if remaining > 0 then remaining else 0;
    }

    /** The sleep is over; the provider is called next. */
    ghost method DiscoverWake(c: CallId)
      requires Valid() && c in state.calls && state.calls[c].Sleeping? && state.calls[c].until <= state.now
      requires state.lock == Some(c)
      modifies this`state
      ensures Valid() && state == Next(config, old(state), Wake(c))
    {
      state := Next(config, state, Wake(c));
    }

    /** The provider returned. */
    method DiscoverFound(c: CallId, capability: string, candidates: Candidates, now: Time)
      requires Valid() && c in state.calls && state.calls[c].Searching? && state.calls[c].capability == capability
      requires now == state.now
      modifies this
      ensures Valid() && state == Next(config, old(state), Found(c, candidates))
    {
      lastProviderCallAt := now;
      cache := cache[Normalize(capability) := Entry(candidates, lastProviderCallAt + config.ttl)];
      locked := false;
      state := Next(config, state, Found(c, candidates));
    }

    /** An exception or a cancellation ends the call; leaving the `async with` block frees the lock. */
    method DiscoverAborts(c: CallId, holdsLock: bool)
      requires Valid() && c in state.calls && !state.calls[c].Returned? && !state.calls[c].Aborted?
      requires holdsLock <==> !state.calls[c].Queued?
      modifies this
      ensures Valid() && state == Next(config, old(state), Abort(c))
    {
      if holdsLock {
        locked := false;
      }
      state := Next(config, state, Abort(c));
    }

    method ClearCache()
      requires Valid()
      modifies this
      ensures Valid() && state == Next(config, old(state), Clear)
    {
      cache := map[];
      state := Next(config, state, Clear);
    }

    ghost method TimePasses(elapsed: nat)
      requires Valid()
      modifies this`state
      ensures Valid() && state == Next(config, old(state), Tick(elapsed))
    {
      state := Next(config, state, Tick(elapsed));
    }
  }

  // --- spacing of provider searches --------------------------------------------------------------------------------

  /** A check at `check` entitles to search `key` again after the search that ended as `e`: a full TTL had passed, or
      the cache had been cleared in between. */
  predicate Separated(cfg: Config, e: Ended, key: string, check: Check) {
    e.key == key ==> e.clears < check.clears || e.at + cfg.ttl <= check.at
  }

  predicate SeparatedFromAll(cfg: Config, ended: seq<Ended>, n: nat, key: string, check: Check)
    requires n <= |ended|
  {
    forall i :: 0 <= i < n ==> Separated(cfg, ended[i], key, check)
  }

  function LastEnd(ended: seq<Ended>, n: nat): Time
    requires n <= |ended|
  {
    if n == 0 then 0 else ended[n - 1].at
  }

  predicate WellSpaced(cfg: Config, s: Service, st: Started) {
    && st.ended <= |s.ended|
    && SeparatedFromAll(cfg, s.ended, st.ended, st.key, st.check)
    && st.check.at <= st.at
    && LastEnd(s.ended, st.ended) + cfg.minInterval <= st.at
  }

  predicate Holding(call: Call) {
    call.Sleeping? || call.Searching?
  }

  /** An ended search is still remembered by the cache, unless the cache was cleared since. */
  predicate Remembered(cfg: Config, s: Service, e: Ended) {
    && e.clears <= s.clears
    && (e.clears == s.clears ==> e.key in s.cache && e.at + cfg.ttl <= s.cache[e.key].expiresAt)
    && e.at <= s.now
  }

  ghost predicate Inv(cfg: Config, s: Service) {
    && (forall c :: c in s.calls && Holding(s.calls[c]) ==> s.lock == Some(c))
    && (forall c :: c in s.calls && s.calls[c].Sleeping? ==>
          && SeparatedFromAll(cfg, s.ended, |s.ended|, Normalize(s.calls[c].capability), s.calls[c].check)
          && s.calls[c].check.at <= s.now
          && s.lastCall + cfg.minInterval <= s.calls[c].until)
    && (forall i :: 0 <= i < |s.started| ==> WellSpaced(cfg, s, s.started[i]))
    && (forall i :: 0 <= i < |s.ended| ==> Remembered(cfg, s, s.ended[i]))
    && s.lastCall == LastEnd(s.ended, |s.ended|)
  }

  lemma MissSeparates(cfg: Config, s: Service, key: string)
    requires Inv(cfg, s) && !Fresh(s, key)
    ensures SeparatedFromAll(cfg, s.ended, |s.ended|, key, Check(s.now, s.clears))
  {
    forall i | 0 <= i < |s.ended|
      ensures Separated(cfg, s.ended[i], key, Check(s.now, s.clears))
    {
      assert Remembered(cfg, s, s.ended[i]);
    }
  }

  lemma StartSearchInv(cfg: Config, s: Service, c: CallId, capability: string, check: Check)
    requires Inv(cfg, s) && (s.lock.None? || s.lock == Some(c))
    requires SeparatedFromAll(cfg, s.ended, |s.ended|, Normalize(capability), check)
    requires check.at <= s.now && s.lastCall + cfg.minInterval <= s.now
    ensures Inv(cfg, StartSearch(s, c, capability, check))
  {
    hide Normalize;
    var s' := StartSearch(s, c, capability, check);
    assert WellSpaced(cfg, s', s'.started[|s.started|]);
    forall i | 0 <= i < |s.started|
      ensures WellSpaced(cfg, s', s'.started[i])
    {
      assert WellSpaced(cfg, s, s.started[i]);
    }
    forall i | 0 <= i < |s.ended|
      ensures Remembered(cfg, s', s'.ended[i])
    {
      assert Remembered(cfg, s, s.ended[i]);
    }
  }

  lemma AcquireInv(cfg: Config, s: Service, c: CallId)
    requires Inv(cfg, s) && c in s.calls && s.calls[c].Queued? && s.lock.None?
    ensures Inv(cfg, Next(cfg, s, Acquire(c)))
  {
    var capability := s.calls[c].capability;
    if !Fresh(s, Normalize(capability)) {
      MissSeparates(cfg, s, Normalize(capability));
      if MinWait(cfg, s) <= 0 {
        StartSearchInv(cfg, s, c, capability, Check(s.now, s.clears));
      }
    }
    hide Normalize, StartSearch;
    SameHistory(cfg, s, Next(cfg, s, Acquire(c)));
  }

  /** Steps that touch neither the history nor the cache keep the history clauses. */
  lemma SameHistory(cfg: Config, s: Service, s': Service)
    requires Inv(cfg, s)
    ensures s'.(calls := s.calls, lock := s.lock, now := s.now) == s && s.now <= s'.now ==>
              && (forall i :: 0 <= i < |s'.started| ==> WellSpaced(cfg, s', s'.started[i]))
              && (forall i :: 0 <= i < |s'.ended| ==> Remembered(cfg, s', s'.ended[i]))
              && s'.lastCall == LastEnd(s'.ended, |s'.ended|)
  {
    if s'.(calls := s.calls, lock := s.lock, now := s.now) == s && s.now <= s'.now {
      forall i | 0 <= i < |s'.started|
        ensures WellSpaced(cfg, s', s'.started[i])
      {
        assert WellSpaced(cfg, s, s.started[i]);
      }
      forall i | 0 <= i < |s'.ended|
        ensures Remembered(cfg, s', s'.ended[i])
      {
        assert Remembered(cfg, s, s.ended[i]);
      }
    }
  }

  lemma FoundInv(cfg: Config, s: Service, c: CallId, candidates: Candidates)
    requires Inv(cfg, s) && c in s.calls && s.calls[c].Searching?
    ensures Inv(cfg, Next(cfg, s, Found(c, candidates)))
  {
    hide Normalize;
    var s' := Next(cfg, s, Found(c, candidates));
    assert s.lock == Some(c);
    forall i | 0 <= i < |s'.started|
      ensures WellSpaced(cfg, s', s'.started[i])
    {
      assert WellSpaced(cfg, s, s.started[i]);
      assert forall j :: 0 <= j < |s.ended| ==> s'.ended[j] == s.ended[j];
    }
    forall i | 0 <= i < |s'.ended|
      ensures Remembered(cfg, s', s'.ended[i])
    {
      if i < |s.ended| {
        assert Remembered(cfg, s, s.ended[i]);
      }
    }
  }

  lemma ClearInv(cfg: Config, s: Service)
    requires Inv(cfg, s)
    ensures Inv(cfg, Next(cfg, s, Clear))
  {
    var s' := Next(cfg, s, Clear);
    forall i | 0 <= i < |s'.started|
      ensures WellSpaced(cfg, s', s'.started[i])
    {
      assert WellSpaced(cfg, s, s.started[i]);
    }
    forall i | 0 <= i < |s'.ended|
      ensures Remembered(cfg, s', s'.ended[i])
    {
      assert Remembered(cfg, s, s.ended[i]);
    }
  }

  lemma NextInv(cfg: Config, s: Service, e: Event)
    requires Inv(cfg, s)
    ensures Inv(cfg, Next(cfg, s, e))
  {
    hide Normalize, StartSearch, Acquired, FoundBy, WellSpaced, Remembered, SeparatedFromAll, LastEnd, Fresh;
    var s' := Next(cfg, s, e);
    match e
    case Acquire(c) =>
      if c in s.calls && s.calls[c].Queued? && s.lock.None? {
        AcquireInv(cfg, s, c);
      }
    case Wake(c) =>
      if c in s.calls && s.calls[c].Sleeping? && s.calls[c].until <= s.now {
        StartSearchInv(cfg, s, c, s.calls[c].capability, s.calls[c].check);
      }
    case Found(c, candidates) =>
      if c in s.calls && s.calls[c].Searching? {
        FoundInv(cfg, s, c, candidates);
      }
    case Clear => ClearInv(cfg, s);
    case _ => SameHistory(cfg, s, s');
  }

  // The log of searches.

  /** Entry `k` of the ended searches is the end of search `i`, and no later search began before it. */
  predicate EndOf(s: Service, i: nat, k: nat) {
    && i < |s.started| && k < |s.ended|
    && s.ended[k].call == s.started[i].call && s.ended[k].key == s.started[i].key && s.started[i].at <= s.ended[k].at
    && forall j :: i < j < |s.started| ==> k < s.started[j].ended
  }

  /** A search is under way, aborted or answered. Only the last can be under way, and an answered one has its end on
      record. */
  ghost predicate LogEntry(s: Service, i: nat)
    requires i < |s.started|
  {
    var c := s.started[i].call;
    && c in s.calls && s.started[i].at <= s.now
    && (s.calls[c].Searching? || s.calls[c].Aborted? || s.calls[c].Returned?)
    && s.started[i].key == Normalize(s.calls[c].capability)
    && (s.calls[c].Searching? ==> i == |s.started| - 1)
    && (s.calls[c].Returned? ==> exists k: nat :: EndOf(s, i, k))
  }

  ghost predicate Log(s: Service) {
    && (forall i :: 0 <= i < |s.started| ==> LogEntry(s, i))
    && (forall k :: 0 <= k < |s.ended| ==> s.ended[k].at <= s.now)
    && (forall k, l :: 0 <= k < l < |s.ended| ==> s.ended[k].at <= s.ended[l].at)
  }

  lemma LogKept(s: Service, s': Service, i: nat)
    requires i < |s.started| && LogEntry(s, i)
    requires s'.started == s.started && s.ended <= s'.ended && s.now <= s'.now
    requires s.started[i].call in s'.calls && s'.calls[s.started[i].call] == s.calls[s.started[i].call]
    ensures LogEntry(s', i)
  {
    hide Normalize;
    var c := s.started[i].call;
    if s.calls[c].Returned? {
      var k: nat :| EndOf(s, i, k);
      assert EndOf(s', i, k);
    }
  }

  lemma OneAtATime(cfg: Config, s: Service, c: CallId, d: CallId)
    requires Inv(cfg, s) && (s.lock.None? || s.lock == Some(c)) && d in s.calls
    requires c in s.calls && (s.calls[c].Queued? || s.calls[c].Sleeping?)
    ensures !s.calls[d].Searching?
  {
    assert Holding(s.calls[d]) ==> s.lock == Some(d);
  }

  lemma StartSearchLog(cfg: Config, s: Service, c: CallId, capability: string, check: Check)
    requires Inv(cfg, s) && Log(s) && (s.lock.None? || s.lock == Some(c))
    requires c in s.calls && (s.calls[c].Queued? || s.calls[c].Sleeping?)
    ensures Log(StartSearch(s, c, capability, check))
  {
    hide Normalize, WellSpaced, Remembered, SeparatedFromAll, LastEnd;
    var s' := StartSearch(s, c, capability, check);
    forall i | 0 <= i < |s'.started|
      ensures LogEntry(s', i)
    {
      if i < |s.started| {
        assert LogEntry(s, i);
        var d := s.started[i].call;
        OneAtATime(cfg, s, c, d);
        if s.calls[d].Returned? {
          var k: nat :| EndOf(s, i, k);
          assert EndOf(s', i, k);
        }
      }
    }
  }

  lemma AbortLog(cfg: Config, s: Service, c: CallId)
    requires Log(s) && c in s.calls && !s.calls[c].Returned? && !s.calls[c].Aborted?
    ensures Log(Next(cfg, s, Abort(c)))
  {
    hide Normalize;
    var s' := Next(cfg, s, Abort(c));
    forall i | 0 <= i < |s'.started|
      ensures LogEntry(s', i)
    {
      assert LogEntry(s, i);
      if s.started[i].call != c {
        LogKept(s, s', i);
      }
    }
  }

  lemma FoundLog(cfg: Config, s: Service, c: CallId, candidates: Candidates)
    requires Log(s) && c in s.calls && s.calls[c].Searching?
    ensures Log(Next(cfg, s, Found(c, candidates)))
  {
    hide Normalize;
    var s' := Next(cfg, s, Found(c, candidates));
    forall i | 0 <= i < |s'.started|
      ensures LogEntry(s', i)
    {
      assert LogEntry(s, i);
      if s.started[i].call == c {
        assert EndOf(s', i, |s.ended|);
      } else {
        LogKept(s, s', i);
      }
    }
  }

  lemma OtherLog(s: Service, s': Service)
    requires Log(s) && s'.started == s.started && s'.ended == s.ended && s.now <= s'.now
    requires forall c :: c in s.calls && !s.calls[c].Queued? ==> c in s'.calls && s'.calls[c] == s.calls[c]
    ensures Log(s')
  {
    forall i | 0 <= i < |s'.started|
      ensures LogEntry(s', i)
    {
      assert LogEntry(s, i);
      LogKept(s, s', i);
    }
  }

  lemma NextLog(cfg: Config, s: Service, e: Event)
    requires Inv(cfg, s) && Log(s)
    ensures Log(Next(cfg, s, e))
  {
    hide Normalize, StartSearch, Inv, Fresh, LogEntry, Log, FoundBy, MinWait;
    var s' := Next(cfg, s, e);
    match e
    case Acquire(c) =>
      if c in s.calls && s.calls[c].Queued? && s.lock.None? {
        var capability := s.calls[c].capability;
        if !Fresh(s, Normalize(capability)) && MinWait(cfg, s) <= 0 {
          StartSearchLog(cfg, s, c, capability, Check(s.now, s.clears));
        } else {
          OtherLog(s, s');
        }
      }
    case Wake(c) =>
      if c in s.calls && s.calls[c].Sleeping? && s.calls[c].until <= s.now {
        assert s.lock == Some(c) by { HolderIs(cfg, s, c); }
        StartSearchLog(cfg, s, c, s.calls[c].capability, s.calls[c].check);
      }
    case Found(c, candidates) =>
      if c in s.calls && s.calls[c].Searching? {
        FoundLog(cfg, s, c, candidates);
      }
    case Abort(c) =>
      if c in s.calls && !s.calls[c].Returned? && !s.calls[c].Aborted? {
        AbortLog(cfg, s, c);
      }
    case _ => OtherLog(s, s');
  }

  lemma HolderIs(cfg: Config, s: Service, c: CallId)
    requires Inv(cfg, s) && c in s.calls && s.calls[c].Sleeping?
    ensures s.lock == Some(c)
  {
  }

  lemma {:induction false} RunInv(cfg: Config, now: Time, es: seq<Event>)
    ensures Inv(cfg, Run(cfg, Initial(now), es)) && Log(Run(cfg, Initial(now), es))
  {
    hide Next, Inv, Log;
    if es != [] {
      var init := es[..|es| - 1];
      RunInv(cfg, now, init);
      NextInv(cfg, Run(cfg, Initial(now), init), es[|es| - 1]);
      NextLog(cfg, Run(cfg, Initial(now), init), es[|es| - 1]);
    } else {
      StartsSound(cfg, now);
    }
  }

  lemma StartsSound(cfg: Config, now: Time)
    ensures Inv(cfg, Initial(now)) && Log(Initial(now))
  {
  }

  /** What lies between two searches, `i` before `j`: `i` was aborted, or it was answered at some end `k` and the
      minimum interval has passed since; and if both are for the same key, a full TTL has passed too, or the cache was
      cleared. */
  ghost predicate Spaced(cfg: Config, s: Service, i: nat, j: nat) {
    i < j < |s.started| ==>
      && s.started[i].call in s.calls
      && (|| s.calls[s.started[i].call].Aborted?
          || exists k: nat :: EndOf(s, i, k)
               && s.ended[k].at + cfg.minInterval <= s.started[j].at
               && (s.started[i].key == s.started[j].key ==>
                     s.ended[k].clears < s.started[j].check.clears || s.ended[k].at + cfg.ttl <= s.started[j].at))
  }

  lemma PairSpaced(cfg: Config, s: Service, i: nat, j: nat)
    requires Inv(cfg, s) && Log(s) && i < j < |s.started|
    ensures Spaced(cfg, s, i, j)
  {
    hide Normalize, Remembered;
    assert LogEntry(s, i);
    assert WellSpaced(cfg, s, s.started[j]);
    if !s.calls[s.started[i].call].Aborted? {
      assert s.calls[s.started[i].call].Returned?;
      var k: nat :| EndOf(s, i, k);
      var n := s.started[j].ended;
      assert k < n;
      assert s.ended[k].at <= s.ended[n - 1].at;
      assert Separated(cfg, s.ended[k], s.started[j].key, s.started[j].check);
    }
  }

  /** In every interleaving: of two searches the later starts at least the minimum interval after the earlier ended, and
      for the same key a full TTL after it ended or after a clearing of the cache, unless the earlier one was aborted.
      At most one call sleeps or searches at a time. */
  lemma SearchesAreSpaced(cfg: Config, now: Time, es: seq<Event>)
    ensures var s := Run(cfg, Initial(now), es);
            && (forall i: nat, j: nat :: Spaced(cfg, s, i, j))
            && (forall c, d :: c in s.calls && d in s.calls && Holding(s.calls[c]) && Holding(s.calls[d]) ==> c == d)
  {
    hide Run, Log, Inv, Spaced;
    RunInv(cfg, now, es);
    var s := Run(cfg, Initial(now), es);
    EveryPair(cfg, s);
    OneHolds(cfg, s);
  }

  lemma EveryPair(cfg: Config, s: Service)
    requires Inv(cfg, s) && Log(s)
    ensures forall i: nat, j: nat :: Spaced(cfg, s, i, j)
  {
    hide Log, Inv;
    forall i: nat, j: nat
      ensures Spaced(cfg, s, i, j)
    {
      if i < j < |s.started| {
        PairSpaced(cfg, s, i, j);
      }
    }
  }

  lemma OneHolds(cfg: Config, s: Service)
    requires Inv(cfg, s)
    ensures forall c, d :: c in s.calls && d in s.calls && Holding(s.calls[c]) && Holding(s.calls[d]) ==> c == d
  {
  }

  lemma RunMore(cfg: Config, s: Service, es: seq<Event>, e: Event)
    ensures Run(cfg, s, es + [e]) == Next(cfg, Run(cfg, s, es), e)
  {
    assert (es + [e])[..|es|] == es;
  }

  /** From the start to the first search for `x`. */
  lemma FirstSearch(cfg: Config, now: Time, x: string) returns (es: seq<Event>)
    requires Normalize(x) != ""
    ensures var s := Run(cfg, Initial(now), es);
            && s.calls == map[0 := Searching(x, Check(now, 0))] && s.lock == Some(0) && s.cache == map[]
            && s.lastCall == 0
            && s.clears == 0 && s.ended == [] && s.started == [Started(0, Normalize(x), s.now, Check(now, 0), 0)]
            && cfg.minInterval - s.now <= 0
    ensures forall e :: e in es ==> !e.Found?
  {
    hide Normalize, Next;
    var wait := MinWait(cfg, Initial(now));
    es := [Begin(0, x), Acquire(0), Tick(wait), Wake(0)];
    RunFour(cfg, Initial(now), Begin(0, x), Acquire(0), Tick(wait), Wake(0));
    FirstSteps(cfg, now, x);
  }

  lemma RunFour(cfg: Config, s: Service, a: Event, b: Event, c: Event, d: Event)
    ensures Run(cfg, s, [a, b, c, d]) == Next(cfg, Next(cfg, Next(cfg, Next(cfg, s, a), b), c), d)
  {
    hide Next, Run;
    RunNone(cfg, s);
    RunMore(cfg, s, [], a);
    RunMore(cfg, s, [a], b);
    RunMore(cfg, s, [a, b], c);
    RunMore(cfg, s, [a, b, c], d);
    assert [] + [a] == [a];
    assert [a] + [b] == [a, b];
    assert [a, b] + [c] == [a, b, c];
    assert [a, b, c] + [d] == [a, b, c, d];
  }

  lemma RunNone(cfg: Config, s: Service)
    ensures Run(cfg, s, []) == s
  {
  }

  lemma FirstSteps(cfg: Config, now: Time, x: string)
    requires Normalize(x) != ""
    ensures var wait := MinWait(cfg, Initial(now));
            var s2 := Next(cfg, Next(cfg, Initial(now), Begin(0, x)), Acquire(0));
            var s := Next(cfg, Next(cfg, s2, Tick(wait)), Wake(0));
            && s.calls == map[0 := Searching(x, Check(now, 0))] && s.lock == Some(0) && s.cache == map[]
            && s.lastCall == 0
            && s.clears == 0 && s.ended == [] && s.started == [Started(0, Normalize(x), s.now, Check(now, 0), 0)]
            && cfg.minInterval - s.now <= 0
  {
    hide Normalize;
  }

  /** An aborted search may be repeated at once, whatever the configuration: neither the cache nor the throttle has
      noticed it. */
  lemma AbortedSearchRepeats(cfg: Config, now: Time, x: string) returns (es: seq<Event>)
    requires Normalize(x) != ""
    ensures var s := Run(cfg, Initial(now), es);
            && |s.started| == 2 && s.started[0].key == s.started[1].key == Normalize(x)
            && s.started[0].at == s.started[1].at && 0 in s.calls && s.calls[0].Aborted?
  {
    var s0 := Initial(now);
    es := FirstSearch(cfg, now, x);
    hide Normalize;
    RunMore(cfg, s0, es, Abort(0));
    es := es + [Abort(0)];
    RunMore(cfg, s0, es, Begin(1, x));
    es := es + [Begin(1, x)];
    RunMore(cfg, s0, es, Acquire(1));
    es := es + [Acquire(1)];
  }

  /** After a clearing the key is searched again as soon as the throttle allows, however long the TTL. */
  lemma ClearedSearchRepeats(cfg: Config, now: Time, x: string, candidates: Candidates) returns (es: seq<Event>)
    requires Normalize(x) != ""
    ensures var s := Run(cfg, Initial(now), es);
            && |s.started| == 2 && s.started[0].key == s.started[1].key == Normalize(x)
            && s.started[1].at == s.started[0].at + Max(0, cfg.minInterval) && 0 in s.calls && s.calls[0].Returned?
  {
    var s0 := Initial(now);
    es := FirstSearch(cfg, now, x);
    var s4 := Run(cfg, s0, es);
    RunMore(cfg, s0, es, Found(0, candidates));
    RunMore(cfg, s0, es + [Found(0, candidates)], Clear);
    es := es + [Found(0, candidates)] + [Clear];
    AfterClearing(cfg, s4, x, candidates);
    var s6 := Run(cfg, s0, es);
    hide Next;
    RunMore(cfg, s0, es, Begin(1, x));
    es := es + [Begin(1, x)];
    RunMore(cfg, s0, es, Acquire(1));
    es := es + [Acquire(1)];
    RunMore(cfg, s0, es, Tick(Max(0, cfg.minInterval)));
    es := es + [Tick(Max(0, cfg.minInterval))];
    RunMore(cfg, s0, es, Wake(1));
    es := es + [Wake(1)];
    SearchAgain(cfg, s6, x);
  }

  lemma AfterClearing(cfg: Config, s: Service, x: string, candidates: Candidates)
    requires s.calls.Keys == {0} && s.calls[0].Searching? && s.calls[0].capability == x
    ensures var s' := Next(cfg, Next(cfg, s, Found(0, candidates)), Clear);
            && s'.cache == map[] && s'.lock == None && s'.lastCall == s'.now == s.now && s'.started == s.started
            && s'.calls == map[0 := Returned(x, candidates)]
  {
    hide Normalize;
  }

  lemma SearchAgain(cfg: Config, s: Service, x: string)
    requires Normalize(x) != "" && s.cache == map[] && s.lock == None && s.lastCall == s.now && |s.started| == 1
    requires 1 !in s.calls && 0 in s.calls && s.calls[0].Returned?
    ensures var s1 := Next(cfg, Next(cfg, s, Begin(1, x)), Acquire(1));
            var end := Next(cfg, Next(cfg, s1, Tick(Max(0, cfg.minInterval))), Wake(1));
            && |end.started| == 2 && end.started[0] == s.started[0] && end.started[1].key == Normalize(x)
            && end.started[1].at == s.now + Max(0, cfg.minInterval) && 0 in end.calls && end.calls[0].Returned?
  {
    hide Normalize;
  }

  // --- what the cache answers --------------------------------------------------------------------------------------

  /** The latest search of the key that ended since the cache was last cleared. */
  predicate LatestEnd(s: Service, key: string, k: nat) {
    && k < |s.ended| && s.ended[k].key == key && s.ended[k].clears == s.clears
    && forall l :: k < l < |s.ended| ==> s.ended[l].key != key
  }

  /** The cache holds for each key what its latest search found, for a full TTL after its end, and nothing else. */
  ghost predicate CacheLogged(cfg: Config, s: Service) {
    && (forall key :: key in s.cache ==> EntryLogged(cfg, s, key))
    && (forall k: nat :: k < |s.ended| && s.ended[k].clears == s.clears ==> s.ended[k].key in s.cache)
    && (forall k: nat :: k < |s.ended| ==> s.ended[k].clears <= s.clears)
  }

  /** The entry of a key tells where it comes from. */
  ghost predicate EntryLogged(cfg: Config, s: Service, key: string)
    requires key in s.cache
  {
    exists k: nat :: LatestEnd(s, key, k) && s.cache[key] == Entry(s.ended[k].candidates, s.ended[k].at + cfg.ttl)
  }

  lemma FoundCacheLogged(cfg: Config, s: Service, c: CallId, capability: string, candidates: Candidates)
    requires CacheLogged(cfg, s)
    ensures CacheLogged(cfg, FoundBy(cfg, s, c, capability, candidates))
  {
    hide Normalize;
    var s' := FoundBy(cfg, s, c, capability, candidates);
    forall key | key in s'.cache
      ensures EntryLogged(cfg, s', key)
    {
      if key == Normalize(capability) {
        assert LatestEnd(s', key, |s.ended|);
      } else {
        var k: nat :| LatestEnd(s, key, k) && s.cache[key] == Entry(s.ended[k].candidates, s.ended[k].at + cfg.ttl);
        assert LatestEnd(s', key, k);
      }
    }
  }

  lemma SameCacheLogged(cfg: Config, s: Service, s': Service)
    requires CacheLogged(cfg, s) && s'.cache == s.cache && s'.ended == s.ended && s'.clears == s.clears
    ensures CacheLogged(cfg, s')
  {
    forall key | key in s'.cache
      ensures EntryLogged(cfg, s', key)
    {
      var k: nat :| LatestEnd(s, key, k) && s.cache[key] == Entry(s.ended[k].candidates, s.ended[k].at + cfg.ttl);
      assert LatestEnd(s', key, k);
    }
  }

  lemma NextCacheLogged(cfg: Config, s: Service, e: Event)
    requires CacheLogged(cfg, s)
    ensures CacheLogged(cfg, Next(cfg, s, e))
  {
    var s' := Next(cfg, s, e);
    hide Normalize, MinWait, FoundBy, CacheLogged, Fresh;
    if e.Found? && e.call in s.calls && s.calls[e.call].Searching? {
      FoundCacheLogged(cfg, s, e.call, s.calls[e.call].capability, e.candidates);
    } else if e.Clear? {
      ClearedLogged(cfg, s);
    } else {
      SameCacheLogged(cfg, s, s');
    }
  }

  lemma ClearedLogged(cfg: Config, s: Service)
    requires CacheLogged(cfg, s)
    ensures CacheLogged(cfg, Next(cfg, s, Clear))
  {
  }

  lemma {:induction false} RunCacheLogged(cfg: Config, now: Time, es: seq<Event>)
    ensures CacheLogged(cfg, Run(cfg, Initial(now), es))
  {
    hide Next, CacheLogged;
    if es == [] {
      NothingLogged(cfg, now);
    } else {
      RunCacheLogged(cfg, now, es[..|es| - 1]);
      NextCacheLogged(cfg, Run(cfg, Initial(now), es[..|es| - 1]), es[|es| - 1]);
    }
  }

  lemma NothingLogged(cfg: Config, now: Time)
    ensures CacheLogged(cfg, Initial(now))
  {
  }

  /** A search of the key, the latest since the last clearing, ended less than a TTL ago and found these candidates. */
  ghost predicate FoundLately(cfg: Config, s: Service, key: string, candidates: Candidates) {
    exists k: nat :: LatestEnd(s, key, k) && s.now < s.ended[k].at + cfg.ttl && s.ended[k].candidates == candidates
  }

  lemma FreshExactly(cfg: Config, s: Service, key: string)
    requires CacheLogged(cfg, s)
    ensures Fresh(s, key) <==> exists k: nat :: LatestEnd(s, key, k) && s.now < s.ended[k].at + cfg.ttl
    ensures Fresh(s, key) ==> FoundLately(cfg, s, key, s.cache[key].candidates)
  {
    if key in s.cache {
      var k: nat :| LatestEnd(s, key, k) && s.cache[key] == Entry(s.ended[k].candidates, s.ended[k].at + cfg.ttl);
      forall l: nat | LatestEnd(s, key, l)
        ensures l == k
      {
      }
    }
  }

  /** In every run a call is answered from the cache, at once or when it gets the lock, exactly if a search of its key
      ended less than a TTL ago and the cache was not cleared since; and the answer is what the latest of these searches
      found. A blank capability is answered with nothing; every other call queues, and then sleeps or searches. */
  lemma HitsExactly(cfg: Config, now: Time, es: seq<Event>, c: CallId, capability: string)
    ensures var s, key := Run(cfg, Initial(now), es), Normalize(capability);
            && (c !in s.calls ==>
                  var after := Next(cfg, s, Begin(c, capability));
                  && c in after.calls
                  && (key == "" ==> after.calls[c] == Returned(capability, []))
                  && (key != "" ==>
                        && (after.calls[c].Returned? <==>
                              exists k: nat :: LatestEnd(s, key, k) && s.now < s.ended[k].at + cfg.ttl)
                        && (after.calls[c].Returned? ==> FoundLately(cfg, s, key, after.calls[c].candidates))
                        && (!after.calls[c].Returned? ==> after.calls[c] == Queued(capability))))
            && (c in s.calls && s.calls[c] == Queued(capability) && s.lock.None? ==>
                  var after := Next(cfg, s, Acquire(c));
                  && c in after.calls
                  && (after.calls[c].Returned? <==>
                        exists k: nat :: LatestEnd(s, key, k) && s.now < s.ended[k].at + cfg.ttl)
                  && (after.calls[c].Returned? ==> FoundLately(cfg, s, key, after.calls[c].candidates))
                  && (!after.calls[c].Returned? ==> after.lock == Some(c) && Holding(after.calls[c])))
  {
    hide Run, CacheLogged, Normalize, LatestEnd, MinWait;
    RunCacheLogged(cfg, now, es);
    FreshExactly(cfg, Run(cfg, Initial(now), es), Normalize(capability));
  }

  // --- transparency ------------------------------------------------------------------------------------------------

  type Provider = string -> Candidates

  ghost predicate RespectsKeys(provider: Provider) {
    forall x, y :: Normalize(x) == Normalize(y) != "" ==> provider(x) == provider(y)
  }

  /** What `discover` should return: a direct search, or nothing for a blank capability. */
  function Direct(provider: Provider, capability: string): Candidates {
    if Normalize(capability) == "" then [] else provider(capability)
  }

  predicate Transparent(provider: Provider, s: Service) {
    forall c :: c in s.calls && s.calls[c].Returned? ==>
      s.calls[c].candidates == Direct(provider, s.calls[c].capability)
  }

  /** Every search in the run is answered by the provider. */
  predicate Answers(provider: Provider, s: Service, e: Event) {
    e.Found? && e.call in s.calls && s.calls[e.call].Searching? ==>
      e.candidates == provider(s.calls[e.call].capability)
  }

  predicate AnsweredRun(cfg: Config, provider: Provider, s: Service, es: seq<Event>) {
    es == [] ||
    (AnsweredRun(cfg, provider, s, es[..|es| - 1]) &&
     Answers(provider, Run(cfg, s, es[..|es| - 1]), es[|es| - 1]))
  }

  ghost predicate CacheFaithful(provider: Provider, s: Service) {
    && (forall key, x :: key in s.cache && Normalize(x) == key && key != "" ==> s.cache[key].candidates == provider(x))
    && (forall c :: c in s.calls && (s.calls[c].Queued? || Holding(s.calls[c])) ==>
        Normalize(s.calls[c].capability) != "")
  }

  lemma NextTransparent(cfg: Config, provider: Provider, s: Service, e: Event)
    requires RespectsKeys(provider) && Answers(provider, s, e)
    requires CacheFaithful(provider, s) && Transparent(provider, s)
    ensures CacheFaithful(provider, Next(cfg, s, e)) && Transparent(provider, Next(cfg, s, e))
  {
    hide Normalize, MinWait;
  }

  lemma {:induction false} RunTransparent(cfg: Config, provider: Provider, now: Time, es: seq<Event>)
    requires RespectsKeys(provider) && AnsweredRun(cfg, provider, Initial(now), es)
    ensures CacheFaithful(provider, Run(cfg, Initial(now), es))
    ensures Transparent(provider, Run(cfg, Initial(now), es))
  {
    if es != [] {
      var init := es[..|es| - 1];
      RunTransparent(cfg, provider, now, init);
      NextTransparent(cfg, provider, Run(cfg, Initial(now), init), es[|es| - 1]);
    }
  }

  ghost predicate Uncached(provider: Provider, s: Service) {
    && Transparent(provider, s)
    && (forall key :: key in s.cache ==> s.cache[key].expiresAt <= s.now)
    && (forall c :: c in s.calls && (s.calls[c].Queued? || Holding(s.calls[c])) ==>
        Normalize(s.calls[c].capability) != "")
  }

  lemma NextUncached(cfg: Config, provider: Provider, s: Service, e: Event)
    requires cfg.ttl <= 0 && Answers(provider, s, e) && Uncached(provider, s)
    ensures Uncached(provider, Next(cfg, s, e))
  {
    hide Normalize, MinWait;
  }

  /** With a TTL of zero or less no entry is ever used. */
  lemma {:induction false} RunUncached(cfg: Config, provider: Provider, now: Time, es: seq<Event>)
    requires cfg.ttl <= 0 && AnsweredRun(cfg, provider, Initial(now), es)
    ensures Uncached(provider, Run(cfg, Initial(now), es))
  {
    if es != [] {
      RunUncached(cfg, provider, now, es[..|es| - 1]);
      NextUncached(cfg, provider, Run(cfg, Initial(now), es[..|es| - 1]), es[|es| - 1]);
    }
  }

  lemma RunStep(cfg: Config, provider: Provider, s: Service, es: seq<Event>, e: Event)
    requires AnsweredRun(cfg, provider, s, es) && Answers(provider, Run(cfg, s, es), e)
    ensures Run(cfg, s, es + [e]) == Next(cfg, Run(cfg, s, es), e)
    ensures AnsweredRun(cfg, provider, s, es + [e])
  {
    assert (es + [e])[..|es|] == es;
  }

  /** Two spellings of one key: the second caller gets the first spelling's answer. */
  lemma WrongAnswer(cfg: Config, provider: Provider, now: Time, x: string, y: string) returns (es: seq<Event>)
    requires cfg.ttl > 0 && Normalize(x) == Normalize(y) != "" && provider(x) != provider(y)
    ensures AnsweredRun(cfg, provider, Initial(now), es)
    ensures !Transparent(provider, Run(cfg, Initial(now), es))
  {
    hide Normalize, Next;
    var s0 := Initial(now);
    es := FirstSearch(cfg, now, x);
    NothingFound(cfg, provider, s0, es);
    var s4 := Run(cfg, s0, es);
    SecondCaller(cfg, s4, x, y, provider(x));
    RunStep(cfg, provider, s0, es, Found(0, provider(x)));
    es := es + [Found(0, provider(x))];
    RunStep(cfg, provider, s0, es, Begin(1, y));
    es := es + [Begin(1, y)];
    var end := Run(cfg, s0, es);
    assert end.calls[1] == Returned(y, provider(x));
  }

  lemma {:induction false} NothingFound(cfg: Config, provider: Provider, s: Service, es: seq<Event>)
    requires forall e :: e in es ==> !e.Found?
    ensures AnsweredRun(cfg, provider, s, es)
  {
    if es != [] {
      NothingFound(cfg, provider, s, es[..|es| - 1]);
    }
  }

  lemma SecondCaller(cfg: Config, s: Service, x: string, y: string, candidates: Candidates)
    requires cfg.ttl > 0 && Normalize(x) == Normalize(y) != ""
    requires s.calls.Keys == {0} && s.calls[0].Searching? && s.calls[0].capability == x
    ensures var end := Next(cfg, Next(cfg, s, Found(0, candidates)), Begin(1, y));
            1 in end.calls && end.calls[1] == Returned(y, candidates)
  {
    hide Normalize;
  }

  ghost predicate AlwaysTransparent(cfg: Config, provider: Provider, now: Time) {
    forall es :: AnsweredRun(cfg, provider, Initial(now), es) ==> Transparent(provider, Run(cfg, Initial(now), es))
  }

  /** The cache is invisible in every interleaving exactly when it is disabled by its TTL or the provider gives every
      spelling of a key the same answer: the key is normalised, but the provider is handed the raw text. */
  lemma TransparentExactly(cfg: Config, provider: Provider, now: Time)
    ensures AlwaysTransparent(cfg, provider, now) <==> cfg.ttl <= 0 || RespectsKeys(provider)
  {
    if cfg.ttl <= 0 {
      forall es | AnsweredRun(cfg, provider, Initial(now), es)
        ensures Transparent(provider, Run(cfg, Initial(now), es))
      {
        RunUncached(cfg, provider, now, es);
      }
    } else if RespectsKeys(provider) {
      forall es | AnsweredRun(cfg, provider, Initial(now), es)
        ensures Transparent(provider, Run(cfg, Initial(now), es))
      {
        RunTransparent(cfg, provider, now, es);
      }
    } else {
      var x, y :| Normalize(x) == Normalize(y) != "" && provider(x) != provider(y);
      var es := WrongAnswer(cfg, provider, now, x, y);
    }
  }
}
