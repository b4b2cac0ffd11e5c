/**
  The three caching usecases over the one shared store with expiring entries, as an
  interleaved step machine: look up, fetch from upstream, store.  The cache may fail at any
  step, entries may be evicted or overwritten by undecodable bytes, and calls interleave.
 */
module CacheMachine {
  import opened Prelude
  import opened Entities
  import opened CacheKeys
  import MapsClient

  type CallId = nat
  type Bytes = string

  /** What upstream answers. */
  datatype Reply =
    | TideReply(tide: TideData)
    | WeatherReply(weather: WeatherData)
    | ForecastReply(list: seq<WeatherData>)
    | GeoReply(raw: seq<MapsClient.GeoResult>)

  /** What a usecase returns and caches. */
  datatype Payload =
    | TidePayload(tide: TideData)
    | WeatherPayload(weather: WeatherData)
    | ForecastPayload(list: seq<WeatherData>)
    | PlacesPayload(places: seq<Place>)

  /** The digest function and the JSON codec.  Decoding depends on the type decoded into. */
  datatype Env = Env(sha256: string -> Digest, encode: Payload -> Option<Bytes>, decode: (Kind, Bytes) -> Option<Payload>)

  ghost predicate OfKind(v: Payload, kind: Kind) {
    match kind
    case TideKind => v.TidePayload?
    case CurrentKind => v.WeatherPayload?
    case ForecastKind => v.ForecastPayload?
    case SearchKind => v.PlacesPayload?
  }

  /** Decoding undoes encoding at the value's own kind; at another kind it may yield any value of that other kind. */
  ghost predicate Lawful(env: Env) {
    && (forall v: Payload, kind: Kind ::
          OfKind(v, kind) && env.encode(v).Some? ==> env.decode(kind, env.encode(v).value) == Some(v))
    && (forall kind: Kind, bytes: Bytes ::
          env.decode(kind, bytes).Some? ==> OfKind(env.decode(kind, bytes).value, kind))
  }

  /** A reply of the wrong shape counts as a failed call. */
  ghost function Interpret(r: Request, reply: Reply): Option<Payload> {
    match (r, reply)
    case (Tide(_, _, _), TideReply(t)) => Some(TidePayload(t))
    case (Current(_, _), WeatherReply(w)) => Some(WeatherPayload(w))
    case (Forecast(_, _), ForecastReply(list)) => Some(ForecastPayload(list))
    case (Search(_, limit), GeoReply(raw)) => Some(PlacesPayload(MapsClient.Places(raw, limit)))
    case _ => None
  }

  const TIDE_TTL: nat := 6 * HOUR
  const WEATHER_TTL: nat := 30 * MINUTE
  const LOCATION_TTL: nat := 24 * HOUR

  function Ttl(kind: Kind): nat {
    match kind
    case TideKind => TIDE_TTL
    case CurrentKind | ForecastKind => WEATHER_TTL
    case SearchKind => LOCATION_TTL
  }

  /** An entry is visible until its time to live is over. */
  datatype Entry = Entry(bytes: Bytes, storedAt: nat, ttl: nat)

  type Store = map<string, Entry>

  function Get(store: Store, key: string, now: nat): Option<Entry> {
    if key in store && now < store[key].storedAt + store[key].ttl then Some(store[key]) else None
  }

  /** Where an answer came from: an entry stored then, or upstream asked then. */
  datatype Source = Hit(storedAt: nat) | Fresh(fetchedAt: nat)
  datatype Answer = Served(value: Payload, at: nat, source: Source) | Failed

  /** A lookup yields an answer only from a visible entry that decodes. */
  function Look(env: Env, store: Store, r: Request, now: nat, fails: bool): Option<Answer> {
    var entry := Get(store, KeyOf(env.sha256, r), now);
    if fails || entry.None? then None
    else
      var v := env.decode(KindOf(r), entry.value.bytes);
      if v.None? then None else Some(Served(v.value, now, Hit(entry.value.storedAt)))
  }

  function Put(env: Env, store: Store, r: Request, v: Payload, now: nat, fails: bool): Store {
    var bytes := env.encode(v);
    if fails || bytes.None? then store
    else store[KeyOf(env.sha256, r) := Entry(bytes.value, now, Ttl(KindOf(r)))]
  }

  datatype Pc = Looking | Fetching | Storing(value: Payload, fetchedAt: nat) | Answered(answer: Answer)

  datatype Call = Call(request: Request, pc: Pc)

  /** One successful upstream call. */
  datatype Fetch = Fetch(call: CallId, request: Request, reply: Reply, value: Payload, at: nat)

  /** fetches records what upstream answered; no code reads it. */
  datatype System = System(now: nat, store: Store, calls: map<CallId, Call>, fetches: seq<Fetch>)

  /** What the surroundings decide: whether the cache fails, and what upstream answers, if anything. */
  datatype Choice = Choice(fails: bool, reply: Option<Reply>)

  datatype Step =
    | Tick(duration: nat)
    | Arrive(id: CallId, request: Request)
    | Advance(id: CallId, choice: Choice)
    | Evict(key: string)
    | Corrupt(key: string, entry: Entry)

  ghost predicate Undecodable(env: Env, bytes: Bytes) {
    forall kind :: env.decode(kind, bytes).None?
  }

  ghost function Act(env: Env, s: System, id: CallId, call: Call, ch: Choice): System {
    var r := call.request;
    match call.pc
    case Looking =>
      var hit := Look(env, s.store, r, s.now, ch.fails);
      s.(calls := s.calls[id := Call(r, if hit.Some? then Answered(hit.value) else Fetching)])
    case Fetching =>
      var value := if ch.reply.None? then None else Interpret(r, ch.reply.value);
      if value.None? then s.(calls := s.calls[id := Call(r, Answered(Failed))])
      else s.(calls := s.calls[id := Call(r, Storing(value.value, s.now))],
              fetches := s.fetches + [Fetch(id, r, ch.reply.value, value.value, s.now)])
    case Storing(v, fetchedAt) =>
      s.(store := Put(env, s.store, r, v, s.now, ch.fails),
         calls := s.calls[id := Call(r, Answered(Served(v, s.now, Fresh(fetchedAt))))])
    case Answered(_) => s
  }

  ghost function Do(env: Env, s: System, step: Step): System {
    match step
    case Tick(duration) => s.(now := s.now + duration)
    case Arrive(id, r) => if id in s.calls || !Valid(r) then s else s.(calls := s.calls[id := Call(r, Looking)])
    case Advance(id, ch) => if id in s.calls then Act(env, s, id, s.calls[id], ch) else s
    case Evict(key) => s.(store := s.store - {key})
    case Corrupt(key, entry) => if Undecodable(env, entry.bytes) then s.(store := s.store[key := entry]) else s
  }

  ghost function Run(env: Env, s: System, steps: seq<Step>): System
    decreases |steps|
  {
    if steps == [] then s else Run(env, Do(env, s, steps[0]), steps[1..])
  }

  const START: System := System(0, map[], map[], [])

  lemma {:induction false} RunSplit(env: Env, s: System, steps: seq<Step>, k: nat)
    requires k <= |steps|
    ensures Run(env, s, steps) == Run(env, Run(env, s, steps[..k]), steps[k..])
    decreases k
  {
    if k > 0 {
      RunSplit(env, Do(env, s, steps[0]), steps[1..], k - 1);
      assert steps[1..][..k - 1] == steps[..k][1..];
      assert steps[1..][k - 1..] == steps[k..];
    }
  }

  /** One step further along a run. */
  lemma RunNext(env: Env, s: System, steps: seq<Step>, k: nat)
    requires k < |steps|
    ensures Run(env, s, steps[..k + 1]) == Do(env, Run(env, s, steps[..k]), steps[k])
  {
    RunSplit(env, s, steps[..k + 1], k);
    assert steps[..k + 1][..k] == steps[..k];
    assert steps[..k + 1][k..] == [steps[k]];
  }
}
