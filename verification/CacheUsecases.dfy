/** The three caching usecases as they are written, over one shared cache client. */
module CacheUsecases {
  import opened Prelude
  import opened Entities
  import opened CacheKeys
  import opened CacheMachine
  import opened CacheSequential
  import MapsClient

  class CacheClient {
    var entries: Store

    constructor ()
      ensures entries == map[]
    {
      entries := map[];
    }

    /** A miss and an error both yield no bytes. */
    method Get(key: string, now: nat, fails: bool) returns (r: Option<Entry>)
      ensures r == if fails then None else CacheMachine.Get(entries, key, now)
    {
      return if fails then None else CacheMachine.Get(entries, key, now);
    }

    method Set(key: string, bytes: Bytes, ttl: nat, now: nat, fails: bool)
      modifies this
      ensures entries == if fails then old(entries) else old(entries)[key := Entry(bytes, now, ttl)]
    {
      if !fails { entries := entries[key := Entry(bytes, now, ttl)]; }
    }
  }

  /** The clients of the upstream services; asked lists every request made to them. */
  class Upstream {
    var asked: seq<Request>

    constructor ()
      ensures asked == []
    {
      asked := [];
    }

    method FetchTideData(prefCode: string, portCode: string, date: string, reply: Option<Reply>)
      returns (r: Option<TideData>)
      modifies this
      ensures asked == old(asked) + [Tide(prefCode, portCode, date)]
      ensures r == if reply.Some? && reply.value.TideReply? then Some(reply.value.tide) else None
    {
      asked := asked + [Tide(prefCode, portCode, date)];
      return if reply.Some? && reply.value.TideReply? then Some(reply.value.tide) else None;
    }

    method FetchCurrent(lat: real, lon: real, reply: Option<Reply>) returns (r: Option<WeatherData>)
      modifies this
      ensures asked == old(asked) + [Current(lat, lon)]
      ensures r == if reply.Some? && reply.value.WeatherReply? then Some(reply.value.weather) else None
    {
      asked := asked + [Current(lat, lon)];
      return if reply.Some? && reply.value.WeatherReply? then Some(reply.value.weather) else None;
    }

    method FetchForecast(lat: real, lon: real, reply: Option<Reply>) returns (r: Option<seq<WeatherData>>)
      modifies this
      ensures asked == old(asked) + [Forecast(lat, lon)]
      ensures r == if reply.Some? && reply.value.ForecastReply? then Some(reply.value.list) else None
    {
      asked := asked + [Forecast(lat, lon)];
      return if reply.Some? && reply.value.ForecastReply? then Some(reply.value.list) else None;
    }

    method SearchLocations(query: string, limit: int, reply: Option<Reply>) returns (r: Option<seq<Place>>)
      modifies this
      ensures asked == old(asked) + [Search(query, limit)]
      ensures r == if reply.Some? && reply.value.GeoReply? then Some(MapsClient.Places(reply.value.raw, limit)) else None
    {
      asked := asked + [Search(query, limit)];
      if reply.None? || !reply.value.GeoReply? { return None; }
      var results := MapsClient.SearchLocations(reply.value.raw, limit);
      return Some(results);
    }
  }

  /** The value an outcome hands to the caller. */
  ghost function ValueOf(o: Outcome): Option<Payload> {
    match o.answer case Failed => None case Served(v, _, _) => Some(v)
  }

  /** The look-up finds an entry that has not expired and can be decoded. */
  ghost predicate Hits(env: Env, entries: Store, r: Request, io: Io) {
    var key := KeyOf(env.sha256, r);
    && !io.getFails && key in entries && io.lookAt < entries[key].storedAt + entries[key].ttl
    && env.decode(KindOf(r), entries[key].bytes).Some?
  }

  /** The store after a value has been kept for the request, unless it cannot be encoded or stored. */
  ghost function Kept(env: Env, entries: Store, r: Request, v: Payload, ttl: nat, io: Io): Store {
    if io.setFails || env.encode(v).None? then entries
    else entries[KeyOf(env.sha256, r) := Entry(env.encode(v).value, io.storeAt, ttl)]
  }

  class TideUsecase {
    const api: Upstream
    const cache: CacheClient
    const env: Env

    constructor (api: Upstream, cache: CacheClient, env: Env)
      ensures this.api == api && this.cache == cache && this.env == env
    {
      this.api, this.cache, this.env := api, cache, env;
    }

    method GetTideData(prefCode: string, portCode: string, date: string, io: Io) returns (r: Option<TideData>)
      requires Lawful(env)
      modifies api, cache
      ensures var o := Serve(env, old(cache.entries), Tide(prefCode, portCode, date), io);
              && cache.entries == o.store
              && api.asked == old(api.asked) + (if o.asked then [Tide(prefCode, portCode, date)] else [])
              && ValueOf(o) == if r.None? then None else Some(TidePayload(r.value))
      ensures var q := Tide(prefCode, portCode, date);
              if Hits(env, old(cache.entries), q, io) then
                && r.Some? && cache.entries == old(cache.entries) && api.asked == old(api.asked)
                && Some(TidePayload(r.value)) == env.decode(TideKind, old(cache.entries)[KeyOf(env.sha256, q)].bytes)
              else
                && api.asked == old(api.asked) + [q]
                && r == (if io.reply.Some? && io.reply.value.TideReply? then Some(io.reply.value.tide) else None)
                && cache.entries == if r.None? then old(cache.entries)
                                    else Kept(env, old(cache.entries), q, TidePayload(r.value), 6 * HOUR, io)
    {
      var key := KeyOf(env.sha256, Tide(prefCode, portCode, date));
      var cached := cache.Get(key, io.lookAt, io.getFails);
      if cached.Some? {
        var data := env.decode(TideKind, cached.value.bytes);
        if data.Some? { return Some(data.value.tide); }
      }
      var fetched := api.FetchTideData(prefCode, portCode, date, io.reply);
      if fetched.None? { return None; }
      var data := fetched.value;
      var bytes := env.encode(TidePayload(data));
      if bytes.Some? { cache.Set(key, bytes.value, TIDE_TTL, io.storeAt, io.setFails); }
      return Some(data);
    }
  }

  class WeatherUsecase {
    const api: Upstream
    const cache: CacheClient
    const env: Env

    constructor (api: Upstream, cache: CacheClient, env: Env)
      ensures this.api == api && this.cache == cache && this.env == env
    {
      this.api, this.cache, this.env := api, cache, env;
    }

    method GetCurrent(lat: real, lon: real, io: Io) returns (r: Option<WeatherData>)
      requires Lawful(env)
      modifies api, cache
      ensures var o := Serve(env, old(cache.entries), Current(lat, lon), io);
              && cache.entries == o.store
              && api.asked == old(api.asked) + (if o.asked then [Current(lat, lon)] else [])
              && ValueOf(o) == if r.None? then None else Some(WeatherPayload(r.value))
      ensures var q := Current(lat, lon);
              if Hits(env, old(cache.entries), q, io) then
                && r.Some? && cache.entries == old(cache.entries) && api.asked == old(api.asked)
                && Some(WeatherPayload(r.value)) == env.decode(CurrentKind, old(cache.entries)[KeyOf(env.sha256, q)].bytes)
              else
                && api.asked == old(api.asked) + [q]
                && r == (if io.reply.Some? && io.reply.value.WeatherReply? then Some(io.reply.value.weather) else None)
                && cache.entries == if r.None? then old(cache.entries)
                                    else Kept(env, old(cache.entries), q, WeatherPayload(r.value), 30 * MINUTE, io)
    {
      var key := KeyOf(env.sha256, Current(lat, lon));
      var cached := cache.Get(key, io.lookAt, io.getFails);
      if cached.Some? {
        var data := env.decode(CurrentKind, cached.value.bytes);
        if data.Some? { return Some(data.value.weather); }
      }
      var fetched := api.FetchCurrent(lat, lon, io.reply);
      if fetched.None? { return None; }
      var data := fetched.value;
      var bytes := env.encode(WeatherPayload(data));
      if bytes.Some? { cache.Set(key, bytes.value, WEATHER_TTL, io.storeAt, io.setFails); }
      return Some(data);
    }

    method GetForecast(lat: real, lon: real, io: Io) returns (r: Option<seq<WeatherData>>)
      requires Lawful(env)
      modifies api, cache
      ensures var o := Serve(env, old(cache.entries), Forecast(lat, lon), io);
              && cache.entries == o.store
              && api.asked == old(api.asked) + (if o.asked then [Forecast(lat, lon)] else [])
              && ValueOf(o) == if r.None? then None else Some(ForecastPayload(r.value))
      ensures var q := Forecast(lat, lon);
              if Hits(env, old(cache.entries), q, io) then
                && r.Some? && cache.entries == old(cache.entries) && api.asked == old(api.asked)
                && Some(ForecastPayload(r.value)) == env.decode(ForecastKind, old(cache.entries)[KeyOf(env.sha256, q)].bytes)
              else
                && api.asked == old(api.asked) + [q]
                && r == (if io.reply.Some? && io.reply.value.ForecastReply? then Some(io.reply.value.list) else None)
                && cache.entries == if r.None? then old(cache.entries)
                                    else Kept(env, old(cache.entries), q, ForecastPayload(r.value), 30 * MINUTE, io)
    {
      var key := KeyOf(env.sha256, Forecast(lat, lon));
      var cached := cache.Get(key, io.lookAt, io.getFails);
      if cached.Some? {
        var data := env.decode(ForecastKind, cached.value.bytes);
        if data.Some? { return Some(data.value.list); }
      }
      var fetched := api.FetchForecast(lat, lon, io.reply);
      if fetched.None? { return None; }
      var data := fetched.value;
      var bytes := env.encode(ForecastPayload(data));
      if bytes.Some? { cache.Set(key, bytes.value, WEATHER_TTL, io.storeAt, io.setFails); }
      return Some(data);
    }
  }

  class LocationUsecase {
    const api: Upstream
    const cache: CacheClient
    const env: Env

    constructor (api: Upstream, cache: CacheClient, env: Env)
      ensures this.api == api && this.cache == cache && this.env == env
    {
      this.api, this.cache, this.env := api, cache, env;
    }

    method Search(query: string, limit: int, io: Io) returns (r: Option<seq<Place>>)
      requires Lawful(env)
      modifies api, cache
      ensures var o := Serve(env, old(cache.entries), Request.Search(query, limit), io);
              && cache.entries == o.store
              && api.asked == old(api.asked) + (if o.asked then [Request.Search(query, limit)] else [])
              && ValueOf(o) == if r.None? then None else Some(PlacesPayload(r.value))
      ensures var q := Request.Search(query, limit);
              if Hits(env, old(cache.entries), q, io) then
                && r.Some? && cache.entries == old(cache.entries) && api.asked == old(api.asked)
                && Some(PlacesPayload(r.value)) == env.decode(SearchKind, old(cache.entries)[KeyOf(env.sha256, q)].bytes)
              else
                && api.asked == old(api.asked) + [q]
                && r == (if io.reply.Some? && io.reply.value.GeoReply? then Some(MapsClient.Places(io.reply.value.raw, limit))
                         else None)
                && cache.entries == if r.None? then old(cache.entries)
                                    else Kept(env, old(cache.entries), q, PlacesPayload(r.value), 24 * HOUR, io)
      ensures !Hits(env, old(cache.entries), Request.Search(query, limit), io) && r.Some? ==>
                forall k :: 0 <= k < |r.value| ==>
                  && k < |io.reply.value.raw| && r.value[k].name == io.reply.value.raw[k].formattedAddress
                  && r.value[k].latitude == io.reply.value.raw[k].lat && r.value[k].longitude == io.reply.value.raw[k].lng
    {
      var key := KeyOf(env.sha256, Request.Search(query, limit));
      var cached := cache.Get(key, io.lookAt, io.getFails);
      if cached.Some? {
        var results := env.decode(SearchKind, cached.value.bytes);
        if results.Some? { return Some(results.value.places); }
      }
      var found := api.SearchLocations(query, limit, io.reply);
      if found.None? { return None; }
      MapsClient.PlacesInFull(io.reply.value.raw, limit);
      var results := found.value;
      var bytes := env.encode(PlacesPayload(results));
      if bytes.Some? { cache.Set(key, bytes.value, LOCATION_TTL, io.storeAt, io.setFails); }
      return Some(results);
    }
  }
}
