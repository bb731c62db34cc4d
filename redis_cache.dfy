/** RedisCacheService: a cache that answers only while it is connected and
    swallows every error. The Redis server's keyspace is a map from key to
    the stored value and its TTL; `fails` stands for a command that throws. */
module RedisCache {
  import opened Wrappers
  import opened EnvioEntity
  import opened EnvioRepository

  /** The values the services cache (what JSON.stringify writes and
      JSON.parse reads back). */
  datatype CacheValue =
    | TarifaValue(tarifa: TarifaBase)
    | EnvioValue(envio: Envio, historial: seq<HistorialEstado>)
    | TarifasValue(tarifas: seq<Tarifa>)

  /** A key of the keyspace: the value and the TTL `setex` was given. */
  datatype Entrada = Entrada(value: CacheValue, ttl: int)

  /** REDIS_TTL when the variable is unset. */
  const REDIS_TTL_POR_DEFECTO: int := 300

  /** retryStrategy: give up after the third attempt; before that wait
      `min(times * 200, 2000)` milliseconds. */
  function RetryStrategy(times: int): (r: Option<int>)
    ensures r.None? <==> times > 3
    ensures r.Some? ==> r.value <= 600
  {
    if times > 3 then None
    else Some(if times * 200 < 2000 then times * 200 else 2000)
  }

  /** The 2000 ms cap is never reached: the three retries wait 200, 400 and
      600 ms, and every later attempt gives up. */
  lemma EsperasDeReintento(times: int)
    ensures 1 <= times <= 3 ==> RetryStrategy(times) == Some(200 * times)
    ensures times >= 4 ==> RetryStrategy(times).None?
  {
  }

  // ---------------------------------------------------------------------
  // Glob patterns for KEYS
  // ---------------------------------------------------------------------

  /** Redis glob matching with `*` (any run of characters) and `?` (any one
      character); every other character matches itself. */
  function Matches(p: string, s: string): bool
    decreases |p| + |s|
  {
    if p == [] then s == []
    else if p[0] == '*' then Matches(p[1..], s) || (s != [] && Matches(p, s[1..]))
    else s != [] && (p[0] == '?' || p[0] == s[0]) && Matches(p[1..], s[1..])
  }

  predicate SinComodines(p: string) {
    forall i :: 0 <= i < |p| ==> p[i] != '*' && p[i] != '?'
  }

  /** `*` alone matches every key. */
  lemma {:induction false} AsteriscoCoincideTodo(s: string)
    ensures Matches("*", s)
    decreases |s|
  {
    if s != [] {
      AsteriscoCoincideTodo(s[1..]);
    }
  }

  /** A pattern without wildcards matches exactly itself. */
  lemma {:induction false} PatronLiteral(p: string, s: string)
    requires SinComodines(p)
    ensures Matches(p, s) <==> s == p
    decreases |p|
  {
    if p != [] && s != [] {
      PatronLiteral(p[1..], s[1..]);
      if s[1..] == p[1..] && s[0] == p[0] {
        assert s == [s[0]] + s[1..] && p == [p[0]] + p[1..];
      }
    }
  }

  /** `prefix*` matches exactly the keys that start with `prefix`. */
  lemma {:induction false} PatronPrefijo(prefix: string, s: string)
    requires SinComodines(prefix)
    ensures Matches(prefix + "*", s) <==> prefix <= s
    decreases |prefix|
  {
    var p := prefix + "*";
    if prefix == [] {
      assert p == "*";
      AsteriscoCoincideTodo(s);
    } else {
      assert p[1..] == prefix[1..] + "*";
      if s != [] {
        PatronPrefijo(prefix[1..], s[1..]);
        if prefix[1..] <= s[1..] && s[0] == prefix[0] {
          assert prefix == [prefix[0]] + prefix[1..];
          assert prefix <= s;
        }
        if prefix <= s {
          assert prefix[1..] <= s[1..];
        }
      }
    }
  }

  // ---------------------------------------------------------------------
  // The service
  // ---------------------------------------------------------------------

  class RedisCacheService {
    /** Whether `new Redis(...)` succeeded (`client !== null`). */
    var hasClient: bool
    /** Set by the 'connect' event, cleared by 'error' and 'close'. */
    var connected: bool
    /** The server's keyspace. */
    var store: map<string, Entrada>
    const defaultTTL: int

    /** The constructor: the client is created with lazyConnect, so the
        service starts disconnected; a client that throws on creation
        leaves it with no client at all. */
    constructor (defaultTTL: int, clientThrows: bool, store: map<string, Entrada>)
      ensures hasClient == !clientThrows && !connected
      ensures this.store == store && this.defaultTTL == defaultTTL
      ensures !IsConnected()
    {
      hasClient := !clientThrows;
      connected := false;
      this.store := store;
      this.defaultTTL := defaultTTL;
    }

    /** The 'connect' event. */
    method OnConnect()
      modifies this`connected
      ensures connected
      ensures IsConnected() == hasClient
    {
      connected := true;
    }

    /** The 'error' and 'close' events. */
    method OnDisconnect()
      modifies this`connected
      ensures !connected && !IsConnected()
    {
      connected := false;
    }

    predicate IsConnected()
      reads this
    {
      connected && hasClient
    }

    /** get: the stored value only when connected and the command does not
        fail; null otherwise (a miss, no connection or an error). */
    method Get(key: string, fails: bool) returns (r: Option<CacheValue>)
      ensures r.Some? <==> IsConnected() && !fails && key in store
      ensures r.Some? ==> r.value == store[key].value
    {
      if !IsConnected() {
        return None;
      }
      if fails || key !in store {
        return None;
      }
      r := Some(store[key].value);
    }

    /** set: `setex` with the given TTL or the default one, only when
        connected; a failure is swallowed and leaves the keyspace as it was. */
    method Set(key: string, value: CacheValue, ttl: Option<int>, fails: bool)
      modifies this`store
      ensures IsConnected() && !fails ==> store == old(store)[key := Entrada(value, ttl.GetOr(defaultTTL))]
      ensures !(IsConnected() && !fails) ==> store == old(store)
    {
      if !IsConnected() {
        return;
      }
      if !fails {
        store := store[key := Entrada(value, ttl.GetOr(defaultTTL))];
      }
    }

    /** del: removes the key only when connected. */
    method Del(key: string, fails: bool)
      modifies this`store
      ensures IsConnected() && !fails ==> store == old(store) - {key}
      ensures !(IsConnected() && !fails) ==> store == old(store)
    {
      if !IsConnected() {
        return;
      }
      if !fails {
        store := store - {key};
      }
    }

    /** delPattern: KEYS with the pattern, then DEL of the keys found when
        there are any; exactly the matching keys go, every other key keeps
        its entry. */
    method DelPattern(pattern: string, fails: bool)
      modifies this`store
      ensures forall k :: k in store <==> k in old(store) && !(IsConnected() && !fails && Matches(pattern, k))
      ensures forall k | k in store :: store[k] == old(store)[k]
    {
      if !IsConnected() {
        return;
      }
      if fails {
        return;
      }
      var keys := set k | k in store && Matches(pattern, k);
      assert forall k | k in store && Matches(pattern, k) :: k in keys;
      if |keys| > 0 {
        store := store - keys;
      }
    }
  }
}
