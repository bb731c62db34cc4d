/** The readiness check of `/health/ready`: the status record starts
    healthy with both dependencies down, the database probe and the cache's
    connection flag update it, and the status code follows from it. */
module HealthRouter {
  import opened Wrappers
  import opened RedisCache

  datatype Nivel = Healthy | Degraded | Unhealthy

  datatype Servicio = Up | Down

  /** `services.database`: `responseTime` only when the probe answered. */
  datatype BaseDeDatos = BaseDeDatos(status: Servicio, responseTime: Option<int>)

  /** `services.redis`. */
  datatype Redis = Redis(status: Servicio, connected: bool)

  /** HealthStatus, without the timestamp. */
  datatype EstadoSalud = EstadoSalud(status: Nivel, uptime: real, version: string, database: BaseDeDatos, redis: Redis)

  const VERSION: string := "1.0.0"

  /** The `/health/ready` handler. `dbResponde` says whether `SELECT 1`
      succeeded, `tiempoRespuesta` is the milliseconds it took and `uptime`
      the process uptime; the cache is only asked whether it is connected. */
  method Ready(cache: RedisCacheService, dbResponde: bool, tiempoRespuesta: int, uptime: real)
    returns (h: EstadoSalud, codigo: int)
    ensures !dbResponde ==> h.status == Unhealthy && codigo == 503
    ensures dbResponde && !cache.IsConnected() ==> h.status == Degraded && codigo == 200
    ensures dbResponde && cache.IsConnected() ==> h.status == Healthy && codigo == 200
    ensures codigo == 503 <==> h.status == Unhealthy
    ensures h.redis.connected == cache.IsConnected() && (h.redis.status == Up <==> h.redis.connected)
    ensures h.database.status == Up <==> dbResponde
    ensures h.database.responseTime.Some? <==> dbResponde
    ensures dbResponde ==> h.database.responseTime == Some(tiempoRespuesta)
    ensures h.version == VERSION && h.uptime == uptime
  {
    h := EstadoSalud(Healthy, uptime, VERSION, BaseDeDatos(Down, None), Redis(Down, false));
    if dbResponde {
      h := h.(database := BaseDeDatos(Up, Some(tiempoRespuesta)));
    } else {
      h := h.(database := BaseDeDatos(Down, None), status := Degraded);
    }
    var redisConectado := cache.IsConnected();
    h := h.(redis := Redis(if redisConectado then Up else Down, redisConectado));
    if !redisConectado && h.status == Healthy {
      h := h.(status := Degraded);
    }
    if h.database.status == Down {
      h := h.(status := Unhealthy);
      return h, 503;
    }
    codigo := 200;
  }
}
