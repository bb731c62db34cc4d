# Shipment quoting and tracking service — a Dafny model

The service quotes, registers and tracks parcel shipments between cities.

- **Pricing.** A shipment is priced per unit. Each dimension is rounded up to a whole centimetre. The volumetric weight is the rounded volume divided by the rate's volumetric factor, rounded up. A unit is billed at the larger of its real and volumetric weight, times the route's base price per kilogram.
- **Lifecycle.** A shipment moves through three states, in one direction only: *En espera → En tránsito → Entregado*.
- **Services.** Five application services combine these rules with a PostgreSQL repository and a Redis cache:
  - quote (`CotizarEnvio`);
  - register (`RegistrarEnvio`);
  - change state (`ActualizarEstado`);
  - look a shipment up (`ConsultarEnvio`);
  - list the rates (`ConsultarTarifas`).
- **Small rules.** The exception tables, the `/health/ready` decision and the environment checker.

One Dafny module per source file:

- `wrappers.dfy` (`Wrappers`): `Option` (for `null`/`undefined`) and `Result` (for a call that throws).
- `text.dfy` (`Text`): `String(n)`, `padStart`, `slice(-k)`, `toUpperCase` (Latin-1 range), `join`.
- `envio_entity.dfy` (`EnvioEntity`): the state graph, `calcularUnidad`, the entity and its constructor defaults.
- `exceptions.dfy` (`Exceptions`): the exception classes and their code → (status, cause) tables.
- `envio_repository.dfy` (`EnvioRepository`): the rate and history records the repositories return.
- `redis_cache.dfy` (`RedisCache`): `RedisCacheService` as a class over the server's keyspace; `retryStrategy`; `KEYS` glob matching.
- `postgres_repository.dfy` (`PostgresRepository`): `PostgresEnvioRepository` as a class over in-memory tables; tracking-number format.
- `claves_cache.dfy` (`ClavesCache`): the cache keys of the services, and when two keys can collide.
- `coherencia.dfy` (`Coherencia`): what it means for the cache to agree with the database, and which writes keep that.
- `cotizar_envio.dfy`, `registrar_envio.dfy`, `actualizar_estado.dfy`, `consultar_envio.dfy`, `consultar_tarifas.dfy` (one module per service): each service's `run` as a method, with a pure function for its outcome.
- `health_router.dfy` (`HealthRouter`): the `/health/ready` handler.
- `validate_envs.dfy` (`ValidateEnvs`): `validateEnvs`.

**Services as methods.** Each service's `run` is a method over a `RedisCacheService` and a `PostgresEnvioRepository`. Its `ensures` ties the answer to a pure function of what the cache yielded and what the tables hold: `ResultadoCotizar`, `ResultadoConsulta`, `ListadoDe`, `Rechazo` and `EnvioRegistrado`. It also gives the new cache keyspace and the new tables exactly.

**Coherence.** Beside each service runs a second, ghost invariant: `Coherencia.Coherente`. It holds when every cached shipment is what `findByGuia` and `getHistorial` would read, and every cached rate or rate list is what the database would return. Every service keeps it, as long as route names contain no `:` and the cache is connected when a shipment's state changes. Under that invariant each read service answers the same with or without the cache (`CacheTransparente` in each module), apart from the `fromCache` flag.

**Repository.** The repository keeps `envios` keyed by tracking number, and the unit rows and history rows in insertion order. Its validity invariant `TablasValidas` has four parts:
- each row sits under its own tracking number;
- ids are unique;
- every unit row and history row belongs to a stored shipment;
- history ids are below the next id.

`save` keeps that invariant. So does `updateEstado`.

## Model

| member | source | states |
|---|---|---|
| EnvioEntity.LiteralInjective | src/domain/entities/EnvioEntity.ts:28-30 | the three state literals are pairwise distinct, so a literal names one state |
| EnvioEntity.ValidarTransicionEstado | src/domain/entities/EnvioEntity.ts:32-36 | a transition is allowed exactly for En espera → En tránsito and En tránsito → Entregado |
| EnvioEntity.TransicionEsUnPaso | src/domain/entities/EnvioEntity.ts:73-76 | an allowed transition is exactly one step forward along the lifecycle; no state moves to itself; nothing leaves Entregado |
| EnvioEntity.AlcanzablesDesdeEnEspera | src/domain/entities/EnvioEntity.ts:32-36 | from En espera, k legal steps reach exactly the state of rank k for k ≤ 2 and nothing after two steps |
| EnvioEntity.EsEstadoValido | src/domain/entities/EnvioEntity.ts:78-80 | a string is valid iff it is the literal of some state |
| EnvioEntity.ParseEstado | src/domain/entities/EnvioEntity.ts:78-80 | the narrowing yields a state exactly for valid strings, and that state's literal is the string |
| EnvioEntity.ParseLiteral | src/domain/entities/EnvioEntity.ts:30 | reading back a state's literal gives the state |
| EnvioEntity.Ceil | src/domain/entities/EnvioEntity.ts:83-85 | `Math.ceil` returns the least integer not below its argument |
| EnvioEntity.CeilMonotone | src/domain/entities/EnvioEntity.ts:83-85 | rounding up preserves order |
| EnvioEntity.CalcularUnidad | src/domain/entities/EnvioEntity.ts:82-98 | each dimension is the ceiling of the input; volumetric weight is the ceiling of rounded volume over the factor (default 2500); billable weight is the larger of real and volumetric weight, at least both; real weight passes through |
| EnvioEntity.PesoVolumetricoCubreVolumen | src/domain/entities/EnvioEntity.ts:87 | volumetric weight is the least whole number of factor-sized blocks covering the rounded volume |
| EnvioEntity.PesoFacturableMonotono | src/domain/entities/EnvioEntity.ts:82-98 | larger dimensions and more real weight never lower the billable weight |
| EnvioEntity.EjemplosCalcularUnidad | src/domain/entities/EnvioEntity.ts:82-98 | 10.2×20.5×30.1 rounds to 11×21×31 with volumetric weight 3; the default factor 2500 applies when none is given |
| EnvioEntity.NuevoEnvio | src/domain/entities/EnvioEntity.ts:55-71 | the constructor copies every field (the state narrowed to the three literals) and defaults an absent state to En espera and an absent currency to COP |
| EnvioEntity.ReconstruirEsIdentidad | src/domain/entities/EnvioEntity.ts:55-71 | rebuilding an entity from itself changes nothing |
| Exceptions.NewException | src/domain/exceptions/Exceptions.ts:3-16 | every exception is an error with the given message, code and status; the cause is null exactly when it is absent or empty |
| Exceptions.BadMessageException | src/domain/exceptions/Exceptions.ts:18-22 | the arguments are swapped into (message, cause), with code BAD_MESSAGE and status BAD_REQUEST |
| Exceptions.RepositoryException | src/domain/exceptions/Exceptions.ts:24-29 | fixed message, REPOSITORY_ERROR, INTERNAL_ERROR, no cause |
| Exceptions.PubSubException | src/domain/exceptions/Exceptions.ts:31-35 | PUBSUB_ERROR with INTERNAL_ERROR and the given message; the cause is null exactly when it is empty, and otherwise the given one |
| Exceptions.FirestoreException | src/domain/exceptions/Exceptions.ts:37-82 | status is OK exactly for codes 3, 6 and 8, and INTERNAL_ERROR otherwise; the cause is the code's cause, or the default for unknown codes |
| Exceptions.FirestoreNumeroYTextoIguales | src/domain/exceptions/Exceptions.ts:40-80 | the number n and the string 'n' give the same exception |
| Exceptions.EjemplosFirestore | src/domain/exceptions/Exceptions.ts:41-44 | code 1 is 'Firestore action cancelled'; code 999 gets the default cause |
| Exceptions.PostgresError | src/domain/exceptions/Exceptions.ts:84-125 | status is INTERNAL_ERROR exactly for unknown codes, with cause 'Error desconocido'; UNIQUE_VIOLATION maps to 409 CONFLICT; the code defaults to REPOSITORY_ERROR; a cause is always set |
| RedisCache.RetryStrategy | src/infrastructure/cache/RedisCache.ts:30-36 | stops exactly after the third attempt; a wait is never more than 600 ms |
| RedisCache.EsperasDeReintento | src/infrastructure/cache/RedisCache.ts:35 | attempts 1 to 3 wait 200·times, so the 2000 ms cap is never reached |
| RedisCache.AsteriscoCoincideTodo | src/infrastructure/cache/RedisCache.ts:121 | the pattern `*` matches every key |
| RedisCache.PatronLiteral | src/infrastructure/cache/RedisCache.ts:121 | a pattern without wildcards matches exactly itself |
| RedisCache.PatronPrefijo | src/infrastructure/cache/RedisCache.ts:121 | `prefix*` matches exactly the keys that start with the prefix |
| RedisCache.RedisCacheService.constructor | src/infrastructure/cache/RedisCache.ts:19-63 | the service starts disconnected; a client that fails to build leaves no client |
| RedisCache.RedisCacheService.OnConnect | src/infrastructure/cache/RedisCache.ts:41-44 | 'connect' sets the flag; the service is connected iff it has a client |
| RedisCache.RedisCacheService.OnDisconnect | src/infrastructure/cache/RedisCache.ts:46-54 | 'error' and 'close' clear the flag |
| RedisCache.RedisCacheService.Get | src/infrastructure/cache/RedisCache.ts:69-86 | a value is returned iff connected, the command succeeds and the key is stored, and it is the stored value |
| RedisCache.RedisCacheService.Set | src/infrastructure/cache/RedisCache.ts:88-100 | when connected and successful, the key is stored with the given TTL or the default one; otherwise nothing changes |
| RedisCache.RedisCacheService.Del | src/infrastructure/cache/RedisCache.ts:102-113 | when connected and successful, exactly the key is removed; otherwise nothing changes |
| RedisCache.RedisCacheService.DelPattern | src/infrastructure/cache/RedisCache.ts:115-129 | when connected and successful, exactly the matching keys are removed; other entries keep their values |
| ClavesCache.TarifaCacheKeyInyectiva | src/application/services/CotizarEnvioAppService.ts:21-23 | for names without ':' the rate key determines origin, destination and product |
| ClavesCache.ColisionDeClaves | src/application/services/CotizarEnvioAppService.ts:21-23 | with a ':' in a name, two different routes share one key |
| ClavesCache.EnvioCacheKeyInyectiva | src/application/services/ConsultarEnvioAppService.ts:21-23 | the shipment key determines the tracking number |
| ClavesCache.ClavesDisjuntas | src/application/services/ConsultarTarifasAppService.ts:7 | rate keys, shipment keys and 'tarifas:all' never coincide |
| Coherencia.FactorDeConsulta | src/infrastructure/repositories/PostgresRepository.ts:165-176 | a rate getTarifa returns keeps its row's positive volumetric factor |
| Coherencia.EscribirTarifa | src/application/services/CotizarEnvioAppService.ts:47 | caching the rate getTarifa returned keeps the cache coherent with the database |
| Coherencia.EscribirListaTarifas | src/application/services/ConsultarTarifasAppService.ts:27 | caching the list getAllTarifas returned keeps the cache coherent |
| Coherencia.EscribirEnvio | src/application/services/ConsultarEnvioAppService.ts:47-49 | caching what findByGuia and getHistorial read keeps the cache coherent |
| Coherencia.Borrar | src/infrastructure/cache/RedisCache.ts:102-113 | deleting any key keeps the cache coherent |
| Coherencia.GuardarCoherente | src/application/services/RegistrarEnvioAppService.ts:63 | saving a new shipment leaves every cached shipment as the database now reads it |
| Coherencia.ActualizarCoherente | src/application/services/ActualizarEstadoAppService.ts:48-59 | changing a shipment's state and dropping its cache entry leaves every other cached shipment as the database now reads it |
| PostgresRepository.OrNull | src/infrastructure/repositories/PostgresRepository.ts:32 | the `or null` fallback of the inserts stores null exactly for an absent or empty string |
| PostgresRepository.AlmacenadoSinCambios | src/infrastructure/repositories/PostgresRepository.ts:79-106 | a shipment already in COP and without an empty note reads back unchanged |
| PostgresRepository.FilasUnidad | src/infrastructure/repositories/PostgresRepository.ts:36-49 | one unit row per unit, in order, each carrying the shipment id |
| PostgresRepository.UnidadesDeConcat | src/infrastructure/repositories/PostgresRepository.ts:72-77 | selecting a shipment's units distributes over appended rows |
| PostgresRepository.UnidadesDeFilas | src/infrastructure/repositories/PostgresRepository.ts:36-49 | a shipment's own rows read back as its units; another shipment sees none of them |
| PostgresRepository.HistorialDe | src/infrastructure/repositories/PostgresRepository.ts:134-143 | the history holds exactly the rows of the shipment |
| PostgresRepository.HistorialDeAgregar | src/infrastructure/repositories/PostgresRepository.ts:134-143 | appending a row extends exactly its own shipment's history, at the end |
| PostgresRepository.BuscarTarifa | src/infrastructure/repositories/PostgresRepository.ts:165-176 | no matching active row gives null; one gives its price and factor; two matching rows make oneOrNone throw |
| PostgresRepository.VariasCoincidencias | src/infrastructure/repositories/PostgresRepository.ts:170-175 | the filter returns two or more rows iff two distinct rows match |
| PostgresRepository.TarifasActivas | src/infrastructure/repositories/PostgresRepository.ts:178-185 | exactly the active rows |
| PostgresRepository.Consecutivo | src/infrastructure/repositories/PostgresRepository.ts:152-158 | the counter starts at 1 for a new date key and exceeds the previous value otherwise |
| PostgresRepository.FechaClaveFormato | src/infrastructure/repositories/PostgresRepository.ts:146-150 | for a real date the key is six digits reading back as day, 1-based month and year modulo 100 |
| PostgresRepository.GuiaDecodifica | src/infrastructure/repositories/PostgresRepository.ts:161-162 | a tracking number splits back into its key and its counter; 11 characters for counters up to 99999 |
| PostgresRepository.GuiaInyectiva | src/infrastructure/repositories/PostgresRepository.ts:145-163 | different keys or counters give different tracking numbers |
| PostgresRepository.EjemploGuia | src/infrastructure/repositories/PostgresRepository.ts:145-163 | the first number of 23 January 2026 is 23012600001 |
| PostgresRepository.GuardarValido | src/infrastructure/repositories/PostgresRepository.ts:11-56 | saving a shipment with a new tracking number and id keeps the tables valid |
| PostgresRepository.GuardarLee | src/infrastructure/repositories/PostgresRepository.ts:11-107 | after save the shipment reads back as stored; its history is the single creation row; every other shipment reads back as before |
| PostgresRepository.ActualizarValido | src/infrastructure/repositories/PostgresRepository.ts:110-132 | changing a stored shipment's state keeps the tables valid |
| PostgresRepository.ActualizarLee | src/infrastructure/repositories/PostgresRepository.ts:110-132 | after updateEstado the shipment reads back with only its state changed; its history gains the one row; others read back as before |
| PostgresRepository.InsertarUnidades | src/infrastructure/repositories/PostgresRepository.ts:36-49 | the loop appends exactly one row per unit, in order |
| PostgresRepository.PostgresEnvioRepository.FindByGuia | src/infrastructure/repositories/PostgresRepository.ts:58-107 | null exactly for an unknown number; otherwise the row's state, currency COP and the shipment's unit rows |
| PostgresRepository.PostgresEnvioRepository.GetHistorial | src/infrastructure/repositories/PostgresRepository.ts:134-143 | exactly the history rows of the shipment |
| PostgresRepository.PostgresEnvioRepository.GetTarifa | src/infrastructure/repositories/PostgresRepository.ts:165-176 | null exactly when no active row matches |
| PostgresRepository.PostgresEnvioRepository.GetAllTarifas | src/infrastructure/repositories/PostgresRepository.ts:178-185 | exactly the active rows |
| PostgresRepository.PostgresEnvioRepository.Save | src/infrastructure/repositories/PostgresRepository.ts:11-56 | succeeds iff the tracking number and id are new; then one row, the unit rows and one creation history row are added; otherwise nothing changes; validity is kept |
| PostgresRepository.PostgresEnvioRepository.UpdateEstado | src/infrastructure/repositories/PostgresRepository.ts:110-132 | null and no change for an unknown number; otherwise the new state, one history row with the previous state, and the shipment read back |
| PostgresRepository.PostgresEnvioRepository.GetNextGuiaNumber | src/infrastructure/repositories/PostgresRepository.ts:145-163 | the day's counter is upserted and the number is the date key followed by the padded counter |
| Text.DecimalString | src/infrastructure/repositories/PostgresRepository.ts:147-149 | `String(n)` is a non-empty string of digits |
| Text.ParseDecimalString | src/infrastructure/repositories/PostgresRepository.ts:147-149 | reading back `String(n)` gives n |
| Text.PadStart | src/infrastructure/repositories/PostgresRepository.ts:147-148 | the result has the target width or more, ends in the input and is filled with the pad character |
| Text.PaddedDecimalRoundTrip | src/infrastructure/repositories/PostgresRepository.ts:161 | a zero-padded counter reads back as the counter |
| Text.SliceLast | src/infrastructure/repositories/PostgresRepository.ts:149 | `slice(-k)` is the last k characters, or all of a shorter string |
| Text.LastTwoDigits | src/infrastructure/repositories/PostgresRepository.ts:149 | the last two digits of a year read back as the year modulo 100 |
| Text.Upper | src/application/services/CotizarEnvioAppService.ts:31-32 | every character of the result is one that upper-casing leaves unchanged; without 'ß' the length is kept, a-z become A-Z in place and the rest of ASCII is kept |
| Text.UpperConcat | src/application/services/CotizarEnvioAppService.ts:31-32 | upper-casing a concatenation is the concatenation of the upper-cased parts, so it works character by character |
| Text.UpperIdempotent | src/application/services/CotizarEnvioAppService.ts:31-32 | upper-casing twice is upper-casing once |
| Text.UpperOfFixed | src/application/services/CotizarEnvioAppService.ts:31-32 | an already upper-case string is unchanged |
| CotizarEnvio.Calculadas | src/application/services/CotizarEnvioAppService.ts:51-55 | one priced unit per input unit, in order, each `calcularUnidad` with the rate's factor |
| CotizarEnvio.TotalEsPrecioPorPeso | src/application/services/CotizarEnvioAppService.ts:50-55 | the running total equals the total billable weight times the base price |
| CotizarEnvio.TotalConcat | src/application/services/CotizarEnvioAppService.ts:50-55 | totals of concatenated unit lists add |
| CotizarEnvio.CotizacionCubrePesoReal | src/application/services/CotizarEnvioAppService.ts:50-55 | with a non-negative price the quote is at least the price of the total real weight |
| CotizarEnvio.ProcesarUnidades | src/application/services/CotizarEnvioAppService.ts:50-55 | the map loop yields exactly the priced units and the running total of their billable weight times the price |
| CotizarEnvio.CotizacionDe | src/application/services/CotizarEnvioAppService.ts:57-63 | the quote carries the product, "ORIGEN - DESTINO", COP, the priced units and total billable weight × base price |
| CotizarEnvio.TarifaElegida | src/application/services/CotizarEnvioAppService.ts:35-48 | a cache hit is used as is; on a miss the database rate is used, and it succeeds iff the database has one |
| CotizarEnvio.ResultadoCotizar | src/application/services/CotizarEnvioAppService.ts:25-64 | a hit always quotes; a quote has the route and one unit per input unit; a miss with no rate fails with cause 'Ruta no encontrada' |
| CotizarEnvio.CacheTransparente | src/application/services/CotizarEnvioAppService.ts:34-48 | with a coherent cache and names without ':', the quote is the one the database alone gives |
| CotizarEnvio.ObtenerTarifa | src/application/services/CotizarEnvioAppService.ts:34-48 | the cache-aside read: the rate chosen as above, cached for 600 s only on a connected miss that found one; coherence kept |
| CotizarEnvio.Run | src/application/services/CotizarEnvioAppService.ts:25-64 | upper-cases both names before the key and the lookup; answers `ResultadoCotizar`; the cache changes only as `ObtenerTarifa` says |
| CotizarEnvio.EjemploTotal | src/application/services/CotizarEnvioAppService.ts:50-55 | 10 kg and 5 kg billable at 1000 per kg quote 15000 |
| RegistrarEnvio.DimensionesInyectiva | src/application/services/RegistrarEnvioAppService.ts:76 | for non-negative dimensions the text `AxBxC cm` gives the three dimensions back |
| RegistrarEnvio.RespuestaUnidades | src/application/services/RegistrarEnvioAppService.ts:74-79 | one response unit per unit, in order, with its weights and dimension text |
| RegistrarEnvio.EnvioRegistrado | src/application/services/RegistrarEnvioAppService.ts:38-61 | the new shipment is En espera in COP, with upper-cased route and priced units; the total is the caller's quote when given, else the computed total |
| RegistrarEnvio.RegistroCobraLaCotizacion | src/application/services/RegistrarEnvioAppService.ts:38-45 | without a caller quote, registering charges what quoting answers for the same route, units and rate |
| RegistrarEnvio.RegistradoSeLee | src/application/services/RegistrarEnvioAppService.ts:47-63 | the registered shipment reads back waiting, in COP, with its units; its history is one row with no previous state |
| RegistrarEnvio.RegistrarConTarifa | src/application/services/RegistrarEnvioAppService.ts:38-80 | after the rate: one counter increment; saved iff number and id are new; the answer built from the saved entity |
| RegistrarEnvio.Run | src/application/services/RegistrarEnvioAppService.ts:27-81 | no rate (or a driver error) fails before any number is taken or anything saved; otherwise as `RegistrarConTarifa` |
| ActualizarEstado.EstadosPermitidosTexto | src/application/services/ActualizarEstadoAppService.ts:29 | the listed states read 'En espera, En tránsito, Entregado' |
| ActualizarEstado.Rechazo | src/application/services/ActualizarEstadoAppService.ts:26-46 | the guards in order: invalid state, then unknown number, then illegal transition; none fires iff the update is one legal step; all are BAD_REQUEST |
| ActualizarEstado.Cambios | src/application/services/ActualizarEstadoAppService.ts:68-74 | the history is listed row for row, in order, with its fields |
| ActualizarEstado.CicloCompleto | src/application/services/ActualizarEstadoAppService.ts:26-46 | two accepted updates take a shipment from En espera to Entregado; every request after that is refused, as is a skip |
| ActualizarEstado.ActualizarEnBase | src/application/services/ActualizarEstadoAppService.ts:48-61 | updateEstado writes the state and one history row, never returns null here, and the history read back ends with that row |
| ActualizarEstado.Aplicar | src/application/services/ActualizarEstadoAppService.ts:48-76 | after the guards: tables updated, exactly `envio:<guia>` dropped from a connected cache, answer with previous and new state and the history |
| ActualizarEstado.Run | src/application/services/ActualizarEstadoAppService.ts:25-77 | a refusal changes neither tables nor cache; otherwise as `Aplicar` |
| ConsultarEnvio.EnvioLeido | src/infrastructure/cache/RedisCache.ts:69-86 | a cached shipment is read only from the stored value at the key |
| ConsultarEnvio.ResultadoConsulta | src/application/services/ConsultarEnvioAppService.ts:25-92 | fails with 'Guía no encontrada' iff a miss finds no shipment; a hit answers from the cache with fromCache; a miss answers the stored total, units and history |
| ConsultarEnvio.CacheTransparente | src/application/services/ConsultarEnvioAppService.ts:25-92 | with a coherent cache the answer differs from the database's only in `fromCache` |
| ConsultarEnvio.Run | src/application/services/ConsultarEnvioAppService.ts:25-92 | answers `ResultadoConsulta`; the shipment and its history are cached for 60 s only on a connected miss that found it; coherence kept |
| ConsultarTarifas.AgruparCorrecto | src/application/services/ConsultarTarifasAppService.ts:30-48 | one group per route, in order of first appearance, each with its first row's names and all its products in row order |
| ConsultarTarifas.ClavesDeGrupos | src/application/services/ConsultarTarifasAppService.ts:30-48 | group keys are distinct, and a route has a group iff some rate has that route |
| ConsultarTarifas.ProductosSumanFilas | src/application/services/ConsultarTarifasAppService.ts:30-48 | the product counts of the groups add up to the number of rates |
| ConsultarTarifas.AgruparPorRuta | src/application/services/ConsultarTarifasAppService.ts:30-56 | the in-place reduce over the accumulator, then `Object.values`, yields exactly the grouping |
| ConsultarTarifas.Detalles | src/application/services/ConsultarTarifasAppService.ts:57-64 | the detail list maps the rates one to one, in order |
| ConsultarTarifas.ListadoDe | src/application/services/ConsultarTarifasAppService.ts:50-65 | total, detail length and grouped product count all equal the number of rates; no rates give no groups |
| ConsultarTarifas.CacheTransparente | src/application/services/ConsultarTarifasAppService.ts:18-28 | with a coherent cache the listing differs from the database's only in `fromCache` |
| ConsultarTarifas.Run | src/application/services/ConsultarTarifasAppService.ts:17-66 | a hit (even an empty list) answers with fromCache; a miss reads the active rates and caches them for 600 s when connected; coherence kept |
| HealthRouter.Ready | src/infrastructure/api/routers/HealthRouter.ts:90-130 | database down → unhealthy, 503; database up without Redis → degraded, 200; both up → healthy, 200; Redis block mirrors `isConnected`; response time only when the database answered |
| ValidateEnvs.Validar | src/util/ValidateEnvs.ts:1-24 | collects the keys without a value, never collects an undefined one and never throws; warns iff some key has no value |
| ValidateEnvs.SinInformacion | src/util/ValidateEnvs.ts:4-8 | every listed key has an entry without a value |
| ValidateEnvs.SinInformacionCuenta | src/util/ValidateEnvs.ts:4-8 | one entry per position whose value is '', undefined or null |
| ValidateEnvs.SinInformacionCompleta | src/util/ValidateEnvs.ts:4-8 | every key without a value is listed |

## Left out

- Numbers are exact reals and unbounded integers. IEEE-754 rounding is not modelled.
- JSON serialisation in the cache is not modelled: a cached value reads back as the value stored.
- Key expiry after a TTL is not modelled: the TTL is recorded but never runs out.
- Glob matching covers `*` and `?` only. The `[...]` classes and `\` escapes of Redis patterns are not modelled; the services never call `delPattern`.
- `toUpperCase` is modelled on the Latin-1 range only. Characters beyond it are left unchanged.
- EnvioEntity.NuevoEnvio: the state is narrowed to the three literals. The source casts any string without checking it, and an unknown stored state would make `validarTransicionEstado` throw a TypeError instead of refusing. In this model no such state is ever stored: `save` writes only 'En espera', and `updateEstado` writes only a state the service has validated.
- The Redis client and the PostgreSQL driver are plain state. Connections, transactions, atomicity and concurrent requests are not modelled. The upsert of the day counter is a sequential increment.
- Timestamps (`fechaCreacion`, `fechaActualizacion`, `fechaCambio`), `Date.now()` and `Math.random()` are not modelled. The shipment id and the calendar date are parameters of `RegistrarEnvio.Run`.
- `getAllTarifas` returns the active rows in table order. `ORDER BY origen, destino` is not modelled. `getHistorial` returns rows in insertion order, which is also what `ORDER BY fecha_cambio` gives for sequential writes.
- The unique keys of `envios` (tracking number and id) come from the database schema, which is not part of this model. They are assumed, and a duplicate makes `save` fail with nothing changed.
- `save` does not write `moneda`, so a saved shipment reads back in the default COP (`PostgresRepository.Almacenado`).
- `(pesoFacturable || 0)`: the billable weight is never undefined here, so the fallback is not modelled.
- ActualizarEstado.Run: the 'Error de actualización' branch is not reachable in the model: `updateEstado` reads back the row it has just updated.
- The services call cache commands that do not fail. A failing Redis command behaves like a disconnected cache, which the `fails` parameter of each cache method covers.
- A value of the wrong kind under a service's key is treated as a miss. The key families are disjoint (`ClavesCache.ClavesDisjuntas`), so this cannot arise from the services' own writes.
- Coherence is proved for route names without ':' (`ClavesCache.ColisionDeClaves` shows why).
- ActualizarEstado.Run: coherence is proved only when the cache is connected. Otherwise `del` is a no-op, and a stale entry for the shipment stays cached.
- Request validation (the Joi schemas), the HTTP layer, the error middleware, logging and configuration loading are not part of this model. The requested state arrives as text and is checked by the service itself. Positive volumetric factors in the rate table are a precondition (`Coherencia.FactoresPositivos`), because a factor of zero would divide by zero.
- ValidateEnvs.Validar: the configuration record is a sequence of (key, value) pairs in iteration order. `process.env` is a map that is never consulted, because that line is unreachable. The warning is returned rather than printed.
- RegistrarEnvio.DimensionesInyectiva: stated for non-negative dimensions only. The request schema requires positive dimensions, and a negative one would introduce a '-'.
- PostgresRepository.PostgresEnvioRepository.Save: what the saved shipment reads back as is stated by `PostgresRepository.GuardarLee`, not in the method's own contract. The same holds for UpdateEstado and `PostgresRepository.ActualizarLee`.
- HealthRouter.Ready: `timestamp` is not modelled. `uptime` and the response time of `SELECT 1` are parameters.
- The `/health` and `/metrics` handlers and the rest of `HealthRouter.ts` are not part of this model.
