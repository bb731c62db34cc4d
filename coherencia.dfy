/** When the cache agrees with the database: every cached shipment, rate
    list and rate is what the database would answer for its key. The
    services keep this, so a cache hit answers what a miss would. */
module Coherencia {
  import opened Wrappers
  import opened EnvioEntity
  import opened EnvioRepository
  import opened RedisCache
  import opened PostgresRepository
  import opened ClavesCache

  /** Every cached `{ envio, historial }` is the shipment findByGuia reads
      for its tracking number and the history getHistorial reads for its id. */
  ghost predicate EnviosCoherentes(store: map<string, Entrada>, envios: map<string, FilaEnvio>, unidades: seq<FilaUnidad>, historial: seq<HistorialEstado>) {
    forall g :: EnvioCacheKey(g) in store && store[EnvioCacheKey(g)].value.EnvioValue? ==>
      EnvioEn(envios, unidades, g) == Some(store[EnvioCacheKey(g)].value.envio)
      && HistorialDe(historial, store[EnvioCacheKey(g)].value.envio.id) == store[EnvioCacheKey(g)].value.historial
  }

  /** The cached rate list is getAllTarifas, and every cached rate of a
      route whose names have no ':' is what getTarifa answers. */
  ghost predicate TarifasCoherentes(store: map<string, Entrada>, tarifas: seq<Tarifa>) {
    (CLAVE_TARIFAS in store && store[CLAVE_TARIFAS].value.TarifasValue? ==>
       store[CLAVE_TARIFAS].value.tarifas == TarifasActivas(tarifas))
    && (forall o, d, t ::
          SinDosPuntos(o) && SinDosPuntos(d) && TarifaCacheKey(o, d, TipoProductoLiteral(t)) in store
          && store[TarifaCacheKey(o, d, TipoProductoLiteral(t))].value.TarifaValue? ==>
            BuscarTarifa(tarifas, o, d, TipoProductoLiteral(t)) == Success(Some(store[TarifaCacheKey(o, d, TipoProductoLiteral(t))].value.tarifa)))
  }

  ghost predicate Coherente(store: map<string, Entrada>, repo: PostgresEnvioRepository)
    reads repo
  {
    EnviosCoherentes(store, repo.envios, repo.unidades, repo.historial) && TarifasCoherentes(store, repo.tarifas)
  }

  /** Every cached rate has a positive volumetric factor. */
  ghost predicate FactoresEnCachePositivos(store: map<string, Entrada>) {
    forall k | k in store && store[k].value.TarifaValue? :: store[k].value.tarifa.factorVolumetrico > 0.0
  }

  /** Every row of the rate table has a positive volumetric factor. */
  predicate FactoresPositivos(tarifas: seq<Tarifa>) {
    forall i :: 0 <= i < |tarifas| ==> tarifas[i].factorVolumetrico > 0.0
  }

  /** A rate getTarifa returns comes from a row, so it keeps that row's positive factor. */
  lemma FactorDeConsulta(tarifas: seq<Tarifa>, o: string, d: string, tipo: string)
    requires FactoresPositivos(tarifas)
    requires BuscarTarifa(tarifas, o, d, tipo).Success? && BuscarTarifa(tarifas, o, d, tipo).value.Some?
    ensures BuscarTarifa(tarifas, o, d, tipo).value.value.factorVolumetrico > 0.0
  {
    var t :| t in tarifas && Coincide(t, o, d, tipo);
  }

  // ---------------------------------------------------------------------
  // Writes to the cache
  // ---------------------------------------------------------------------

  /** Caching the rate getTarifa returned for a route without ':' keeps the cache coherent. */
  lemma EscribirTarifa(store: map<string, Entrada>, envios: map<string, FilaEnvio>, unidades: seq<FilaUnidad>, historial: seq<HistorialEstado>, tarifas: seq<Tarifa>,
                       o: string, d: string, t: TipoProducto, tb: TarifaBase, ttl: int)
    requires EnviosCoherentes(store, envios, unidades, historial) && TarifasCoherentes(store, tarifas)
    requires SinDosPuntos(o) && SinDosPuntos(d)
    requires BuscarTarifa(tarifas, o, d, TipoProductoLiteral(t)) == Success(Some(tb))
    ensures var store2 := store[TarifaCacheKey(o, d, TipoProductoLiteral(t)) := Entrada(TarifaValue(tb), ttl)];
      EnviosCoherentes(store2, envios, unidades, historial) && TarifasCoherentes(store2, tarifas)
  {
    var k := TarifaCacheKey(o, d, TipoProductoLiteral(t));
    var store2 := store[k := Entrada(TarifaValue(tb), ttl)];
    forall g | EnvioCacheKey(g) in store2 && store2[EnvioCacheKey(g)].value.EnvioValue?
      ensures EnvioCacheKey(g) in store && store2[EnvioCacheKey(g)] == store[EnvioCacheKey(g)]
    {
      ClavesDisjuntas(o, d, TipoProductoLiteral(t), g);
    }
    ClavesDisjuntas(o, d, TipoProductoLiteral(t), "");
    forall o2, d2, t2 | SinDosPuntos(o2) && SinDosPuntos(d2) && TarifaCacheKey(o2, d2, TipoProductoLiteral(t2)) in store2
                         && store2[TarifaCacheKey(o2, d2, TipoProductoLiteral(t2))].value.TarifaValue?
      ensures BuscarTarifa(tarifas, o2, d2, TipoProductoLiteral(t2)) == Success(Some(store2[TarifaCacheKey(o2, d2, TipoProductoLiteral(t2))].value.tarifa))
    {
      if TarifaCacheKey(o2, d2, TipoProductoLiteral(t2)) == k {
        TarifaCacheKeyInyectiva(o2, d2, TipoProductoLiteral(t2), o, d, TipoProductoLiteral(t));
        TipoProductoLiteralInyectivo(t2, t);
      }
    }
  }

  lemma TipoProductoLiteralInyectivo(a: TipoProducto, b: TipoProducto)
    requires TipoProductoLiteral(a) == TipoProductoLiteral(b)
    ensures a == b
  {
  }

  /** Caching the rate list getAllTarifas returned keeps the cache coherent. */
  lemma EscribirListaTarifas(store: map<string, Entrada>, envios: map<string, FilaEnvio>, unidades: seq<FilaUnidad>, historial: seq<HistorialEstado>, tarifas: seq<Tarifa>, ttl: int)
    requires EnviosCoherentes(store, envios, unidades, historial) && TarifasCoherentes(store, tarifas)
    ensures var store2 := store[CLAVE_TARIFAS := Entrada(TarifasValue(TarifasActivas(tarifas)), ttl)];
      EnviosCoherentes(store2, envios, unidades, historial) && TarifasCoherentes(store2, tarifas)
  {
    var store2 := store[CLAVE_TARIFAS := Entrada(TarifasValue(TarifasActivas(tarifas)), ttl)];
    forall g | EnvioCacheKey(g) in store2
      ensures EnvioCacheKey(g) in store && store2[EnvioCacheKey(g)] == store[EnvioCacheKey(g)]
    {
      ClavesDisjuntas("", "", "", g);
    }
    forall o, d, t | TarifaCacheKey(o, d, TipoProductoLiteral(t)) in store2
      ensures TarifaCacheKey(o, d, TipoProductoLiteral(t)) in store
              && store2[TarifaCacheKey(o, d, TipoProductoLiteral(t))] == store[TarifaCacheKey(o, d, TipoProductoLiteral(t))]
    {
      ClavesDisjuntas(o, d, TipoProductoLiteral(t), "");
    }
  }

  /** Caching the shipment findByGuia read and the history getHistorial
      read for it keeps the cache coherent. */
  lemma EscribirEnvio(store: map<string, Entrada>, envios: map<string, FilaEnvio>, unidades: seq<FilaUnidad>, historial: seq<HistorialEstado>, tarifas: seq<Tarifa>,
                      guia: string, e: Envio, ttl: int)
    requires EnviosCoherentes(store, envios, unidades, historial) && TarifasCoherentes(store, tarifas)
    requires EnvioEn(envios, unidades, guia) == Some(e)
    ensures var store2 := store[EnvioCacheKey(guia) := Entrada(EnvioValue(e, HistorialDe(historial, e.id)), ttl)];
      EnviosCoherentes(store2, envios, unidades, historial) && TarifasCoherentes(store2, tarifas)
  {
    var k := EnvioCacheKey(guia);
    var store2 := store[k := Entrada(EnvioValue(e, HistorialDe(historial, e.id)), ttl)];
    forall g | EnvioCacheKey(g) in store2 && EnvioCacheKey(g) == k
      ensures g == guia
    {
      EnvioCacheKeyInyectiva(g, guia);
    }
    ClavesDisjuntas("", "", "", guia);
    forall o, d, t | TarifaCacheKey(o, d, TipoProductoLiteral(t)) in store2
      ensures TarifaCacheKey(o, d, TipoProductoLiteral(t)) in store
              && store2[TarifaCacheKey(o, d, TipoProductoLiteral(t))] == store[TarifaCacheKey(o, d, TipoProductoLiteral(t))]
    {
      ClavesDisjuntas(o, d, TipoProductoLiteral(t), guia);
    }
  }

  /** Deleting any key keeps the cache coherent. */
  lemma Borrar(store: map<string, Entrada>, envios: map<string, FilaEnvio>, unidades: seq<FilaUnidad>, historial: seq<HistorialEstado>, tarifas: seq<Tarifa>, k: string)
    requires EnviosCoherentes(store, envios, unidades, historial) && TarifasCoherentes(store, tarifas)
    ensures EnviosCoherentes(store - {k}, envios, unidades, historial) && TarifasCoherentes(store - {k}, tarifas)
  {
  }

  // ---------------------------------------------------------------------
  // Writes to the database
  // ---------------------------------------------------------------------

  lemma IdDeEnvio(envios: map<string, FilaEnvio>, unidades: seq<FilaUnidad>, g: string)
    requires g in envios
    ensures EnvioEn(envios, unidades, g).value.id == envios[g].id
  {
  }

  /** Saving a new shipment leaves every cached shipment coherent: none of
      them is the new one, and their rows and histories do not change. */
  lemma GuardarCoherente(store: map<string, Entrada>, envios: map<string, FilaEnvio>, unidades: seq<FilaUnidad>, historial: seq<HistorialEstado>, siguiente: nat, e: Envio)
    requires e.numeroGuia !in envios && e.id !in IdsDe(envios)
    requires EnviosCoherentes(store, envios, unidades, historial)
    ensures EnviosCoherentes(store, envios[e.numeroGuia := FilaDe(e)], unidades + FilasUnidad(e.id, e.unidades),
                             historial + [FilaRegistro(siguiente, e)])
  {
    var envios2 := envios[e.numeroGuia := FilaDe(e)];
    var unidades2 := unidades + FilasUnidad(e.id, e.unidades);
    var historial2 := historial + [FilaRegistro(siguiente, e)];
    forall g | EnvioCacheKey(g) in store && store[EnvioCacheKey(g)].value.EnvioValue?
      ensures EnvioEn(envios2, unidades2, g) == Some(store[EnvioCacheKey(g)].value.envio)
      ensures HistorialDe(historial2, store[EnvioCacheKey(g)].value.envio.id) == store[EnvioCacheKey(g)].value.historial
    {
      var v := store[EnvioCacheKey(g)].value;
      assert g in envios;
      IdDeEnvio(envios, unidades, g);
      assert v.envio.id in IdsDe(envios);
      GuardarNoAfecta(envios, unidades, e, g);
      HistorialDeAgregar(historial, FilaRegistro(siguiente, e), v.envio.id);
    }
  }

  /** Changing the state of one shipment and dropping its cache entry leaves
      every other cached shipment coherent: ids are unique, so no other
      shipment's history grows. */
  lemma ActualizarCoherente(store: map<string, Entrada>, envios: map<string, FilaEnvio>, unidades: seq<FilaUnidad>, historial: seq<HistorialEstado>, siguiente: nat,
                            guia: string, nuevo: Estado, ubicacion: Option<string>, observacion: Option<string>)
    requires TablasValidas(envios, unidades, historial, siguiente)
    requires guia in envios
    requires EnviosCoherentes(store, envios, unidades, historial)
    ensures EnviosCoherentes(store - {EnvioCacheKey(guia)}, envios[guia := envios[guia].(estado := nuevo)], unidades,
                             historial + [FilaCambio(siguiente, envios[guia], nuevo, ubicacion, observacion)])
  {
    var prev := envios[guia];
    var envios2 := envios[guia := prev.(estado := nuevo)];
    var fila := FilaCambio(siguiente, prev, nuevo, ubicacion, observacion);
    var store2 := store - {EnvioCacheKey(guia)};
    ActualizarLee(envios, unidades, historial, siguiente, guia, nuevo, ubicacion, observacion);
    forall g | EnvioCacheKey(g) in store2 && store2[EnvioCacheKey(g)].value.EnvioValue?
      ensures EnvioEn(envios2, unidades, g) == Some(store2[EnvioCacheKey(g)].value.envio)
      ensures HistorialDe(historial + [fila], store2[EnvioCacheKey(g)].value.envio.id) == store2[EnvioCacheKey(g)].value.historial
    {
      var v := store[EnvioCacheKey(g)].value;
      assert g != guia;
      assert g in envios;
      IdDeEnvio(envios, unidades, g);
      assert v.envio.id != prev.id;
      HistorialDeAgregar(historial, fila, v.envio.id);
    }
  }
}
