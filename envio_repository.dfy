/** The records the repositories hand back: rates and state-history rows. */
module EnvioRepository {
  import opened Wrappers
  import opened EnvioEntity

  /** A row of the rate table. */
  datatype Tarifa = Tarifa(
    id: int,
    origen: string,
    destino: string,
    tipoProducto: string,
    precioBase: real,
    factorVolumetrico: real,
    activo: bool)

  /** What getTarifa returns for one route and product. */
  datatype TarifaBase = TarifaBase(precioBase: real, factorVolumetrico: real)

  /** A row of the state history; `estadoAnterior` is null only on the row
      written when the shipment is registered. */
  datatype HistorialEstado = HistorialEstado(
    id: nat,
    envioId: string,
    estadoAnterior: Option<Estado>,
    estadoNuevo: Estado,
    ubicacion: Option<string>,
    observacion: Option<string>)
}
