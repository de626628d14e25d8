/**
 * The settings held by the `Configuracion` singleton (prac07/eje01): a
 * language and a time zone, with the defaults both the C++ header and the
 * Python mirror give a new instance.
 */
module Ajustes {

  datatype Estado = Estado(idioma: string, zonaHoraria: string)

  /** The state of a freshly created instance. */
  const Inicial := Estado(idioma := "Español", zonaHoraria := "UTC-6")
}
