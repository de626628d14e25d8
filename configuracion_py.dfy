/**
 * The Python settings singleton of prac07/eje01/configuracion.py: `__new__`
 * creates the object and sets the defaults only when `_instancia` is `None`.
 */
module ConfiguracionPy {
  import opened Ajustes

  class Configuracion {
    var idioma: string
    var zonaHoraria: string

    function Modelo(): Estado
      reads this
    {
      Estado(idioma, zonaHoraria)
    }

    /** `object.__new__` and the two default assignments that follow it. */
    constructor Nuevo()
      ensures Modelo() == Inicial
    {
      idioma := "Español";
      zonaHoraria := "UTC-6";
    }

    method SetIdioma(idioma': string)
      modifies this
      ensures Modelo() == old(Modelo()).(idioma := idioma')
    {
      idioma := idioma';
    }

    method SetZonaHoraria(zona: string)
      modifies this
      ensures Modelo() == old(Modelo()).(zonaHoraria := zona)
    {
      zonaHoraria := zona;
    }
  }

  /** The class attribute `Configuracion._instancia`, `None` until the first call. */
  class Instancia {
    var instancia: Configuracion?

    constructor ()
      ensures instancia == null
    {
      instancia := null;
    }

    /** The call `Configuracion()`: the defaults on the first call only; later calls keep what was set. */
    method Llamar() returns (c: Configuracion)
      modifies this
      ensures instancia == c
      ensures old(instancia) == null ==> fresh(c) && c.Modelo() == Inicial
      ensures old(instancia) != null ==> c == old(instancia) && c.Modelo() == old(c.Modelo())
    {
      if instancia == null {
        instancia := new Configuracion.Nuevo();
      }
      c := instancia;
    }
  }
}
