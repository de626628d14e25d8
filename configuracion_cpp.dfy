/**
 * The C++ settings singleton of prac07/eje01/Configuracion.h: two independent
 * setters and getters, and the static pointer with its teardown.
 */
module ConfiguracionCpp {
  import opened Ajustes

  class Configuracion {
    var idioma: string
    var zonaHoraria: string

    function Modelo(): Estado
      reads this
    {
      Estado(idioma, zonaHoraria)
    }

    /** The constructor (private in C++) sets the defaults. */
    constructor ()
      ensures Modelo() == Inicial
    {
      idioma := "Español";
      zonaHoraria := "UTC-6";
    }

    /** Changes the language only; the getter then returns the new value. */
    method SetIdioma(nuevoIdioma: string)
      modifies this
      ensures GetIdioma() == nuevoIdioma
      ensures Modelo() == old(Modelo()).(idioma := nuevoIdioma)
    {
      idioma := nuevoIdioma;
    }

    /** Changes the time zone only; the getter then returns the new value. */
    method SetZonaHoraria(nuevaZona: string)
      modifies this
      ensures GetZonaHoraria() == nuevaZona
      ensures Modelo() == old(Modelo()).(zonaHoraria := nuevaZona)
    {
      zonaHoraria := nuevaZona;
    }

    /** The language currently set. */
    function GetIdioma(): (r: string)
      reads this
      ensures r == Modelo().idioma
    {
      idioma
    }

    /** The time zone currently set. */
    function GetZonaHoraria(): (r: string)
      reads this
      ensures r == Modelo().zonaHoraria
    {
      zonaHoraria
    }
  }

  /** The static pointer `Configuracion::instancia`, null until first use. */
  class Instancia {
    var instancia: Configuracion?

    constructor ()
      ensures instancia == null
    {
      instancia := null;
    }

    /** Creates the settings with the defaults on the first call; later calls return them unchanged. */
    method ObtenerInstancia() returns (c: Configuracion)
      modifies this
      ensures instancia == c
      ensures old(instancia) == null ==> fresh(c) && c.Modelo() == Inicial
      ensures old(instancia) != null ==> c == old(instancia) && c.Modelo() == old(c.Modelo())
    {
      if instancia == null {
        instancia := new Configuracion();
      }
      c := instancia;
    }

    method DestruirInstancia()
      modifies this
      ensures instancia == null
    {
      if instancia != null {
        instancia := null;
      }
    }
  }

  /** After a teardown the next request gives the defaults back, whatever was set before. */
  method DestruirYObtener(g: Instancia) returns (c: Configuracion)
    modifies g
    ensures fresh(c) && g.instancia == c
    ensures c.GetIdioma() == "Español" && c.GetZonaHoraria() == "UTC-6"
  {
    g.DestruirInstancia();
    c := g.ObtenerInstancia();
  }
}
