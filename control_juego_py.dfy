/**
 * The Python game controller of prac07/eje04/control_juego.py. `__new__` keeps
 * the single object in the class attribute `_instancia` and marks a new one
 * uninitialised; `__init__`, run on every `ControlJuego()` call, sets the
 * fields only the first time. Unlike the C++ header, the two `registrar_*`
 * methods report success.
 */
module ControlJuegoPy {
  import opened Juego

  class ControlJuego {
    var inicializado: bool
    var nivelActual: int
    var puntaje: int
    var vidas: int
    var puntuacionMaxima: int
    var juegoEnCurso: bool
    var enemigosEliminados: int
    var itemsRecolectados: int

    function Modelo(): Estado
      reads this
    {
      Estado(nivelActual, puntaje, vidas, puntuacionMaxima, juegoEnCurso, enemigosEliminados, itemsRecolectados)
    }

    /** `object.__new__` followed by `_inicializado = False`: the game fields are not set yet. */
    constructor Nuevo()
      ensures !inicializado
    {
      inicializado := false;
    }

    /** `__init__`: sets the initial state on the first call and does nothing afterwards. */
    method Init()
      modifies this
      ensures inicializado
      ensures !old(inicializado) ==> Modelo() == Inicial
      ensures old(inicializado) ==> Modelo() == old(Modelo())
    {
      if !inicializado {
        inicializado := true;
        nivelActual, puntaje, vidas := 1, 0, 3;
        puntuacionMaxima, juegoEnCurso := 0, false;
        enemigosEliminados, itemsRecolectados := 0, 0;
      }
    }

    method IniciarJuego() returns (ok: bool)
      requires inicializado
      modifies this
      ensures inicializado
      ensures Paso(Modelo(), ok) == old(Modelo()).IniciarJuego()
    {
      if juegoEnCurso {
        return false;
      }
      nivelActual := 1;
      puntaje := 0;
      vidas := 3;
      enemigosEliminados := 0;
      itemsRecolectados := 0;
      juegoEnCurso := true;
      return true;
    }

    method FinalizarJuego() returns (ok: bool)
      requires inicializado
      modifies this
      ensures inicializado
      ensures Paso(Modelo(), ok) == old(Modelo()).FinalizarJuego()
    {
      if !juegoEnCurso {
        return false;
      }
      if puntaje > puntuacionMaxima {
        puntuacionMaxima := puntaje;
      }
      juegoEnCurso := false;
      return true;
    }

    method SubirNivel() returns (ok: bool)
      requires inicializado
      modifies this
      ensures inicializado
      ensures Paso(Modelo(), ok) == old(Modelo()).SubirNivel()
    {
      if !juegoEnCurso {
        return false;
      }
      nivelActual := nivelActual + 1;
      var bonus := nivelActual * 100;
      puntaje := puntaje + bonus;
      return true;
    }

    method SumarPuntos(puntos: int) returns (ok: bool)
      requires inicializado
      modifies this
      ensures inicializado
      ensures Paso(Modelo(), ok) == old(Modelo()).SumarPuntos(puntos)
    {
      if !juegoEnCurso {
        return false;
      }
      puntaje := puntaje + puntos;
      return true;
    }

    method PerderVida() returns (ok: bool)
      requires inicializado
      modifies this
      ensures inicializado
      ensures Paso(Modelo(), ok) == old(Modelo()).PerderVida()
    {
      if !juegoEnCurso {
        return false;
      }
      vidas := vidas - 1;
      if vidas <= 0 {
        var fin := FinalizarJuego();
        return false;
      }
      return true;
    }

    method GanarVida() returns (ok: bool)
      requires inicializado
      modifies this
      ensures inicializado
      ensures Paso(Modelo(), ok) == old(Modelo()).GanarVida()
    {
      if !juegoEnCurso {
        return false;
      }
      vidas := vidas + 1;
      return true;
    }

    method RegistrarEnemigoEliminado() returns (ok: bool)
      requires inicializado
      modifies this
      ensures inicializado
      ensures Paso(Modelo(), ok) == old(Modelo()).RegistrarEnemigoEliminado()
    {
      if !juegoEnCurso {
        return false;
      }
      enemigosEliminados := enemigosEliminados + 1;
      return true;
    }

    method RegistrarItemRecolectado() returns (ok: bool)
      requires inicializado
      modifies this
      ensures inicializado
      ensures Paso(Modelo(), ok) == old(Modelo()).RegistrarItemRecolectado()
    {
      if !juegoEnCurso {
        return false;
      }
      itemsRecolectados := itemsRecolectados + 1;
      return true;
    }

    function GetNivel(): (n: int)
      reads this
      requires inicializado
      ensures n == Modelo().nivel
      ensures Modelo().Valid() ==> n >= 1
    {
      nivelActual
    }

    function GetPuntaje(): (n: int)
      reads this
      requires inicializado
      ensures n == Modelo().puntaje
    {
      puntaje
    }

    function GetVidas(): (n: int)
      reads this
      requires inicializado
      ensures n == Modelo().vidas
      ensures Modelo().Valid() ==> n >= 0 && (juegoEnCurso ==> n >= 1)
    {
      vidas
    }

    function EstaEnCurso(): (b: bool)
      reads this
      requires inicializado
      ensures b == Modelo().enCurso
      ensures Modelo().Valid() && b ==> vidas >= 1
    {
      juegoEnCurso
    }
  }

  /** The class attribute `ControlJuego._instancia`, `None` until the first call. */
  class Instancia {
    var instancia: ControlJuego?

    /** A stored object has always been through `__init__`. */
    ghost predicate Valid()
      reads this, instancia
    {
      instancia != null ==> instancia.inicializado
    }

    constructor ()
      ensures instancia == null && Valid()
    {
      instancia := null;
    }

    /**
     * The call `ControlJuego()`: `__new__` creates the object only when there is
     * none, then `__init__` runs; every call yields the same object, and only
     * the first one sets its state.
     */
    method Llamar() returns (c: ControlJuego)
      requires Valid()
      modifies this, instancia
      ensures Valid() && instancia == c && c.inicializado
      ensures old(instancia) == null ==> fresh(c) && c.Modelo() == Inicial
      ensures old(instancia) != null ==> c == old(instancia) && c.Modelo() == old(c.Modelo())
    {
      if instancia == null {
        instancia := new ControlJuego.Nuevo();
      }
      c := instancia;
      c.Init();
    }
  }
}
