/**
 * The C++ game controller of prac07/eje04/ControlJuego.h: a class whose methods
 * update its fields in place, and the static pointer that holds the single
 * instance. Each method is proved to make exactly the transition that the
 * function of the same name on Juego.Estado describes.
 */
module ControlJuegoCpp {
  import opened Juego

  class ControlJuego {
    var nivelActual: int
    var puntaje: int
    var vidas: int
    var puntuacionMaxima: int
    var juegoEnCurso: bool
    var enemigosEliminados: int
    var itemsRecolectados: int

    /** The fields as one value. */
    function Modelo(): Estado
      reads this
    {
      Estado(nivelActual, puntaje, vidas, puntuacionMaxima, juegoEnCurso, enemigosEliminados, itemsRecolectados)
    }

    /** The constructor (private in C++): level 1, no score, 3 lives, no record, no game running. */
    constructor ()
      ensures Modelo() == Inicial
    {
      nivelActual, puntaje, vidas := 1, 0, 3;
      puntuacionMaxima, juegoEnCurso := 0, false;
      enemigosEliminados, itemsRecolectados := 0, 0;
    }

    method IniciarJuego() returns (ok: bool)
      modifies this
      ensures Paso(Modelo(), ok) == old(Modelo()).IniciarJuego()
    {
      if juegoEnCurso {
        return false;
      }
      nivelActual := 1;
      puntaje := 0;
      vidas := 3;
      enemigosEliminados := 0;
      itemsRecolectados := 0;
      juegoEnCurso := true;
      return true;
    }

    method FinalizarJuego() returns (ok: bool)
      modifies this
      ensures Paso(Modelo(), ok) == old(Modelo()).FinalizarJuego()
    {
      if !juegoEnCurso {
        return false;
      }
      if puntaje > puntuacionMaxima {
        puntuacionMaxima := puntaje;
      }
      juegoEnCurso := false;
      return true;
    }

    method SubirNivel() returns (ok: bool)
      modifies this
      ensures Paso(Modelo(), ok) == old(Modelo()).SubirNivel()
    {
      if !juegoEnCurso {
        return false;
      }
      nivelActual := nivelActual + 1;
      var bonus := nivelActual * 100;
      puntaje := puntaje + bonus;
      return true;
    }

    method SumarPuntos(puntos: int) returns (ok: bool)
      modifies this
      ensures Paso(Modelo(), ok) == old(Modelo()).SumarPuntos(puntos)
    {
      if !juegoEnCurso {
        return false;
      }
      puntaje := puntaje + puntos;
      return true;
    }

    method PerderVida() returns (ok: bool)
      modifies this
      ensures Paso(Modelo(), ok) == old(Modelo()).PerderVida()
    {
      if !juegoEnCurso {
        return false;
      }
      vidas := vidas - 1;
      if vidas <= 0 {
        var fin := FinalizarJuego();
        return false;
      }
      return true;
    }

    method GanarVida() returns (ok: bool)
      modifies this
      ensures Paso(Modelo(), ok) == old(Modelo()).GanarVida()
    {
      if !juegoEnCurso {
        return false;
      }
      vidas := vidas + 1;
      return true;
    }

    /** Returns nothing in C++; the count changes only while a game is running. */
    method RegistrarEnemigoEliminado()
      modifies this
      ensures Modelo() == old(Modelo()).RegistrarEnemigoEliminado().estado
    {
      if juegoEnCurso {
        enemigosEliminados := enemigosEliminados + 1;
      }
    }

    method RegistrarItemRecolectado()
      modifies this
      ensures Modelo() == old(Modelo()).RegistrarItemRecolectado().estado
    {
      if juegoEnCurso {
        itemsRecolectados := itemsRecolectados + 1;
      }
    }

    function GetNivel(): (n: int)
      reads this
      ensures n == Modelo().nivel
      ensures Modelo().Valid() ==> n >= 1
    {
      nivelActual
    }

    function GetPuntaje(): (n: int)
      reads this
      ensures n == Modelo().puntaje
    {
      puntaje
    }

    function GetVidas(): (n: int)
      reads this
      ensures n == Modelo().vidas
      ensures Modelo().Valid() ==> n >= 0 && (juegoEnCurso ==> n >= 1)
    {
      vidas
    }

    function EstaEnCurso(): (b: bool)
      reads this
      ensures b == Modelo().enCurso
      ensures Modelo().Valid() && b ==> vidas >= 1
    {
      juegoEnCurso
    }
  }

  /** The static pointer `ControlJuego::instancia`, null until first use. */
  class Instancia {
    var instancia: ControlJuego?

    constructor ()
      ensures instancia == null
    {
      instancia := null;
    }

    /** Creates the controller on the first call only; every call returns the one instance, untouched. */
    method ObtenerInstancia() returns (c: ControlJuego)
      modifies this
      ensures instancia == c
      ensures old(instancia) == null ==> fresh(c) && c.Modelo() == Inicial
      ensures old(instancia) != null ==> c == old(instancia) && c.Modelo() == old(c.Modelo())
    {
      if instancia == null {
        instancia := new ControlJuego();
      }
      c := instancia;
    }

    /** Clears the pointer; the `delete` of the old instance is not modelled. */
    method DestruirInstancia()
      modifies this
      ensures instancia == null
    {
      if instancia != null {
        instancia := null;
      }
    }
  }

  /** After a teardown the next request builds a fresh controller in its initial state. */
  method DestruirYObtener(g: Instancia) returns (c: ControlJuego)
    modifies g
    ensures fresh(c) && g.instancia == c
    ensures c.Modelo() == Inicial
  {
    g.DestruirInstancia();
    c := g.ObtenerInstancia();
  }
}
