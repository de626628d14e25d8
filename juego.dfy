/**
 * Game state held by the `ControlJuego` singleton (prac07/eje04), as a value.
 *
 * Every operation is a function from the state before the call to a `Paso`:
 * the state after the call and the flag the source returns. The C++ header and
 * the Python mirror implement the same transitions; their classes, in modules
 * ControlJuegoCpp and ControlJuegoPy, are proved against these functions.
 */
module Juego {

  datatype Estado = Estado(
    nivel: int,
    puntaje: int,
    vidas: int,
    record: int,
    enCurso: bool,
    enemigos: int,
    items: int)
  {
    /** What every reachable state satisfies. */
    predicate Valid() {
      && nivel >= 1
      && vidas >= 0
      && (enCurso ==> vidas >= 1)
      && record >= 0
      && enemigos >= 0
      && items >= 0
    }

    /** Start a game: refused while one is running; otherwise everything but the record is reset. */
    function IniciarJuego(): (p: Paso)
      ensures p.ok <==> !enCurso
      ensures !p.ok ==> p.estado == this
      ensures p.ok ==> p.estado == Inicial.(record := record, enCurso := true)
      ensures Valid() ==> p.estado.Valid()
    {
      if enCurso then Paso(this, false)
      else Paso(this.(nivel := 1, puntaje := 0, vidas := 3, enemigos := 0, items := 0, enCurso := true), true)
    }

    /** End the game: refused when none is running; otherwise the record keeps the best score. */
    function FinalizarJuego(): (p: Paso)
      ensures p.ok <==> enCurso
      ensures !p.ok ==> p.estado == this
      ensures p.ok ==> !p.estado.enCurso
      ensures p.ok ==> p.estado.record >= puntaje && (p.estado.record == puntaje || p.estado.record == record)
      ensures p.ok ==> p.estado == this.(enCurso := false, record := p.estado.record)
      ensures p.estado.record >= record
      ensures Valid() ==> p.estado.Valid()
    {
      if !enCurso then Paso(this, false)
      else Paso(this.(record := if puntaje > record then puntaje else record, enCurso := false), true)
    }

    /** Next level; the score gains a bonus of 100 times the new level. */
    function SubirNivel(): (p: Paso)
      ensures p.ok <==> enCurso
      ensures !p.ok ==> p.estado == this
      ensures p.ok ==> p.estado.nivel == nivel + 1 && p.estado.puntaje - puntaje == 100 * p.estado.nivel
      ensures p.ok ==> p.estado == this.(nivel := p.estado.nivel, puntaje := p.estado.puntaje)
      ensures Valid() ==> p.estado.Valid()
    {
      if !enCurso then Paso(this, false)
      else
        var n := nivel + 1;
        Paso(this.(nivel := n, puntaje := puntaje + n * 100), true)
    }

    /** Add (possibly negative) points to the score of the running game. */
    function SumarPuntos(puntos: int): (p: Paso)
      ensures p.ok <==> enCurso
      ensures !p.ok ==> p.estado == this
      ensures p.ok ==> p.estado.puntaje - puntaje == puntos
      ensures p.ok ==> p.estado == this.(puntaje := p.estado.puntaje)
      ensures Valid() ==> p.estado.Valid()
    {
      if !enCurso then Paso(this, false)
      else Paso(this.(puntaje := puntaje + puntos), true)
    }

    /**
     * Lose a life. Losing the last one ends the game exactly as FinalizarJuego
     * does, and the call then reports false.
     */
    function PerderVida(): (p: Paso)
      ensures !enCurso ==> p == Paso(this, false)
      ensures p.ok <==> enCurso && vidas - 1 > 0
      ensures enCurso ==> p.estado.vidas == vidas - 1
      ensures p.ok ==> p.estado == this.(vidas := vidas - 1)
      ensures enCurso && !p.ok ==> p.estado == this.(vidas := vidas - 1).FinalizarJuego().estado
      ensures enCurso && !p.ok ==> !p.estado.enCurso && p.estado.record >= puntaje
      ensures Valid() ==> p.estado.Valid()
    {
      if !enCurso then Paso(this, false)
      else
        var e := this.(vidas := vidas - 1);
        if e.vidas <= 0 then Paso(e.FinalizarJuego().estado, false) else Paso(e, true)
    }

    /** Gain a life in the running game. */
    function GanarVida(): (p: Paso)
      ensures p.ok <==> enCurso
      ensures !p.ok ==> p.estado == this
      ensures p.ok ==> p.estado == this.(vidas := vidas + 1)
      ensures Valid() ==> p.estado.Valid()
    {
      if !enCurso then Paso(this, false)
      else Paso(this.(vidas := vidas + 1), true)
    }

    /** Count a defeated enemy, only while a game is running. */
    function RegistrarEnemigoEliminado(): (p: Paso)
      ensures p.ok <==> enCurso
      ensures !p.ok ==> p.estado == this
      ensures p.ok ==> p.estado == this.(enemigos := enemigos + 1)
      ensures Valid() ==> p.estado.Valid()
    {
      if !enCurso then Paso(this, false)
      else Paso(this.(enemigos := enemigos + 1), true)
    }

    /** Count a collected item, only while a game is running. */
    function RegistrarItemRecolectado(): (p: Paso)
      ensures p.ok <==> enCurso
      ensures !p.ok ==> p.estado == this
      ensures p.ok ==> p.estado == this.(items := items + 1)
      ensures Valid() ==> p.estado.Valid()
    {
      if !enCurso then Paso(this, false)
      else Paso(this.(items := items + 1), true)
    }
  }

  /** State after a call and the success flag the call returns. */
  datatype Paso = Paso(estado: Estado, ok: bool)

  /** The state of a freshly created instance. */
  const Inicial := Estado(nivel := 1, puntaje := 0, vidas := 3, record := 0, enCurso := false, enemigos := 0, items := 0)

  /** The calls a client can make on the controller. */
  datatype Operacion =
    | Iniciar
    | Finalizar
    | Subir
    | Sumar(puntos: int)
    | Perder
    | Ganar
    | Enemigo
    | Item

  /** One call. */
  function Aplicar(e: Estado, op: Operacion): (p: Paso)
    ensures !e.enCurso && !op.Iniciar? ==> p == Paso(e, false)
    ensures e.enCurso && op.Iniciar? ==> p == Paso(e, false)
    ensures p.estado.record >= e.record
    ensures e.Valid() ==> p.estado.Valid()
  {
    match op
    case Iniciar => e.IniciarJuego()
    case Finalizar => e.FinalizarJuego()
    case Subir => e.SubirNivel()
    case Sumar(n) => e.SumarPuntos(n)
    case Perder => e.PerderVida()
    case Ganar => e.GanarVida()
    case Enemigo => e.RegistrarEnemigoEliminado()
    case Item => e.RegistrarItemRecolectado()
  }

  /** The state after a sequence of calls, in order. */
  function Ejecutar(e: Estado, ops: seq<Operacion>): Estado
    decreases |ops|
  {
    if ops == [] then e else Ejecutar(Aplicar(e, ops[0]).estado, ops[1..])
  }

  lemma InicialValid()
    ensures Inicial.Valid() && !Inicial.enCurso
  {
  }

  /** The record never decreases, whatever the calls. */
  lemma {:induction false} RecordNuncaBaja(e: Estado, ops: seq<Operacion>)
    ensures Ejecutar(e, ops).record >= e.record
    decreases |ops|
  {
    if ops != [] {
      RecordNuncaBaja(Aplicar(e, ops[0]).estado, ops[1..]);
    }
  }

  /** Every state reachable from a valid one is valid: level at least 1, no running game without lives, ... */
  lemma {:induction false} EjecutarPreservaValid(e: Estado, ops: seq<Operacion>)
    requires e.Valid()
    ensures Ejecutar(e, ops).Valid()
    decreases |ops|
  {
    if ops != [] {
      EjecutarPreservaValid(Aplicar(e, ops[0]).estado, ops[1..]);
    }
  }

  /** Running a sequence of calls in two parts is running it at once. */
  lemma {:induction false} EjecutarConcatena(e: Estado, a: seq<Operacion>, b: seq<Operacion>)
    ensures Ejecutar(e, a + b) == Ejecutar(Ejecutar(e, a), b)
    decreases |a|
  {
    if a != [] {
      assert (a + b)[0] == a[0] && (a + b)[1..] == a[1..] + b;
      EjecutarConcatena(Aplicar(e, a[0]).estado, a[1..], b);
    } else {
      assert a + b == b;
    }
  }

  /** The record after any first part of a run is at most the record at its end. */
  lemma RecordMonotono(e: Estado, a: seq<Operacion>, b: seq<Operacion>)
    ensures Ejecutar(e, a).record <= Ejecutar(e, a + b).record
  {
    EjecutarConcatena(e, a, b);
    RecordNuncaBaja(Ejecutar(e, a), b);
  }

  /** With no game running, only a start call changes anything. */
  lemma {:induction false} SinJuegoNadaCambia(e: Estado, ops: seq<Operacion>)
    requires !e.enCurso
    requires forall i :: 0 <= i < |ops| ==> !ops[i].Iniciar?
    ensures Ejecutar(e, ops) == e
    decreases |ops|
  {
    if ops != [] {
      SinJuegoNadaCambia(e, ops[1..]);
    }
  }

  /** After a game ends (by call or by losing the last life) the record is at least its final score. */
  lemma FinDeJuegoGuardaRecord(e: Estado, op: Operacion)
    requires e.enCurso
    requires !Aplicar(e, op).estado.enCurso
    ensures Aplicar(e, op).estado.record >= Aplicar(e, op).estado.puntaje
  {
  }
}
