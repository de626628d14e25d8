# Singleton state machines of prac07, in Dafny

This project models the teaching exercises of `prac07`. Each exercise is a
lazily created single instance that holds a small state machine. There is a
C++ header and a Python mirror for each:

- `Configuracion` (eje01): a language and a time zone, with defaults and two
  independent setters.
- `ConexionBD` (eje03): a simulated database connection. Connect and
  disconnect toggle a flag. A query needs the connection and bumps a counter.
  `configurar` changes only the fields it is given, and only while
  disconnected.
- `ControlJuego` (eje04): game state. An in-progress flag guards every change.
  Starting resets the game, finishing keeps the best score, levelling up adds a
  bonus, and losing the last life ends the game.
- `ConexionBDThreadSafe` (eje05): a connection that is opened once and never
  closed. Its query counter hands out sequence numbers. It is modelled with one
  step per call (see "## Left out" for why a concurrent run reads that way).

Each exercise has two layers:

- **A value layer.** This is a datatype of the state with one function per
  operation (`Juego`, `Conexion`, `ConexionSegura`). `Ajustes` holds only the
  settings state and its defaults. The functions'
  contracts state what each call does, including the refused cases. Lemmas
  relate runs of many calls: the record never decreases, reachable states stay
  valid, and query numbers are consecutive.
- **A class layer.** There is one class per source file, with the source's
  fields. Its methods update those fields in place. Each method's `ensures`
  says that the new fields and the result are what the value-layer function
  gives for the old fields. The `Configuracion` setters state their new fields
  directly. The static `instancia` pointer (C++) and the class
  attribute `_instancia` (Python) are each a holder class with a nullable
  field. The holder's methods are `obtenerInstancia`/`destruirInstancia`
  (C++), or the call `X()`, which runs `__new__` and then `__init__` (Python).

`std::to_string` and Python's formatting of a non-negative `int` are modelled
by `Decimal.NatToString`. That module also proves its parse round trip, so a
result text gives back its query number.

Where the C++ and Python versions differ, the model follows each file:

- Python's `registrar_*` methods return a flag; the C++ ones return nothing.
- A failed Python query returns `None`; a failed C++ query returns `""`.
- C++ `configurar` takes a port only when it is `> 0`. Python takes any truthy
  port, so a negative port is accepted (`Conexion.PuertoNegativo`).
- Python `get_estadisticas` returns the flag and the count; C++
  `obtenerEstadisticas` returns the count only.

The thread-safe connection `ConexionBDThreadSafe` has no `desconectar`, so once
connected it stays connected (`ConexionSegura.ConexionPermanece`). None of the
constructors can fail.

## Model

| member | source | states |
|---|---|---|
| `Decimal.NatToString` | prac07/eje03/ConexionBD.h:96 | the decimal text of a counter is non-empty, all digits, and has no leading zero |
| `Decimal.ParseNatToString` | prac07/eje05/ConexionBDThreadSafe.h:74 | reading the decimal text back gives the number again |
| `Decimal.Numerado` | prac07/eje03/conexion_bd.py:121 | a result text is its fixed prefix followed by digits only, with no leading zero unless the number is 0, that read back as the query number ("Resultado de la consulta #" in eje03, "Resultado #" in eje05) |
| `Juego.InicialValid` | prac07/eje04/ControlJuego.h:18-20 | the fresh state is valid and has no game running |
| `Juego.Estado.IniciarJuego` | prac07/eje04/ControlJuego.h:35-52 | it succeeds iff no game is running; a refused call changes nothing; a successful one gives the fresh state with the old record and the game running; validity is kept |
| `Juego.Estado.FinalizarJuego` | prac07/eje04/ControlJuego.h:54-78 | it succeeds iff a game is running; a refused call changes nothing; a successful one stops the game and sets the record to the larger of the record and the score, changing nothing else |
| `Juego.Estado.SubirNivel` | prac07/eje04/ControlJuego.h:80-92 | it succeeds iff a game is running; the level goes up by 1 and the score by 100 times the new level; nothing else changes |
| `Juego.Estado.SumarPuntos` | prac07/eje04/ControlJuego.h:94-99 | it succeeds iff a game is running; the score changes by exactly the points given, possibly negative |
| `Juego.Estado.PerderVida` | prac07/eje04/ControlJuego.h:101-112 | with no game it is refused and changes nothing; otherwise lives drop by 1; it returns true iff some life is left; at 0 lives the state is what FinalizarJuego makes of it: stopped, record at least the score |
| `Juego.Estado.GanarVida` | prac07/eje04/ControlJuego.h:114-119 | it succeeds iff a game is running, and adds one life and nothing else |
| `Juego.Estado.RegistrarEnemigoEliminado` | prac07/eje04/ControlJuego.h:121-123 | the enemy count goes up by 1 iff a game is running; nothing else changes |
| `Juego.Estado.RegistrarItemRecolectado` | prac07/eje04/ControlJuego.h:125-127 | the item count goes up by 1 iff a game is running; nothing else changes |
| `Juego.Aplicar` | prac07/eje04/ControlJuego.h:80-127 | with no game, every call but a start is refused and changes nothing; a start during a game is refused; no call lowers the record; validity is kept |
| `Juego.RecordNuncaBaja` | prac07/eje04/ControlJuego.h:64-66 | the record never decreases over any sequence of calls |
| `Juego.EjecutarPreservaValid` | prac07/eje04/control_juego.py:101-114 | every state reachable from a valid one is valid: level at least 1, lives not negative, a running game has a life, record and counters not negative |
| `Juego.SinJuegoNadaCambia` | prac07/eje04/control_juego.py:79-139 | with no game running, any sequence of calls that has no start leaves the state unchanged |
| `Juego.EjecutarConcatena` | prac07/eje04/ControlJuego.h:35-119 | running a sequence of calls split in two, the second part from the state the first left, gives the same state as running it at once |
| `Juego.RecordMonotono` | prac07/eje04/ControlJuego.h:64-66 | the record after any first part of a run is at most the record at its end |
| `Juego.FinDeJuegoGuardaRecord` | prac07/eje04/ControlJuego.h:101-111 | a call that ends a running game, by finishing it or by losing the last life, leaves the record at least the final score |
| `ControlJuegoCpp.ControlJuego.constructor` | prac07/eje04/ControlJuego.h:18-20 | level 1, score 0, 3 lives, record 0, not running, both counters 0 |
| `ControlJuegoCpp.ControlJuego.IniciarJuego` | prac07/eje04/ControlJuego.h:35-52 | new fields and result are those of `Juego.Estado.IniciarJuego` |
| `ControlJuegoCpp.ControlJuego.FinalizarJuego` | prac07/eje04/ControlJuego.h:54-78 | new fields and result are those of `Juego.Estado.FinalizarJuego` |
| `ControlJuegoCpp.ControlJuego.SubirNivel` | prac07/eje04/ControlJuego.h:80-92 | new fields and result are those of `Juego.Estado.SubirNivel` |
| `ControlJuegoCpp.ControlJuego.SumarPuntos` | prac07/eje04/ControlJuego.h:94-99 | new fields and result are those of `Juego.Estado.SumarPuntos` |
| `ControlJuegoCpp.ControlJuego.PerderVida` | prac07/eje04/ControlJuego.h:101-112 | new fields and result are those of `Juego.Estado.PerderVida`, with the nested `finalizarJuego` call |
| `ControlJuegoCpp.ControlJuego.GanarVida` | prac07/eje04/ControlJuego.h:114-119 | new fields and result are those of `Juego.Estado.GanarVida` |
| `ControlJuegoCpp.ControlJuego.RegistrarEnemigoEliminado` | prac07/eje04/ControlJuego.h:121-123 | new fields are those of `Juego.Estado.RegistrarEnemigoEliminado` |
| `ControlJuegoCpp.ControlJuego.RegistrarItemRecolectado` | prac07/eje04/ControlJuego.h:125-127 | new fields are those of `Juego.Estado.RegistrarItemRecolectado` |
| `ControlJuegoCpp.ControlJuego.GetNivel` | prac07/eje04/ControlJuego.h:145 | returns the level, which is at least 1 in a valid state |
| `ControlJuegoCpp.ControlJuego.GetPuntaje` | prac07/eje04/ControlJuego.h:146 | returns the score |
| `ControlJuegoCpp.ControlJuego.GetVidas` | prac07/eje04/ControlJuego.h:147 | returns the lives: not negative, and at least 1 while a game runs, in a valid state |
| `ControlJuegoCpp.ControlJuego.EstaEnCurso` | prac07/eje04/ControlJuego.h:148 | returns the in-progress flag; in a valid state a running game has a life |
| `ControlJuegoCpp.Instancia.constructor` | prac07/eje04/ControlJuego.h:158 | the static pointer starts null |
| `ControlJuegoCpp.Instancia.ObtenerInstancia` | prac07/eje04/ControlJuego.h:26-33 | the first call creates a fresh controller in the initial state; later calls return the same object with its state untouched |
| `ControlJuegoCpp.Instancia.DestruirInstancia` | prac07/eje04/ControlJuego.h:150-155 | the pointer is null afterwards |
| `ControlJuegoCpp.DestruirYObtener` | prac07/eje04/ControlJuego.h:150-155 | teardown followed by a request yields a fresh controller in the initial state |
| `ControlJuegoPy.ControlJuego.Nuevo` | prac07/eje04/control_juego.py:16-20 | a new object is marked uninitialised |
| `ControlJuegoPy.ControlJuego.Init` | prac07/eje04/control_juego.py:22-35 | the first run sets the initial state; later runs change nothing |
| `ControlJuegoPy.ControlJuego.IniciarJuego` | prac07/eje04/control_juego.py:37-53 | new fields and result are those of `Juego.Estado.IniciarJuego` |
| `ControlJuegoPy.ControlJuego.FinalizarJuego` | prac07/eje04/control_juego.py:55-77 | new fields and result are those of `Juego.Estado.FinalizarJuego` |
| `ControlJuegoPy.ControlJuego.SubirNivel` | prac07/eje04/control_juego.py:79-90 | new fields and result are those of `Juego.Estado.SubirNivel` |
| `ControlJuegoPy.ControlJuego.SumarPuntos` | prac07/eje04/control_juego.py:92-99 | new fields and result are those of `Juego.Estado.SumarPuntos` |
| `ControlJuegoPy.ControlJuego.PerderVida` | prac07/eje04/control_juego.py:101-114 | new fields and result are those of `Juego.Estado.PerderVida` |
| `ControlJuegoPy.ControlJuego.GanarVida` | prac07/eje04/control_juego.py:116-123 | new fields and result are those of `Juego.Estado.GanarVida` |
| `ControlJuegoPy.ControlJuego.RegistrarEnemigoEliminado` | prac07/eje04/control_juego.py:125-131 | new fields and the returned flag are those of `Juego.Estado.RegistrarEnemigoEliminado` |
| `ControlJuegoPy.ControlJuego.RegistrarItemRecolectado` | prac07/eje04/control_juego.py:133-139 | new fields and the returned flag are those of `Juego.Estado.RegistrarItemRecolectado` |
| `ControlJuegoPy.ControlJuego.GetNivel` | prac07/eje04/control_juego.py:156-157 | returns the level, which is at least 1 in a valid state |
| `ControlJuegoPy.ControlJuego.GetPuntaje` | prac07/eje04/control_juego.py:159-160 | returns the score |
| `ControlJuegoPy.ControlJuego.GetVidas` | prac07/eje04/control_juego.py:162-163 | returns the lives: not negative, and at least 1 while a game runs, in a valid state |
| `ControlJuegoPy.ControlJuego.EstaEnCurso` | prac07/eje04/control_juego.py:165-166 | returns the in-progress flag; in a valid state a running game has a life |
| `ControlJuegoPy.Instancia.constructor` | prac07/eje04/control_juego.py:9 | `_instancia` starts as `None` |
| `ControlJuegoPy.Instancia.Llamar` | prac07/eje04/control_juego.py:11-35 | every `ControlJuego()` call returns the one object, initialised; only the first call sets the initial state, and later calls leave the state untouched |
| `Conexion.Estado.Conectar` | prac07/eje03/ConexionBD.h:38-55 | it succeeds iff disconnected; afterwards it is connected and nothing else has changed |
| `Conexion.Estado.Desconectar` | prac07/eje03/ConexionBD.h:57-70 | it succeeds iff connected; afterwards it is disconnected and the query count and settings are kept |
| `Conexion.Estado.EjecutarConsulta` | prac07/eje03/ConexionBD.h:85-97 | a query runs iff connected; a rejected one changes nothing; a run one gets the number count + 1, and the count goes up by exactly 1 |
| `Conexion.Estado.Configurar` | prac07/eje03/ConexionBD.h:99-113 | it succeeds iff disconnected, and a refused call changes nothing; when it succeeds, each field is overwritten iff its argument is a non-empty string or a port > 0; the flag and count are kept |
| `Conexion.Estado.ConfigurarPy` | prac07/eje03/conexion_bd.py:123-142 | it succeeds iff disconnected; when it succeeds, each field is overwritten iff its argument is truthy: given and neither `""` nor `0` |
| `Conexion.ResultadoInyectivo` | prac07/eje03/conexion_bd.py:121 | different query numbers give different result texts |
| `Conexion.ConfigurarIdempotente` | prac07/eje03/ConexionBD.h:106-109 | configuring twice with the same arguments equals configuring once |
| `Conexion.ConfigurarSinArgumentos` | prac07/eje03/ConexionBD.h:99-100 | with the default arguments `""`, `0`, `""`, `""`, configuring changes nothing |
| `Conexion.ConfigurarPyComoCpp` | prac07/eje03/conexion_bd.py:132-139 | for every port that is not negative, the Python and C++ guards give the same result |
| `Conexion.PuertoNegativo` | prac07/eje03/conexion_bd.py:134-135 | for every negative port, from a disconnected state, Python takes it and C++ keeps the old port |
| `Conexion.Aplicar` | prac07/eje03/ConexionBD.h:38-113 | only a query on an open connection changes the count, and only by 1 |
| `Conexion.ContadorAcotado` | prac07/eje03/ConexionBD.h:93 | over any run the count never decreases and grows by at most the number of query calls |
| `Conexion.SoloConsultasConectado` | prac07/eje03/conexion_bd.py:111-121 | on an open connection, n query calls raise the count by exactly n and change nothing else |
| `ConexionBDCpp.ConexionBD.constructor` | prac07/eje03/ConexionBD.h:19-21 | disconnected, localhost, 5432, mi_aplicacion, admin, 0 queries |
| `ConexionBDCpp.ConexionBD.Conectar` | prac07/eje03/ConexionBD.h:38-55 | new fields and result are those of `Conexion.Estado.Conectar` |
| `ConexionBDCpp.ConexionBD.Desconectar` | prac07/eje03/ConexionBD.h:57-70 | new fields and result are those of `Conexion.Estado.Desconectar` |
| `ConexionBDCpp.ConexionBD.EjecutarConsulta` | prac07/eje03/ConexionBD.h:85-97 | new fields are those of `Conexion.Estado.EjecutarConsulta`; the result is `""` iff disconnected, otherwise the result text for the new count, which is the old count + 1 |
| `ConexionBDCpp.ConexionBD.Configurar` | prac07/eje03/ConexionBD.h:99-113 | new fields and result are those of `Conexion.Estado.Configurar`, with the C++ default arguments |
| `ConexionBDCpp.Instancia.constructor` | prac07/eje03/ConexionBD.h:123 | the static pointer starts null |
| `ConexionBDCpp.Instancia.ObtenerInstancia` | prac07/eje03/ConexionBD.h:27-36 | the first call creates a fresh connection with the defaults; later calls return the same object, untouched |
| `ConexionBDCpp.Instancia.DestruirInstancia` | prac07/eje03/ConexionBD.h:115-120 | the pointer is null afterwards |
| `ConexionBDCpp.DestruirYObtener` | prac07/eje03/ConexionBD.h:115-120 | teardown followed by a request yields a fresh connection with the defaults |
| `ConexionBDPy.ConexionBD.Nuevo` | prac07/eje03/conexion_bd.py:17-23 | a new object is marked uninitialised |
| `ConexionBDPy.ConexionBD.Init` | prac07/eje03/conexion_bd.py:25-38 | the first run sets the defaults; later runs change nothing |
| `ConexionBDPy.ConexionBD.Conectar` | prac07/eje03/conexion_bd.py:40-60 | new fields and result are those of `Conexion.Estado.Conectar` |
| `ConexionBDPy.ConexionBD.Desconectar` | prac07/eje03/conexion_bd.py:62-81 | new fields and result are those of `Conexion.Estado.Desconectar` |
| `ConexionBDPy.ConexionBD.EjecutarConsulta` | prac07/eje03/conexion_bd.py:104-121 | new fields are those of `Conexion.Estado.EjecutarConsulta`; the result is `None` iff disconnected, otherwise the result text for the new count, which is the old count + 1 |
| `ConexionBDPy.ConexionBD.Configurar` | prac07/eje03/conexion_bd.py:123-142 | new fields and result are those of `Conexion.Estado.ConfigurarPy`, with every argument defaulting to `None` |
| `ConexionBDPy.Instancia.constructor` | prac07/eje03/conexion_bd.py:10 | `_instancia` starts as `None` |
| `ConexionBDPy.Instancia.Llamar` | prac07/eje03/conexion_bd.py:12-38 | every `ConexionBD()` call returns the one object; only the first call sets the defaults |
| `ConexionSegura.Estado.Conectar` | prac07/eje05/ConexionBDThreadSafe.h:42-54 | it succeeds iff not yet connected; afterwards the connection is open either way |
| `ConexionSegura.Estado.EjecutarConsulta` | prac07/eje05/ConexionBDThreadSafe.h:56-75 | a query runs iff connected; a rejected one leaves the counter alone; a run one gets the post-increment value of the counter as its number |
| `ConexionSegura.ResultadoInyectivo` | prac07/eje05/singleton_threadsafe.py:136 | different query numbers give different result texts |
| `ConexionSegura.NumerosConsecutivos` | prac07/eje05/ConexionBDThreadSafe.h:66-74 | the numbers any run of calls hands out are exactly old count + 1 … new count, in order, with no gap and no duplicate |
| `ConexionSegura.ConexionPermanece` | prac07/eje05/ConexionBDThreadSafe.h:42-54 | once open, the connection stays open, and "queries counted ⇒ connected" is kept |
| `ConexionSegura.UnaSolaConexion` | prac07/eje05/singleton_threadsafe.py:104-117 | over any run, at most one `conectar` succeeds, none once connected, and a success means it started disconnected; starting disconnected, a run containing a `conectar` has exactly one success |
| `ConexionSegura.ConsultasConectado` | prac07/eje05/ConexionBDThreadSafe.h:66-79 | N queries on an open connection all succeed; they are numbered count + 1 … count + N, and the count becomes count + N |
| `ConexionSegura.DesdeInicial` | prac07/eje05/ConexionBDThreadSafe.h:21-22 | from a fresh instance, the numbers handed out are exactly 1..N in increasing order, where N is the final count |
| `ConexionBDThreadSafeCpp.ConexionBDThreadSafe.constructor` | prac07/eje05/ConexionBDThreadSafe.h:21-22 | not connected, 0 queries, not marked initialised |
| `ConexionBDThreadSafeCpp.ConexionBDThreadSafe.Conectar` | prac07/eje05/ConexionBDThreadSafe.h:42-54 | new fields and result are those of `ConexionSegura.Estado.Conectar` |
| `ConexionBDThreadSafeCpp.ConexionBDThreadSafe.EjecutarConsulta` | prac07/eje05/ConexionBDThreadSafe.h:56-75 | new fields are those of `ConexionSegura.Estado.EjecutarConsulta`; the result is `""` iff not connected, otherwise "Resultado #" and the new count, which is the old count + 1 |
| `ConexionBDThreadSafeCpp.ConexionBDThreadSafe.ObtenerEstadisticas` | prac07/eje05/ConexionBDThreadSafe.h:77-80 | returns the query count, without changing anything; a positive count implies connected, in a valid state |
| `ConexionBDThreadSafeCpp.Instancia.constructor` | prac07/eje05/ConexionBDThreadSafe.h:91 | the static pointer starts null |
| `ConexionBDThreadSafeCpp.Instancia.ObtenerInstancia` | prac07/eje05/ConexionBDThreadSafe.h:28-40 | it constructs at most once and marks the instance initialised; every call returns the same instance, untouched |
| `ConexionBDThreadSafeCpp.Instancia.DestruirInstancia` | prac07/eje05/ConexionBDThreadSafe.h:82-88 | the pointer is null afterwards |
| `ConexionBDThreadSafeCpp.DestruirYObtener` | prac07/eje05/ConexionBDThreadSafe.h:82-88 | teardown followed by a request yields a fresh, disconnected instance with 0 queries |
| `ConexionBDThreadSafePy.ConexionBDThreadSafe.Nuevo` | prac07/eje05/singleton_threadsafe.py:79-88 | a new object is marked uninitialised |
| `ConexionBDThreadSafePy.ConexionBDThreadSafe.Init` | prac07/eje05/singleton_threadsafe.py:90-102 | the first run sets not connected and 0 queries; later runs change nothing |
| `ConexionBDThreadSafePy.ConexionBDThreadSafe.Conectar` | prac07/eje05/singleton_threadsafe.py:104-117 | new fields and result are those of `ConexionSegura.Estado.Conectar` |
| `ConexionBDThreadSafePy.ConexionBDThreadSafe.EjecutarConsulta` | prac07/eje05/singleton_threadsafe.py:119-136 | new fields are those of `ConexionSegura.Estado.EjecutarConsulta`; the result is `None` iff not connected, otherwise "Resultado #" and the new count |
| `ConexionBDThreadSafePy.ConexionBDThreadSafe.GetEstadisticas` | prac07/eje05/singleton_threadsafe.py:138-144 | reports the current connected flag and query count, without changing anything |
| `ConexionBDThreadSafePy.Instancia.constructor` | prac07/eje05/singleton_threadsafe.py:71 | `_instancia` starts as `None` |
| `ConexionBDThreadSafePy.Instancia.Llamar` | prac07/eje05/singleton_threadsafe.py:74-102 | every `ConexionBDThreadSafe()` call returns the one object; its fields are set only once |
| `ConfiguracionCpp.Configuracion.constructor` | prac07/eje01/Configuracion.h:14 | idioma "Español", zona "UTC-6" |
| `ConfiguracionCpp.Configuracion.SetIdioma` | prac07/eje01/Configuracion.h:28-38 | only the language changes, and `getIdioma` then returns the new value |
| `ConfiguracionCpp.Configuracion.SetZonaHoraria` | prac07/eje01/Configuracion.h:32-42 | only the time zone changes, and `getZonaHoraria` then returns the new value |
| `ConfiguracionCpp.Configuracion.GetIdioma` | prac07/eje01/Configuracion.h:36-38 | returns the language currently set |
| `ConfiguracionCpp.Configuracion.GetZonaHoraria` | prac07/eje01/Configuracion.h:40-42 | returns the time zone currently set |
| `ConfiguracionCpp.Instancia.constructor` | prac07/eje01/Configuracion.h:62 | the static pointer starts null |
| `ConfiguracionCpp.Instancia.ObtenerInstancia` | prac07/eje01/Configuracion.h:21-26 | the first call creates the defaults; later calls return the same object without resetting it |
| `ConfiguracionCpp.Instancia.DestruirInstancia` | prac07/eje01/Configuracion.h:53-58 | the pointer is null afterwards |
| `ConfiguracionCpp.DestruirYObtener` | prac07/eje01/Configuracion.h:53-58 | teardown followed by a request gives back the defaults, whatever was set before |
| `ConfiguracionPy.Configuracion.Nuevo` | prac07/eje01/configuracion.py:13-17 | a new object gets "Español" and "UTC-6" |
| `ConfiguracionPy.Configuracion.SetIdioma` | prac07/eje01/configuracion.py:20-22 | only `idioma` changes |
| `ConfiguracionPy.Configuracion.SetZonaHoraria` | prac07/eje01/configuracion.py:24-26 | only `zona_horaria` changes |
| `ConfiguracionPy.Instancia.constructor` | prac07/eje01/configuracion.py:6 | `_instancia` starts as `None` |
| `ConfiguracionPy.Instancia.Llamar` | prac07/eje01/configuracion.py:8-18 | the defaults are set on the first call only; later calls return the same object and keep the values set on it |

## Left out

- Concurrency: the mutexes and locks, the double-checked locking, and thread
  interleavings are not modelled. Each call is one step, and a concurrent run is
  taken to be some sequence of calls (`ConexionSegura.Ejecutar`). The thread-safe
  `ejecutarConsulta` is not one locked step: it reads `conectado` without a lock,
  sleeps, and only then increments the counter under `mutexContador`
  (prac07/eje05/ConexionBDThreadSafe.h:57-71). It still behaves as one step
  because `conectado` never goes back to false (`ConexionSegura.ConexionPermanece`):
  a query that saw the flag set takes effect at its locked increment, and one that
  saw it clear takes effect at the read. This argument is not proved in Dafny.
- The unlocked read of `conectado` in the thread-safe `ejecutarConsulta`
  (prac07/eje05/ConexionBDThreadSafe.h:57) is, in C++, a data race on a plain
  `bool`. Teardown racing with other callers is not modelled either. Both are
  concurrency.
- Private constructors are not modelled: a Dafny constructor is public, and an
  `Instancia` holder can itself be created more than once, so "one instance" is
  proved per holder rather than per program.
- `delete` in `destruirInstancia` is not modelled. The pointer becomes null.
  The old object stays reachable from stale references, which in C++ would be
  use-after-free.
- Console output (`std::cout`, `print`), `mostrarEstado`, `estado` and
  `mostrarConfiguracion` are left out. They only display state. `estado` also
  returns the connected flag, which `Modelo().conectado` exposes.
- Simulated latency (`sleep_for`, `time.sleep`) is left out.
- The Python connection timestamp `_tiempo_conexion` and the connection time
  printed on disconnect are left out. They come from the clock.
- Query text has no effect beyond being displayed, so `EjecutarConsulta` ignores
  its `consulta` argument.
- The loggers (eje02, and the thread-safe logger of eje05 with its write lock
  `_lock_escritura`) are not part of this model. They do file and console I/O.
- The game actors `Jugador`, `Enemigo`, `Item` and `InterfazJuego` use random
  numbers and are not part of this model.
- The demo `main` functions and `__main__` scripts are not part of this model.
  They only call the core in sequence.
- C++ `int` overflow is not modelled: score, level, lives and counters are
  unbounded integers. The C++ counters and the score are signed `int`. Past
  `INT_MAX` they overflow, which is undefined behaviour in C++; here the
  integers are unbounded.
- Python's dynamic typing is not modelled. `configurar` takes `str`/`int`
  arguments or `None`, and other argument types are not modelled.
