/** The puzzle-session state machine of entrega5/lambda/index.js. Every handler reads the
    session document named by the Alexa session attributes, computes a transition on a
    copy held in memory (`sesion`), writes the changed attributes back with
    `actualizarSesion`, and when the game is over stores a result and deletes the session.
    Each handler is a method over `Db` proved equal to a step function on a snapshot
    (`Estado`) of the session and result tables; the properties are lemmas about the step
    functions. Response text and screen directives become a `Respuesta` tag. */
module Motor5 {
  import opened Js
  import opened Texto
  import opened Bd5

  /** The session and result tables; the game table is read only here. */
  datatype Estado = Estado(sesiones: map<Clave, Registro>, resultados: seq<Registro>)

  /** `userID` and `sesionID` of the Alexa session attributes (None when undefined). */
  datatype Atributos = Atributos(userID: Option<string>, sesionID: Option<string>)

  datatype Respuesta =
    | SinSesion                    // load before logging in
    | TituloDesconocido(titulo: string) // no game with that title
    | Portada(titulo: string, narrativa: string, tipoPortada: Option<string>)
    | SinJuego                     // no game loaded
    | EnCurso                      // a puzzle is already running
    | SinDesafio                   // no puzzle running
    | NoDisponible                 // the loaded game is not in the store
    | MostrarPuzle(datos: string, tipo: Option<string>, instruccion: string)
    | Pista(pista: string)
    | Reintentar
    | Continuar                    // `pedirContinuar`: "say yes for the next one"
    | Finalizado                   // `finalizarJuego`
    | FinPorFallos                 // last puzzle lost by failures
    | FinPorTiempo                 // last puzzle lost by time

  // ---------------------------------------------------------------------
  // Pure helpers

  /** `obtenerSesionActual`: the key of the stored session the attributes name, if any. */
  function SesionActual(sesiones: map<Clave, Registro>, at: Atributos): (r: Option<Clave>)
    ensures r.Some? ==> r.value in sesiones
    ensures r.Some? <==> at.userID.Some? && at.userID.value != "" && at.sesionID.Some? &&
                         at.sesionID.value != "" && (at.userID.value, at.sesionID.value) in sesiones
  {
    if at.userID.None? || at.userID.value == "" || at.sesionID.None? || at.sesionID.value == "" then None
    else if (at.userID.value, at.sesionID.value) in sesiones then Some((at.userID.value, at.sesionID.value))
    else None
  }

  /** The state of the session after `avanzarPuzle(sesion, completado)`. */
  function Avanzado(s: Registro, completado: bool): Registro
  {
    var t := s[PuzleActual := Num(NumOr0(s, PuzleActual) + 1)][PuzleIniciado := Bool(false)]
              [PuzleTiempoActivo := Bool(false)][FallosPuzle := Num(0)];
    if completado then t[PuzlesSuperados := Num(NumOr0(s, PuzlesSuperados) + 1)] else t
  }

  /** The number of puzzles of a game: `juego.puzles ? juego.puzles.length : 0`. */
  function NumPuzles(j: Juego): nat {
    if j.puzles.Some? then |j.puzles.value| else 0
  }

  /** `juegoTerminado`: no game, or the index has reached the number of puzzles. */
  predicate Terminado(js: seq<Juego>, s: Registro) {
    var j := JuegoPorID(js, Get(s, JuegoID)).1;
    j.None? || GeRaw(s, PuzleActual, NumPuzles(j.value))
  }

  /** `getPuzleActual` */
  function PuzleActualDe(s: Registro, j: Option<Juego>): (r: Option<Puzle>)
    ensures r.Some? <==> j.Some? && j.value.puzles.Some? && 0 <= NumOr0(s, PuzleActual) < |j.value.puzles.value|
    ensures r.Some? ==> r.value == j.value.puzles.value[NumOr0(s, PuzleActual)]
  {
    var idx := NumOr0(s, PuzleActual);
    if j.None? || j.value.puzles.None? || idx < 0 || idx >= |j.value.puzles.value| then None
    else Some(j.value.puzles.value[idx])
  }

  /** One step of `cifradoCesar` on an upper-cased character. */
  function CesarChar(c: char, clave: int): char {
    if 'A' <= c <= 'Z' then (JsRem(c as int - 65 + clave, 26) + 65) as char else c
  }

  /** `cifradoCesar(texto, clave)`: the text is upper-cased, then every letter A to Z is
      shifted by the key modulo 26 with JavaScript's `%`, and every other character is kept. */
  function Cifrado(texto: Option<string>, clave: int): (r: string)
    ensures |r| == |texto.GetOr("")|
    ensures forall i :: 0 <= i < |r| ==> r[i] == CesarChar(UpperChar(texto.GetOr("")[i]), clave)
  {
    var t := ToUpperCase(texto.GetOr(""));
    seq(|t|, i requires 0 <= i < |t| => CesarChar(t[i], clave))
  }

  /** The loop of `cifradoCesar`, which accumulates the result one character at a time. */
  method CifradoCesar(texto: Option<string>, clave: int) returns (resultado: string)
    ensures resultado == Cifrado(texto, clave)
  {
    var t := ToUpperCase(texto.GetOr(""));
    resultado := "";
    var i := 0;
    while i < |t|
      invariant 0 <= i <= |t|
      invariant |resultado| == i
      invariant forall j :: 0 <= j < i ==> resultado[j] == CesarChar(t[j], clave)
    {
      var c := t[i];
      if 'A' <= c <= 'Z' {
        resultado := resultado + [(JsRem(c as int - 65 + clave, 26) + 65) as char];
      } else {
        resultado := resultado + [c];
      }
      i := i + 1;
    }
  }

  /** The text shown on screen for a puzzle: the answer upper-cased, and enciphered with
      `Number(claveCifrado) || 0` when the puzzle is of type `cifrado-cesar`. */
  function Mensaje(p: Puzle): string {
    var respuesta := ToUpperCase(OrStr(p.respuestaCorrecta, ""));
    if p.tipo == Some("cifrado-cesar") then Cifrado(Some(respuesta), p.claveCifrado.GetOr(0)) else respuesta
  }

  /** `puzle.pistas[f - 1] || ''` */
  function PistaN(p: Puzle, f: int): string {
    if p.pistas.Some? && 1 <= f <= |p.pistas.value| then p.pistas.value[f - 1] else ""
  }

  /** `f < juego.fallosMaximosPuzle`; an undefined budget compares false. */
  predicate BajoPresupuesto(f: int, j: Juego) {
    j.fallosMaximosPuzle.Some? && f < j.fallosMaximosPuzle.value
  }

  /** `Array.isArray(puzle.pistas) ? puzle.pistas.length : 0` */
  function NumPistas(p: Puzle): nat {
    if p.pistas.Some? then |p.pistas.value| else 0
  }

  // ---------------------------------------------------------------------
  // The changes each handler writes

  function CambiosCarga(juegoID: string, ahora: string): Cambios {
    [(JuegoID, Str(juegoID)), (PuzleActual, Num(0)), (PuzleIniciado, Bool(false)),
     (PuzleTiempoActivo, Bool(false)), (FallosPuzle, Num(0)), (FallosTotales, Num(0)),
     (PuzlesSuperados, Num(0)), (FechaInicioJuego, Str(ahora)), (FechaFinJuego, Null)]
  }

  const CAMBIOS_INICIO: Cambios := [(PuzleIniciado, Bool(true)), (PuzleTiempoActivo, Bool(true)), (FallosPuzle, Num(0))]

  /** After a correct answer: the index, both flags and the clear count. */
  function CambiosAcierto(s: Registro): Cambios
    requires PuzleActual in s && PuzleIniciado in s && PuzleTiempoActivo in s && PuzlesSuperados in s
  {
    [(PuzleActual, s[PuzleActual]), (PuzleIniciado, s[PuzleIniciado]),
     (PuzleTiempoActivo, s[PuzleTiempoActivo]), (PuzlesSuperados, s[PuzlesSuperados])]
  }

  /** After an advance without a clear (failure budget spent, or time out). */
  function CambiosAvance(s: Registro): Cambios
    requires PuzleActual in s && PuzleIniciado in s && PuzleTiempoActivo in s && FallosPuzle in s
  {
    [(PuzleActual, s[PuzleActual]), (PuzleIniciado, s[PuzleIniciado]),
     (PuzleTiempoActivo, s[PuzleTiempoActivo]), (FallosPuzle, s[FallosPuzle])]
  }

  function CambiosFallo(s: Registro): Cambios
    requires FallosPuzle in s && FallosTotales in s
  {
    [(FallosPuzle, s[FallosPuzle]), (FallosTotales, s[FallosTotales])]
  }

  // ---------------------------------------------------------------------
  // Step functions

  /** Writes `cambios` into the stored session `k`. */
  function Escribir(e: Estado, k: Clave, cambios: Cambios): Estado
    requires k in e.sesiones
  {
    e.(sesiones := e.sesiones[k := Mezclar(e.sesiones[k], cambios)])
  }

  /** The end of a game: a result made of the in-memory session's totals, then the session is
      deleted. */
  function Cerrar(e: Estado, k: Clave, s: Registro, ahora: string, rid: string): Estado {
    Estado(e.sesiones - {k},
           e.resultados + [NuevoResultado(Get(s, UserID), Get(s, FallosTotales), Get(s, PuzlesSuperados),
                                          Get(s, FechaInicioJuego), Some(Str(ahora)), rid, ahora)])
  }

  /** `pedirContinuar`: finalises when the game is over, asks to continue otherwise. */
  function PedirPaso(e: Estado, js: seq<Juego>, k: Clave, s: Registro, ahora: string, rid: string): (Estado, Respuesta) {
    if Terminado(js, s) then (Cerrar(e, k, s, ahora, rid), Finalizado) else (e, Continuar)
  }

  /** `CargarEscapeRoomIntentHandler` */
  function CargarPaso(e: Estado, js: seq<Juego>, at: Atributos, slot: Option<string>, ahora: string): (Estado, Respuesta) {
    var k := SesionActual(e.sesiones, at);
    if k.None? then (e, SinSesion)
    else
      var titulo := ToLowerCase(OrStr(slot, ""));
      var hallados := JuegosConTitulo(js, titulo);
      if hallados == [] then (e, TituloDesconocido(titulo))
      else (Escribir(e, k.value, CambiosCarga(hallados[0].juegoID, ahora)),
            Portada(titulo, hallados[0].narrativa, hallados[0].tipoPortada))
  }

  /** `iniciarPuzleActual` */
  function IniciarPaso(e: Estado, js: seq<Juego>, k: Clave, ahora: string, rid: string): (Estado, Respuesta)
    requires k in e.sesiones
  {
    var s := e.sesiones[k];
    var (ok, j) := JuegoPorID(js, Get(s, JuegoID));
    if !ok || j.None? then (e, NoDisponible)
    else
      var idx := NumOr0(s, PuzleActual);
      if j.value.puzles.None? || idx < 0 || idx >= |j.value.puzles.value| then (Cerrar(e, k, s, ahora, rid), Finalizado)
      else
        var p := j.value.puzles.value[idx];
        (Escribir(e, k, CAMBIOS_INICIO), MostrarPuzle(Mensaje(p), p.tipo, p.instruccion))
  }

  /** `YesIntentHandler` */
  function SiPaso(e: Estado, js: seq<Juego>, at: Atributos, ahora: string, rid: string): (Estado, Respuesta) {
    var k := SesionActual(e.sesiones, at);
    if k.None? || !Truthy(e.sesiones[k.value], JuegoID) then (e, SinJuego)
    else if Truthy(e.sesiones[k.value], PuzleIniciado) then (e, EnCurso)
    else if Terminado(js, e.sesiones[k.value]) then (Cerrar(e, k.value, e.sesiones[k.value], ahora, rid), Finalizado)
    else IniciarPaso(e, js, k.value, ahora, rid)
  }

  /** The answer is correct when both sides normalise to the same string. */
  predicate Acierta(slot: Option<string>, p: Puzle) {
    Normalizar(slot) == Normalizar(p.respuestaCorrecta)
  }

  /** The session in memory once a wrong answer is counted. */
  function ConFallo(s: Registro): Registro {
    s[FallosPuzle := Num(NumOr0(s, FallosPuzle) + 1)][FallosTotales := Num(NumOr0(s, FallosTotales) + 1)]
  }

  /** A correct answer: advance counting a clear, then finalise or ask to continue. */
  function AciertoPaso(e: Estado, js: seq<Juego>, k: Clave, s: Registro, ahora: string, rid: string): (Estado, Respuesta)
    requires k in e.sesiones
  {
    var s2 := Avanzado(s, true);
    var e2 := Escribir(e, k, CambiosAcierto(s2));
    if Terminado(js, s2) then (Cerrar(e2, k, s2, ahora, rid), Finalizado) else PedirPaso(e2, js, k, s2, ahora, rid)
  }

  /** A wrong answer: count it, then a hint, a retry, or an advance without a clear. */
  function FalloPaso(e: Estado, js: seq<Juego>, k: Clave, s: Registro, j: Juego, p: Puzle, ahora: string, rid: string)
    : (Estado, Respuesta)
    requires k in e.sesiones
  {
    var s2 := ConFallo(s);
    var e2 := Escribir(e, k, CambiosFallo(s2));
    var f := NumOr0(s2, FallosPuzle);
    if f <= NumPistas(p) then (e2, Pista(PistaN(p, f)))
    else if BajoPresupuesto(f, j) then (e2, Reintentar)
    else
      var s3 := Avanzado(s2, false);
      var e3 := Escribir(e2, k, CambiosAvance(s3));
      if Terminado(js, s3) then (Cerrar(e3, k, s3, ahora, rid), FinPorFallos) else PedirPaso(e3, js, k, s3, ahora, rid)
  }

  /** `ResolverPuzleIntentHandler` */
  function ResolverPaso(e: Estado, js: seq<Juego>, at: Atributos, slot: Option<string>, ahora: string, rid: string)
    : (Estado, Respuesta)
  {
    var k := SesionActual(e.sesiones, at);
    if k.None? || !Truthy(e.sesiones[k.value], JuegoID) then (e, SinJuego)
    else
      var s := e.sesiones[k.value];
      if !Truthy(s, PuzleIniciado) || !Truthy(s, PuzleTiempoActivo) then (e, SinDesafio)
      else
        var (ok, j) := JuegoPorID(js, Get(s, JuegoID));
        if !ok || j.None? then (e, NoDisponible)
        else
          var p := PuzleActualDe(s, j);
          if p.None? then (Cerrar(e, k.value, s, ahora, rid), Finalizado)
          else
            var s1 := s[FallosPuzle := Num(NumOr0(s, FallosPuzle))];
            if Acierta(slot, p.value) then AciertoPaso(e, js, k.value, s1, ahora, rid)
            else FalloPaso(e, js, k.value, s1, j.value, p.value, ahora, rid)
  }

  /** The in-memory session of the `tiempo_acabado` branch: both flags cleared, the failure
      count reset, then an advance without a clear. */
  function SinTiempo(s: Registro): Registro {
    Avanzado(s[PuzleIniciado := Bool(false)][PuzleTiempoActivo := Bool(false)][FallosPuzle := Num(0)], false)
  }

  /** The `tiempo_acabado` branch of `ProcessHTMLMessageHandler`, as written: it checks only
      that a game is loaded. */
  function TiempoAcabadoPaso(e: Estado, js: seq<Juego>, at: Atributos, ahora: string, rid: string): (Estado, Respuesta) {
    var k := SesionActual(e.sesiones, at);
    if k.None? || !Truthy(e.sesiones[k.value], JuegoID) then (e, SinJuego)
    else
      var s2 := SinTiempo(e.sesiones[k.value]);
      var e2 := Escribir(e, k.value, CambiosAvance(s2));
      if Terminado(js, s2) then (Cerrar(e2, k.value, s2, ahora, rid), FinPorTiempo)
      else PedirPaso(e2, js, k.value, s2, ahora, rid)
  }

  /** The timeout as evidently intended: only a puzzle whose timer is running can run out of
      time; otherwise the message is answered like an answer with no puzzle running. */
  function TiempoAcabadoCorregido(e: Estado, js: seq<Juego>, at: Atributos, ahora: string, rid: string): (Estado, Respuesta) {
    var k := SesionActual(e.sesiones, at);
    if k.None? || !Truthy(e.sesiones[k.value], JuegoID) then (e, SinJuego)
    else if !Truthy(e.sesiones[k.value], PuzleTiempoActivo) then (e, SinDesafio)
    else TiempoAcabadoPaso(e, js, at, ahora, rid)
  }

  // ---------------------------------------------------------------------
  // Role guards

  /** The guard of `CrearNuevoJuego` and `ObtenerResultadosAlumno`. */
  predicate EsDocenteOCoordinador(s: Option<Registro>) {
    s.Some? && TipoUsuario in s.value &&
    (s.value[TipoUsuario] == Str("docente") || s.value[TipoUsuario] == Str("coordinador"))
  }

  /** The guard of `GenerarReporteClase` and `ObtenerReportesClase`. */
  predicate EsCoordinador(s: Option<Registro>) {
    s.Some? && TipoUsuario in s.value && s.value[TipoUsuario] == Str("coordinador")
  }

  // ---------------------------------------------------------------------
  // The session object and the handlers

  /** The session document a handler holds in memory and mutates. */
  class SesionLocal {
    var campos: Registro

    constructor (r: Registro)
      ensures campos == r
    {
      campos := r;
    }

    /** `avanzarPuzle(sesion, completado)` */
    method AvanzarPuzle(completado: bool)
      modifies this
      ensures campos == Avanzado(old(campos), completado)
    {
      var superados := NumOr0(campos, PuzlesSuperados);
      campos := campos[PuzleActual := Num(NumOr0(campos, PuzleActual) + 1)];
      campos := campos[PuzleIniciado := Bool(false)];
      campos := campos[PuzleTiempoActivo := Bool(false)];
      campos := campos[FallosPuzle := Num(0)];
      if completado {
        campos := campos[PuzlesSuperados := Num(superados + 1)];
      }
    }
  }

  function Foto(db: Db): Estado
    reads db
  {
    Estado(db.sesiones, db.resultados)
  }

  /** `finalizarJuego`, and the same two writes inlined in the answer and timeout handlers. */
  method FinalizarJuego(db: Db, k: Clave, sesion: SesionLocal, ahora: string, rid: string)
    requires k in db.sesiones
    modifies db
    ensures db.juegos == old(db.juegos) && db.usuarios == old(db.usuarios)
    ensures Foto(db) == Cerrar(old(Foto(db)), k, sesion.campos, ahora, rid)
  {
    var s := sesion.campos;
    db.GuardarResultado(Get(s, UserID), Get(s, FallosTotales), Get(s, PuzlesSuperados),
                        Get(s, FechaInicioJuego), Some(Str(ahora)), rid, ahora);
    db.EliminarSesion(k.0, k.1);
  }

  method PedirContinuar(db: Db, k: Clave, sesion: SesionLocal, ahora: string, rid: string) returns (r: Respuesta)
    requires k in db.sesiones
    modifies db
    ensures db.juegos == old(db.juegos) && db.usuarios == old(db.usuarios)
    ensures (Foto(db), r) == PedirPaso(old(Foto(db)), db.juegos, k, sesion.campos, ahora, rid)
  {
    if Terminado(db.juegos, sesion.campos) {
      FinalizarJuego(db, k, sesion, ahora, rid);
      return Finalizado;
    }
    r := Continuar;
  }

  method CargarEscapeRoom(db: Db, at: Atributos, slot: Option<string>, ahora: string) returns (r: Respuesta)
    modifies db
    ensures db.juegos == old(db.juegos) && db.usuarios == old(db.usuarios)
    ensures (Foto(db), r) == CargarPaso(old(Foto(db)), db.juegos, at, slot, ahora)
  {
    var k := SesionActual(db.sesiones, at);
    if k.None? {
      return SinSesion;
    }
    var titulo := ToLowerCase(OrStr(slot, ""));
    var hallados := db.BuscarJuegoPorTitulo(titulo);
    if hallados == [] {
      return TituloDesconocido(titulo);
    }
    var juego := hallados[0];
    var _ := db.ActualizarSesion(k.value.0, k.value.1, CambiosCarga(juego.juegoID, ahora));
    r := Portada(titulo, juego.narrativa, juego.tipoPortada);
  }

  method IniciarPuzleActual(db: Db, k: Clave, ahora: string, rid: string) returns (r: Respuesta)
    requires k in db.sesiones
    modifies db
    ensures db.juegos == old(db.juegos) && db.usuarios == old(db.usuarios)
    ensures (Foto(db), r) == IniciarPaso(old(Foto(db)), db.juegos, k, ahora, rid)
  {
    var sesion := new SesionLocal(db.sesiones[k]);
    var idx := NumOr0(sesion.campos, PuzleActual);
    var (ok, juego) := db.BuscarJuegoPorID(Get(sesion.campos, JuegoID));
    if !ok || juego.None? {
      return NoDisponible;
    }
    if juego.value.puzles.None? || idx < 0 || idx >= |juego.value.puzles.value| {
      FinalizarJuego(db, k, sesion, ahora, rid);
      return Finalizado;
    }
    var puzle := juego.value.puzles.value[idx];
    sesion.campos := sesion.campos[PuzleIniciado := Bool(true)][PuzleTiempoActivo := Bool(true)][FallosPuzle := Num(0)];
    var _ := db.ActualizarSesion(k.0, k.1, CAMBIOS_INICIO);
    var respuesta := ToUpperCase(OrStr(puzle.respuestaCorrecta, ""));
    var mensajeCifrado := respuesta;
    if puzle.tipo == Some("cifrado-cesar") {
      mensajeCifrado := CifradoCesar(Some(respuesta), puzle.claveCifrado.GetOr(0));
    }
    r := MostrarPuzle(mensajeCifrado, puzle.tipo, puzle.instruccion);
  }

  method Si(db: Db, at: Atributos, ahora: string, rid: string) returns (r: Respuesta)
    modifies db
    ensures db.juegos == old(db.juegos) && db.usuarios == old(db.usuarios)
    ensures (Foto(db), r) == SiPaso(old(Foto(db)), db.juegos, at, ahora, rid)
  {
    var k := SesionActual(db.sesiones, at);
    if k.None? || !Truthy(db.sesiones[k.value], JuegoID) {
      return SinJuego;
    }
    if Truthy(db.sesiones[k.value], PuzleIniciado) {
      return EnCurso;
    }
    if Terminado(db.juegos, db.sesiones[k.value]) {
      var sesion := new SesionLocal(db.sesiones[k.value]);
      FinalizarJuego(db, k.value, sesion, ahora, rid);
      return Finalizado;
    }
    r := IniciarPuzleActual(db, k.value, ahora, rid);
  }

  method ResolverPuzle(db: Db, at: Atributos, slot: Option<string>, ahora: string, rid: string) returns (r: Respuesta)
    modifies db
    ensures db.juegos == old(db.juegos) && db.usuarios == old(db.usuarios)
    ensures (Foto(db), r) == ResolverPaso(old(Foto(db)), db.juegos, at, slot, ahora, rid)
  {
    var k := SesionActual(db.sesiones, at);
    if k.None? || !Truthy(db.sesiones[k.value], JuegoID) {
      return SinJuego;
    }
    var sesion := new SesionLocal(db.sesiones[k.value]);
    if !Truthy(sesion.campos, PuzleIniciado) || !Truthy(sesion.campos, PuzleTiempoActivo) {
      return SinDesafio;
    }
    var (ok, juego) := db.BuscarJuegoPorID(Get(sesion.campos, JuegoID));
    if !ok || juego.None? {
      return NoDisponible;
    }
    var puzle := PuzleActualDe(sesion.campos, juego);
    if puzle.None? {
      FinalizarJuego(db, k.value, sesion, ahora, rid);
      return Finalizado;
    }
    sesion.campos := sesion.campos[FallosPuzle := Num(NumOr0(sesion.campos, FallosPuzle))];
    if Acierta(slot, puzle.value) {
      r := Acierto(db, k.value, sesion, ahora, rid);
    } else {
      r := Fallo(db, k.value, sesion, juego.value, puzle.value, ahora, rid);
    }
  }

  /** The correct-answer branch of `ResolverPuzleIntentHandler`. */
  method Acierto(db: Db, k: Clave, sesion: SesionLocal, ahora: string, rid: string) returns (r: Respuesta)
    requires k in db.sesiones
    modifies db, sesion
    ensures db.juegos == old(db.juegos) && db.usuarios == old(db.usuarios)
    ensures (Foto(db), r) == AciertoPaso(old(Foto(db)), db.juegos, k, old(sesion.campos), ahora, rid)
  {
    sesion.AvanzarPuzle(true);
    var _ := db.ActualizarSesion(k.0, k.1, CambiosAcierto(sesion.campos));
    if Terminado(db.juegos, sesion.campos) {
      FinalizarJuego(db, k, sesion, ahora, rid);
      return Finalizado;
    }
    r := PedirContinuar(db, k, sesion, ahora, rid);
  }

  /** The wrong-answer branch of `ResolverPuzleIntentHandler`. */
  method Fallo(db: Db, k: Clave, sesion: SesionLocal, juego: Juego, puzle: Puzle, ahora: string, rid: string)
    returns (r: Respuesta)
    requires k in db.sesiones
    modifies db, sesion
    ensures db.juegos == old(db.juegos) && db.usuarios == old(db.usuarios)
    ensures (Foto(db), r) == FalloPaso(old(Foto(db)), db.juegos, k, old(sesion.campos), juego, puzle, ahora, rid)
  {
    sesion.campos := ConFallo(sesion.campos);
    var _ := db.ActualizarSesion(k.0, k.1, CambiosFallo(sesion.campos));
    var f := NumOr0(sesion.campos, FallosPuzle);
    if f <= NumPistas(puzle) {
      return Pista(PistaN(puzle, f));
    }
    if BajoPresupuesto(f, juego) {
      return Reintentar;
    }
    sesion.AvanzarPuzle(false);
    var _ := db.ActualizarSesion(k.0, k.1, CambiosAvance(sesion.campos));
    if Terminado(db.juegos, sesion.campos) {
      FinalizarJuego(db, k, sesion, ahora, rid);
      return FinPorFallos;
    }
    r := PedirContinuar(db, k, sesion, ahora, rid);
  }

  method TiempoAcabado(db: Db, at: Atributos, ahora: string, rid: string) returns (r: Respuesta)
    modifies db
    ensures db.juegos == old(db.juegos) && db.usuarios == old(db.usuarios)
    ensures (Foto(db), r) == TiempoAcabadoPaso(old(Foto(db)), db.juegos, at, ahora, rid)
  {
    var k := SesionActual(db.sesiones, at);
    if k.None? || !Truthy(db.sesiones[k.value], JuegoID) {
      return SinJuego;
    }
    var sesion := new SesionLocal(db.sesiones[k.value]);
    sesion.campos := sesion.campos[PuzleIniciado := Bool(false)][PuzleTiempoActivo := Bool(false)][FallosPuzle := Num(0)];
    sesion.AvanzarPuzle(false);
    var _ := db.ActualizarSesion(k.value.0, k.value.1, CambiosAvance(sesion.campos));
    if Terminado(db.juegos, sesion.campos) {
      FinalizarJuego(db, k.value, sesion, ahora, rid);
      return FinPorTiempo;
    }
    r := PedirContinuar(db, k.value, sesion, ahora, rid);
  }
}
