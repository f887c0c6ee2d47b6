/** Properties of the entrega5 state machine (Motor5): what each handler does to the
    stored session, the invariant every handler keeps, the cipher's round trip, and the
    double advance of a late timeout. */
module Propiedades5 {
  import opened Js
  import opened Texto
  import opened Bd5
  import opened Motor5

  // ---------------------------------------------------------------------
  // The writes, unfolded

  lemma EscribirCarga(s: Registro, id: string, ahora: string)
    ensures Mezclar(s, CambiosCarga(id, ahora)) ==
            s[JuegoID := Str(id)][PuzleActual := Num(0)][PuzleIniciado := Bool(false)]
             [PuzleTiempoActivo := Bool(false)][FallosPuzle := Num(0)][FallosTotales := Num(0)]
             [PuzlesSuperados := Num(0)][FechaInicioJuego := Str(ahora)][FechaFinJuego := Null]
  {
    var c := CambiosCarga(id, ahora);
    var a := [(JuegoID, Str(id)), (PuzleActual, Num(0)), (PuzleIniciado, Bool(false)), (PuzleTiempoActivo, Bool(false))];
    var b := [(FallosPuzle, Num(0)), (FallosTotales, Num(0)), (PuzlesSuperados, Num(0)), (FechaInicioJuego, Str(ahora))];
    var d := [(FechaFinJuego, Null)];
    assert c == a + b + d;
    MezclarConcat(s, a + b, d);
    MezclarConcat(s, a, b);
    Mezclar4(s, JuegoID, Str(id), PuzleActual, Num(0), PuzleIniciado, Bool(false), PuzleTiempoActivo, Bool(false));
    Mezclar4(Mezclar(s, a), FallosPuzle, Num(0), FallosTotales, Num(0), PuzlesSuperados, Num(0), FechaInicioJuego, Str(ahora));
    Mezclar1(Mezclar(s, a + b), FechaFinJuego, Null);
  }

  lemma EscribirInicio(s: Registro)
    ensures Mezclar(s, CAMBIOS_INICIO) == s[PuzleIniciado := Bool(true)][PuzleTiempoActivo := Bool(true)][FallosPuzle := Num(0)]
  {
    Mezclar3(s, PuzleIniciado, Bool(true), PuzleTiempoActivo, Bool(true), FallosPuzle, Num(0));
  }

  lemma EscribirAcierto(s: Registro, t: Registro)
    requires PuzleActual in t && PuzleIniciado in t && PuzleTiempoActivo in t && PuzlesSuperados in t
    ensures Mezclar(s, CambiosAcierto(t)) ==
            s[PuzleActual := t[PuzleActual]][PuzleIniciado := t[PuzleIniciado]]
             [PuzleTiempoActivo := t[PuzleTiempoActivo]][PuzlesSuperados := t[PuzlesSuperados]]
  {
    Mezclar4(s, PuzleActual, t[PuzleActual], PuzleIniciado, t[PuzleIniciado],
             PuzleTiempoActivo, t[PuzleTiempoActivo], PuzlesSuperados, t[PuzlesSuperados]);
  }

  lemma EscribirAvance(s: Registro, t: Registro)
    requires PuzleActual in t && PuzleIniciado in t && PuzleTiempoActivo in t && FallosPuzle in t
    ensures Mezclar(s, CambiosAvance(t)) ==
            s[PuzleActual := t[PuzleActual]][PuzleIniciado := t[PuzleIniciado]]
             [PuzleTiempoActivo := t[PuzleTiempoActivo]][FallosPuzle := t[FallosPuzle]]
  {
    Mezclar4(s, PuzleActual, t[PuzleActual], PuzleIniciado, t[PuzleIniciado],
             PuzleTiempoActivo, t[PuzleTiempoActivo], FallosPuzle, t[FallosPuzle]);
  }

  lemma EscribirFallo(s: Registro, t: Registro)
    requires FallosPuzle in t && FallosTotales in t
    ensures Mezclar(s, CambiosFallo(t)) == s[FallosPuzle := t[FallosPuzle]][FallosTotales := t[FallosTotales]]
  {
    Mezclar2(s, FallosPuzle, t[FallosPuzle], FallosTotales, t[FallosTotales]);
  }

  // ---------------------------------------------------------------------
  // avanzarPuzle

  /** `avanzarPuzle` moves to the next index (an absent index counting as 0), clears both
      flags and the puzzle's failure count, counts a clear exactly when asked to, and
      leaves every other attribute, the failure total included, as it was. */
  lemma AvanzarPuzleEfecto(s: Registro, completado: bool)
    ensures var t := Avanzado(s, completado);
            t[PuzleActual] == Num(NumOr0(s, PuzleActual) + 1) &&
            t[PuzleIniciado] == Bool(false) && t[PuzleTiempoActivo] == Bool(false) && t[FallosPuzle] == Num(0) &&
            (completado ==> t[PuzlesSuperados] == Num(NumOr0(s, PuzlesSuperados) + 1)) &&
            (!completado ==> Get(t, PuzlesSuperados) == Get(s, PuzlesSuperados)) &&
            Get(t, FallosTotales) == Get(s, FallosTotales)
    ensures forall f :: (f != PuzleActual && f != PuzleIniciado && f != PuzleTiempoActivo && f != FallosPuzle &&
                         f != PuzlesSuperados) ==> Get(Avanzado(s, completado), f) == Get(s, f)
  {
  }

  // ---------------------------------------------------------------------
  // The invariant of a stored session

  /** Every counter is a number, the clear count never exceeds the index, the puzzle's
      failures never exceed the total, and the two flags agree. */
  predicate Coherente(s: Registro) {
    PuzleActual in s && s[PuzleActual].Num? && PuzlesSuperados in s && s[PuzlesSuperados].Num? &&
    FallosPuzle in s && s[FallosPuzle].Num? && FallosTotales in s && s[FallosTotales].Num? &&
    PuzleIniciado in s && s[PuzleIniciado].Bool? && PuzleTiempoActivo in s &&
    s[PuzleTiempoActivo] == s[PuzleIniciado] &&
    0 <= s[PuzlesSuperados].n <= s[PuzleActual].n &&
    0 <= s[FallosPuzle].n <= s[FallosTotales].n
  }

  predicate EstadoCoherente(e: Estado) {
    forall k :: k in e.sesiones ==> Coherente(e.sesiones[k])
  }

  /** `crearSesion` stores a coherent session. */
  lemma NuevaSesionCoherente(userID: string, sesionID: string, tipo: string, juegoID: Value, ahora: string)
    ensures Coherente(NuevaSesion(userID, sesionID, tipo, juegoID, ahora))
  {
  }

  lemma CerrarCoherente(e: Estado, k: Clave, s: Registro, ahora: string, rid: string)
    requires EstadoCoherente(e)
    ensures EstadoCoherente(Cerrar(e, k, s, ahora, rid))
  {
  }

  lemma PedirCoherente(e: Estado, js: seq<Juego>, k: Clave, s: Registro, ahora: string, rid: string)
    requires EstadoCoherente(e)
    ensures EstadoCoherente(PedirPaso(e, js, k, s, ahora, rid).0)
  {
  }

  /** Loading a game keeps every stored session coherent. */
  lemma CargarCoherente(e: Estado, js: seq<Juego>, at: Atributos, slot: Option<string>, ahora: string)
    requires EstadoCoherente(e)
    ensures EstadoCoherente(CargarPaso(e, js, at, slot, ahora).0)
  {
    var k := SesionActual(e.sesiones, at);
    if k.Some? {
      var hallados := JuegosConTitulo(js, ToLowerCase(OrStr(slot, "")));
      if hallados != [] {
        EscribirCarga(e.sesiones[k.value], hallados[0].juegoID, ahora);
      }
    }
  }

  /** Starting a puzzle keeps every stored session coherent. */
  lemma SiCoherente(e: Estado, js: seq<Juego>, at: Atributos, ahora: string, rid: string)
    requires EstadoCoherente(e)
    ensures EstadoCoherente(SiPaso(e, js, at, ahora, rid).0)
  {
    var k := SesionActual(e.sesiones, at);
    if k.Some? {
      EscribirInicio(e.sesiones[k.value]);
    }
  }

  lemma AciertoCoherente(e: Estado, js: seq<Juego>, k: Clave, s1: Registro, ahora: string, rid: string)
    requires EstadoCoherente(e) && k in e.sesiones && Coherente(s1)
    requires forall f :: f != FallosPuzle ==> Get(s1, f) == Get(e.sesiones[k], f)
    ensures EstadoCoherente(AciertoPaso(e, js, k, s1, ahora, rid).0)
  {
    var s2 := Avanzado(s1, true);
    EscribirAcierto(e.sesiones[k], s2);
    var e2 := Escribir(e, k, CambiosAcierto(s2));
    assert Get(s1, PuzleActual) == Get(e.sesiones[k], PuzleActual);
    assert Get(s1, PuzlesSuperados) == Get(e.sesiones[k], PuzlesSuperados);
    assert EstadoCoherente(e2);
    PedirCoherente(e2, js, k, s2, ahora, rid);
  }

  lemma FalloCoherente(e: Estado, js: seq<Juego>, k: Clave, s1: Registro, j: Juego, p: Puzle, ahora: string, rid: string)
    requires EstadoCoherente(e) && k in e.sesiones && Coherente(s1) && s1 == e.sesiones[k]
    ensures EstadoCoherente(FalloPaso(e, js, k, s1, j, p, ahora, rid).0)
  {
    var s2 := ConFallo(s1);
    EscribirFallo(s1, s2);
    var e2 := Escribir(e, k, CambiosFallo(s2));
    assert e2.sesiones[k] == s2;
    assert EstadoCoherente(e2);
    var s3 := Avanzado(s2, false);
    EscribirAvance(s2, s3);
    var e3 := Escribir(e2, k, CambiosAvance(s3));
    assert EstadoCoherente(e3);
    PedirCoherente(e3, js, k, s3, ahora, rid);
  }

  /** Answering keeps every stored session coherent. */
  lemma ResolverCoherente(e: Estado, js: seq<Juego>, at: Atributos, slot: Option<string>, ahora: string, rid: string)
    requires EstadoCoherente(e)
    ensures EstadoCoherente(ResolverPaso(e, js, at, slot, ahora, rid).0)
  {
    var k := SesionActual(e.sesiones, at);
    if k.Some? && Truthy(e.sesiones[k.value], JuegoID) {
      var s := e.sesiones[k.value];
      var j := JuegoPorID(js, Get(s, JuegoID)).1;
      var p := PuzleActualDe(s, j);
      if Truthy(s, PuzleIniciado) && Truthy(s, PuzleTiempoActivo) && j.Some? && p.Some? {
        var s1 := s[FallosPuzle := Num(NumOr0(s, FallosPuzle))];
        assert s1 == s;
        if Acierta(slot, p.value) {
          AciertoCoherente(e, js, k.value, s1, ahora, rid);
        } else {
          FalloCoherente(e, js, k.value, s1, j.value, p.value, ahora, rid);
        }
      }
    }
  }

  /** The timeout keeps every stored session coherent. */
  lemma TiempoAcabadoCoherente(e: Estado, js: seq<Juego>, at: Atributos, ahora: string, rid: string)
    requires EstadoCoherente(e)
    ensures EstadoCoherente(TiempoAcabadoPaso(e, js, at, ahora, rid).0)
  {
    var k := SesionActual(e.sesiones, at);
    if k.Some? && Truthy(e.sesiones[k.value], JuegoID) {
      var s2 := SinTiempo(e.sesiones[k.value]);
      EscribirAvance(e.sesiones[k.value], s2);
      var e2 := Escribir(e, k.value, CambiosAvance(s2));
      assert EstadoCoherente(e2);
      PedirCoherente(e2, js, k.value, s2, ahora, rid);
    }
  }

  // ---------------------------------------------------------------------
  // A started puzzle is in its game

  /** A started puzzle belongs to a stored game and its index is in range. */
  predicate EnRango(js: seq<Juego>, s: Registro) {
    Truthy(s, PuzleIniciado) ==> PuzleActualDe(s, JuegoPorID(js, Get(s, JuegoID)).1).Some?
  }

  predicate EstadoEnRango(e: Estado, js: seq<Juego>) {
    forall k :: k in e.sesiones ==> EnRango(js, e.sesiones[k])
  }

  /** `crearSesion` stores a session with no puzzle started. */
  lemma NuevaSesionEnRango(js: seq<Juego>, userID: string, sesionID: string, tipo: string, juegoID: Value, ahora: string)
    ensures EnRango(js, NuevaSesion(userID, sesionID, tipo, juegoID, ahora))
  {
  }

  lemma CerrarEnRango(e: Estado, js: seq<Juego>, k: Clave, s: Registro, ahora: string, rid: string)
    requires EstadoEnRango(e, js)
    ensures EstadoEnRango(Cerrar(e, k, s, ahora, rid), js)
  {
  }

  lemma PedirEnRango(e: Estado, js: seq<Juego>, k: Clave, s: Registro, ahora: string, rid: string)
    requires EstadoEnRango(e, js)
    ensures EstadoEnRango(PedirPaso(e, js, k, s, ahora, rid).0, js)
  {
    CerrarEnRango(e, js, k, s, ahora, rid);
  }

  /** Writing an advance, or a load, clears the flag, so the session is in range. */
  lemma AvanceEnRango(e: Estado, js: seq<Juego>, k: Clave, t: Registro)
    requires EstadoEnRango(e, js) && k in e.sesiones
    requires PuzleActual in t && PuzleIniciado in t && PuzleTiempoActivo in t && FallosPuzle in t
    requires t[PuzleIniciado] == Bool(false)
    ensures EstadoEnRango(Escribir(e, k, CambiosAvance(t)), js)
  {
    EscribirAvance(e.sesiones[k], t);
  }

  /** Loading a game keeps every started puzzle in range. */
  lemma CargarEnRango(e: Estado, js: seq<Juego>, at: Atributos, slot: Option<string>, ahora: string)
    requires EstadoEnRango(e, js)
    ensures EstadoEnRango(CargarPaso(e, js, at, slot, ahora).0, js)
  {
    var k := SesionActual(e.sesiones, at);
    if k.Some? {
      var hallados := JuegosConTitulo(js, ToLowerCase(OrStr(slot, "")));
      if hallados != [] {
        EscribirCarga(e.sesiones[k.value], hallados[0].juegoID, ahora);
      }
    }
  }

  /** "Yes" starts a puzzle only after finding it at the current index. */
  lemma SiEnRango(e: Estado, js: seq<Juego>, at: Atributos, ahora: string, rid: string)
    requires EstadoEnRango(e, js)
    ensures EstadoEnRango(SiPaso(e, js, at, ahora, rid).0, js)
  {
    var k := SesionActual(e.sesiones, at);
    if k.Some? {
      var s := e.sesiones[k.value];
      EscribirInicio(s);
      var s2 := Mezclar(s, CAMBIOS_INICIO);
      assert Get(s2, JuegoID) == Get(s, JuegoID) && NumOr0(s2, PuzleActual) == NumOr0(s, PuzleActual);
      CerrarEnRango(e, js, k.value, s, ahora, rid);
    }
  }

  lemma AciertoEnRango(e: Estado, js: seq<Juego>, k: Clave, s1: Registro, ahora: string, rid: string)
    requires EstadoEnRango(e, js) && k in e.sesiones
    ensures EstadoEnRango(AciertoPaso(e, js, k, s1, ahora, rid).0, js)
  {
    var s2 := Avanzado(s1, true);
    EscribirAcierto(e.sesiones[k], s2);
    var e2 := Escribir(e, k, CambiosAcierto(s2));
    assert EnRango(js, e2.sesiones[k]);
    PedirEnRango(e2, js, k, s2, ahora, rid);
    CerrarEnRango(e2, js, k, s2, ahora, rid);
  }

  /** A counted failure leaves the game and the index as stored, so the puzzle stays in
      range; an advance clears the flag. */
  lemma FalloEnRango(e: Estado, js: seq<Juego>, k: Clave, s1: Registro, j: Juego, p: Puzle, ahora: string, rid: string)
    requires EstadoEnRango(e, js) && k in e.sesiones
    ensures EstadoEnRango(FalloPaso(e, js, k, s1, j, p, ahora, rid).0, js)
  {
    var s := e.sesiones[k];
    var s2 := ConFallo(s1);
    EscribirFallo(s, s2);
    var e2 := Escribir(e, k, CambiosFallo(s2));
    var t := e2.sesiones[k];
    assert Get(t, JuegoID) == Get(s, JuegoID) && Get(t, PuzleIniciado) == Get(s, PuzleIniciado);
    assert NumOr0(t, PuzleActual) == NumOr0(s, PuzleActual);
    assert EnRango(js, t) by {
      assert PuzleActualDe(t, JuegoPorID(js, Get(t, JuegoID)).1) == PuzleActualDe(s, JuegoPorID(js, Get(s, JuegoID)).1);
    }
    assert EstadoEnRango(e2, js);
    var s3 := Avanzado(s2, false);
    AvanceEnRango(e2, js, k, s3);
    var e3 := Escribir(e2, k, CambiosAvance(s3));
    PedirEnRango(e3, js, k, s3, ahora, rid);
    CerrarEnRango(e3, js, k, s3, ahora, rid);
  }

  /** Answering keeps every started puzzle in range. */
  lemma ResolverEnRango(e: Estado, js: seq<Juego>, at: Atributos, slot: Option<string>, ahora: string, rid: string)
    requires EstadoEnRango(e, js)
    ensures EstadoEnRango(ResolverPaso(e, js, at, slot, ahora, rid).0, js)
  {
    var k := SesionActual(e.sesiones, at);
    if k.Some? && Truthy(e.sesiones[k.value], JuegoID) {
      var s := e.sesiones[k.value];
      var j := JuegoPorID(js, Get(s, JuegoID)).1;
      var p := PuzleActualDe(s, j);
      CerrarEnRango(e, js, k.value, s, ahora, rid);
      if Truthy(s, PuzleIniciado) && Truthy(s, PuzleTiempoActivo) && j.Some? && p.Some? {
        var s1 := s[FallosPuzle := Num(NumOr0(s, FallosPuzle))];
        if Acierta(slot, p.value) {
          AciertoEnRango(e, js, k.value, s1, ahora, rid);
        } else {
          FalloEnRango(e, js, k.value, s1, j.value, p.value, ahora, rid);
        }
      }
    }
  }

  /** The timeout clears the flag, so it keeps every started puzzle in range. */
  lemma TiempoAcabadoEnRango(e: Estado, js: seq<Juego>, at: Atributos, ahora: string, rid: string)
    requires EstadoEnRango(e, js)
    ensures EstadoEnRango(TiempoAcabadoPaso(e, js, at, ahora, rid).0, js)
  {
    var k := SesionActual(e.sesiones, at);
    if k.Some? && Truthy(e.sesiones[k.value], JuegoID) {
      var s2 := SinTiempo(e.sesiones[k.value]);
      AvanceEnRango(e, js, k.value, s2);
      var e2 := Escribir(e, k.value, CambiosAvance(s2));
      PedirEnRango(e2, js, k.value, s2, ahora, rid);
      CerrarEnRango(e2, js, k.value, s2, ahora, rid);
    }
  }

  /** A game found by id is still the one found once another game is appended. */
  lemma JuegoPorIDAmpliado(js: seq<Juego>, g: Juego, id: Option<Value>)
    requires JuegoPorID(js, id).1.Some?
    ensures JuegoPorID(js + [g], id) == JuegoPorID(js, id)
  {
    var p := (x: Juego) => id.value.Str? && x.juegoID == id.value.s;
    FiltrarConcat(js, [g], p);
  }

  /** Saving a new game (`guardarJuego` appends it) keeps every started puzzle in range. */
  lemma GuardarJuegoEnRango(e: Estado, js: seq<Juego>, g: Juego)
    requires EstadoEnRango(e, js)
    ensures EstadoEnRango(e, js + [g])
  {
    forall k | k in e.sesiones && Truthy(e.sesiones[k], PuzleIniciado)
      ensures PuzleActualDe(e.sesiones[k], JuegoPorID(js + [g], Get(e.sesiones[k], JuegoID)).1).Some?
    {
      JuegoPorIDAmpliado(js, g, Get(e.sesiones[k], JuegoID));
    }
  }

  /** With both invariants, a session with a puzzle started is one an answer is compared
      against: its game is found and its puzzle is at the current index. */
  lemma IniciadoEnJuego(e: Estado, js: seq<Juego>, at: Atributos)
    requires EstadoCoherente(e) && EstadoEnRango(e, js)
    requires SesionActual(e.sesiones, at).Some? && Truthy(e.sesiones[SesionActual(e.sesiones, at).value], PuzleIniciado)
    ensures EnJuego(e, js, at)
  {
  }

  // ---------------------------------------------------------------------
  // What each handler does

  /** The session a successful load writes: the game's id, the first puzzle, every flag and
      counter cleared, the start time set and the end time null; every other attribute kept. */
  lemma CargaEscrita(e: Estado, k: Clave, id: string, ahora: string)
    requires k in e.sesiones
    ensures var t := Escribir(e, k, CambiosCarga(id, ahora)).sesiones[k];
            var s := e.sesiones[k];
            Get(t, JuegoID) == Some(Str(id)) && Get(t, PuzleActual) == Some(Num(0)) &&
            Get(t, PuzleIniciado) == Some(Bool(false)) && Get(t, PuzleTiempoActivo) == Some(Bool(false)) &&
            Get(t, FallosPuzle) == Some(Num(0)) && Get(t, FallosTotales) == Some(Num(0)) &&
            Get(t, PuzlesSuperados) == Some(Num(0)) &&
            Get(t, FechaInicioJuego) == Some(Str(ahora)) && Get(t, FechaFinJuego) == Some(Null) &&
            Get(t, UserID) == Get(s, UserID) && Get(t, SesionID) == Get(s, SesionID) &&
            Get(t, TipoUsuario) == Get(s, TipoUsuario) && Get(t, FechaCreacion) == Get(s, FechaCreacion)
  {
    EscribirCarga(e.sesiones[k], id, ahora);
  }

  /** Loading a game: without a session, or when no game has the lower-cased title, nothing
      is written; otherwise the first game whose lower-cased title matches is loaded into the
      session (as `CargaEscrita` states) and every other session is left alone. */
  lemma CargarEfecto(e: Estado, js: seq<Juego>, at: Atributos, slot: Option<string>, ahora: string)
    ensures var k := SesionActual(e.sesiones, at);
            var titulo := ToLowerCase(OrStr(slot, ""));
            var (e2, r) := CargarPaso(e, js, at, slot, ahora);
            (k.None? ==> e2 == e && r == SinSesion) &&
            (k.Some? && JuegosConTitulo(js, titulo) == [] ==> e2 == e && r == TituloDesconocido(titulo)) &&
            (k.Some? && JuegosConTitulo(js, titulo) != [] ==>
               var g := JuegosConTitulo(js, titulo)[0];
               g in js && ToLowerCase(g.titulo) == titulo &&
               r == Portada(titulo, g.narrativa, g.tipoPortada) &&
               e2 == Escribir(e, k.value, CambiosCarga(g.juegoID, ahora)) &&
               e2.resultados == e.resultados && e2.sesiones.Keys == e.sesiones.Keys &&
               (forall k2 :: k2 in e.sesiones && k2 != k.value ==> e2.sesiones[k2] == e.sesiones[k2]))
  {
    var k := SesionActual(e.sesiones, at);
    var titulo := ToLowerCase(OrStr(slot, ""));
    if k.Some? && JuegosConTitulo(js, titulo) != [] {
      var g := JuegosConTitulo(js, titulo)[0];
      BuscarTituloExacto(js, titulo);
      assert g in JuegosConTitulo(js, titulo);
    }
  }

  /** The session a puzzle start writes. */
  function Iniciada(s: Registro): Registro {
    s[PuzleIniciado := Bool(true)][PuzleTiempoActivo := Bool(true)][FallosPuzle := Num(0)]
  }

  /** The result stored when a game ends with the in-memory session `s`. */
  function ResultadoDe(s: Registro, ahora: string, rid: string): Registro {
    NuevoResultado(Get(s, UserID), Get(s, FallosTotales), Get(s, PuzlesSuperados),
                   Get(s, FechaInicioJuego), Some(Str(ahora)), rid, ahora)
  }

  /** "Yes": without a loaded game, or with a puzzle already started, nothing is written; a
      finished game is finalised (its result stored, its session deleted); otherwise the
      puzzle at the current index is shown, both flags set and its failures reset. */
  lemma SiEfecto(e: Estado, js: seq<Juego>, at: Atributos, ahora: string, rid: string)
    ensures var k := SesionActual(e.sesiones, at);
            var (e2, r) := SiPaso(e, js, at, ahora, rid);
            (k.None? || !Truthy(e.sesiones[k.value], JuegoID) ==> e2 == e && r == SinJuego) &&
            (k.Some? && Truthy(e.sesiones[k.value], JuegoID) && Truthy(e.sesiones[k.value], PuzleIniciado) ==>
               e2 == e && r == EnCurso) &&
            (k.Some? && Truthy(e.sesiones[k.value], JuegoID) && !Truthy(e.sesiones[k.value], PuzleIniciado) &&
             Terminado(js, e.sesiones[k.value]) ==>
               r == Finalizado && e2.sesiones == e.sesiones - {k.value} &&
               e2.resultados == e.resultados + [ResultadoDe(e.sesiones[k.value], ahora, rid)]) &&
            (k.Some? && Truthy(e.sesiones[k.value], JuegoID) && !Truthy(e.sesiones[k.value], PuzleIniciado) &&
             !Terminado(js, e.sesiones[k.value]) && Coherente(e.sesiones[k.value]) ==>
               var s := e.sesiones[k.value];
               var p := PuzleActualDe(s, JuegoPorID(js, Get(s, JuegoID)).1);
               p.Some? && r == MostrarPuzle(Mensaje(p.value), p.value.tipo, p.value.instruccion) &&
               e2 == Estado(e.sesiones[k.value := Iniciada(s)], e.resultados))
  {
    var k := SesionActual(e.sesiones, at);
    if k.Some? {
      EscribirInicio(e.sesiones[k.value]);
    }
  }

  /** Starting a puzzle twice does not restart it: the second "yes" answers that a puzzle
      is running and writes nothing. */
  lemma SiDosVeces(e: Estado, js: seq<Juego>, at: Atributos, ahora: string, rid: string, rid2: string)
    requires SiPaso(e, js, at, ahora, rid).1.MostrarPuzle?
    ensures var e1 := SiPaso(e, js, at, ahora, rid).0;
            SiPaso(e1, js, at, ahora, rid2) == (e1, EnCurso)
  {
    var k := SesionActual(e.sesiones, at);
    EscribirInicio(e.sesiones[k.value]);
  }

  /** Answering without a loaded game, or with no puzzle whose timer runs, writes nothing. */
  lemma ResolverGuarda(e: Estado, js: seq<Juego>, at: Atributos, slot: Option<string>, ahora: string, rid: string)
    ensures var k := SesionActual(e.sesiones, at);
            (k.None? || !Truthy(e.sesiones[k.value], JuegoID) ==> ResolverPaso(e, js, at, slot, ahora, rid) == (e, SinJuego)) &&
            (k.Some? && Truthy(e.sesiones[k.value], JuegoID) &&
             (!Truthy(e.sesiones[k.value], PuzleIniciado) || !Truthy(e.sesiones[k.value], PuzleTiempoActivo)) ==>
               ResolverPaso(e, js, at, slot, ahora, rid) == (e, SinDesafio))
  {
  }

  /** The puzzle an answer is compared against, when a coherent session has one running. */
  predicate EnJuego(e: Estado, js: seq<Juego>, at: Atributos) {
    var k := SesionActual(e.sesiones, at);
    k.Some? && Coherente(e.sesiones[k.value]) && Truthy(e.sesiones[k.value], JuegoID) &&
    Truthy(e.sesiones[k.value], PuzleIniciado) &&
    JuegoPorID(js, Get(e.sesiones[k.value], JuegoID)).1.Some? &&
    PuzleActualDe(e.sesiones[k.value], JuegoPorID(js, Get(e.sesiones[k.value], JuegoID)).1).Some?
  }

  function ClaveDe(e: Estado, at: Atributos): Clave
    requires SesionActual(e.sesiones, at).Some?
  {
    SesionActual(e.sesiones, at).value
  }

  function JuegoDe(e: Estado, js: seq<Juego>, at: Atributos): Juego
    requires EnJuego(e, js, at)
  {
    JuegoPorID(js, Get(e.sesiones[ClaveDe(e, at)], JuegoID)).1.value
  }

  function PuzleDe(e: Estado, js: seq<Juego>, at: Atributos): Puzle
    requires EnJuego(e, js, at)
  {
    PuzleActualDe(e.sesiones[ClaveDe(e, at)], JuegoPorID(js, Get(e.sesiones[ClaveDe(e, at)], JuegoID)).1).value
  }

  /** The effect of a correct answer on a coherent session `s` stored under `k`. */
  lemma AciertoEfecto(e: Estado, js: seq<Juego>, k: Clave, s: Registro, j: Juego, ahora: string, rid: string)
    requires k in e.sesiones && s == e.sesiones[k] && Coherente(s)
    requires JuegoPorID(js, Get(s, JuegoID)).1 == Some(j)
    ensures var m := s[PuzleActual].n;
            var t := s[PuzleActual := Num(m + 1)][PuzleIniciado := Bool(false)][PuzleTiempoActivo := Bool(false)]
                      [FallosPuzle := s[FallosPuzle]][PuzlesSuperados := Num(s[PuzlesSuperados].n + 1)];
            var (e2, r) := AciertoPaso(e, js, k, s, ahora, rid);
            (m + 1 < NumPuzles(j) ==> r == Continuar && e2 == Estado(e.sesiones[k := t], e.resultados)) &&
            (m + 1 >= NumPuzles(j) ==>
               r == Finalizado && e2.sesiones == e.sesiones - {k} &&
               e2.resultados == e.resultados + [ResultadoDe(t, ahora, rid)])
  {
    var s2 := Avanzado(s, true);
    EscribirAcierto(s, s2);
    assert Get(s2, JuegoID) == Get(s, JuegoID);
    var m := s[PuzleActual].n;
    var t := s[PuzleActual := Num(m + 1)][PuzleIniciado := Bool(false)][PuzleTiempoActivo := Bool(false)]
              [FallosPuzle := s[FallosPuzle]][PuzlesSuperados := Num(s[PuzlesSuperados].n + 1)];
    assert Mezclar(s, CambiosAcierto(s2)) == t;
    assert Get(s2, UserID) == Get(t, UserID) && Get(s2, FechaInicioJuego) == Get(t, FechaInicioJuego);
    assert Get(s2, FallosTotales) == Get(t, FallosTotales) && Get(s2, PuzlesSuperados) == Get(t, PuzlesSuperados);
  }

  /** A correct answer advances the index and the clear count by one and changes neither the
      puzzle's failures nor the total; the game is finalised exactly when that was the last
      puzzle, and otherwise the player is asked to continue. */
  lemma ResolverAcierto(e: Estado, js: seq<Juego>, at: Atributos, slot: Option<string>, ahora: string, rid: string)
    requires EnJuego(e, js, at) && Acierta(slot, PuzleDe(e, js, at))
    ensures var k := ClaveDe(e, at);
            var s := e.sesiones[k];
            var m := s[PuzleActual].n;
            var t := s[PuzleActual := Num(m + 1)][PuzleIniciado := Bool(false)][PuzleTiempoActivo := Bool(false)]
                      [FallosPuzle := s[FallosPuzle]][PuzlesSuperados := Num(s[PuzlesSuperados].n + 1)];
            var (e2, r) := ResolverPaso(e, js, at, slot, ahora, rid);
            (m + 1 < NumPuzles(JuegoDe(e, js, at)) ==> r == Continuar && e2 == Estado(e.sesiones[k := t], e.resultados)) &&
            (m + 1 >= NumPuzles(JuegoDe(e, js, at)) ==>
               r == Finalizado && e2.sesiones == e.sesiones - {k} &&
               e2.resultados == e.resultados + [ResultadoDe(t, ahora, rid)])
  {
    var k := ClaveDe(e, at);
    var s := e.sesiones[k];
    assert s[FallosPuzle := Num(NumOr0(s, FallosPuzle))] == s;
    assert ResolverPaso(e, js, at, slot, ahora, rid) == AciertoPaso(e, js, k, s, ahora, rid);
    AciertoEfecto(e, js, k, s, JuegoDe(e, js, at), ahora, rid);
  }

  /** The session once a wrong answer is counted on a coherent session. */
  function Contado(s: Registro): Registro
    requires Coherente(s)
  {
    s[FallosPuzle := Num(s[FallosPuzle].n + 1)][FallosTotales := Num(s[FallosTotales].n + 1)]
  }

  /** A wrong answer on a coherent session `s` stored under `k`, while hints or budget last:
      the counted session is written and hint number `f` or a retry is asked for. */
  lemma FalloSinAvance(e: Estado, js: seq<Juego>, k: Clave, s: Registro, j: Juego, p: Puzle, ahora: string, rid: string)
    requires k in e.sesiones && s == e.sesiones[k] && Coherente(s)
    ensures var f := s[FallosPuzle].n + 1;
            var (e2, r) := FalloPaso(e, js, k, s, j, p, ahora, rid);
            (f <= NumPistas(p) ==> r == Pista(p.pistas.value[f - 1]) && e2 == Estado(e.sesiones[k := Contado(s)], e.resultados)) &&
            (f > NumPistas(p) && BajoPresupuesto(f, j) ==> r == Reintentar && e2 == Estado(e.sesiones[k := Contado(s)], e.resultados))
  {
    var c := Contado(s);
    assert ConFallo(s) == c;
    EscribirFallo(s, c);
    assert Mezclar(s, CambiosFallo(c)) == c;
  }

  /** A wrong answer on a coherent session once hints and budget are spent: an advance
      without a clear, which ends the game when that was the last puzzle. */
  lemma FalloConAvance(e: Estado, js: seq<Juego>, k: Clave, s: Registro, j: Juego, p: Puzle, ahora: string, rid: string)
    requires k in e.sesiones && s == e.sesiones[k] && Coherente(s)
    requires JuegoPorID(js, Get(s, JuegoID)).1 == Some(j)
    requires s[FallosPuzle].n + 1 > NumPistas(p) && !BajoPresupuesto(s[FallosPuzle].n + 1, j)
    ensures var m := s[PuzleActual].n;
            var t := Contado(s)[PuzleActual := Num(m + 1)][PuzleIniciado := Bool(false)][PuzleTiempoActivo := Bool(false)]
                      [FallosPuzle := Num(0)];
            var (e2, r) := FalloPaso(e, js, k, s, j, p, ahora, rid);
            (m + 1 < NumPuzles(j) ==> r == Continuar && e2 == Estado(e.sesiones[k := t], e.resultados)) &&
            (m + 1 >= NumPuzles(j) ==>
               r == FinPorFallos && e2.sesiones == e.sesiones - {k} &&
               e2.resultados == e.resultados + [ResultadoDe(t, ahora, rid)])
  {
    var c := Contado(s);
    assert ConFallo(s) == c;
    EscribirFallo(s, c);
    assert Mezclar(s, CambiosFallo(c)) == c;
    var e2 := Escribir(e, k, CambiosFallo(c));
    assert e2 == Estado(e.sesiones[k := c], e.resultados);
    var t := Avanzado(c, false);
    EscribirAvance(c, t);
    assert Mezclar(c, CambiosAvance(t)) == t;
    assert Get(t, JuegoID) == Get(s, JuegoID);
  }

  /** A wrong answer counts one failure on the puzzle and one in the total. While the count
      does not exceed the number of hints it gives hint number `f`; then, while it is below
      the budget, it asks to retry; otherwise it advances without counting a clear, and
      ends the game when that was the last puzzle. */
  lemma ResolverFallo(e: Estado, js: seq<Juego>, at: Atributos, slot: Option<string>, ahora: string, rid: string)
    requires EnJuego(e, js, at) && !Acierta(slot, PuzleDe(e, js, at))
    ensures var s := e.sesiones[ClaveDe(e, at)];
            ResolverPaso(e, js, at, slot, ahora, rid) ==
            FalloPaso(e, js, ClaveDe(e, at), s, JuegoDe(e, js, at), PuzleDe(e, js, at), ahora, rid)
  {
    var k := ClaveDe(e, at);
    var s := e.sesiones[k];
    assert s[FallosPuzle := Num(NumOr0(s, FallosPuzle))] == s;
  }

  /** A stored session that has neither advanced nor ended after a wrong answer has at most
      max(number of hints, budget - 1) failures on its puzzle. */
  lemma FallosAcotados(e: Estado, js: seq<Juego>, at: Atributos, slot: Option<string>, ahora: string, rid: string)
    requires EnJuego(e, js, at) && !Acierta(slot, PuzleDe(e, js, at))
    ensures var (e2, r) := ResolverPaso(e, js, at, slot, ahora, rid);
            var j := JuegoDe(e, js, at);
            var k := ClaveDe(e, at);
            r.Pista? || r == Reintentar ==>
              k in e2.sesiones && FallosPuzle in e2.sesiones[k] && e2.sesiones[k][FallosPuzle].Num? &&
              var f := e2.sesiones[k][FallosPuzle].n;
              f <= NumPistas(PuzleDe(e, js, at)) || (j.fallosMaximosPuzle.Some? && f <= j.fallosMaximosPuzle.value - 1)
  {
    var k := ClaveDe(e, at);
    ResolverFallo(e, js, at, slot, ahora, rid);
    FalloSinAvance(e, js, k, e.sesiones[k], JuegoDe(e, js, at), PuzleDe(e, js, at), ahora, rid);
  }

  /** The timeout needs only a loaded game: whether or not a puzzle is running it advances the
      index by one, clears both flags and the puzzle's failures, and never counts a clear.
      At the end of the game it stores a result with the session's totals and deletes the
      session. */
  lemma TiempoAcabadoEfecto(e: Estado, js: seq<Juego>, at: Atributos, ahora: string, rid: string)
    requires SesionActual(e.sesiones, at).Some?
    requires Coherente(e.sesiones[ClaveDe(e, at)]) && Truthy(e.sesiones[ClaveDe(e, at)], JuegoID)
    ensures var k := ClaveDe(e, at);
            var s := e.sesiones[k];
            var m := s[PuzleActual].n;
            var t := s[PuzleActual := Num(m + 1)][PuzleIniciado := Bool(false)][PuzleTiempoActivo := Bool(false)]
                      [FallosPuzle := Num(0)];
            var j := JuegoPorID(js, Get(s, JuegoID)).1;
            var (e2, r) := TiempoAcabadoPaso(e, js, at, ahora, rid);
            (j.Some? && m + 1 < NumPuzles(j.value) ==> r == Continuar && e2 == Estado(e.sesiones[k := t], e.resultados)) &&
            (j.None? || m + 1 >= NumPuzles(j.value) ==>
               r == FinPorTiempo && e2.sesiones == e.sesiones - {k} &&
               e2.resultados == e.resultados + [ResultadoDe(t, ahora, rid)] &&
               ResultadoDe(t, ahora, rid)[PuzlesSuperados] == OrValue(Some(s[PuzlesSuperados]), Num(0)) &&
               ResultadoDe(t, ahora, rid)[FallosTotales] == OrValue(Some(s[FallosTotales]), Num(0)))
  {
    var k := ClaveDe(e, at);
    var s := e.sesiones[k];
    EscribirAvance(s, SinTiempo(s));
  }

  // ---------------------------------------------------------------------
  // The late timeout

  /** As written, a correct answer followed by a timeout report from the screen (whose
      countdown was still running) advances twice from the same puzzle: the puzzle after the
      one solved is skipped without being shown. */
  lemma DobleAvance(e: Estado, js: seq<Juego>, at: Atributos, slot: Option<string>, ahora: string, rid: string, rid2: string)
    requires EnJuego(e, js, at) && Acierta(slot, PuzleDe(e, js, at))
    requires e.sesiones[ClaveDe(e, at)][PuzleActual].n + 2 < NumPuzles(JuegoDe(e, js, at))
    ensures var k := ClaveDe(e, at);
            var m := e.sesiones[k][PuzleActual].n;
            var (e1, r1) := ResolverPaso(e, js, at, slot, ahora, rid);
            var (e2, r2) := TiempoAcabadoPaso(e1, js, at, ahora, rid2);
            r1 == Continuar && r2 == Continuar && k in e2.sesiones &&
            Get(e2.sesiones[k], PuzleActual) == Some(Num(m + 2)) &&
            Get(e2.sesiones[k], PuzlesSuperados) == Some(Num(e.sesiones[k][PuzlesSuperados].n + 1))
  {
    ResolverAcierto(e, js, at, slot, ahora, rid);
    var e1 := ResolverPaso(e, js, at, slot, ahora, rid).0;
    var k := ClaveDe(e, at);
    assert SesionActual(e1.sesiones, at) == Some(k);
    assert Get(e1.sesiones[k], JuegoID) == Get(e.sesiones[k], JuegoID);
    TiempoAcabadoEfecto(e1, js, at, ahora, rid2);
  }

  /** With the timeout guarded by the running timer, the same late report is ignored: the
      only advance is the one of the correct answer. */
  lemma TiempoCorregidoUnAvance(e: Estado, js: seq<Juego>, at: Atributos, slot: Option<string>, ahora: string,
                                rid: string, rid2: string)
    requires EnJuego(e, js, at) && Acierta(slot, PuzleDe(e, js, at))
    requires e.sesiones[ClaveDe(e, at)][PuzleActual].n + 1 < NumPuzles(JuegoDe(e, js, at))
    ensures var k := ClaveDe(e, at);
            var (e1, r1) := ResolverPaso(e, js, at, slot, ahora, rid);
            TiempoAcabadoCorregido(e1, js, at, ahora, rid2) == (e1, SinDesafio) &&
            k in e1.sesiones && Get(e1.sesiones[k], PuzleActual) == Some(Num(e.sesiones[k][PuzleActual].n + 1))
  {
    ResolverAcierto(e, js, at, slot, ahora, rid);
  }

  /** The corrected timeout behaves as written whenever the timer is running, and never
      touches a session whose timer is off. */
  lemma TiempoCorregidoSoloActivo(e: Estado, js: seq<Juego>, at: Atributos, ahora: string, rid: string)
    ensures var k := SesionActual(e.sesiones, at);
            (k.Some? && Truthy(e.sesiones[k.value], PuzleTiempoActivo) ==>
               TiempoAcabadoCorregido(e, js, at, ahora, rid) == TiempoAcabadoPaso(e, js, at, ahora, rid)) &&
            (k.Some? && !Truthy(e.sesiones[k.value], PuzleTiempoActivo) ==>
               TiempoAcabadoCorregido(e, js, at, ahora, rid).0 == e)
  {
  }

  // ---------------------------------------------------------------------
  // The cipher

  lemma CesarCharInverso(u: char, clave: int)
    requires clave >= 0 && UpperChar(u) == u
    ensures UpperChar(CesarChar(u, clave)) == CesarChar(u, clave)
    ensures CesarChar(CesarChar(u, clave), 26 - clave % 26) == u
  {
    if 'A' <= u <= 'Z' {
      RotacionInversa(u as int - 65, clave);
    }
  }

  /** For a non-negative key, enciphering again with `26 - clave % 26` gives back the
      upper-cased text. */
  lemma CifradoInverso(texto: Option<string>, clave: int)
    requires clave >= 0
    ensures Cifrado(Some(Cifrado(texto, clave)), 26 - clave % 26) == ToUpperCase(texto.GetOr(""))
  {
    var t := texto.GetOr("");
    var c := Cifrado(texto, clave);
    var d := Cifrado(Some(c), 26 - clave % 26);
    forall i | 0 <= i < |t| ensures d[i] == ToUpperCase(t)[i] {
      UpperCharIdempotent(t[i]);
      CesarCharInverso(UpperChar(t[i]), clave);
    }
  }

  /** For a non-negative key a character of the output is a letter A to Z exactly when the
      upper-cased input character is. */
  lemma CifradoLetras(texto: Option<string>, clave: int)
    requires clave >= 0
    ensures forall i :: 0 <= i < |Cifrado(texto, clave)| ==>
              (IsAsciiUpper(Cifrado(texto, clave)[i]) <==> IsAsciiUpper(UpperChar(texto.GetOr("")[i])))
  {
    forall i | 0 <= i < |Cifrado(texto, clave)|
      ensures IsAsciiUpper(Cifrado(texto, clave)[i]) <==> IsAsciiUpper(UpperChar(texto.GetOr("")[i]))
    {
      UpperCharIdempotent(texto.GetOr("")[i]);
    }
  }

  /** A negative key is not reduced to a letter: JavaScript's `%` keeps the sign, so 'A'
      shifted by -1 becomes '@'. */
  lemma CifradoClaveNegativa()
    ensures Cifrado(Some("A"), -1) == "@"
  {
    assert ToUpperCase("A") == "A";
    assert JsRem(-1, 26) == -1;
  }

  // ---------------------------------------------------------------------
  // Role guards

  /** A coordinator passes every guard a teacher passes; a student, or a request without a
      session, passes none. */
  lemma Roles(s: Option<Registro>)
    ensures EsCoordinador(s) ==> EsDocenteOCoordinador(s)
    ensures s.None? ==> !EsDocenteOCoordinador(s) && !EsCoordinador(s)
    ensures s.Some? && Get(s.value, TipoUsuario) == Some(Str("alumno")) ==> !EsDocenteOCoordinador(s) && !EsCoordinador(s)
  {
  }
}
