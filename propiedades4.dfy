/** Properties of the entrega4 state machine (Motor4): the case-preserving cipher and its
    inverse, the array passed to it, the membership test of an answer, the guard of every
    handler, the wrong-answer ladder, and the invariant the handler chain keeps. */
module Propiedades4 {
  import opened Js
  import opened Texto
  import opened Motor4

  // ---------------------------------------------------------------------
  // avanzarPuzle

  /** `avanzarPuzle` adds one to the index (null counting as 0, undefined giving NaN),
      clears both flags and the puzzle's failures, and keeps the game and the user. */
  lemma AvanzarPuzleEfecto4(a: Sesion4)
    ensures var t := Avanzado4(a);
            (a.puzleActual.Numero? ==> t.puzleActual == Numero(a.puzleActual.n + 1)) &&
            (a.puzleActual == Nulo ==> t.puzleActual == Numero(1)) &&
            (a.puzleActual == Indefinido || a.puzleActual == NoNumero ==> t.puzleActual == NoNumero) &&
            !t.puzleIniciado && !t.puzleTiempoActivo && t.fallosPuzle == 0 &&
            t.juego == a.juego && t.usuarioLogueado == a.usuarioLogueado && t.tipoUsuario == a.tipoUsuario
  {
  }

  // ---------------------------------------------------------------------
  // cifradoCesar on a string

  /** A one-character string is between "A" and "Z" exactly when its character is. */
  lemma EntreLexUno(c: char, lo: char, hi: char)
    ensures EntreLex([c], lo, hi) <==> lo <= c <= hi
  {
    assert [c][1..] == [] && [lo][1..] == [] && [hi][1..] == [];
    assert LexMenorIgual([], []);
    assert LexMenorIgual([lo], [c]) <==> lo < c || lo == c;
    assert LexMenorIgual([c], [hi]) <==> c < hi || c == hi;
  }

  lemma PasoCesarUno(c: char, clave: int)
    ensures PasoCesar([c], clave) == [CesarChar4(c, clave)]
  {
    EntreLexUno(c, 'A', 'Z');
    EntreLexUno(c, 'a', 'z');
  }

  /** On a string the loop works character by character: the result has the same length
      and its `i`-th character is the `i`-th character enciphered. */
  lemma {:induction false} CifradoCaracteres(s: string, clave: int)
    ensures |Cifrado4(Caracteres(s), clave)| == |s|
    ensures forall i :: 0 <= i < |s| ==> Cifrado4(Caracteres(s), clave)[i] == CesarChar4(s[i], clave)
  {
    if s != [] {
      var n := |s| - 1;
      assert Caracteres(s)[..n] == Caracteres(s[..n]);
      CifradoCaracteres(s[..n], clave);
      PasoCesarUno(s[n], clave);
    }
  }

  /** For a non-negative key the cipher keeps case: an upper-case letter stays upper-case, a
      lower-case one lower-case, and every other character is kept. */
  lemma CesarChar4Caso(c: char, clave: int)
    requires clave >= 0
    ensures IsAsciiUpper(c) ==> IsAsciiUpper(CesarChar4(c, clave))
    ensures IsAsciiLower(c) ==> IsAsciiLower(CesarChar4(c, clave))
    ensures !IsAsciiUpper(c) && !IsAsciiLower(c) ==> CesarChar4(c, clave) == c
  {
  }

  lemma CesarChar4Inverso(c: char, clave: int)
    requires clave >= 0
    ensures CesarChar4(CesarChar4(c, clave), 26 - clave % 26) == c
  {
    if 'A' <= c <= 'Z' {
      RotacionInversa(c as int - 65, clave);
    } else if 'a' <= c <= 'z' {
      RotacionInversa(c as int - 97, clave);
    }
  }

  /** For a non-negative key, the string enciphered again with `26 - clave % 26` is the
      original string, case included. */
  lemma CifradoInverso4(s: string, clave: int)
    requires clave >= 0
    ensures Cifrado4(Caracteres(Cifrado4(Caracteres(s), clave)), 26 - clave % 26) == s
  {
    var c := Cifrado4(Caracteres(s), clave);
    CifradoCaracteres(s, clave);
    CifradoCaracteres(c, 26 - clave % 26);
    forall i | 0 <= i < |s| ensures Cifrado4(Caracteres(c), 26 - clave % 26)[i] == s[i] {
      CesarChar4Inverso(s[i], clave);
    }
  }

  /** A negative key is not reduced to a letter: 'a' shifted by -1 becomes '`'. */
  lemma CifradoClaveNegativa4()
    ensures Cifrado4(Caracteres("a"), -1) == "`"
  {
    CifradoCaracteres("a", -1);
  }

  // ---------------------------------------------------------------------
  // The answer array given to cifradoCesar

  /** As written, each answer of the array is one element of the loop: an answer from "a"
      to "z" in string order is replaced by its first letter shifted, so the one-answer
      array ["hola"] enciphered with key 3 shows "k". */
  lemma MensajeArrayComoEscrito()
    ensures MensajeComoEscrito(Puzle4(Some("cifrado-cesar"), None, Some(["hola"]), None, Some(3), None)) == Texto("k")
  {
    var x := "hola";
    assert !LexMenorIgual(x, "Z");
    assert LexMenorIgual("a", x) && LexMenorIgual(x, "z");
    assert ["hola"][..0] == [];
  }

  /** The corrected message enciphers the first answer character by character: it has the
      answer's length, keeps its case, and the inverse key gives the answer back. */
  lemma MensajeCorregidoDescifrable(p: Puzle4)
    requires p.tipo == Some("cifrado-cesar") && p.respuestaCorrecta.Some? && |p.respuestaCorrecta.value| > 0
    requires p.claveCifrado.GetOr(0) >= 0
    ensures var x := p.respuestaCorrecta.value[0];
            var k := p.claveCifrado.GetOr(0);
            MensajeCorregido(p).Texto? && |MensajeCorregido(p).s| == |x| &&
            Cifrado4(Caracteres(MensajeCorregido(p).s), 26 - k % 26) == x
  {
    var x := p.respuestaCorrecta.value[0];
    var k := p.claveCifrado.GetOr(0);
    var m := Cifrado4(Caracteres(x), k);
    assert MensajeCorregido(p) == Texto(m);
    assert |m| == |x| by {
      CifradoCaracteres(x, k);
    }
    assert Cifrado4(Caracteres(m), 26 - k % 26) == x by {
      CifradoInverso4(x, k);
    }
  }

  lemma MensajeCorregidoHola()
    ensures MensajeCorregido(Puzle4(Some("cifrado-cesar"), None, Some(["hola"]), None, Some(3), None)) == Texto("krod")
  {
    CifradoCaracteres("hola", 3);
  }

  // ---------------------------------------------------------------------
  // The answer

  /** An answer is correct exactly when its normal form equals the normal form of one of
      the accepted answers; a puzzle without answers accepts nothing. */
  lemma AciertaSiiMiembro(slot: Option<string>, p: Puzle4)
    ensures Acierta4(slot, p) <==>
            exists i :: 0 <= i < |p.respuestaCorrecta.GetOr([])| &&
                        Normalizar(slot) == Normalizar(Some(p.respuestaCorrecta.GetOr([])[i]))
    ensures p.respuestaCorrecta.GetOr([]) == [] ==> !Acierta4(slot, p)
  {
    if Acierta4(slot, p) {
      var i :| 0 <= i < |Aceptadas(p)| && Aceptadas(p)[i] == Normalizar(slot);
    }
  }

  // ---------------------------------------------------------------------
  // Guards

  /** The handler chain: "yes" without a game and an answer without a game or without a
      started puzzle are answered by `IntentSinJuegoHandler` and change nothing; only
      `canHandle` of the answer handler reads the timer flag. */
  lemma Guardas(a: Sesion4, slot: Option<string>, buscar: string -> seq<Juego4>)
    ensures a.juego.None? ==> Turno(a, Si, buscar) == (a, SinJuego)
    ensures a.juego.None? || !a.puzleIniciado ==> Turno(a, Resolver(slot), buscar) == (a, SinDesafio)
    ensures Turno(a, Resolver(slot), buscar).1 != SinDesafio && Turno(a, Resolver(slot), buscar).1 != SinManejador ==>
              a.juego.Some? && a.puzleIniciado && a.puzleTiempoActivo
  {
  }

  /** Loading needs a logged-in user; a load that finds a game starts it at the first puzzle
      with both flags and the failure count cleared, and keeps the user. */
  lemma CargarEfecto4(a: Sesion4, slot: Option<string>, buscar: string -> seq<Juego4>)
    ensures var titulo := ToLowerCase(OrStr(slot, ""));
            var (a2, r) := Turno(a, Cargar(slot), buscar);
            (a.usuarioLogueado.None? || a.usuarioLogueado.value == "" ==> a2 == a && r == SinSesionIniciada) &&
            (a.usuarioLogueado.Some? && a.usuarioLogueado.value != "" && buscar(titulo) == [] ==>
               a2 == a && r == TituloDesconocido(titulo)) &&
            (a.usuarioLogueado.Some? && a.usuarioLogueado.value != "" && buscar(titulo) != [] ==>
               a2 == Sesion4(Some(buscar(titulo)[0]), Numero(0), false, false, 0, a.usuarioLogueado, a.tipoUsuario) &&
               r == Portada(titulo, buscar(titulo)[0].narrativa, buscar(titulo)[0].tipoPortada))
  {
  }

  /** "Yes" with a loaded game: a started puzzle is not restarted; a finished game is
      finalised (game and index set to null); otherwise the puzzle is shown and both flags
      set, while the failure count is left as it was. */
  lemma SiEfecto4(a: Sesion4, buscar: string -> seq<Juego4>)
    requires a.juego.Some?
    ensures var (a2, r) := Turno(a, Si, buscar);
            (a.puzleIniciado ==> a2 == a && r == EnCurso) &&
            (!a.puzleIniciado && Terminado4(a) ==> a2 == a.(juego := None, puzleActual := Nulo) && r == Finalizado) &&
            (!a.puzleIniciado && !Terminado4(a) && PuzleActualDe4(a).Some? ==>
               a2 == a.(puzleIniciado := true, puzleTiempoActivo := true) && a2.fallosPuzle == a.fallosPuzle &&
               r == MostrarPuzle(MensajeComoEscrito(PuzleActualDe4(a).value), PuzleActualDe4(a).value.tipo,
                                 PuzleActualDe4(a).value.instruccion, PuzleActualDe4(a).value.tiempoEstimadoSegundos))
  {
  }

  /** A second "yes" after a puzzle was shown answers that a puzzle is running and changes nothing. */
  lemma SiDosVeces4(a: Sesion4, buscar: string -> seq<Juego4>)
    requires Turno(a, Si, buscar).1.MostrarPuzle?
    ensures var a1 := Turno(a, Si, buscar).0;
            Turno(a1, Si, buscar) == (a1, EnCurso)
  {
  }

  // ---------------------------------------------------------------------
  // The answer handler

  /** A correct answer advances to the next puzzle; the game is finalised (game and index
      set to null) exactly when that was the last one. */
  lemma AciertoEfecto4(a: Sesion4, slot: Option<string>)
    requires PuzleActualDe4(a).Some? && Acierta4(slot, PuzleActualDe4(a).value)
    ensures var (a2, r) := ResolverPaso4(a, slot);
            (Terminado4(Avanzado4(a)) ==> a2 == Finalizar4(Avanzado4(a)) && r == Finalizado) &&
            (!Terminado4(Avanzado4(a)) ==> a2 == Avanzado4(a) && r == Continuar)
  {
  }

  /** A wrong answer counts one failure. While the count does not exceed the hints it gives
      hint number `f`; then, while it is below the budget, it asks to retry; otherwise it
      advances, and when that was the last puzzle it ends the session without clearing the
      game. */
  lemma FalloEfecto4(a: Sesion4, slot: Option<string>)
    requires PuzleActualDe4(a).Some? && !Acierta4(slot, PuzleActualDe4(a).value)
    ensures var p := PuzleActualDe4(a).value;
            var f := a.fallosPuzle + 1;
            var c := a.(fallosPuzle := f);
            var (a2, r) := ResolverPaso4(a, slot);
            (f <= NumPistas4(p) ==> a2 == c && r == Pista(p.pistas.value[f - 1])) &&
            (f > NumPistas4(p) && BajoPresupuesto4(f, a.juego.value) ==> a2 == c && r == Reintentar) &&
            (f > NumPistas4(p) && !BajoPresupuesto4(f, a.juego.value) ==>
               a2 == Avanzado4(c) && a2.juego == a.juego &&
               (Terminado4(Avanzado4(c)) ==> r == FinPorFallos) && (!Terminado4(Avanzado4(c)) ==> r == Continuar))
  {
  }

  /** Without a budget (the field missing from the game) the ladder is only the hints:
      the first wrong answer past the last hint advances. */
  lemma SinPresupuesto4(a: Sesion4, slot: Option<string>)
    requires PuzleActualDe4(a).Some? && !Acierta4(slot, PuzleActualDe4(a).value)
    requires a.juego.value.fallosMaximosPuzle.None? && a.fallosPuzle + 1 > NumPistas4(PuzleActualDe4(a).value)
    ensures ResolverPaso4(a, slot).0 == Avanzado4(a.(fallosPuzle := a.fallosPuzle + 1))
  {
  }

  // ---------------------------------------------------------------------
  // The timeout

  /** The timeout checks nothing: with or without a game or a running puzzle it adds one
      to the index, clears both flags and the failures, never clears the game, and ends the
      session exactly when the game is over afterwards. */
  lemma TiempoEfecto4(a: Sesion4, buscar: string -> seq<Juego4>)
    ensures var (a2, r) := Turno(a, TiempoAcabado, buscar);
            a2 == Avanzado4(a) && a2.juego == a.juego &&
            (Terminado4(a2) ==> r == FinPorTiempo) && (!Terminado4(a2) ==> r == Continuar)
  {
  }

  /** The ends by failures and by time leave the game loaded in the attributes, unlike the
      regular end, but both close the Alexa session, so its attributes are dropped: the
      next request starts from an empty session, where "yes" finds no game. */
  lemma FinSinFinalizar(a: Sesion4, i: Intento, buscar: string -> seq<Juego4>)
    requires Turno(a, i, buscar).1 == FinPorFallos || Turno(a, i, buscar).1 == FinPorTiempo
    requires a.juego.Some? && a.puzleActual.Numero? && a.puzleActual.n >= 0
    ensures Turno(a, i, buscar).0.juego == a.juego
    ensures CierraSesion(Turno(a, i, buscar).1)
    ensures Turno(SESION_VACIA, Si, buscar) == (SESION_VACIA, SinJuego)
  {
  }

  // ---------------------------------------------------------------------
  // The invariant of the attributes

  /** Both flags agree; a loaded game has a numeric, non-negative index; a started puzzle
      has its game loaded and its index in range. */
  predicate Coherente4(a: Sesion4) {
    a.puzleIniciado == a.puzleTiempoActivo &&
    (a.juego.Some? ==> a.puzleActual.Numero? && a.puzleActual.n >= 0) &&
    (a.puzleIniciado ==> a.juego.Some? && a.puzleActual.Numero? && a.puzleActual.n < |a.juego.value.puzles|)
  }

  lemma SesionVaciaCoherente()
    ensures Coherente4(SESION_VACIA)
  {
  }

  /** Every request keeps the attributes coherent. */
  lemma TurnoCoherente(a: Sesion4, i: Intento, buscar: string -> seq<Juego4>)
    requires Coherente4(a)
    ensures Coherente4(Turno(a, i, buscar).0)
  {
  }

  /** In coherent attributes every answer finds a handler, and the answer handler always
      finds its puzzle. */
  lemma SiempreManejado(a: Sesion4, slot: Option<string>, buscar: string -> seq<Juego4>)
    requires Coherente4(a)
    ensures Turno(a, Resolver(slot), buscar).1 != SinManejador
    ensures a.juego.Some? && a.puzleIniciado ==> PuzleActualDe4(a).Some?
  {
  }
}
