/** Properties of the three-challenge machine (Motor3): the guard, what each challenge
    accepts, the invariant on `estado` and `desafioActual`, that winning is final and that
    no answer ends the session; and the two places where the code departs from the game it
    describes. */
module Propiedades3 {
  import opened Js
  import opened Motor3
  import Motor4
  import Propiedades4

  /** Starting puts any state, a finished game included, at the first challenge. */
  lemma IniciarEfecto3(e: Estado3)
    ensures IniciarPaso3(e) == (Estado3(Some("jugando"), Some(1)), Salida(Narrativa, false))
  {
  }

  /** Outside `'jugando'` an answer changes nothing. */
  lemma GuardaResolver3(e: Estado3, slot: Option<string>)
    requires e.estado != Some("jugando")
    ensures ResolverPaso3(e, slot) == (e, Salida(NoIniciado, false))
  {
  }

  /** While playing challenge `n` (1, 2 or 3), the lower-cased answer solves it exactly when
      it contains the challenge's words; solving moves to the next challenge, the third
      ends the game, and a wrong answer changes nothing. */
  lemma ResolverEfecto3(e: Estado3, slot: Option<string>)
    requires e.estado == Some("jugando") && e.desafioActual.Some? && 1 <= e.desafioActual.value <= 3
    ensures var n := e.desafioActual.value;
            var u := ToLowerCase(OrStr(slot, ""));
            var (e2, s) := ResolverPaso3(e, slot);
            (Resuelve(n, u) && n < 3 ==> e2 == Estado3(Some("jugando"), Some(n + 1)) && s.respuesta == Correcto(n + 1)) &&
            (Resuelve(n, u) && n == 3 ==> e2 == Estado3(Some("completado"), Some(3)) && s.respuesta == Escapado) &&
            (!Resuelve(n, u) ==> e2 == e && s.respuesta == Incorrecto(n))
  {
  }

  /** No response of the answer handler, nor of the start, ends the session. */
  lemma NuncaTermina3(e: Estado3, slot: Option<string>)
    ensures !ResolverPaso3(e, slot).1.finSesion && !IniciarPaso3(e).1.finSesion
  {
  }

  /** The attributes are undefined, or the game is being played or was won, and in the last
      two cases the challenge is 1, 2 or 3. */
  predicate Inv3(e: Estado3) {
    (e.estado == None ==> e.desafioActual == None) &&
    (e.estado != None ==> (e.estado == Some("jugando") || e.estado == Some("completado")) &&
                          e.desafioActual.Some? && 1 <= e.desafioActual.value <= 3)
  }

  lemma InicialInv3()
    ensures Inv3(INICIAL)
  {
  }

  /** Starting and answering keep the invariant, and an answer never moves back. */
  lemma PasosInv3(e: Estado3, slot: Option<string>)
    requires Inv3(e)
    ensures Inv3(IniciarPaso3(e).0) && Inv3(ResolverPaso3(e, slot).0)
    ensures e.desafioActual.Some? ==> ResolverPaso3(e, slot).0.desafioActual.value >= e.desafioActual.value
    ensures ResolverPaso3(e, slot).0.estado != e.estado ==>
              e.estado == Some("jugando") && ResolverPaso3(e, slot).0.estado == Some("completado")
  {
  }

  /** After the third challenge, every further answer is rejected and changes nothing. */
  lemma CompletadoAbsorbente(e: Estado3, slot: Option<string>, otra: Option<string>)
    requires ResolverPaso3(e, slot).1.respuesta == Escapado
    ensures var e1 := ResolverPaso3(e, slot).0;
            e1.estado == Some("completado") && ResolverPaso3(e1, otra) == (e1, Salida(NoIniciado, false))
  {
  }

  /** The answer is lower-cased before matching: "MIRO LA PIZARRA" solves the first challenge. */
  lemma MayusculasAceptadas()
    ensures ResolverPaso3(Estado3(Some("jugando"), Some(1)), Some("MIRO LA PIZARRA")).0 == Estado3(Some("jugando"), Some(2))
  {
    var u := ToLowerCase("MIRO LA PIZARRA");
    assert u == "miro la pizarra";
    assert Tramo(u, 0, 4) == "miro";
    assert Tramo(u, 8, 7) == "pizarra";
  }

  // ---------------------------------------------------------------------
  // The fallback's end state

  /** As written, after winning the fallback does not recognise the end of the game (it
      tests `'terminado'`, which no handler sets), while the help handler does. */
  lemma FallbackTrasEscapar(e: Estado3, slot: Option<string>)
    requires ResolverPaso3(e, slot).1.respuesta == Escapado
    ensures var e1 := ResolverPaso3(e, slot).0;
            FallbackComoEscrito(e1) == NoEntendido && Ayuda(e1) == YaCompletado
  {
  }

  /** The corrected fallback recognises the end of the game exactly when the help handler
      does. */
  lemma FallbackCorregidoCoincide(e: Estado3)
    ensures FallbackCorregido(e) == YaCompletado <==> Ayuda(e) == YaCompletado
    ensures e.estado == Some("jugando") ==> FallbackCorregido(e) == FallbackComoEscrito(e)
  {
  }

  // ---------------------------------------------------------------------
  // The first challenge's answer

  /** The message shown is HOLA MUNDO shifted by 7, the key the hint gives (the number of
      days of the week). */
  lemma MensajeEsHolaMundo()
    ensures Motor4.Cifrado4(Motor4.Caracteres("H O L A   M U N D O"), 7) == MENSAJE_CIFRADO
  {
    var t := "H O L A   M U N D O";
    Propiedades4.CifradoCaracteres(t, 7);
    var c := Motor4.Cifrado4(Motor4.Caracteres(t), 7);
    assert |c| == |MENSAJE_CIFRADO|;
    forall i | 0 <= i < |c| ensures c[i] == MENSAJE_CIFRADO[i] {
      assert c[i] == Motor4.CesarChar4(t[i], 7);
    }
  }

  /** As written, the decoded message is not accepted: "hola mundo" contains neither "miro"
      nor "pizarra", so the first challenge answers with its hint and stays where it is. */
  lemma HolaMundoRechazado()
    ensures ResolverPaso3(Estado3(Some("jugando"), Some(1)), Some("hola mundo")) ==
            (Estado3(Some("jugando"), Some(1)), Salida(Incorrecto(1), false))
  {
    var u := ToLowerCase("hola mundo");
    assert u == "hola mundo";
    forall i | 0 <= i <= |u| - 4 ensures Tramo(u, i, 4) != "miro" {
      assert Tramo(u, i, 4)[0] == u[i];
      assert Tramo(u, i, 4)[1] == u[i + 1];
    }
  }

  /** The corrected check accepts the decoded message, in any case, and still rejects an
      answer missing one of its two words. */
  lemma HolaMundoCorregido()
    ensures ResuelvePrimeroCorregido(ToLowerCase("HOLA MUNDO"))
    ensures !ResuelvePrimeroCorregido("hola")
  {
    var u := ToLowerCase("HOLA MUNDO");
    assert u == "hola mundo";
    assert Tramo(u, 0, 4) == "hola";
    assert Tramo(u, 5, 5) == "mundo";
  }
}
