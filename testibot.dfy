/**
 testibot.js: the command-line simulator. Its globals `sistemaActivo` and
 `timeoutId` are the fields of `Sesion`, the host's timer queue is `reloj`.
 The simulator checks the wake phrase itself and, while active, hands the
 text to the resolver without the `sistemaActivo` argument, which then
 takes its default `false`: the resolver stops at its dormant check, so no
 registry handler and no buzzer call ever runs from the simulator.
 */
module Testibot {
  import opened Wrappers
  import opened Texto
  import opened Acciones
  import opened Comandos
  import opened Temporizador

  /** The simulator lower-cases the wake phrase before its check, which leaves it as it is. */
  lemma PalabraEnMinusculas()
    ensures Lower(PALABRA_ACTIVACION) == PALABRA_ACTIVACION
  {
    LowerOfLowerCase(PALABRA_ACTIVACION);
  }

  /** The simulator's wake check, on the original text. */
  predicate Despierta(texto: string) {
    Contains(Normaliza(texto), PALABRA_ACTIVACION)
  }

  /**
   While active, the simulator's call `procesarComando(textoLower)` runs with
   the dormant default: `{false, false}`, no handler call, no state change.
   */
  lemma LlamadaSinBandera(tabla: seq<(string, string)>, texto: string, e: Estado)
    requires !Despierta(texto)
    ensures Resolver(COMANDOS, tabla, Normaliza(texto), false, e) == Salida(Resultado(false, false), e, [])
  {
    NormalizaIdempotent(texto);
  }

  class Sesion {
    var sistemaActivo: bool
    var timeoutId: Option<nat>
    var reloj: Reloj
    const acciones: Modulo

    /** At most one expiry is pending, and it is the one `timeoutId` holds. */
    predicate Valid()
      reads this
    {
      BajoHandle(reloj, timeoutId)
    }

    constructor (acciones: Modulo)
      ensures this.acciones == acciones
      ensures !sistemaActivo && timeoutId == None && reloj == RELOJ_INICIAL
      ensures Valid()
    {
      this.acciones := acciones;
      sistemaActivo := false;
      timeoutId := None;
      reloj := RELOJ_INICIAL;
    }

    /** `activarSistema()`: listen, clear any held timer and schedule exactly one window of `TIEMPO_ESCUCHA_ACTIVA`. */
    method ActivarSistema()
      requires Valid()
      modifies this
      ensures Valid() && sistemaActivo
      ensures reloj.pendientes == [Timer(old(reloj.proximo), TIEMPO_ESCUCHA_ACTIVA)]
      ensures timeoutId == Some(old(reloj.proximo)) && reloj.proximo == old(reloj.proximo) + 1
    {
      sistemaActivo := true;
      Rearme(reloj, timeoutId, TIEMPO_ESCUCHA_ACTIVA);
      reloj := Limpiar(reloj, timeoutId);
      var (nuevo, handle) := SetTimeout(reloj, TIEMPO_ESCUCHA_ACTIVA);
      reloj := nuevo;
      timeoutId := Some(handle);
    }

    /** Either timeout callback: the pending expiry fires and the system waits again. */
    method Expirar()
      requires Valid() && reloj.pendientes != []
      modifies this
      ensures Valid() && !sistemaActivo
      ensures reloj.pendientes == [] && reloj.proximo == old(reloj.proximo)
      ensures timeoutId == old(timeoutId)
    {
      DispararVacia(reloj, timeoutId);
      reloj := Disparar(reloj, 0);
      sistemaActivo := false;
    }

    /**
     `procesarTextoSimulado(texto)`. The wake phrase activates without
     consulting the resolver; while active any other text goes through the
     resolver (which does nothing, see `LlamadaSinBandera`) and the window
     restarts; while inactive nothing happens. The actions' state and the
     handler log are never touched.
     */
    method ProcesarTextoSimulado(texto: string)
      requires Valid()
      modifies this, acciones
      ensures Valid()
      ensures acciones.Snapshot() == old(acciones.Snapshot()) && acciones.Llamadas == old(acciones.Llamadas)
      ensures Despierta(texto) || old(sistemaActivo) ==>
        && sistemaActivo && timeoutId == Some(old(reloj.proximo))
        && reloj.pendientes == [Timer(old(reloj.proximo), TIEMPO_ESCUCHA_ACTIVA)]
      ensures !Despierta(texto) && !old(sistemaActivo) ==> unchanged(this)
    {
      var textoLower := Normaliza(texto);
      var palabra := Lower(PALABRA_ACTIVACION);
      PalabraEnMinusculas();
      if Contains(textoLower, palabra) {
        ActivarSistema();
        return;
      }
      if sistemaActivo {
        LlamadaSinBandera(acciones.destinatarios, texto, acciones.Snapshot());
        var _ := ProcesarComando(textoLower, false, acciones);
        Rearme(reloj, timeoutId, TIEMPO_ESCUCHA_ACTIVA);
        reloj := Limpiar(reloj, timeoutId);
        var (nuevo, handle) := SetTimeout(reloj, TIEMPO_ESCUCHA_ACTIVA);
        reloj := nuevo;
        timeoutId := Some(handle);
      }
    }

    /**
     The simulation: without arguments it stops with an error (`false`);
     otherwise every argument is processed in order. No window lapses
     between arguments here. The system ends up active exactly when it
     started active or some argument carries the wake phrase, and the
     actions' state is never touched.
     */
    method Simular(args: seq<string>) returns (ok: bool)
      requires Valid()
      modifies this, acciones
      ensures Valid()
      ensures ok == (|args| > 0)
      ensures !ok ==> unchanged(this)
      ensures acciones.Snapshot() == old(acciones.Snapshot()) && acciones.Llamadas == old(acciones.Llamadas)
      ensures ok ==> (sistemaActivo <==> old(sistemaActivo) || exists k :: 0 <= k < |args| && Despierta(args[k]))
    {
      if |args| == 0 {
        return false;
      }
      for i := 0 to |args|
        invariant Valid()
        invariant acciones.Snapshot() == old(acciones.Snapshot()) && acciones.Llamadas == old(acciones.Llamadas)
        invariant sistemaActivo <==> old(sistemaActivo) || exists k :: 0 <= k < i && Despierta(args[k])
      {
        ProcesarTextoSimulado(args[i]);
      }
      return true;
    }
  }
}
