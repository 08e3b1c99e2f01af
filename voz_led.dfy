/**
 voz_led.js: the driver fed by the on-device recogniser. Its globals
 `sistemaActivo` and `timeoutEscucha` are the fields of `Sesion`, the host's
 timer queue is `reloj`. The recogniser is abstracted as its output for one
 audio chunk: `None` when it has no final result for the chunk, otherwise
 the recognised text (`result.text || ""`).
 */
module VozLed {
  import opened Wrappers
  import opened Texto
  import opened Acciones
  import opened Comandos
  import opened Temporizador

  class Sesion {
    var sistemaActivo: bool
    var timeoutEscucha: Option<nat>
    var reloj: Reloj
    const acciones: Modulo

    /** At most one expiry is pending, and it is the one `timeoutEscucha` holds. */
    predicate Valid()
      reads this
    {
      BajoHandle(reloj, timeoutEscucha)
    }

    constructor (acciones: Modulo)
      ensures this.acciones == acciones
      ensures !sistemaActivo && timeoutEscucha == None && reloj == RELOJ_INICIAL
      ensures Valid()
    {
      this.acciones := acciones;
      sistemaActivo := false;
      timeoutEscucha := None;
      reloj := RELOJ_INICIAL;
    }

    /** `activarSistema()`: listen, clear any held timer and schedule exactly one window of `TIEMPO_ESCUCHA_ACTIVA`. */
    method ActivarSistema()
      requires Valid()
      modifies this
      ensures Valid() && sistemaActivo
      ensures reloj.pendientes == [Timer(old(reloj.proximo), TIEMPO_ESCUCHA_ACTIVA)]
      ensures timeoutEscucha == Some(old(reloj.proximo)) && reloj.proximo == old(reloj.proximo) + 1
    {
      sistemaActivo := true;
      Rearme(reloj, timeoutEscucha, TIEMPO_ESCUCHA_ACTIVA);
      reloj := Limpiar(reloj, timeoutEscucha);
      var (nuevo, handle) := SetTimeout(reloj, TIEMPO_ESCUCHA_ACTIVA);
      reloj := nuevo;
      timeoutEscucha := Some(handle);
    }

    /** The timeout callback: the pending expiry fires and the system waits again; nothing else changes. */
    method Expirar()
      requires Valid() && reloj.pendientes != []
      modifies this
      ensures Valid() && !sistemaActivo
      ensures reloj.pendientes == [] && reloj.proximo == old(reloj.proximo)
      ensures timeoutEscucha == old(timeoutEscucha)
    {
      DispararVacia(reloj, timeoutEscucha);
      reloj := Disparar(reloj, 0);
      sistemaActivo := false;
    }

    /**
     The decision logic of `procesarAudio`. A chunk without a result, or a
     result that is blank once trimmed, changes nothing. Otherwise the
     trimmed text is resolved with the current flag; an activation or an
     executed command (re)starts the window, and nothing here ever puts the
     system to sleep.
     */
    method ProcesarAudio(reconocido: Option<string>)
      requires Valid()
      modifies this, acciones
      ensures Valid()
      ensures old(sistemaActivo) ==> sistemaActivo
      ensures reconocido.None? || Trim(reconocido.value) == "" ==> unchanged(this) && unchanged(acciones)
      ensures reconocido.Some? && Trim(reconocido.value) != "" ==>
        var s := Resolver(COMANDOS, acciones.destinatarios, Trim(reconocido.value), old(sistemaActivo), old(acciones.Snapshot()));
        && acciones.Snapshot() == s.estado
        && acciones.Llamadas == old(acciones.Llamadas) + s.llamadas
        && if s.resultado.activacion || s.resultado.ejecutado then
             && sistemaActivo && timeoutEscucha == Some(old(reloj.proximo))
             && reloj.pendientes == [Timer(old(reloj.proximo), TIEMPO_ESCUCHA_ACTIVA)]
           else
             sistemaActivo == old(sistemaActivo) && reloj == old(reloj) && timeoutEscucha == old(timeoutEscucha)
    {
      if reconocido.None? {
        return;
      }
      var texto := Trim(reconocido.value);
      if texto != "" {
        ResultadoExclusivo(COMANDOS, acciones.destinatarios, texto, sistemaActivo, acciones.Snapshot());
        var resultado := ProcesarComando(texto, sistemaActivo, acciones);
        if resultado.activacion {
          ActivarSistema();
        }
        if resultado.ejecutado && sistemaActivo {
          ActivarSistema();
        }
      }
    }
  }
}
