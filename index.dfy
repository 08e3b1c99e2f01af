/**
 index.js: the STT-polling driver. Its globals `sistemaActivo` and
 `timeoutEscucha` are the fields of `Sesion`; the host's timer queue is
 the field `reloj`. `activarSistema` picks the listening window from the
 message state, `handleCommand` resolves one utterance and decides what
 happens to the window, and `Expirar` is the timeout callback firing.

 The module imports the extended window `TIEMPO_ESCUCHA_MENSAJE`, which
 comandos.js does not define; it is the constant `tiempoMensaje` here.
 */
module Index {
  import opened Wrappers
  import opened Texto
  import opened Acciones
  import opened Comandos
  import opened Temporizador

  /** The window `activarSistema` schedules: extended while the message flow is open. */
  function TiempoEscucha(modoMensaje: bool, tiempoMensaje: nat): nat {
    if modoMensaje then tiempoMensaje else TIEMPO_ESCUCHA_ACTIVA
  }

  class Sesion {
    var sistemaActivo: bool
    var timeoutEscucha: Option<nat>
    var reloj: Reloj
    const tiempoMensaje: nat
    const acciones: Modulo

    /** At most one expiry is pending, and it is the one `timeoutEscucha` holds. */
    predicate Valid()
      reads this
    {
      BajoHandle(reloj, timeoutEscucha)
    }

    constructor (acciones: Modulo, tiempoMensaje: nat)
      ensures this.acciones == acciones && this.tiempoMensaje == tiempoMensaje
      ensures !sistemaActivo && timeoutEscucha == None && reloj == RELOJ_INICIAL
      ensures Valid()
    {
      this.acciones := acciones;
      this.tiempoMensaje := tiempoMensaje;
      sistemaActivo := false;
      timeoutEscucha := None;
      reloj := RELOJ_INICIAL;
    }

    /**
     `activarSistema()`: the system listens, any held timer is cleared and
     exactly one new expiry is pending, with the window the message state
     calls for.
     */
    method ActivarSistema()
      requires Valid()
      modifies this
      ensures Valid() && sistemaActivo
      ensures reloj.pendientes == [Timer(old(reloj.proximo), TiempoEscucha(acciones.mensaje.activo, tiempoMensaje))]
      ensures timeoutEscucha == Some(old(reloj.proximo)) && reloj.proximo == old(reloj.proximo) + 1
    {
      sistemaActivo := true;
      var estadoMensaje := acciones.ObtenerEstadoMensaje();
      var tiempoEscucha := if estadoMensaje.activo then tiempoMensaje else TIEMPO_ESCUCHA_ACTIVA;
      Rearme(reloj, timeoutEscucha, tiempoEscucha);
      reloj := Limpiar(reloj, timeoutEscucha);
      var (nuevo, handle) := SetTimeout(reloj, tiempoEscucha);
      reloj := nuevo;
      timeoutEscucha := Some(handle);
    }

    /**
     The timeout callback: the host fires the pending expiry; the system goes
     back to waiting. The message state is only read (for the log), so an
     open flow stays open; the handle is left holding the fired timer.
     */
    method Expirar()
      requires Valid() && reloj.pendientes != []
      modifies this
      ensures Valid() && !sistemaActivo
      ensures reloj.pendientes == [] && reloj.proximo == old(reloj.proximo)
      ensures timeoutEscucha == old(timeoutEscucha)
    {
      DispararVacia(reloj, timeoutEscucha);
      reloj := Disparar(reloj, 0);
      sistemaActivo := false;
      var estadoMensajeFinal := acciones.ObtenerEstadoMensaje();
    }

    /**
     `handleCommand(text)`. Empty text changes nothing. Otherwise the
     lower-cased, trimmed text goes through the resolver with the current
     flag. An activation (re)starts the window. An executed command or flow
     step after which the flow is closed puts the system to sleep and leaves
     the pending timer; one after which the flow is open (it was just opened,
     or a recipient was set) re-arms the extended window. Anything else
     leaves the session as it was.
     */
    method HandleCommand(text: string)
      requires Valid()
      modifies this, acciones
      ensures Valid()
      ensures text == "" ==> unchanged(this) && unchanged(acciones)
      ensures text != "" ==>
        var s := Resolver(COMANDOS, acciones.destinatarios, Normaliza(text), old(sistemaActivo), old(acciones.Snapshot()));
        && acciones.Snapshot() == s.estado
        && acciones.Llamadas == old(acciones.Llamadas) + s.llamadas
        && if s.resultado.activacion then
             && sistemaActivo && timeoutEscucha == Some(old(reloj.proximo))
             && reloj.pendientes == [Timer(old(reloj.proximo), TiempoEscucha(s.estado.mensaje.activo, tiempoMensaje))]
           else if s.resultado.ejecutado && !s.estado.mensaje.activo then
             !sistemaActivo && reloj == old(reloj) && timeoutEscucha == old(timeoutEscucha)
           else if s.resultado.ejecutado then
             && sistemaActivo && timeoutEscucha == Some(old(reloj.proximo))
             && reloj.pendientes == [Timer(old(reloj.proximo), tiempoMensaje)]
           else
             sistemaActivo == old(sistemaActivo) && reloj == old(reloj) && timeoutEscucha == old(timeoutEscucha)
    {
      if text == "" {
        return;
      }
      var textoLimpio := Normaliza(text);
      ghost var s := Resolver(COMANDOS, acciones.destinatarios, textoLimpio, sistemaActivo, acciones.Snapshot());
      var resultado := ProcesarComando(textoLimpio, sistemaActivo, acciones);
      assert resultado == s.resultado && acciones.mensaje == s.estado.mensaje;
      if resultado.activacion {
        ActivarSistema();
        return;
      }
      if resultado.ejecutado {
        var estadoMensaje := acciones.ObtenerEstadoMensaje();
        if !estadoMensaje.activo {
          sistemaActivo := false;
        } else {
          ActivarSistema();
        }
      }
    }
  }

  /**
   The message body reaches `capturarMensaje` already lower-cased and
   trimmed, because `handleCommand` normalises before resolving.
   */
  lemma CuerpoNormalizado(tabla: seq<(string, string)>, text: string, e: Estado)
    requires !Contains(Normaliza(text), PALABRA_ACTIVACION)
    requires e.mensaje.activo && TieneDestinatario(e.mensaje)
    ensures var s := Resolver(COMANDOS, tabla, Normaliza(text), true, e);
      && s.llamadas == [CapturaMensaje(Normaliza(text))]
      && s.estado.enviados == e.enviados + [Notificacion(e.mensaje.destinatario.value, Normaliza(text))]
      && Lower(Normaliza(text)) == Normaliza(text) && Trim(Normaliza(text)) == Normaliza(text)
  {
    NormalizaIdempotent(text);
    NormalizaTrim(Normaliza(text));
    TrimIdempotent(Lower(text));
  }
}
