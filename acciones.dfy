/**
 acciones.js: the handlers the voice commands run. The module keeps one
 mutable global, `ledState`. The registry and the drivers also import
 messaging handlers (`activarModoMensaje`, `establecerDestinatario`,
 `capturarMensaje`, `cancelarMensaje`, `obtenerEstadoMensaje`) and the
 activation beep `sonidoActivacion` from acciones.js, which does not
 define them, and their call sites fix only their signatures: a
 `{activo, destinatario}` snapshot, a flag from `establecerDestinatario`,
 and calls taking the raw utterance. The behaviour given to them here is
 an assumed stand-in, modelled on a recipient-then-body flow: open, set the
 recipient from an alias table, capture the body (one notification, then
 the flow closes), cancel.

 The class `Modulo` holds the module's state. Its ghost field `Llamadas`
 logs, in order, every handler call made into the module, so that
 contracts can say which handler ran and with what text.
 */
module Acciones {
  import opened Wrappers
  import opened Texto

  /**
   The handlers the command registry refers to, then the example handlers
   the module exports for extension (no registry entry names them).
   */
  datatype Accion =
    | EncenderLED | ApagarLED | ObtenerEstadoLED | ToggleLED
    | ActivarModoMensaje | CancelarMensaje
    | Saludar | DecirHora | DecirFecha
    | InfoSistema | ReiniciarSistema
    | ModoNocturno | ActivarAlarma | ReproducirMusica | DetenerMusica | LeerTemperatura

  /** Handlers that only write to the console. */
  predicate Informativa(a: Accion) {
    a in {ObtenerEstadoLED, Saludar, DecirHora, DecirFecha, InfoSistema,
          ModoNocturno, ActivarAlarma, ReproducirMusica, DetenerMusica, LeerTemperatura}
  }

  /** What `obtenerEstadoMensaje()` returns: `{activo, destinatario}`. */
  datatype EstadoMensaje = EstadoMensaje(activo: bool, destinatario: Option<string>)

  const MENSAJE_INICIAL := EstadoMensaje(false, None)

  /** JavaScript truthiness of `estadoMensaje.destinatario`: null and "" are unset. */
  predicate TieneDestinatario(m: EstadoMensaje) {
    m.destinatario.Some? && m.destinatario.value != ""
  }

  /** A recipient is only ever set while the flow is active. */
  predicate MensajeValido(m: EstadoMensaje) {
    m.destinatario.Some? ==> m.activo
  }

  /** The payload handed to the notification channel. */
  datatype Notificacion = Notificacion(destinatario: string, cuerpo: string)

  /** One call into the module, as the handler log records it. */
  datatype Llamada =
    | SonidoActivacion
    | Invoca(accion: Accion)
    | EstableceDestinatario(texto: string)
    | CapturaMensaje(texto: string)

  /** The module's state as a value: the LED, the flow, the messages sent. */
  datatype Estado = Estado(led: bool, mensaje: EstadoMensaje, enviados: seq<Notificacion>)

  /** The state change of running one registry handler. */
  function Efecto(e: Estado, a: Accion): Estado {
    match a
    case EncenderLED => e.(led := true)
    case ApagarLED => e.(led := false)
    case ToggleLED => e.(led := !e.led)
    case ReiniciarSistema => e.(led := false)
    case ActivarModoMensaje => e.(mensaje := EstadoMensaje(true, None))
    case CancelarMensaje => e.(mensaje := MENSAJE_INICIAL)
    case _ => e
  }

  /**
   The recipient table: (alias, canonical name) pairs, aliases in lower case.
   The first alias contained in the lower-cased utterance names the recipient.
   */
  function BuscarDestinatario(tabla: seq<(string, string)>, texto: string): Option<string>
    decreases |tabla|
  {
    if tabla == [] then None
    else if Contains(Lower(texto), tabla[0].0) then Some(tabla[0].1)
    else BuscarDestinatario(tabla[1..], texto)
  }

  /** `establecerDestinatario(texto)`: fails unless the flow is active and an alias matches. */
  function FijarDestinatario(e: Estado, tabla: seq<(string, string)>, texto: string): (bool, Estado) {
    if !e.mensaje.activo then (false, e)
    else match BuscarDestinatario(tabla, texto)
      case None => (false, e)
      case Some(nombre) => (true, e.(mensaje := e.mensaje.(destinatario := Some(nombre))))
  }

  /** `capturarMensaje(texto)`: sends `{destinatario, texto}` and resets the flow; a no-op without a recipient. */
  function Capturar(e: Estado, texto: string): Estado {
    if e.mensaje.activo && TieneDestinatario(e.mensaje) then
      Estado(e.led, MENSAJE_INICIAL, e.enviados + [Notificacion(e.mensaje.destinatario.value, texto)])
    else e
  }

  // ---------------------------------------------------------------------
  // Properties of the handlers
  // ---------------------------------------------------------------------

  lemma EncenderIdempotente(e: Estado)
    ensures Efecto(e, EncenderLED).led
    ensures Efecto(Efecto(e, EncenderLED), EncenderLED) == Efecto(e, EncenderLED)
  {
  }

  lemma ApagarIdempotente(e: Estado)
    ensures !Efecto(e, ApagarLED).led
    ensures Efecto(Efecto(e, ApagarLED), ApagarLED) == Efecto(e, ApagarLED)
  {
  }

  lemma ToggleInvolucion(e: Estado)
    ensures Efecto(e, ToggleLED).led == !e.led
    ensures Efecto(Efecto(e, ToggleLED), ToggleLED) == e
  {
  }

  lemma ReiniciarApaga(e: Estado)
    ensures Efecto(e, ReiniciarSistema) == e.(led := false)
  {
  }

  /** Reporting handlers leave the whole state as it was. */
  lemma InformativasNoCambian(e: Estado, a: Accion)
    requires Informativa(a)
    ensures Efecto(e, a) == e
  {
  }

  /** Only the two messaging handlers touch the flow, and no handler sends a message. */
  lemma EfectoSoloLedOFlujo(e: Estado, a: Accion)
    ensures Efecto(e, a).enviados == e.enviados
    ensures a !in {ActivarModoMensaje, CancelarMensaje} ==> Efecto(e, a).mensaje == e.mensaje
    ensures a in {ActivarModoMensaje, CancelarMensaje} ==> Efecto(e, a).led == e.led
  {
  }

  /** The recipient lookup returns the name of the first alias the utterance contains. */
  lemma {:induction false} BuscarDestinatarioPrimero(tabla: seq<(string, string)>, texto: string)
    ensures match BuscarDestinatario(tabla, texto)
      case None => forall k :: 0 <= k < |tabla| ==> !Contains(Lower(texto), tabla[k].0)
      case Some(n) => exists k :: 0 <= k < |tabla| && tabla[k].1 == n && Contains(Lower(texto), tabla[k].0)
                        && forall k2 :: 0 <= k2 < k ==> !Contains(Lower(texto), tabla[k2].0)
    decreases |tabla|
  {
    if tabla != [] && !Contains(Lower(texto), tabla[0].0) {
      BuscarDestinatarioPrimero(tabla[1..], texto);
      match BuscarDestinatario(tabla[1..], texto)
      case None =>
        forall k | 0 <= k < |tabla| ensures !Contains(Lower(texto), tabla[k].0) {
          if k > 0 { assert tabla[k] == tabla[1..][k - 1]; }
        }
      case Some(n) =>
        var k :| 0 <= k < |tabla[1..]| && tabla[1..][k].1 == n && Contains(Lower(texto), tabla[1..][k].0)
                 && forall k2 :: 0 <= k2 < k ==> !Contains(Lower(texto), tabla[1..][k2].0);
        assert tabla[k + 1] == tabla[1..][k];
        forall k2 | 0 <= k2 < k + 1 ensures !Contains(Lower(texto), tabla[k2].0) {
          if k2 > 0 { assert tabla[k2] == tabla[1..][k2 - 1]; }
        }
    }
  }

  /** `establecerDestinatario` succeeds exactly when the flow is open and an alias matches; only the recipient changes. */
  lemma FijarDestinatarioExito(e: Estado, tabla: seq<(string, string)>, texto: string)
    ensures FijarDestinatario(e, tabla, texto).0 <==> e.mensaje.activo && BuscarDestinatario(tabla, texto).Some?
    ensures var (ok, e2) := FijarDestinatario(e, tabla, texto);
      e2.led == e.led && e2.enviados == e.enviados && e2.mensaje.activo == e.mensaje.activo
      && (ok ==> e2.mensaje.destinatario == BuscarDestinatario(tabla, texto))
      && (!ok ==> e2 == e)
  {
  }

  /** Completing the flow sends exactly one `{recipient, body}` payload and returns the flow to its initial state. */
  lemma CapturarCompleta(e: Estado, texto: string)
    requires e.mensaje.activo && TieneDestinatario(e.mensaje)
    ensures Capturar(e, texto).enviados == e.enviados + [Notificacion(e.mensaje.destinatario.value, texto)]
    ensures Capturar(e, texto).mensaje == MENSAJE_INICIAL
    ensures Capturar(e, texto).led == e.led
  {
  }

  /** Begin, set a recipient, complete: one payload, then the flow is back to its initial state. */
  lemma FlujoCompleto(e: Estado, tabla: seq<(string, string)>, paraQuien: string, cuerpo: string, nombre: string)
    requires BuscarDestinatario(tabla, paraQuien) == Some(nombre) && nombre != ""
    ensures var abierto := Efecto(e, ActivarModoMensaje);
      var (ok, conDestino) := FijarDestinatario(abierto, tabla, paraQuien);
      var fin := Capturar(conDestino, cuerpo);
      ok && fin.enviados == e.enviados + [Notificacion(nombre, cuerpo)]
      && fin.mensaje == MENSAJE_INICIAL && fin.led == e.led
  {
  }

  /** Every handler keeps "no recipient outside an active flow". */
  lemma ConservanMensajeValido(e: Estado, tabla: seq<(string, string)>, texto: string, a: Accion)
    requires MensajeValido(e.mensaje)
    ensures MensajeValido(Efecto(e, a).mensaje)
    ensures MensajeValido(FijarDestinatario(e, tabla, texto).1.mensaje)
    ensures MensajeValido(Capturar(e, texto).mensaje)
  {
  }

  // ---------------------------------------------------------------------
  // The module's mutable state
  // ---------------------------------------------------------------------

  class Modulo {
    var ledState: bool
    var mensaje: EstadoMensaje
    var enviados: seq<Notificacion>
    const destinatarios: seq<(string, string)>
    ghost var Llamadas: seq<Llamada>

    function Snapshot(): Estado
      reads this
    {
      Estado(ledState, mensaje, enviados)
    }

    /** `let ledState = false`, the flow closed, nothing sent. */
    constructor (destinatarios: seq<(string, string)>)
      ensures !ledState && mensaje == MENSAJE_INICIAL && enviados == [] && Llamadas == []
      ensures this.destinatarios == destinatarios
    {
      this.destinatarios := destinatarios;
      ledState := false;
      mensaje := MENSAJE_INICIAL;
      enviados := [];
      Llamadas := [];
    }

    method EncenderLED()
      modifies this
      ensures ledState
      ensures mensaje == old(mensaje) && enviados == old(enviados)
      ensures Llamadas == old(Llamadas) + [Invoca(Accion.EncenderLED)]
    {
      ledState := true;
      Llamadas := Llamadas + [Invoca(Accion.EncenderLED)];
    }

    method ApagarLED()
      modifies this
      ensures !ledState
      ensures mensaje == old(mensaje) && enviados == old(enviados)
      ensures Llamadas == old(Llamadas) + [Invoca(Accion.ApagarLED)]
    {
      ledState := false;
      Llamadas := Llamadas + [Invoca(Accion.ApagarLED)];
    }

    /**
     Reports the LED state; changes nothing but the log. `obtenerEstadoLED`
     returns nothing and only logs "Encendido" or "Apagado": `encendido`
     stands for that logged text.
     */
    method ObtenerEstadoLED() returns (encendido: bool)
      modifies this
      ensures encendido == ledState
      ensures Snapshot() == old(Snapshot())
      ensures Llamadas == old(Llamadas) + [Invoca(Accion.ObtenerEstadoLED)]
    {
      encendido := ledState;
      Llamadas := Llamadas + [Invoca(Accion.ObtenerEstadoLED)];
    }

    method ToggleLED()
      modifies this
      ensures ledState == !old(ledState)
      ensures mensaje == old(mensaje) && enviados == old(enviados)
      ensures Llamadas == old(Llamadas) + [Invoca(Accion.ToggleLED)]
    {
      ledState := !ledState;
      Llamadas := Llamadas + [Invoca(Accion.ToggleLED)];
    }

    /**
     The greeting, time, date and system-information handlers, and the
     example handlers, only write to the console.
     */
    method Informar(a: Accion)
      requires Informativa(a) && a != Accion.ObtenerEstadoLED
      modifies this
      ensures Snapshot() == old(Snapshot())
      ensures Llamadas == old(Llamadas) + [Invoca(a)]
    {
      Llamadas := Llamadas + [Invoca(a)];
    }

    method ReiniciarSistema()
      modifies this
      ensures !ledState
      ensures mensaje == old(mensaje) && enviados == old(enviados)
      ensures Llamadas == old(Llamadas) + [Invoca(Accion.ReiniciarSistema)]
    {
      ledState := false;
      Llamadas := Llamadas + [Invoca(Accion.ReiniciarSistema)];
    }

    /** Opens the flow with no recipient yet. */
    method ActivarModoMensaje()
      modifies this
      ensures mensaje == EstadoMensaje(true, None)
      ensures ledState == old(ledState) && enviados == old(enviados)
      ensures Llamadas == old(Llamadas) + [Invoca(Accion.ActivarModoMensaje)]
    {
      mensaje := EstadoMensaje(true, None);
      Llamadas := Llamadas + [Invoca(Accion.ActivarModoMensaje)];
    }

    /** Closes the flow, dropping any recipient. */
    method CancelarMensaje()
      modifies this
      ensures mensaje == MENSAJE_INICIAL
      ensures ledState == old(ledState) && enviados == old(enviados)
      ensures Llamadas == old(Llamadas) + [Invoca(Accion.CancelarMensaje)]
    {
      mensaje := MENSAJE_INICIAL;
      Llamadas := Llamadas + [Invoca(Accion.CancelarMensaje)];
    }

    /** A read-only snapshot of the flow. */
    method ObtenerEstadoMensaje() returns (m: EstadoMensaje)
      ensures m == mensaje
    {
      m := mensaje;
    }

    method EstablecerDestinatario(texto: string) returns (ok: bool)
      modifies this
      ensures (ok, Snapshot()) == FijarDestinatario(old(Snapshot()), destinatarios, texto)
      ensures Llamadas == old(Llamadas) + [EstableceDestinatario(texto)]
    {
      Llamadas := Llamadas + [EstableceDestinatario(texto)];
      ok := false;
      if mensaje.activo {
        var nombre := BuscarDestinatario(destinatarios, texto);
        if nombre.Some? {
          mensaje := mensaje.(destinatario := nombre);
          ok := true;
        }
      }
    }

    method CapturarMensaje(texto: string)
      modifies this
      ensures Snapshot() == Capturar(old(Snapshot()), texto)
      ensures Llamadas == old(Llamadas) + [CapturaMensaje(texto)]
    {
      Llamadas := Llamadas + [CapturaMensaje(texto)];
      if mensaje.activo && TieneDestinatario(mensaje) {
        enviados := enviados + [Notificacion(mensaje.destinatario.value, texto)];
        mensaje := MENSAJE_INICIAL;
      }
    }

    /** The acknowledgement beep on activation; an actuator call with no state here. */
    method SonidoActivacion()
      modifies this
      ensures Snapshot() == old(Snapshot())
      ensures Llamadas == old(Llamadas) + [Llamada.SonidoActivacion]
    {
      Llamadas := Llamadas + [Llamada.SonidoActivacion];
    }

    /** `comando.action()`: runs the handler a registry entry names. */
    method Ejecutar(a: Accion)
      modifies this
      ensures Snapshot() == Efecto(old(Snapshot()), a)
      ensures Llamadas == old(Llamadas) + [Invoca(a)]
    {
      match a
      case EncenderLED => EncenderLED();
      case ApagarLED => ApagarLED();
      case ObtenerEstadoLED => var _ := ObtenerEstadoLED();
      case ToggleLED => ToggleLED();
      case ActivarModoMensaje => ActivarModoMensaje();
      case CancelarMensaje => CancelarMensaje();
      case Saludar => Informar(a);
      case DecirHora => Informar(a);
      case DecirFecha => Informar(a);
      case InfoSistema => Informar(a);
      case ReiniciarSistema => ReiniciarSistema();
      case _ => Informar(a);
    }
  }
}
