/**
 comandos.js: the wake phrase, the listening-window constant, the command
 registry and the resolver `procesarComando`.

 `Resolver` is the resolver as a value-level specification: from the
 utterance, the caller's `sistemaActivo` flag and the state of acciones.js
 it gives the returned flags, the new state and the handler calls made.
 `ProcesarComando` is the resolver as the source writes it, nested loops
 with early returns over the registry, proved to agree with `Resolver`.
 */
module Comandos {
  import opened Wrappers
  import opened Texto
  import opened Acciones

  /** `PALABRA_ACTIVACION`. */
  const PALABRA_ACTIVACION: string := "computadora"

  /** `TIEMPO_ESCUCHA_ACTIVA`, in milliseconds. */
  const TIEMPO_ESCUCHA_ACTIVA: nat := 5000

  /** A registry entry: keywords, the handler and the text shown to the user. */
  datatype Comando = Comando(keywords: seq<string>, accion: Accion, descripcion: string)

  /** The `comandos` table, in registry order. */
  const COMANDOS: seq<Comando> := [
    Comando(["encender", "enciende", "prende", "prender"], EncenderLED, "Enciende el LED"),
    Comando(["apagar", "apaga"], ApagarLED, "Apaga el LED"),
    Comando(["estado", "c\U{00F3}mo est\U{00E1}", "como esta"], ObtenerEstadoLED, "Muestra el estado actual del LED"),
    Comando(["alternar", "cambiar", "toggle"], ToggleLED, "Alterna el estado del LED"),
    Comando(["mensaje", "enviar mensaje", "mandar mensaje"], ActivarModoMensaje, "Activa el modo para enviar mensajes"),
    Comando(["cancelar", "cancelar mensaje"], CancelarMensaje, "Cancela el env\U{00ED}o de mensaje"),
    Comando(["hola", "buenos d\U{00ED}as", "buenas tardes", "buenas noches"], Saludar, "Saluda al usuario"),
    Comando(["hora", "qu\U{00E9} hora es", "que hora es"], DecirHora, "Dice la hora actual"),
    Comando(["fecha", "qu\U{00E9} d\U{00ED}a es", "que dia es"], DecirFecha, "Dice la fecha actual"),
    Comando(["informaci\U{00F3}n", "informacion", "sistema"], InfoSistema, "Muestra informaci\U{00F3}n del sistema"),
    Comando(["reiniciar", "reset"], ReiniciarSistema, "Reinicia el estado del sistema")
  ]

  /**
   Every keyword of the entries `lo` to `hi - 1` is non-empty and holds no
   upper-case letter.
   */
  ghost predicate ClavesEnMinusculas(cmds: seq<Comando>, lo: nat, hi: nat)
    requires lo <= hi <= |cmds|
  {
    forall i, j :: lo <= i < hi && 0 <= j < |cmds[i].keywords| ==>
      |cmds[i].keywords[j]| > 0 && forall k :: 0 <= k < |cmds[i].keywords[j]| ==> !IsUpper(cmds[i].keywords[j][k])
  }

  // The registry's keywords, one entry at a time, named after its handler.

  lemma ClavesEncenderLED()
    ensures ClavesEnMinusculas(COMANDOS, 0, 1)
  {
  }

  lemma ClavesApagarLED()
    ensures ClavesEnMinusculas(COMANDOS, 1, 2)
  {
  }

  lemma ClavesObtenerEstadoLED()
    ensures ClavesEnMinusculas(COMANDOS, 2, 3)
  {
  }

  lemma ClavesToggleLED()
    ensures ClavesEnMinusculas(COMANDOS, 3, 4)
  {
  }

  lemma ClavesActivarModoMensaje()
    ensures ClavesEnMinusculas(COMANDOS, 4, 5)
  {
  }

  lemma ClavesCancelarMensaje()
    ensures ClavesEnMinusculas(COMANDOS, 5, 6)
  {
  }

  lemma ClavesSaludar()
    ensures ClavesEnMinusculas(COMANDOS, 6, 7)
  {
  }

  lemma ClavesDecirHora()
    ensures ClavesEnMinusculas(COMANDOS, 7, 8)
  {
  }

  lemma ClavesDecirFecha()
    ensures ClavesEnMinusculas(COMANDOS, 8, 9)
  {
  }

  lemma ClavesInfoSistema()
    ensures ClavesEnMinusculas(COMANDOS, 9, 10)
  {
  }

  lemma ClavesReiniciarSistema()
    ensures ClavesEnMinusculas(COMANDOS, 10, 11)
  {
  }

  /**
   The registry's shape: eleven entries whose handlers come in this order,
   each with at least one keyword, and every keyword a non-empty string that
   lower-casing leaves as it is, so it can match the lower-cased utterance.
   */
  lemma Registro()
    ensures seq(|COMANDOS|, i requires 0 <= i < |COMANDOS| => COMANDOS[i].accion)
      == [EncenderLED, ApagarLED, ObtenerEstadoLED, ToggleLED, ActivarModoMensaje, CancelarMensaje,
          Saludar, DecirHora, DecirFecha, InfoSistema, ReiniciarSistema]
    ensures forall i :: 0 <= i < |COMANDOS| ==> |COMANDOS[i].keywords| > 0
    ensures forall i, j :: 0 <= i < |COMANDOS| && 0 <= j < |COMANDOS[i].keywords| ==>
      |COMANDOS[i].keywords[j]| > 0 && Lower(COMANDOS[i].keywords[j]) == COMANDOS[i].keywords[j]
  {
    ClavesEncenderLED();
    ClavesApagarLED();
    ClavesObtenerEstadoLED();
    ClavesToggleLED();
    ClavesActivarModoMensaje();
    ClavesCancelarMensaje();
    ClavesSaludar();
    ClavesDecirHora();
    ClavesDecirFecha();
    ClavesInfoSistema();
    ClavesReiniciarSistema();
    forall i, j | 0 <= i < |COMANDOS| && 0 <= j < |COMANDOS[i].keywords|
      ensures |COMANDOS[i].keywords[j]| > 0 && Lower(COMANDOS[i].keywords[j]) == COMANDOS[i].keywords[j]
    {
      LowerOfLowerCase(COMANDOS[i].keywords[j]);
    }
  }

  /** `{ ejecutado, activacion }`. */
  datatype Resultado = Resultado(ejecutado: bool, activacion: bool)

  /** Keyword `j` of entry `i` occurs in the normalised utterance `t`. */
  predicate Acierta(cmds: seq<Comando>, t: string, i: int, j: int) {
    0 <= i < |cmds| && 0 <= j < |cmds[i].keywords| && Contains(t, cmds[i].keywords[j])
  }

  /** The scan order: entries in list order, keywords in entry order. */
  predicate Antes(i2: int, j2: int, i: int, j: int) {
    i2 < i || (i2 == i && j2 < j)
  }

  /** The first keyword of `keys`, from `j` on, that `t` contains. */
  function PrimeraClave(keys: seq<string>, t: string, j: nat): (r: Option<nat>)
    ensures r.Some? ==> j <= r.value < |keys| && Contains(t, keys[r.value])
    decreases |keys| - j
  {
    if j >= |keys| then None
    else if Contains(t, keys[j]) then Some(j)
    else PrimeraClave(keys, t, j + 1)
  }

  /** The first (entry, keyword) pair, from entry `i` on, whose keyword `t` contains. */
  function Coincidencia(cmds: seq<Comando>, t: string, i: nat): (r: Option<(nat, nat)>)
    ensures r.Some? ==> i <= r.value.0 && Acierta(cmds, t, r.value.0, r.value.1)
    decreases |cmds| - i
  {
    if i >= |cmds| then None
    else match PrimeraClave(cmds[i].keywords, t, 0)
      case Some(j) => Some((i, j))
      case None => Coincidencia(cmds, t, i + 1)
  }

  lemma {:induction false} PrimeraClaveEsLaPrimera(keys: seq<string>, t: string, j: nat)
    ensures match PrimeraClave(keys, t, j)
      case None => forall j2 :: j <= j2 < |keys| ==> !Contains(t, keys[j2])
      case Some(k) => j <= k < |keys| && Contains(t, keys[k]) && forall j2 :: j <= j2 < k ==> !Contains(t, keys[j2])
    decreases |keys| - j
  {
    if j < |keys| && !Contains(t, keys[j]) {
      PrimeraClaveEsLaPrimera(keys, t, j + 1);
    }
  }

  /**
   The registry scan finds the first hit in scan order: `None` exactly when
   no keyword of any entry from `i` on occurs, and otherwise a hit with no
   earlier hit.
   */
  lemma {:induction false} CoincidenciaEsLaPrimera(cmds: seq<Comando>, t: string, i: nat)
    ensures match Coincidencia(cmds, t, i)
      case None => forall i2, j2 :: i <= i2 ==> !Acierta(cmds, t, i2, j2)
      case Some((k, j)) =>
        (i <= k && Acierta(cmds, t, k, j)
         && forall i2, j2 :: i <= i2 && Antes(i2, j2, k, j) ==> !Acierta(cmds, t, i2, j2))
    decreases |cmds| - i
  {
    if i < |cmds| {
      PrimeraClaveEsLaPrimera(cmds[i].keywords, t, 0);
      if PrimeraClave(cmds[i].keywords, t, 0).None? {
        CoincidenciaEsLaPrimera(cmds, t, i + 1);
      }
    }
  }

  /** Everything one call of the resolver produces. */
  datatype Salida = Salida(resultado: Resultado, estado: Estado, llamadas: seq<Llamada>)

  /**
   `procesarComando(texto, sistemaActivo)` against the state `e` of
   acciones.js, with the registry `cmds` and the recipient table `tabla`.
   */
  function Resolver(cmds: seq<Comando>, tabla: seq<(string, string)>, texto: string,
                    sistemaActivo: bool, e: Estado): Salida
  {
    var t := Normaliza(texto);
    if Contains(t, PALABRA_ACTIVACION) then
      Salida(Resultado(false, true), e, [Llamada.SonidoActivacion])
    else if !sistemaActivo then
      Salida(Resultado(false, false), e, [])
    else if e.mensaje.activo then
      if !TieneDestinatario(e.mensaje) then
        var (ok, e2) := FijarDestinatario(e, tabla, texto);
        Salida(Resultado(ok, false), e2, [EstableceDestinatario(texto)])
      else
        Salida(Resultado(true, false), Capturar(e, texto), [CapturaMensaje(texto)])
    else
      match Coincidencia(cmds, t, 0)
      case Some((i, _)) =>
        Salida(Resultado(true, false), Efecto(e, cmds[i].accion), [Invoca(cmds[i].accion)])
      case None =>
        Salida(Resultado(false, false), e, [])
  }

  // ---------------------------------------------------------------------
  // Properties of the resolver
  // ---------------------------------------------------------------------

  /** The wake phrase pre-empts everything: whatever the flags, only the activation beep. */
  lemma ActivacionPrevalece(cmds: seq<Comando>, tabla: seq<(string, string)>, texto: string,
                            sistemaActivo: bool, e: Estado)
    requires Contains(Normaliza(texto), PALABRA_ACTIVACION)
    ensures Resolver(cmds, tabla, texto, sistemaActivo, e) == Salida(Resultado(false, true), e, [Llamada.SonidoActivacion])
  {
  }

  /** While dormant, anything but the wake phrase is ignored and no handler runs. */
  lemma InactivoIgnora(cmds: seq<Comando>, tabla: seq<(string, string)>, texto: string, e: Estado)
    requires !Contains(Normaliza(texto), PALABRA_ACTIVACION)
    ensures Resolver(cmds, tabla, texto, false, e) == Salida(Resultado(false, false), e, [])
  {
  }

  /** While dormant the flow state is not consulted: the outcome is the same for every flow state. */
  lemma InactivoNoConsultaMensaje(cmds: seq<Comando>, tabla: seq<(string, string)>, texto: string, e: Estado, m: EstadoMensaje)
    ensures var a := Resolver(cmds, tabla, texto, false, e);
      var b := Resolver(cmds, tabla, texto, false, e.(mensaje := m));
      a.resultado == b.resultado && a.llamadas == b.llamadas
  {
  }

  /**
   While the flow is open the registry is never scanned: the only call is the
   recipient attempt or the body capture, so no registry handler (not even
   "cancelar") can run mid-flow.
   */
  lemma FlujoNoEscanea(cmds: seq<Comando>, tabla: seq<(string, string)>, texto: string, e: Estado)
    requires !Contains(Normaliza(texto), PALABRA_ACTIVACION) && e.mensaje.activo
    ensures var s := Resolver(cmds, tabla, texto, true, e);
      s.llamadas == [EstableceDestinatario(texto)] || s.llamadas == [CapturaMensaje(texto)]
    ensures forall a :: Invoca(a) !in Resolver(cmds, tabla, texto, true, e).llamadas
  {
  }

  /** Without a recipient, `ejecutado` is whether `establecerDestinatario` accepted the raw utterance. */
  lemma PasoDestinatario(cmds: seq<Comando>, tabla: seq<(string, string)>, texto: string, e: Estado)
    requires !Contains(Normaliza(texto), PALABRA_ACTIVACION) && e.mensaje.activo && !TieneDestinatario(e.mensaje)
    ensures var s := Resolver(cmds, tabla, texto, true, e);
      s.resultado == Resultado(BuscarDestinatario(tabla, texto).Some?, false)
      && s.llamadas == [EstableceDestinatario(texto)]
      && s.estado.enviados == e.enviados && s.estado.led == e.led
  {
  }

  /** With a recipient, the whole utterance becomes the body of exactly one message and the flow resets. */
  lemma PasoCuerpo(cmds: seq<Comando>, tabla: seq<(string, string)>, texto: string, e: Estado)
    requires !Contains(Normaliza(texto), PALABRA_ACTIVACION) && e.mensaje.activo && TieneDestinatario(e.mensaje)
    ensures var s := Resolver(cmds, tabla, texto, true, e);
      s.resultado == Resultado(true, false)
      && s.llamadas == [CapturaMensaje(texto)]
      && s.estado.enviados == e.enviados + [Notificacion(e.mensaje.destinatario.value, texto)]
      && s.estado.mensaje == MENSAJE_INICIAL && s.estado.led == e.led
  {
  }

  /**
   Ordinary commands: the handler that runs is that of the first entry in
   registry order with a keyword the utterance contains, and it runs exactly
   once. No entry before it has a matching keyword. If some keyword of entry
   `i` matches, the entry that runs is `i` or an earlier one.
   */
  lemma EscaneoPrimeraCoincidencia(cmds: seq<Comando>, tabla: seq<(string, string)>, texto: string,
                                   e: Estado, i: nat, j: nat)
    requires !Contains(Normaliza(texto), PALABRA_ACTIVACION) && !e.mensaje.activo
    requires Acierta(cmds, Normaliza(texto), i, j)
    ensures exists k :: (0 <= k <= i && (exists j2 :: Acierta(cmds, Normaliza(texto), k, j2))
      && (forall k2, j2 :: 0 <= k2 < k ==> !Acierta(cmds, Normaliza(texto), k2, j2))
      && Resolver(cmds, tabla, texto, true, e)
         == Salida(Resultado(true, false), Efecto(e, cmds[k].accion), [Invoca(cmds[k].accion)]))
  {
    CoincidenciaEsLaPrimera(cmds, Normaliza(texto), 0);
    var c := Coincidencia(cmds, Normaliza(texto), 0);
    assert c.Some?;
    var k := c.value.0;
    assert Acierta(cmds, Normaliza(texto), k, c.value.1);
  }

  /** Proof step: the registry branch runs the handler of the entry the scan stops at. */
  lemma EscaneoEjecuta(cmds: seq<Comando>, tabla: seq<(string, string)>, texto: string, t: string,
                       e: Estado, i: nat, j: nat)
    requires t == Normaliza(texto)
    requires !Contains(t, PALABRA_ACTIVACION) && !e.mensaje.activo
    requires Coincidencia(cmds, t, 0) == Some((i, j))
    ensures i < |cmds|
    ensures Resolver(cmds, tabla, texto, true, e)
      == Salida(Resultado(true, false), Efecto(e, cmds[i].accion), [Invoca(cmds[i].accion)])
  {
  }

  /** No keyword matches: `{false, false}`, no handler, nothing changes. */
  lemma EscaneoSinCoincidencia(cmds: seq<Comando>, tabla: seq<(string, string)>, texto: string, e: Estado)
    requires !Contains(Normaliza(texto), PALABRA_ACTIVACION) && !e.mensaje.activo
    requires forall i, j :: !Acierta(cmds, Normaliza(texto), i, j)
    ensures Resolver(cmds, tabla, texto, true, e) == Salida(Resultado(false, false), e, [])
  {
    CoincidenciaEsLaPrimera(cmds, Normaliza(texto), 0);
  }

  /** `activacion` and `ejecutado` are never both set, and `ejecutado` needs an active system. */
  lemma ResultadoExclusivo(cmds: seq<Comando>, tabla: seq<(string, string)>, texto: string,
                           sistemaActivo: bool, e: Estado)
    ensures var r := Resolver(cmds, tabla, texto, sistemaActivo, e).resultado;
      !(r.activacion && r.ejecutado) && (r.ejecutado ==> sistemaActivo)
  {
  }

  /**
   One resolver call makes at most one logged call into acciones.js (the
   `obtenerEstadoMensaje()` read is not logged), and exactly one whenever it
   activates or executes something.
   */
  lemma UnaLlamadaComoMucho(cmds: seq<Comando>, tabla: seq<(string, string)>, texto: string,
                            sistemaActivo: bool, e: Estado)
    ensures |Resolver(cmds, tabla, texto, sistemaActivo, e).llamadas| <= 1
    ensures var s := Resolver(cmds, tabla, texto, sistemaActivo, e);
      s.resultado.activacion || s.resultado.ejecutado ==> |s.llamadas| == 1
  {
  }

  /** The resolver keeps "no recipient outside an active flow". */
  lemma ResolverConservaMensajeValido(cmds: seq<Comando>, tabla: seq<(string, string)>, texto: string,
                                      sistemaActivo: bool, e: Estado)
    requires MensajeValido(e.mensaje)
    ensures MensajeValido(Resolver(cmds, tabla, texto, sistemaActivo, e).estado.mensaje)
  {
    var t := Normaliza(texto);
    match Coincidencia(cmds, t, 0)
    case Some((i, _)) =>
      if i < |cmds| { ConservanMensajeValido(e, tabla, texto, cmds[i].accion); }
    case None =>
    ConservanMensajeValido(e, tabla, texto, ObtenerEstadoLED);
  }

  /** The registry branch runs the first entry, in scan order, with a keyword the utterance contains. */
  lemma EjecutaPrimerAcierto(cmds: seq<Comando>, tabla: seq<(string, string)>, texto: string, t: string,
                             e: Estado, i: nat)
    requires t == Normaliza(texto)
    requires !Contains(t, PALABRA_ACTIVACION) && !e.mensaje.activo
    requires exists j :: Acierta(cmds, t, i, j)
    requires forall i2, j2 :: 0 <= i2 < i ==> !Acierta(cmds, t, i2, j2)
    ensures i < |cmds|
    ensures Resolver(cmds, tabla, texto, true, e)
      == Salida(Resultado(true, false), Efecto(e, cmds[i].accion), [Invoca(cmds[i].accion)])
  {
    var j :| Acierta(cmds, t, i, j);
    CoincidenciaEsLaPrimera(cmds, t, 0);
    var c := Coincidencia(cmds, t, 0);
    assert c.Some? && c.value.0 == i;
    EscaneoEjecuta(cmds, tabla, texto, t, e, i, c.value.1);
  }

  /** The same, for the registry and a keyword of entry `i` named directly. */
  lemma ClaveEjecuta(tabla: seq<(string, string)>, texto: string, t: string, e: Estado, i: nat, w: string)
    requires t == Normaliza(texto)
    requires !Contains(t, PALABRA_ACTIVACION) && !e.mensaje.activo
    requires i < |COMANDOS| && w in COMANDOS[i].keywords && Contains(t, w)
    requires forall i2, j2 :: 0 <= i2 < i ==> !Acierta(COMANDOS, t, i2, j2)
    ensures Resolver(COMANDOS, tabla, texto, true, e)
      == Salida(Resultado(true, false), Efecto(e, COMANDOS[i].accion), [Invoca(COMANDOS[i].accion)])
  {
    var j :| 0 <= j < |COMANDOS[i].keywords| && COMANDOS[i].keywords[j] == w;
    assert Acierta(COMANDOS, t, i, j);
    EjecutaPrimerAcierto(COMANDOS, tabla, texto, t, e, i);
  }

  /** Outside the flow, an utterance with "mensaje" and none of the LED keywords opens the flow. */
  lemma MensajeAbreElFlujo(tabla: seq<(string, string)>, texto: string, t: string, e: Estado)
    requires t == Normaliza(texto)
    requires !Contains(t, PALABRA_ACTIVACION) && !e.mensaje.activo
    requires Contains(t, "mensaje")
    requires forall i, j :: 0 <= i < 4 ==> !Acierta(COMANDOS, t, i, j)
    ensures Resolver(COMANDOS, tabla, texto, true, e)
      == Salida(Resultado(true, false), Efecto(e, ActivarModoMensaje), [Invoca(ActivarModoMensaje)])
  {
    ClaveEjecuta(tabla, texto, t, e, 4, "mensaje");
  }

  /** Only letters of "cancelar mensaje" (and its space). */
  predicate LetrasDeCancelarMensaje(t: string) {
    forall k :: 0 <= k < |t| ==> t[k] in "cancelar mensaje"
  }

  /** No keyword of the four LED entries occurs in a text made of the letters of "cancelar mensaje". */
  lemma SinPalabrasLed(t: string, i: int, j: int)
    requires LetrasDeCancelarMensaje(t) && 0 <= i < 4
    ensures !Acierta(COMANDOS, t, i, j)
  {
    if 0 <= j < |COMANDOS[i].keywords| {
      var w := COMANDOS[i].keywords[j];
      if i == 0 {
        assert w in ["encender", "enciende", "prende", "prender"];
        MissingCharNotContained(t, w, 'd');
      } else if i == 1 {
        assert w in ["apagar", "apaga"];
        MissingCharNotContained(t, w, 'p');
      } else if i == 2 {
        assert w in ["estado", "c\U{00F3}mo est\U{00E1}", "como esta"];
        MissingCharNotContained(t, w, 't');
      } else {
        assert w in ["alternar", "cambiar", "toggle"];
        if w == "cambiar" {
          MissingCharNotContained(t, w, 'b');
        } else {
          MissingCharNotContained(t, w, 't');
        }
      }
    }
  }

  /** Such a text does not wake the assistant either: it has no 'p'. */
  lemma SinActivacion(t: string)
    requires LetrasDeCancelarMensaje(t)
    ensures !Contains(t, PALABRA_ACTIVACION)
  {
    MissingCharNotContained(t, PALABRA_ACTIVACION, 'p');
  }

  /** What the scan needs to know about the literal "cancelar mensaje". */
  lemma HechosCancelarMensaje(t: string)
    requires t == "cancelar mensaje"
    ensures LetrasDeCancelarMensaje(t) && !Contains(t, PALABRA_ACTIVACION) && Contains(t, "mensaje")
  {
    SinActivacion(t);
    assert t[9..16] == "mensaje";
    ContainsAt(t, "mensaje", 9);
  }

  /** What the scan needs to know about the literal "cancelar". */
  lemma HechosCancelar(t: string)
    requires t == "cancelar"
    ensures LetrasDeCancelarMensaje(t) && !Contains(t, PALABRA_ACTIVACION) && Contains(t, "cancelar")
      && 'm' !in t
  {
    SinActivacion(t);
    ContainsAt(t, "cancelar", 0);
  }

  /**
   "cancelar mensaje" opens the flow instead of cancelling it: "mensaje" in
   the fifth entry is found before the sixth entry's "cancelar". This holds
   for every utterance that normalises to it, whatever its case and padding.
   */
  lemma CancelarMensajeAbreElFlujo(tabla: seq<(string, string)>, texto: string, e: Estado)
    requires Normaliza(texto) == "cancelar mensaje" && !e.mensaje.activo
    ensures Resolver(COMANDOS, tabla, texto, true, e)
      == Salida(Resultado(true, false), Efecto(e, ActivarModoMensaje), [Invoca(ActivarModoMensaje)])
  {
    var t := Normaliza(texto);
    HechosCancelarMensaje(t);
    forall i, j | 0 <= i < 4 ensures !Acierta(COMANDOS, t, i, j) {
      SinPalabrasLed(t, i, j);
    }
    MensajeAbreElFlujo(tabla, texto, t, e);
  }

  /** A text of those letters without an 'm' matches no entry before the "cancelar" one. */
  lemma SinAciertosAntesDeCancelar(t: string)
    requires LetrasDeCancelarMensaje(t) && 'm' !in t
    ensures forall i, j :: 0 <= i < 5 ==> !Acierta(COMANDOS, t, i, j)
  {
    forall i, j | 0 <= i < 5 ensures !Acierta(COMANDOS, t, i, j) {
      if i < 4 {
        SinPalabrasLed(t, i, j);
      } else if 0 <= j < |COMANDOS[4].keywords| {
        MissingCharNotContained(t, COMANDOS[4].keywords[j], 'm');
      }
    }
  }

  /** Outside the flow, an utterance with "cancelar" and no keyword of an earlier entry cancels. */
  lemma CancelarEjecuta(tabla: seq<(string, string)>, texto: string, t: string, e: Estado)
    requires t == Normaliza(texto)
    requires !Contains(t, PALABRA_ACTIVACION) && !e.mensaje.activo
    requires Contains(t, "cancelar")
    requires forall i, j :: 0 <= i < 5 ==> !Acierta(COMANDOS, t, i, j)
    ensures Resolver(COMANDOS, tabla, texto, true, e)
      == Salida(Resultado(true, false), Efecto(e, CancelarMensaje), [Invoca(CancelarMensaje)])
  {
    ClaveEjecuta(tabla, texto, t, e, 5, "cancelar");
  }

  /** "cancelar" on its own does reach `cancelarMensaje`, outside the flow. */
  lemma CancelarCancela(tabla: seq<(string, string)>, texto: string, e: Estado)
    requires Normaliza(texto) == "cancelar" && !e.mensaje.activo
    ensures Resolver(COMANDOS, tabla, texto, true, e)
      == Salida(Resultado(true, false), Efecto(e, CancelarMensaje), [Invoca(CancelarMensaje)])
  {
    var t := Normaliza(texto);
    HechosCancelar(t);
    SinAciertosAntesDeCancelar(t);
    CancelarEjecuta(tabla, texto, t, e);
  }

  // ---------------------------------------------------------------------
  // The resolver as the source runs it
  // ---------------------------------------------------------------------

  /**
   `procesarComando(texto, sistemaActivo)`: the wake check, the dormant
   check, the flow branch reading `obtenerEstadoMensaje()`, then the nested
   registry scan that runs the first matching handler and returns.
   */
  method ProcesarComando(texto: string, sistemaActivo: bool, acciones: Modulo) returns (r: Resultado)
    modifies acciones
    ensures var s := Resolver(COMANDOS, acciones.destinatarios, texto, sistemaActivo, old(acciones.Snapshot()));
      r == s.resultado && acciones.Snapshot() == s.estado
      && acciones.Llamadas == old(acciones.Llamadas) + s.llamadas
  {
    var textoLower := Normaliza(texto);
    if Contains(textoLower, PALABRA_ACTIVACION) {
      acciones.SonidoActivacion();
      return Resultado(false, true);
    }
    if !sistemaActivo {
      return Resultado(false, false);
    }
    var estadoMensaje := acciones.ObtenerEstadoMensaje();
    if estadoMensaje.activo {
      if !TieneDestinatario(estadoMensaje) {
        var destinatarioEstablecido := acciones.EstablecerDestinatario(texto);
        return Resultado(destinatarioEstablecido, false);
      } else {
        acciones.CapturarMensaje(texto);
        return Resultado(true, false);
      }
    }
    var ejecutado := Escanear(COMANDOS, textoLower, acciones);
    return Resultado(ejecutado, false);
  }

  /**
   The registry scan of `procesarComando`: entries in order, keywords in
   order; the first keyword the utterance contains runs its entry's handler
   and ends the scan. Exactly the handler `Coincidencia` names runs, or none.
   */
  method Escanear(cmds: seq<Comando>, t: string, acciones: Modulo) returns (ejecutado: bool)
    modifies acciones
    ensures ejecutado == Coincidencia(cmds, t, 0).Some?
    ensures match Coincidencia(cmds, t, 0)
      case Some((i, _)) =>
        i < |cmds| && acciones.Snapshot() == Efecto(old(acciones.Snapshot()), cmds[i].accion)
        && acciones.Llamadas == old(acciones.Llamadas) + [Invoca(cmds[i].accion)]
      case None =>
        acciones.Snapshot() == old(acciones.Snapshot()) && acciones.Llamadas == old(acciones.Llamadas)
  {
    CoincidenciaEsLaPrimera(cmds, t, 0);
    var i := 0;
    while i < |cmds|
      invariant 0 <= i <= |cmds|
      invariant acciones.Snapshot() == old(acciones.Snapshot()) && acciones.Llamadas == old(acciones.Llamadas)
      invariant forall i2, j2 :: 0 <= i2 < i ==> !Acierta(cmds, t, i2, j2)
    {
      var comando := cmds[i];
      var j := 0;
      while j < |comando.keywords|
        invariant 0 <= j <= |comando.keywords|
        invariant acciones.Snapshot() == old(acciones.Snapshot()) && acciones.Llamadas == old(acciones.Llamadas)
        invariant forall j2 :: 0 <= j2 < j ==> !Acierta(cmds, t, i, j2)
      {
        if Contains(t, comando.keywords[j]) {
          assert Acierta(cmds, t, i, j);
          acciones.Ejecutar(comando.accion);
          return true;
        }
        j := j + 1;
      }
      i := i + 1;
    }
    return false;
  }
}
