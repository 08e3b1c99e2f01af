# topibot voice-command core in Dafny

topibot is a small voice assistant. A recogniser turns speech into text. A
driver then hands each utterance to the resolver `procesarComando`
(comandos.js). The resolver does the following, in order:

- it listens for the wake phrase "computadora";
- it ignores everything while the system is dormant;
- it steps through a two-step messaging flow (recipient first, then the body)
  when that flow is open;
- otherwise it scans the command registry in order and runs the handler of the
  first entry with a keyword the lower-cased, trimmed utterance contains.

The handlers live in acciones.js. The only state they change is the LED flag
`ledState`. Three drivers keep an "active listening" window with host timers:

- index.js polls an STT server, and stretches the window while a message is
  being dictated;
- voz_led.js feeds audio chunks to an on-device recogniser;
- testibot.js replays command-line arguments.

stt_server.py picks its microphone from the audio device list.

The model is organised as follows:

- `Texto` models JavaScript's `toLowerCase`, `trim` and `includes` on strings.
- `Acciones.Modulo` is a class holding acciones.js's state. `Acciones.Efecto`
  is each handler's effect as a value.
- `Comandos.Resolver` is the resolver as a specification function.
  `Comandos.ProcesarComando` is the resolver as the source writes it, proved
  equal to `Resolver`. Its nested registry loops, which return early, are the
  method `Comandos.Escanear`.
- `Temporizador` models the host's `setTimeout`/`clearTimeout` as an explicit
  queue of pending timers.
- `Index.Sesion`, `VozLed.Sesion` and `Testibot.Sesion` are classes whose
  fields are each driver's globals. Every one of them keeps the invariant "at
  most one expiry is pending, and it is the one the handle holds".
- `SttServer.FindUsbMicrophone` is the device-selection loop.

Points where the code does something other than its comments suggest. The
model follows the code in each case:

- **Missing handlers.** comandos.js imports the messaging handlers and
  the buzzer functions `sonidoActivacion`, `sonidoConfirmacion` and
  `sonidoError` from acciones.js, and index.js imports `obtenerEstadoMensaje`
  from it, but acciones.js does not define them (the two buzzer functions
  besides `sonidoActivacion` are never called). The
  files are ES modules (testibot.js:98 uses top-level `await`), so a missing
  named export fails when the module is linked: the repository as shown
  cannot start its drivers (comandos.js:33-67, index.js:9-16). The model
  supplies the missing pieces. Their call sites fix only a
  `{activo, destinatario}` snapshot, a truthy or falsy result from `establecerDestinatario(texto)`, and calls that
  take the raw utterance. The behaviour below is an assumed stand-in for code
  the repository does not show, modelled on a recipient-then-body flow:
  - `activarModoMensaje` opens the flow;
  - `establecerDestinatario` fails while the flow is closed; otherwise it takes
    the name of the first alias, from a table of (alias, name) pairs, that the
    lower-cased utterance contains;
  - `capturarMensaje` sends one `{recipient, body}` payload and closes the
    flow, and does nothing without a recipient;
  - `cancelarMensaje` closes the flow;
  - `sonidoActivacion` is a logged call with no state.
- **Missing constants.** index.js also imports `PALABRAS_ACTIVACION` and
  `TIEMPO_ESCUCHA_MENSAJE`, which comandos.js does not export. The extended
  window is the constructor parameter `tiempoMensaje`. `PALABRAS_ACTIVACION`
  appears only in a log line, so it is not modelled.
- **"cancelar mensaje".** This utterance opens the message flow rather than
  cancelling it, because the "mensaje" entry comes before the "cancelar"
  entry in the registry. Mid-flow no registry entry can run at all, so
  "cancelar" cannot cancel an open flow either. The utterance then becomes
  the recipient attempt or the message body.
- **Simulator runs no commands.** testibot.js calls `procesarComando(textoLower)`
  without the `sistemaActivo` argument. It therefore defaults to `false`, so
  the simulator never runs a handler. Its help text speaks of a wake word
  "topibot", but the phrase it checks is "computadora".
- **index.js goes dormant with a timer still pending.** After a plain command
  it sets `sistemaActivo = false` without clearing its pending timer. That
  timer later just sets the flag to false again.
- **Expiry does not close the flow.** index.js's expiry logs "Modo mensaje
  cancelado" but leaves an open message flow open.

## Model

| member | source | states |
|---|---|---|
| Texto.IsSpace | comandos.js:185 | the characters `trim` removes: the ECMAScript white space and line terminators |
| Texto.Lower | comandos.js:185 | its contract gives only the length; by definition each character is `LowerChar` of the input's at the same index, which the lower-casing lemmas below use |
| Texto.Trim | comandos.js:185 | `trim` as the back trim of the front trim; fixed by the `TrimStart`/`TrimEnd` contracts and their suffix and prefix lemmas, and idempotent by `TrimIdempotent` |
| Texto.Normaliza | comandos.js:185 | `toLowerCase().trim()`; idempotent and fully lower-case by `NormalizaIdempotent`, unaffected by a prior trim by `NormalizaTrim` |
| Texto.Contains | comandos.js:188 | `includes`; `ContainsIff` proves it is substring containment |
| Texto.LowerChar | comandos.js:185 | a lower-cased character is never upper-case; A-Z and the Latin-1 capitals move up 32 code points to their lower-case letter; every other character, whitespace included, is kept |
| Texto.TrimStart | comandos.js:185 | every character removed from the front is whitespace and the result does not start with whitespace |
| Texto.TrimEnd | comandos.js:185 | every character removed from the back is whitespace and the result does not end with whitespace |
| Texto.TrimStartSufijo | comandos.js:185 | the front-trimmed string is a suffix of the original |
| Texto.TrimEndPrefijo | comandos.js:185 | the back-trimmed string is a prefix of the original |
| Texto.ContainsIff | comandos.js:188 | `includes` holds exactly when some position of the text starts the searched string |
| Texto.MissingCharNotContained | comandos.js:224 | a keyword with a character the text lacks is not contained in it |
| Texto.LowerIdempotent | comandos.js:185 | lower-casing twice is lower-casing once |
| Texto.TrimIdempotent | comandos.js:185 | trimming twice is trimming once |
| Texto.LowerTrimCommute | voz_led.js:102 | lower-casing and trimming commute |
| Texto.NormalizaIdempotent | index.js:89 | normalising text that index.js already normalised changes nothing, and the result is fully lower-case |
| Texto.NormalizaTrim | voz_led.js:102 | trimming before the resolver normalises gives the same normalised text |
| Texto.LowerOfLowerCase | testibot.js:70 | text without upper-case letters is its own lower case |
| Acciones.Efecto | acciones.js:21-102 | the state change of each registry handler; its properties are the handler lemmas below and `Acciones.Modulo.Ejecutar` is proved to match it |
| Acciones.EncenderIdempotente | acciones.js:21-24 | switching on leaves the LED on, and switching on twice equals once |
| Acciones.ApagarIdempotente | acciones.js:29-32 | switching off leaves the LED off, and switching off twice equals once |
| Acciones.ToggleInvolucion | acciones.js:44-47 | toggling inverts the LED, and toggling twice restores the state |
| Acciones.ReiniciarApaga | acciones.js:99-102 | resetting switches the LED off and changes nothing else |
| Acciones.InformativasNoCambian | acciones.js:56-94 | the status, greeting, time, date, system-information and example handlers change no state |
| Acciones.EfectoSoloLedOFlujo | acciones.js:12-102 | no registry handler sends a message; only the two messaging handlers touch the flow, and (assumed stand-in) they do not touch the LED |
| Acciones.BuscarDestinatario | comandos.js:208 | assumed stand-in: the alias lookup, characterised by `BuscarDestinatarioPrimero` |
| Acciones.FijarDestinatario | comandos.js:206-209 | assumed stand-in of `establecerDestinatario`, characterised by `FijarDestinatarioExito` |
| Acciones.Capturar | comandos.js:210-213 | assumed stand-in of `capturarMensaje`, characterised by `CapturarCompleta` |
| Acciones.BuscarDestinatarioPrimero | comandos.js:208 | the recipient found is the name of the first alias in the table that the lower-cased utterance contains; none is found exactly when no alias occurs |
| Acciones.FijarDestinatarioExito | comandos.js:206-209 | setting the recipient succeeds exactly when the flow is open and an alias matches; on success only the recipient changes, on failure nothing does |
| Acciones.CapturarCompleta | comandos.js:210-213 | with a recipient set, capturing sends exactly one payload of recipient and body and closes the flow; the LED is kept |
| Acciones.FlujoCompleto | comandos.js:202-215 | open, set the recipient, then capture: exactly one payload to that recipient with that body, and the flow is back to its initial state |
| Acciones.ConservanMensajeValido | comandos.js:202-215 | every handler and both flow steps keep "no recipient outside an open flow" |
| Acciones.Modulo.constructor | acciones.js:12 | LED off, flow closed, nothing sent, no calls logged |
| Acciones.Modulo.EncenderLED | acciones.js:21-24 | the LED becomes on; the flow and the sent messages are unchanged; one call is logged |
| Acciones.Modulo.ApagarLED | acciones.js:29-32 | the LED becomes off; nothing else changes; one call is logged |
| Acciones.Modulo.ObtenerEstadoLED | acciones.js:37-39 | the result stands for the logged "Encendido"/"Apagado" text and equals the LED state; no state changes |
| Acciones.Modulo.ToggleLED | acciones.js:44-47 | the LED is inverted; nothing else changes |
| Acciones.Modulo.Informar | acciones.js:56-146 | the console-only handlers (`saludar`, `decirHora`, `decirFecha`, `infoSistema` and the example handlers; `reiniciarSistema` is separate) change no state and log one call |
| Acciones.Modulo.ReiniciarSistema | acciones.js:99-102 | the LED becomes off; nothing else changes |
| Acciones.Modulo.ActivarModoMensaje | comandos.js:101-105 | (assumed stand-in) the flow opens with no recipient; the LED and sent messages are unchanged |
| Acciones.Modulo.CancelarMensaje | comandos.js:106-110 | (assumed stand-in) the flow closes and any recipient is dropped; the LED and sent messages are unchanged |
| Acciones.Modulo.ObtenerEstadoMensaje | comandos.js:202 | returns the current flow state without changing anything |
| Acciones.Modulo.EstablecerDestinatario | comandos.js:208 | (assumed stand-in) the success flag and the new state are those of the recipient step on the old state; the raw utterance is logged |
| Acciones.Modulo.CapturarMensaje | comandos.js:212 | (assumed stand-in) the new state is that of the capture step on the old state; the raw utterance is logged |
| Acciones.Modulo.SonidoActivacion | comandos.js:190 | (assumed stand-in) the beep changes no state and logs one call |
| Acciones.Modulo.Ejecutar | comandos.js:225 | running an entry's handler changes the state exactly as that handler's effect and logs that handler |
| Comandos.Registro | comandos.js:73-176 | the registry `COMANDOS` has eleven entries whose handlers come in source order, each with at least one keyword; every keyword is non-empty and is its own lower case, so it can occur in the lower-cased utterance |
| Comandos.Resolver | comandos.js:184-234 | the resolver as a specification; the Comandos lemmas below state its branches, and `ProcesarComando` is proved equal to it |
| Comandos.PrimeraClave | comandos.js:223-224 | a keyword index it returns is in range and that keyword is contained in the text |
| Comandos.Coincidencia | comandos.js:222-229 | an (entry, keyword) pair it returns is a real hit at or after the starting entry |
| Comandos.PrimeraClaveEsLaPrimera | comandos.js:223-227 | the keyword returned is the first in the entry's order that the text contains; none is returned exactly when no keyword matches |
| Comandos.CoincidenciaEsLaPrimera | comandos.js:222-229 | the scan stops at the first hit in registry order (entries, then keywords), and finds nothing exactly when no keyword of any entry matches |
| Comandos.ActivacionPrevalece | comandos.js:185-192 | an utterance containing the wake phrase returns `{false, true}`, beeps once and changes nothing, whatever the flags and the flow |
| Comandos.InactivoIgnora | comandos.js:194-197 | while dormant anything else returns `{false, false}` with no call and no change |
| Comandos.InactivoNoConsultaMensaje | comandos.js:194-202 | while dormant the outcome does not depend on the flow state |
| Comandos.FlujoNoEscanea | comandos.js:202-215 | while the flow is open the only call is the recipient attempt or the capture, and no registry handler runs |
| Comandos.PasoDestinatario | comandos.js:206-209 | without a recipient, `ejecutado` is whether an alias matched the raw utterance; nothing is sent and the LED is kept |
| Comandos.PasoCuerpo | comandos.js:210-213 | with a recipient, the whole raw utterance is sent as one message, the result is `{true, false}` and the flow resets |
| Comandos.EscaneoPrimeraCoincidencia | comandos.js:221-229 | if some keyword of entry i matches, the handler that runs is that of an entry at or before i that has a hit, with no hit in any earlier entry; it runs once and the result is `{true, false}` |
| Comandos.EjecutaPrimerAcierto | comandos.js:222-227 | an entry with a hit and no hit in any earlier entry is the one whose handler runs |
| Comandos.ClaveEjecuta | comandos.js:222-227 | the same, given one keyword of the entry that the utterance contains |
| Comandos.EscaneoSinCoincidencia | comandos.js:231-233 | when no keyword matches: `{false, false}`, no call, no change |
| Comandos.ResultadoExclusivo | comandos.js:184-234 | `activacion` and `ejecutado` are never both true, and `ejecutado` needs `sistemaActivo` |
| Comandos.UnaLlamadaComoMucho | comandos.js:184-234 | one resolver call makes at most one logged handler or messaging call, and exactly one whenever it activates or executes; the `obtenerEstadoMensaje` read is not logged |
| Comandos.ResolverConservaMensajeValido | comandos.js:184-234 | the resolver keeps "no recipient outside an open flow" |
| Comandos.SinPalabrasLed | comandos.js:77-96 | no LED keyword occurs in text made only of the letters of "cancelar mensaje" |
| Comandos.SinActivacion | comandos.js:25 | such text never contains the wake phrase |
| Comandos.MensajeAbreElFlujo | comandos.js:101-105 | outside the flow, an utterance containing "mensaje" and no LED keyword opens the message flow |
| Comandos.CancelarMensajeAbreElFlujo | comandos.js:101-110 | any utterance normalising to "cancelar mensaje" opens the message flow outside it, and does not cancel |
| Comandos.CancelarCancela | comandos.js:106-110 | any utterance normalising to "cancelar" runs `cancelarMensaje` outside the flow |
| Comandos.Escanear | comandos.js:221-229 | the nested scan reports a hit exactly when the registry has one, and then runs once the handler of the first hit in registry order; otherwise nothing changes |
| Comandos.ProcesarComando | comandos.js:184-234 | the returned flags, the new state of acciones.js and the calls it made are exactly those of `Resolver` |
| Temporizador.SetTimeout | index.js:70 | the new timer is queued last under a fresh handle, which is returned |
| Temporizador.Quitar | index.js:66-68 | exactly the timers with another handle remain, each as often as before |
| Temporizador.ClearTimeout | index.js:66-68 | clearing drops exactly the timers with that handle |
| Temporizador.Disparar | index.js:70-79 | firing removes exactly that one timer from the queue |
| Temporizador.Limpiar | index.js:66-68 | a held handle is cleared; with no handle the queue is untouched |
| Temporizador.Rearme | index.js:66-79 | under the invariant, clear-then-schedule leaves exactly the new timer pending under the new handle, and the invariant holds again |
| Temporizador.DispararVacia | index.js:70-71 | firing the pending timer leaves nothing pending and keeps the invariant |
| Temporizador.ClearTimeoutObsoleto | index.js:66-68 | clearing a handle whose timer has fired or been cleared changes nothing |
| Index.TiempoEscucha | index.js:56 | the extended window while the flow is open, 5000 ms otherwise; `Index.Sesion.ActivarSistema` is proved to schedule it |
| Index.Sesion.constructor | index.js:22-23 | dormant, no handle, no timer |
| Index.Sesion.ActivarSistema | index.js:51-80 | active, exactly one timer pending, lasting `tiempoMensaje` if the flow is open and 5000 otherwise, under the new handle |
| Index.Sesion.Expirar | index.js:70-79 | when the timer fires, the session goes dormant with nothing pending; the flow is not touched |
| Index.Sesion.HandleCommand | index.js:86-114 | empty text changes nothing. Otherwise acciones.js changes exactly as `Resolver` on the normalised text says. Activation re-arms the window. An executed command or flow step after which the flow is closed puts the session to sleep and leaves the pending timer; one after which the flow is open (it was just opened, or a recipient was set) re-arms the extended window. Anything else leaves the session as it was |
| Index.CuerpoNormalizado | index.js:89-92 | the body the flow captures in index.js is already lower-case and trimmed, and is sent as is |
| VozLed.Sesion.constructor | voz_led.js:30-31 | dormant, no handle, no timer |
| VozLed.Sesion.ActivarSistema | voz_led.js:78-92 | active, exactly one 5000 ms timer pending under the new handle |
| VozLed.Sesion.Expirar | voz_led.js:88-91 | when the timer fires, the session goes dormant with nothing pending |
| VozLed.Sesion.ProcesarAudio | voz_led.js:99-126 | no result or blank text changes nothing. Otherwise acciones.js changes as `Resolver` on the trimmed text says. Activation or execution re-arms a 5000 ms window; anything else leaves the session unchanged. The session never goes dormant here |
| Testibot.Despierta | testibot.js:67-70 | the wake check on the lower-cased, trimmed text; `PalabraEnMinusculas` shows the lower-cased phrase is the phrase itself |
| Testibot.PalabraEnMinusculas | testibot.js:70 | lower-casing the wake phrase leaves it unchanged |
| Testibot.LlamadaSinBandera | testibot.js:76-79 | the simulator's call without the flag returns `{false, false}`, calls nothing and changes nothing |
| Testibot.Sesion.constructor | testibot.js:19-20 | dormant, no handle, no timer |
| Testibot.Sesion.ActivarSistema | testibot.js:49-59 | active, exactly one 5000 ms timer pending under the new handle |
| Testibot.Sesion.Expirar | testibot.js:55-58 | when the timer fires, the session goes dormant with nothing pending |
| Testibot.Sesion.ProcesarTextoSimulado | testibot.js:64-90 | the wake phrase, or any text while active, re-arms a 5000 ms window. Dormant non-wake text changes nothing. acciones.js is never changed |
| Testibot.Sesion.Simular | testibot.js:32-101 | no arguments is an error and leaves the session as it was. Otherwise the session ends active exactly when it started active or some argument wakes it, and acciones.js is never changed |
| SttServer.FindUsbMicrophone | stt_server.py:33-54 | returns the first USB/PnP input device if there is one, else the first device with input channels, else nothing; nothing exactly when no device has input |

## Left out

- Speech and audio I/O is left out because it is external: the STT server's
  HTTP endpoint (`listenSTT`, axios), the Vosk model, the `mic` stream, sounddevice and the Flask
  app, and the main loops that poll them. The recogniser's result for one
  chunk is the parameter of `VozLed.Sesion.ProcesarAudio`.
- Console output is left out because it has no effect on state: logging, the
  device-listing print loop in `find_usb_microphone`, `mostrarComandosDisponibles`,
  the registry's `description` texts (kept as data only).
- Process control has no counterpart in the model: `SIGINT` handlers, `process.exit`, and the
  simulator's pauses between arguments and its final exit timer.
- Timers are left out as wall-clock time: expiry is the explicit event `Expirar`.
- Testibot.Sesion.Simular: assumes no window lapses between two arguments,
  because the one-second pauses are shorter than the 5000 ms window.
- Output of the informative handlers is left out because it depends on the
  environment: the locale-formatted time and date, platform and memory
  figures, and the random temperature. Only their lack of effect on state is
  modelled.
- Texto.LowerChar: lower-cases only A-Z and the Latin-1 capitals. Full Unicode
  case mapping (JavaScript `toLowerCase`, Python `str.lower`) is not modelled,
  because it needs the Unicode tables.
- Texto.Lower: its contract gives only the length. Its pointwise meaning is
  `LowerChar` at every index, which the lemmas use through its definition.
- Acciones.BuscarDestinatarioPrimero, Acciones.FijarDestinatarioExito,
  Acciones.CapturarCompleta, Acciones.FlujoCompleto,
  Acciones.ConservanMensajeValido, Comandos.PasoDestinatario,
  Comandos.PasoCuerpo, Comandos.ResolverConservaMensajeValido and
  Index.CuerpoNormalizado: their clauses about the alias lookup, the refusal
  while the flow is closed, the payload sent and the flow reset describe the
  assumed stand-in, not code in the repository. For those handlers the program
  itself fixes only which call is made, with which text, and that the
  returned flag becomes `ejecutado`.
- The messaging handlers and `sonidoConfirmacion`/`sonidoError` are not
  defined in acciones.js. The first are modelled by the small stand-in
  described above. The buzzer sounds are imported but never called, so they
  are omitted.
- The commented-out registry entries are left out because they are not part
  of the registry. Their handlers, `modoNocturno` and the rest, are modelled
  as console-only handlers.
