/**
 The host's timers, as the three drivers use them through `setTimeout` and
 `clearTimeout`. `Reloj` is the host's queue of pending timers; handles are
 numbers drawn from a counter, standing for Node's `Timeout` objects (all of
 them truthy). Expiry is not wall-clock time: the host fires a pending
 timer as an explicit event, removing it from the queue. Clearing a handle
 whose timer has already fired, or was already cleared, removes nothing.
 */
module Temporizador {
  import opened Wrappers

  /** One pending `setTimeout(callback, duracion)`, with its handle. */
  datatype Timer = Timer(id: nat, duracion: nat)

  /** The pending timers, oldest first, and the next handle to hand out. */
  datatype Reloj = Reloj(pendientes: seq<Timer>, proximo: nat)

  const RELOJ_INICIAL: Reloj := Reloj([], 0)

  /** `setTimeout(_, d)`: the new timer is queued and its handle returned. */
  function SetTimeout(r: Reloj, d: nat): (res: (Reloj, nat))
    ensures res.1 == r.proximo
    ensures res.0.pendientes == r.pendientes + [Timer(r.proximo, d)]
    ensures res.0.proximo > res.1
  {
    (Reloj(r.pendientes + [Timer(r.proximo, d)], r.proximo + 1), r.proximo)
  }

  /** The timers of `ts` whose handle is not `h`, each as often as in `ts`. */
  function Quitar(ts: seq<Timer>, h: nat): (q: seq<Timer>)
    ensures |q| <= |ts|
    ensures forall t :: t in q <==> t in ts && t.id != h
    ensures forall t :: multiset(q)[t] == if t.id == h then 0 else multiset(ts)[t]
  {
    if ts == [] then []
    else
      assert ts == [ts[0]] + ts[1..];
      if ts[0].id == h then Quitar(ts[1..], h)
      else [ts[0]] + Quitar(ts[1..], h)
  }

  /** `clearTimeout(h)`: the timer with handle `h`, if still pending, is dropped. */
  function ClearTimeout(r: Reloj, h: nat): (res: Reloj)
    ensures res.proximo == r.proximo
    ensures forall t :: t in res.pendientes <==> t in r.pendientes && t.id != h
  {
    Reloj(Quitar(r.pendientes, h), r.proximo)
  }

  /** The host fires the `k`-th pending timer: it leaves the queue. */
  function Disparar(r: Reloj, k: nat): (res: Reloj)
    requires k < |r.pendientes|
    ensures res.proximo == r.proximo
    ensures |res.pendientes| == |r.pendientes| - 1
    ensures multiset(res.pendientes) + multiset{r.pendientes[k]} == multiset(r.pendientes)
  {
    assert r.pendientes == r.pendientes[..k] + [r.pendientes[k]] + r.pendientes[k + 1..];
    Reloj(r.pendientes[..k] + r.pendientes[k + 1..], r.proximo)
  }

  /** The invariant every driver keeps: whatever is pending was scheduled under the handle it holds. */
  predicate BajoHandle(r: Reloj, handle: Option<nat>) {
    && |r.pendientes| <= 1
    && (r.pendientes != [] ==> handle == Some(r.pendientes[0].id))
  }

  /** `if (handle) clearTimeout(handle)`: a held handle, stale or not, is cleared. */
  function Limpiar(r: Reloj, handle: Option<nat>): (res: Reloj)
    ensures res.proximo == r.proximo
    ensures handle.None? ==> res == r
    ensures handle.Some? ==> res == ClearTimeout(r, handle.value)
  {
    if handle.Some? then ClearTimeout(r, handle.value) else r
  }

  /**
   The re-arm step of every `activarSistema`: clear the held handle, then
   schedule. Under the invariant, exactly the new timer is pending afterwards
   and the handle names it, so at most one expiry is ever pending.
   */
  lemma Rearme(r: Reloj, handle: Option<nat>, d: nat)
    requires BajoHandle(r, handle)
    ensures SetTimeout(Limpiar(r, handle), d).0.pendientes == [Timer(r.proximo, d)]
    ensures BajoHandle(SetTimeout(Limpiar(r, handle), d).0, Some(r.proximo))
  {
  }

  /** Firing the pending timer leaves nothing pending, and the stale handle still satisfies the invariant. */
  lemma DispararVacia(r: Reloj, handle: Option<nat>)
    requires BajoHandle(r, handle) && r.pendientes != []
    ensures Disparar(r, 0).pendientes == []
    ensures BajoHandle(Disparar(r, 0), handle)
  {
  }

  /** Clearing a stale handle, one with nothing pending, is a no-op. */
  lemma {:induction false} ClearTimeoutObsoleto(r: Reloj, h: nat)
    requires forall t :: t in r.pendientes ==> t.id != h
    ensures ClearTimeout(r, h) == r
  {
    QuitarNinguno(r.pendientes, h);
  }

  lemma {:induction false} QuitarNinguno(ts: seq<Timer>, h: nat)
    requires forall t :: t in ts ==> t.id != h
    ensures Quitar(ts, h) == ts
  {
    if ts != [] {
      QuitarNinguno(ts[1..], h);
      assert ts == [ts[0]] + ts[1..];
    }
  }
}
