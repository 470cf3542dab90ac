/** What each call does to its caller, to the other threads, to the lists and to the mutexes. */
module Efectos {
  import opened Comun
  import opened Threads
  import opened ThreadsInv

  /** `ys` is `xs` without its one occurrence of `x`; the others stay, in order. */
  ghost predicate SaleDe(xs: seq<Id>, ys: seq<Id>, x: Id) {
    x !in ys && exists i :: 0 <= i < |xs| && xs[i] == x && ys == xs[..i] + xs[i + 1..]
  }

  /** No thread but `x` changes, and of `x` at most its state and what it waits for. */
  ghost predicate SoloHilo(s: Kernel, t: Kernel, x: Id, estado: Estado, por: Option<nat>) {
    && x in s.tcbs && x in t.tcbs && t.tcbs.Keys == s.tcbs.Keys
    && t.tcbs[x] == Tcb(estado, por, s.tcbs[x].prioridad)
    && forall y :: y in s.tcbs && y != x ==> t.tcbs[y] == s.tcbs[y]
  }

  /** The first occurrence is the one dropped. */
  lemma {:induction false} QuitarPrimero(xs: seq<Id>, x: Id) returns (i: nat)
    requires x in xs
    ensures i < |xs| && xs[i] == x && Quitar(xs, x) == xs[..i] + xs[i + 1..]
  {
    if xs[0] == x {
      i := 0;
    } else {
      var k := QuitarPrimero(xs[1..], x);
      i := k + 1;
      assert xs[1..][..k] == xs[1..i] && xs[1..][k + 1..] == xs[i + 1..];
      assert [xs[0]] + xs[1..i] == xs[..i];
    }
  }

  lemma {:induction false} QuitarSale(xs: seq<Id>, x: Id)
    requires Veces(xs, x) == 1
    ensures SaleDe(xs, Quitar(xs, x), x)
  {
    EstaSii(xs, x);
    var i := QuitarPrimero(xs, x);
    VecesSacar(xs, i, x);
    EstaSii(Quitar(xs, x), x);
  }

  lemma {:induction false} QuitarUltimo(xs: seq<Id>, x: Id)
    requires x !in xs
    ensures Quitar(xs + [x], x) == xs
  {
    if xs == [] {
    } else {
      assert (xs + [x])[1..] == xs[1..] + [x];
      QuitarUltimo(xs[1..], x);
    }
  }

  /** The caller leaves the executing ones, and is in no other list. */
  lemma {:induction false} LlamadorSale(s: Kernel, id: Id)
    requires Inv(s) && Corre(s, id)
    ensures SaleDe(s.exec, Quitar(s.exec, id), id)
    ensures id !in s.ready && id !in s.blocked && id !in s.exit
  {
    assert UnaSola(s, id, None);
    QuitarSale(s.exec, id);
    EstaSii(s.ready, id);
    EstaSii(s.blocked, id);
    EstaSii(s.exit, id);
  }

  /** The caller goes to the end of the ready list, and nothing else happens to the lists. */
  ghost predicate VuelveAReady(s: Kernel, t: Kernel, id: Id) {
    && SoloHilo(s, t, id, Ready, if id in s.tcbs then s.tcbs[id].bloqueadoPor else None)
    && t.ready == s.ready + [id] && SaleDe(s.exec, t.exec, id) && t.blocked == s.blocked && t.exit == s.exit
  }

  /** The caller goes to the end of the blocked list, waiting for `por`, and nothing else happens to the
      lists. */
  ghost predicate SeBloquea(s: Kernel, t: Kernel, id: Id, por: Option<nat>) {
    && SoloHilo(s, t, id, Blocked, por)
    && t.blocked == s.blocked + [id] && SaleDe(s.exec, t.exec, id) && t.ready == s.ready && t.exit == s.exit
  }

  /** A call that leaves its caller runnable. */
  lemma {:induction false} SigueEs(s: Kernel, id: Id)
    requires Inv(s) && Corre(s, id)
    ensures VuelveAReady(s, APonerReady(SacarExec(s, id), id), id)
  {
    LlamadorSale(s, id);
  }

  // --- Devices and dumps ---

  /** IO: the caller is ready again at once, last of the list; no other thread, list or mutex changes. */
  lemma {:induction false} IoEs(s: Kernel, id: Id)
    requires Inv(s) && Corre(s, id)
    ensures VuelveAReady(s, Io(s, id), id) && Io(s, id).mutexes == s.mutexes && Inv(Io(s, id))
  {
    LlamadorSale(s, id);
    QuitarUltimo(s.blocked, id);
    IoConserva(s, id);
  }

  /** DUMP_MEMORY: the caller is blocked, and no other thread, list or mutex changes. */
  lemma {:induction false} DumpEs(s: Kernel, id: Id)
    requires Inv(s) && Corre(s, id)
    ensures SeBloquea(s, Dump(s, id), id, s.tcbs[id].bloqueadoPor) && Dump(s, id).mutexes == s.mutexes
  {
    LlamadorSale(s, id);
  }

  // --- Joins ---

  /** The caller waits for the thread named, or for itself as written, exactly if that thread exists
      and has not finished; otherwise it is ready again. Nothing else changes. */
  ghost predicate Unido(v: Variante, s: Kernel, t: Kernel, id: Id, otro: nat) {
    && t.mutexes == s.mutexes
    && if Activo(s, Id(id.pid, otro)) then SeBloquea(s, t, id, Some(if v.Reparada? then otro else id.tid))
       else VuelveAReady(s, t, id)
  }

  /** THREAD_JOIN. */
  lemma {:induction false} JoinEs(v: Variante, s: Kernel, id: Id, otro: nat)
    requires Inv(s) && Corre(s, id)
    ensures Unido(v, s, Join(v, s, id, otro), id, otro)
  {
    LlamadorSale(s, id);
  }

  // --- Mutexes ---

  /** Of the mutexes, only the `i`-th of process `pid` changes, to `m`. */
  ghost predicate SoloMutex(s: Kernel, t: Kernel, pid: nat, i: nat, m: Mutex) {
    && pid in s.mutexes && pid in t.mutexes && i < |s.mutexes[pid]| && t.mutexes.Keys == s.mutexes.Keys
    && t.mutexes[pid] == s.mutexes[pid][i := m]
    && forall p :: p in s.mutexes && p != pid ==> t.mutexes[p] == s.mutexes[p]
  }

  /** The search after one mutex more is listed: the first with the name stays the one found. */
  lemma {:induction false} BuscarEnMas(ms: seq<Mutex>, m: Mutex, recurso: string, k: nat)
    requires k <= |ms| && m.recurso == recurso
    ensures BuscarMutex(ms + [m], recurso, k) == BuscarMutex(ms, recurso, k)
    decreases |ms| - k
  {
    if k == |ms| {
    } else {
      BuscarEnMas(ms, m, recurso, k + 1);
    }
  }

  /** The caller is ready again; its process has one mutex more, last, with no owner and nobody waiting;
      every earlier mutex of every process is as it was. A name that was free finds the new one. */
  ghost predicate MutexCreado(s: Kernel, t: Kernel, id: Id, recurso: string) {
    && id.pid in s.mutexes && VuelveAReady(s, t, id) && Existe(t, id, recurso) && t.mutexes.Keys == s.mutexes.Keys
    && |t.mutexes[id.pid]| == |s.mutexes[id.pid]| + 1
    && t.mutexes[id.pid][..|s.mutexes[id.pid]|] == s.mutexes[id.pid]
    && (forall p :: p in s.mutexes && p != id.pid ==> t.mutexes[p] == s.mutexes[p])
    && (var i := BuscarMutex(t.mutexes[id.pid], recurso, 0);
        if Existe(s, id, recurso) then i == BuscarMutex(s.mutexes[id.pid], recurso, 0)
        else i == |s.mutexes[id.pid]| && t.mutexes[id.pid][i].dueno == None && t.mutexes[id.pid][i].cola == [])
  }

  /** MUTEX_CREATE. */
  lemma {:induction false} CrearMutexEs(s: Kernel, id: Id, recurso: string)
    requires Inv(s) && Corre(s, id) && id.pid in s.mutexes
    ensures MutexCreado(s, CrearMutex(s, id, recurso), id, recurso)
  {
    LlamadorSale(s, id);
    BuscarEnMas(s.mutexes[id.pid], Mutex(recurso, None, [], [], []), recurso, 0);
  }

  /** With no owner the caller takes the mutex and is ready again; otherwise it goes to the end of the
      queue and blocks. No other mutex, thread or list changes. */
  ghost predicate MutexPedido(s: Kernel, t: Kernel, id: Id, recurso: string) {
    && Existe(s, id, recurso)
    && var i := BuscarMutex(s.mutexes[id.pid], recurso, 0);
       var m := s.mutexes[id.pid][i];
       if m.dueno == None then
         && VuelveAReady(s, t, id)
         && SoloMutex(s, t, id.pid, i,
              Mutex(m.recurso, Some(id.tid), m.cola, m.pedidos + [id.tid], m.otorgados + [id.tid]))
       else
         && SeBloquea(s, t, id, Some(id.tid))
         && SoloMutex(s, t, id.pid, i,
              Mutex(m.recurso, m.dueno, m.cola + [id.tid], m.pedidos + [id.tid], m.otorgados))
  }

  /** MUTEX_LOCK. */
  lemma {:induction false} LockEs(s: Kernel, id: Id, recurso: string)
    requires Inv(s) && Corre(s, id) && Existe(s, id, recurso)
    ensures MutexPedido(s, Lock(s, id, recurso), id, recurso)
  {
    LlamadorSale(s, id);
  }

  /** A mutex just created, under a name that was free, is granted to the first thread of the process
      that asks for it, whichever that is. */
  lemma {:induction false} CrearYTomar(s: Kernel, id: Id, recurso: string, u: Kernel, w: Id)
    requires Inv(s) && Corre(s, id) && id.pid in s.mutexes && !Existe(s, id, recurso)
    requires Inv(u) && Corre(u, w) && w.pid == id.pid && u.mutexes == CrearMutex(s, id, recurso).mutexes
    ensures Existe(u, w, recurso)
    ensures var t := Lock(u, w, recurso);
      && t.tcbs[w].estado == Ready
      && t.mutexes[id.pid][|s.mutexes[id.pid]|] == Mutex(recurso, Some(w.tid), [], [w.tid], [w.tid])
  {
    CrearMutexEs(s, id, recurso);
    LockEs(u, w, recurso);
  }

  /** Both the caller and the thread handed the mutex are ready, in that order, and nobody else moves. */
  ghost predicate Pasado(v: Variante, s: Kernel, t: Kernel, id: Id, w: Id) {
    && id in s.tcbs && w in s.tcbs
    && t.tcbs == s.tcbs[id := s.tcbs[id].(estado := Ready)][w := s.tcbs[w].(estado := Ready)]
    && t.ready == s.ready + [id, w] && SaleDe(s.exec, t.exec, id) && t.exit == s.exit
    && (if v.Reparada? then SaleDe(s.blocked, t.blocked, w) else t.blocked == s.blocked)
  }

  /** The caller is ready again. If it owns the mutex, the first thread waiting becomes its owner and
      ready, and with the repair leaves the blocked list; with nobody waiting the mutex is left without
      owner. Nothing else changes. */
  ghost predicate MutexDevuelto(v: Variante, s: Kernel, t: Kernel, id: Id, recurso: string) {
    && Existe(s, id, recurso)
    && var i := BuscarMutex(s.mutexes[id.pid], recurso, 0);
       var m := s.mutexes[id.pid][i];
       if m.dueno != Some(id.tid) then VuelveAReady(s, t, id) && t.mutexes == s.mutexes
       else if m.cola == [] then
         VuelveAReady(s, t, id) && SoloMutex(s, t, id.pid, i, Mutex(m.recurso, None, [], m.pedidos, m.otorgados))
       else
         && Pasado(v, s, t, id, Id(id.pid, m.cola[0]))
         && SoloMutex(s, t, id.pid, i,
              Mutex(m.recurso, Some(m.cola[0]), m.cola[1..], m.pedidos, m.otorgados + [m.cola[0]]))
  }

  /** The caller owns the mutex, and somebody waits for it. */
  lemma {:induction false} UnlockPasa(v: Variante, s: Kernel, id: Id, recurso: string)
    requires Inv(s) && Corre(s, id) && Existe(s, id, recurso)
    requires var m := s.mutexes[id.pid][BuscarMutex(s.mutexes[id.pid], recurso, 0)];
      m.dueno == Some(id.tid) && m.cola != []
    ensures MutexDevuelto(v, s, Unlock(v, s, id, recurso), id, recurso)
  {
    hide Quitar, BuscarMutex;
    LlamadorSale(s, id);
    var m := s.mutexes[id.pid][BuscarMutex(s.mutexes[id.pid], recurso, 0)];
    var w := Id(id.pid, m.cola[0]);
    assert MutexBien(s, id.pid, m, None);
    assert EsperaMutex(s, w) && UnaSola(s, w, None);
    QuitarSale(s.blocked, w);
  }

  /** MUTEX_UNLOCK. */
  lemma {:induction false} UnlockEs(v: Variante, s: Kernel, id: Id, recurso: string)
    requires Inv(s) && Corre(s, id) && Existe(s, id, recurso)
    ensures MutexDevuelto(v, s, Unlock(v, s, id, recurso), id, recurso)
  {
    var m := s.mutexes[id.pid][BuscarMutex(s.mutexes[id.pid], recurso, 0)];
    if m.dueno == Some(id.tid) && m.cola != [] {
      UnlockPasa(v, s, id, recurso);
    } else {
      LlamadorSale(s, id);
    }
  }

  // --- Priorities ---

  lemma {:induction false} CederPrioridad(v: Variante, s: Kernel, pid: nat, i: nat, x: Id)
    requires pid in s.mutexes && i < |s.mutexes[pid]| && x in s.tcbs
    ensures x in Ceder(v, s, pid, i).tcbs && Ceder(v, s, pid, i).tcbs[x].prioridad == s.tcbs[x].prioridad
  {
  }

  lemma {:induction false} CederTodosPrioridad(s: Kernel, pid: nat, tid: nat, i: nat, x: Id)
    requires pid in s.mutexes && i <= |s.mutexes[pid]| && x in s.tcbs
    ensures var t := CederTodos(s, pid, tid, i); x in t.tcbs && t.tcbs[x].prioridad == s.tcbs[x].prioridad
    decreases |s.mutexes[pid]| - i
  {
    if i == |s.mutexes[pid]| {
    } else {
      CederPrioridad(Reparada, s, pid, i, x);
      CederTodosPrioridad(Soltar(s, pid, tid, i), pid, tid, i + 1, x);
    }
  }

  lemma {:induction false} FinalizarPrioridad(s: Kernel, id: Id, x: Id)
    requires id in s.tcbs && id.pid in s.mutexes && x in s.tcbs
    ensures var t := FinalizarHilo(s, id); x in t.tcbs && t.tcbs[x].prioridad == s.tcbs[x].prioridad
  {
    CederTodosPrioridad(Muerto(s, id), id.pid, id.tid, 0, x);
  }

  lemma {:induction false} ProcesoPrioridad(s: Kernel, pid: nat, lista: seq<Id>, x: Id)
    requires x in s.tcbs
    ensures var t := FinalizarProceso(s, pid, lista); x in t.tcbs && t.tcbs[x].prioridad == s.tcbs[x].prioridad
    decreases |lista|
  {
    if lista == [] {
    } else if PorTerminar(s, lista[0], pid) {
      FinalizarPrioridad(s, lista[0], x);
      ProcesoPrioridad(FinalizarHilo(s, lista[0]), pid, lista[1..], x);
    } else {
      ProcesoPrioridad(s, pid, lista[1..], x);
    }
  }

  lemma {:induction false} PasoPrioridad(s: Kernel, e: Evento, x: Id)
    requires Puede(s, e) && x in s.tcbs
    ensures x in Paso(s, e).tcbs && Paso(s, e).tcbs[x].prioridad == s.tcbs[x].prioridad
  {
    match e
    case Suelta(id, r) =>
      var i := BuscarMutex(s.mutexes[id.pid], r, 0);
      CederPrioridad(Reparada, APonerReady(SacarExec(s, id), id), id.pid, i, x);
    case Sale(id) => FinalizarPrioridad(s, id, x);
    case Acaba(id, lista) => ProcesoPrioridad(s, id.pid, lista, x);
    case Cancela(id, _) => FinalizarPrioridad(s, id, x);
    case _ =>
  }

  lemma {:induction false} CorrerPrioridad(s: Kernel, es: seq<Evento>, x: Id)
    requires x in s.tcbs
    ensures x in Correr(s, es).tcbs && Correr(s, es).tcbs[x].prioridad == s.tcbs[x].prioridad
    decreases |es|
  {
    if es == [] {
    } else {
      if Puede(s, es[0]) {
        PasoPrioridad(s, es[0], x);
      }
      CorrerPrioridad(if Puede(s, es[0]) then Paso(s, es[0]) else s, es[1..], x);
    }
  }

  /** A thread starts ready, last of the list, waiting for nobody, and no other thread changes. */
  ghost predicate Nacido(s: Kernel, t: Kernel, id: Id, prioridad: int) {
    && t.tcbs.Keys == s.tcbs.Keys + {id} && t.tcbs[id] == Tcb(Ready, None, prioridad)
    && (forall y :: y in s.tcbs && y != id ==> t.tcbs[y] == s.tcbs[y])
    && t.ready == s.ready + [id] && t.exec == s.exec && t.blocked == s.blocked && t.exit == s.exit
    && t.mutexes == s.mutexes
  }

  /** A thread keeps over every run the priority it was created with. */
  lemma {:induction false} PrioridadSiempre(s: Kernel, id: Id, prioridad: int, es: seq<Evento>)
    requires id !in s.tcbs
    ensures var t := Admitir(s, id, prioridad);
      Nacido(s, t, id, prioridad) && id in Correr(t, es).tcbs && Correr(t, es).tcbs[id].prioridad == prioridad
  {
    CorrerPrioridad(Admitir(s, id, prioridad), es, id);
  }

  // --- Dispatching ---

  /** The chosen thread, and that one alone, goes from ready to the end of the executing ones. */
  ghost predicate Despachado(s: Kernel, t: Kernel, i: nat) {
    && i < |s.ready| && s.ready[i] in s.tcbs
    && SoloHilo(s, t, s.ready[i], Exec, s.tcbs[s.ready[i]].bloqueadoPor)
    && t.ready == s.ready[..i] + s.ready[i + 1..] && t.exec == s.exec + [s.ready[i]]
    && t.blocked == s.blocked && t.exit == s.exit && t.mutexes == s.mutexes
  }

  lemma {:induction false} DespacharEs(s: Kernel, fifo: bool)
    requires Inv(s) && s.ready != []
    ensures s.ready[Proximo(s, fifo)] in s.tcbs && Despachado(s, Despachar(s, fifo), Proximo(s, fifo))
  {
    DespacharConserva(s, fifo);
  }
}
