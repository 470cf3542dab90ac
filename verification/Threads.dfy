/** The kernel's thread state machine: ready, blocked, executing and finished threads, joins,
    mutexes with waiting queues, and thread termination. Values only; `KernelModule.dfy`
    carries the same steps out on the control blocks and lists themselves. */
module Threads {
  import opened Comun
  import opened Planificador

  /** A thread is known by its process and its number within it. */
  datatype Id = Id(pid: nat, tid: nat)

  datatype Estado = Ready | Blocked | Exec | Exit

  /** A thread control block. `bloqueadoPor` is `tid_que_lo_bloqueo`: the thread a join waits
      for, the thread's own number when it waits for a mutex, or nothing. */
  datatype Tcb = Tcb(estado: Estado, bloqueadoPor: Option<nat>, prioridad: int)

  /** A mutex of a process. `pedidos` and `otorgados` record the lock requests and the grants
      made so far, in order. */
  datatype Mutex = Mutex(recurso: string, dueno: Option<nat>, cola: seq<nat>, pedidos: seq<nat>, otorgados: seq<nat>)

  datatype Kernel = Kernel(
    tcbs: map<Id, Tcb>,
    ready: seq<Id>, blocked: seq<Id>, exec: seq<Id>, exit: seq<Id>,
    mutexes: map<nat, seq<Mutex>>)

  // --- Elementary moves ---

  /** `list_remove_element`: drops the first occurrence. */
  function Quitar<T(==)>(xs: seq<T>, x: T): (r: seq<T>)
    ensures forall y :: y in r ==> y in xs
  {
    if xs == [] then [] else if xs[0] == x then xs[1..] else [xs[0]] + Quitar(xs[1..], x)
  }

  function ConEstado(s: Kernel, id: Id, e: Estado): Kernel
    requires id in s.tcbs
  {
    s.(tcbs := s.tcbs[id := s.tcbs[id].(estado := e)])
  }

  function SacarExec(s: Kernel, id: Id): Kernel {
    s.(exec := Quitar(s.exec, id))
  }

  function SacarBlocked(s: Kernel, id: Id): Kernel {
    s.(blocked := Quitar(s.blocked, id))
  }

  function APonerReady(s: Kernel, id: Id): Kernel
    requires id in s.tcbs
  {
    ConEstado(s, id, Ready).(ready := s.ready + [id])
  }

  function APonerBlocked(s: Kernel, id: Id, por: Option<nat>): Kernel
    requires id in s.tcbs
  {
    s.(tcbs := s.tcbs[id := s.tcbs[id].(estado := Blocked, bloqueadoPor := por)], blocked := s.blocked + [id])
  }

  // --- Mutexes ---

  /** `buscar_mutex`: the first mutex with that name, or the length of the list. */
  function BuscarMutex(ms: seq<Mutex>, recurso: string, k: nat): (i: nat)
    requires k <= |ms|
    ensures k <= i <= |ms| && (i < |ms| ==> ms[i].recurso == recurso)
    ensures forall j :: k <= j < i ==> ms[j].recurso != recurso
    decreases |ms| - k
  {
    if k == |ms| || ms[k].recurso == recurso then k else BuscarMutex(ms, recurso, k + 1)
  }

  function ConMutex(s: Kernel, pid: nat, i: nat, m: Mutex): Kernel
    requires pid in s.mutexes && i < |s.mutexes[pid]|
  {
    s.(mutexes := s.mutexes[pid := s.mutexes[pid][i := m]])
  }

  /** Passes a mutex on to the first thread waiting for it, which becomes ready, or leaves it
      without owner. As written the woken thread stays in the blocked list. */
  function Ceder(v: Variante, s: Kernel, pid: nat, i: nat): Kernel
    requires pid in s.mutexes && i < |s.mutexes[pid]|
  {
    var m := s.mutexes[pid][i];
    if m.cola == [] then ConMutex(s, pid, i, m.(dueno := None))
    else
      var w := Id(pid, m.cola[0]);
      if w !in s.tcbs then ConMutex(s, pid, i, m.(cola := m.cola[1..]))
      else
        var s1 := ConMutex(s, pid, i, m.(dueno := Some(w.tid), cola := m.cola[1..],
            otorgados := m.otorgados + [w.tid]));
        APonerReady(if v.Reparada? then SacarBlocked(s1, w) else s1, w)
  }

  function Lock(s: Kernel, id: Id, recurso: string): Kernel
    requires id in s.tcbs && id.pid in s.mutexes
    requires BuscarMutex(s.mutexes[id.pid], recurso, 0) < |s.mutexes[id.pid]|
  {
    var i := BuscarMutex(s.mutexes[id.pid], recurso, 0);
    var m := s.mutexes[id.pid][i];
    var s1 := SacarExec(s, id);
    var pedidos := m.pedidos + [id.tid];
    if m.dueno == None then
      APonerReady(ConMutex(s1, id.pid, i,
        m.(dueno := Some(id.tid), pedidos := pedidos, otorgados := m.otorgados + [id.tid])), id)
    else
      APonerBlocked(ConMutex(s1, id.pid, i, m.(cola := m.cola + [id.tid], pedidos := pedidos)), id, Some(id.tid))
  }

  function Unlock(v: Variante, s: Kernel, id: Id, recurso: string): Kernel
    requires id in s.tcbs && id.pid in s.mutexes
    requires BuscarMutex(s.mutexes[id.pid], recurso, 0) < |s.mutexes[id.pid]|
  {
    var i := BuscarMutex(s.mutexes[id.pid], recurso, 0);
    var s1 := APonerReady(SacarExec(s, id), id);
    if s.mutexes[id.pid][i].dueno == Some(id.tid) then Ceder(v, s1, id.pid, i) else s1
  }

  function CrearMutex(s: Kernel, id: Id, recurso: string): Kernel
    requires id in s.tcbs && id.pid in s.mutexes
  {
    var s1 := APonerReady(SacarExec(s, id), id);
    s1.(mutexes := s1.mutexes[id.pid := s1.mutexes[id.pid] + [Mutex(recurso, None, [], [], [])]])
  }

  // --- Joins and termination ---

  /** As written, the thread recorded as awaited is the caller itself. */
  function Join(v: Variante, s: Kernel, id: Id, otro: nat): Kernel
    requires id in s.tcbs
  {
    var s1, destino := SacarExec(s, id), Id(id.pid, otro);
    if destino !in s.tcbs || s.tcbs[destino].estado == Exit then APonerReady(s1, id)
    else APonerBlocked(s1, id, Some(if v.Reparada? then otro else id.tid))
  }

  /** Whether a blocked thread waits for thread `fin`. */
  predicate Espera(s: Kernel, id: Id, fin: Id) {
    id in s.tcbs && id.pid == fin.pid && s.tcbs[id].bloqueadoPor == Some(fin.tid)
  }

  /** The threads of `xs` that wait for `fin`, or those that do not, in order. */
  function Filtrar(s: Kernel, xs: seq<Id>, fin: Id, esperan: bool): seq<Id> {
    if xs == [] then []
    else
      Filtrar(s, xs[..|xs| - 1], fin, esperan)
      + if Espera(s, xs[|xs| - 1], fin) == esperan then [xs[|xs| - 1]] else []
  }

  /** `desbloquear_hilos_por_tid`: every blocked thread that waits for `fin` becomes ready. */
  function Desbloquear(s: Kernel, fin: Id): Kernel {
    s.(tcbs := map id | id in s.tcbs ::
         if id in s.blocked && Espera(s, id, fin) then s.tcbs[id].(estado := Ready, bloqueadoPor := None)
             else s.tcbs[id],
       ready := s.ready + Filtrar(s, s.blocked, fin, true),
       blocked := Filtrar(s, s.blocked, fin, false))
  }

  /** Passes on the `i`-th mutex of the process if `tid` owns it. */
  function Soltar(s: Kernel, pid: nat, tid: nat, i: nat): (r: Kernel)
    requires pid in s.mutexes && i < |s.mutexes[pid]|
    ensures pid in r.mutexes && |r.mutexes[pid]| == |s.mutexes[pid]|
  {
    if s.mutexes[pid][i].dueno == Some(tid) then Ceder(Reparada, s, pid, i) else s
  }

  /** Passes on every mutex of the process, from the `i`-th on, that `tid` owns. */
  function CederTodos(s: Kernel, pid: nat, tid: nat, i: nat): Kernel
    requires pid in s.mutexes && i <= |s.mutexes[pid]|
    decreases |s.mutexes[pid]| - i
  {
    if i == |s.mutexes[pid]| then s else CederTodos(Soltar(s, pid, tid, i), pid, tid, i + 1)
  }

  function AExit(s: Kernel, id: Id): Kernel
    requires id in s.tcbs
  {
    ConEstado(s, id, Exit).(exit := s.exit + [id])
  }

  /** Takes a thread out of the list its state names. */
  function Salir(s: Kernel, id: Id): Kernel
    requires id in s.tcbs
  {
    match s.tcbs[id].estado
    case Ready => s.(ready := Quitar(s.ready, id))
    case Blocked => SacarBlocked(s, id)
    case Exec => SacarExec(s, id)
    case Exit => s
  }

  /** Thread `tid` withdraws its request for a mutex it waits for. */
  function Retirado(m: Mutex, tid: nat): Mutex {
    if tid in m.cola then m.(cola := Quitar(m.cola, tid), pedidos := m.otorgados + Quitar(m.cola, tid)) else m
  }

  function Retirados(ms: seq<Mutex>, tid: nat): (r: seq<Mutex>)
    ensures |r| == |ms|
    ensures forall i :: 0 <= i < |ms| ==> r[i] == Retirado(ms[i], tid)
  {
    seq(|ms|, i requires 0 <= i < |ms| => Retirado(ms[i], tid))
  }

  function Retirar(s: Kernel, id: Id): Kernel
    requires id.pid in s.mutexes
  {
    s.(mutexes := s.mutexes[id.pid := Retirados(s.mutexes[id.pid], id.tid)])
  }

  /** `finalizar_hilo`, of a thread in any state: it leaves its list and the queue it waits in,
      passes on the mutexes it owns, and wakes the threads that joined it. */
  function FinalizarHilo(s: Kernel, id: Id): Kernel
    requires id in s.tcbs && id.pid in s.mutexes
  {
    Desbloquear(CederTodos(AExit(Salir(Retirar(s, id), id), id), id.pid, id.tid, 0), id)
  }

  predicate PorTerminar(s: Kernel, id: Id, pid: nat) {
    id.pid == pid && pid in s.mutexes && id in s.tcbs && s.tcbs[id].estado != Exit
  }

  /** `finalizar_proceso`: goes over `lista_tcbs` and ends the threads of `pid` that have not
      ended yet. */
  function FinalizarProceso(s: Kernel, pid: nat, lista: seq<Id>): Kernel
    decreases |lista|
  {
    if lista == [] then s
    else
      var id := lista[0];
      FinalizarProceso(if PorTerminar(s, id, pid) then FinalizarHilo(s, id) else s, pid, lista[1..])
  }

  /** `THREAD_CANCEL`: the thread looked up, and finished, is the one that made the call. */
  function Cancel(s: Kernel, id: Id, otro: nat): Kernel
    requires id in s.tcbs && id.pid in s.mutexes
  {
    if s.tcbs[id].estado == Exit then s else FinalizarHilo(s, id)
  }

  // --- The rest ---

  /** Blocks, waits for the device, and becomes ready again, all within one handler. */
  function Io(s: Kernel, id: Id): Kernel
    requires id in s.tcbs
  {
    APonerReady(SacarBlocked(APonerBlocked(SacarExec(s, id), id, s.tcbs[id].bloqueadoPor), id), id)
  }

  /** Blocks until the dump is answered. */
  function Dump(s: Kernel, id: Id): Kernel
    requires id in s.tcbs
  {
    APonerBlocked(SacarExec(s, id), id, s.tcbs[id].bloqueadoPor)
  }

  /** A process begins with no mutexes. */
  function NuevoProceso(s: Kernel, pid: nat): Kernel {
    s.(mutexes := s.mutexes[pid := []])
  }

  /** A new thread is ready at once. */
  function Admitir(s: Kernel, id: Id, prioridad: int): Kernel {
    s.(tcbs := s.tcbs[id := Tcb(Ready, None, prioridad)], ready := s.ready + [id])
  }

  function Prioridades(s: Kernel): (ps: seq<int>)
    ensures |ps| == |s.ready|
  {
    seq(|s.ready|, i requires 0 <= i < |s.ready| => if s.ready[i] in s.tcbs then s.tcbs[s.ready[i]].prioridad else 0)
  }

  /** The position of the next thread to run: the first, or the first of those with the lowest
      priority number. */
  function Proximo(s: Kernel, fifo: bool): (i: nat)
    requires s.ready != []
    ensures i < |s.ready|
  {
    if fifo then 0 else Menor(Prioridades(s), |s.ready|)
  }

  /** Moves the `i`-th ready thread to the executing ones. */
  function AEjecutar(s: Kernel, i: nat): Kernel
    requires i < |s.ready| && s.ready[i] in s.tcbs
  {
    ConEstado(s, s.ready[i], Exec).(ready := s.ready[..i] + s.ready[i + 1..], exec := s.exec + [s.ready[i]])
  }

  function Despachar(s: Kernel, fifo: bool): Kernel
    requires s.ready != [] && s.ready[Proximo(s, fifo)] in s.tcbs
  {
    AEjecutar(s, Proximo(s, fifo))
  }
}
