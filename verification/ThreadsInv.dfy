/** What every step of the thread state machine keeps: each thread in the one list its state
    names, joins only on living threads, and mutexes granted in the order of the requests. */
module ThreadsInv {
  import opened Comun
  import opened Planificador
  import opened Threads

  // --- Lists: every thread in exactly one ---

  /** How often a thread occurs in a list. */
  function Veces(xs: seq<Id>, id: Id): nat {
    multiset(xs)[id]
  }

  predicate Cuenta(xs: seq<Id>, id: Id, esta: bool) {
    Veces(xs, id) == if esta then 1 else 0
  }

  /** Whether thread `id` should be in the list of state `e`; `fuera` is a thread on its way
      between two lists. */
  predicate Figura(s: Kernel, id: Id, e: Estado, fuera: Option<Id>) {
    id in s.tcbs && fuera != Some(id) && s.tcbs[id].estado == e
  }

  /** Thread `id` is in the list its state names, once, and in no other. */
  predicate UnaSola(s: Kernel, id: Id, fuera: Option<Id>) {
    && Cuenta(s.ready, id, Figura(s, id, Ready, fuera))
    && Cuenta(s.blocked, id, Figura(s, id, Blocked, fuera))
    && Cuenta(s.exec, id, Figura(s, id, Exec, fuera))
    && Cuenta(s.exit, id, Figura(s, id, Exit, fuera))
  }

  ghost predicate Listas(s: Kernel, fuera: Option<Id>) {
    forall id :: UnaSola(s, id, fuera)
  }

  lemma {:induction false} VecesAgregar(xs: seq<Id>, x: Id, id: Id)
    ensures Veces(xs + [x], id) == Veces(xs, id) + if x == id then 1 else 0
  {
  }

  lemma {:induction false} VecesSacar(xs: seq<Id>, i: nat, id: Id)
    requires i < |xs|
    ensures Veces(xs[..i] + xs[i + 1..], id) == Veces(xs, id) - if xs[i] == id then 1 else 0
  {
    assert xs == xs[..i] + ([xs[i]] + xs[i + 1..]);
  }

  lemma {:induction false} VecesConcat(xs: seq<Id>, ys: seq<Id>, id: Id)
    ensures Veces(xs + ys, id) == Veces(xs, id) + Veces(ys, id)
  {
  }

  lemma {:induction false} VecesQuitar(xs: seq<Id>, x: Id, id: Id)
    ensures Veces(Quitar(xs, x), id) == if x == id && Veces(xs, id) > 0 then Veces(xs, id) - 1 else Veces(xs, id)
  {
    if xs == [] {
    } else {
      assert xs == [xs[0]] + xs[1..];
      VecesConcat([xs[0]], xs[1..], id);
      if xs[0] != x {
        VecesQuitar(xs[1..], x, id);
        VecesConcat([xs[0]], Quitar(xs[1..], x), id);
      }
    }
  }

  lemma {:induction false} VecesFiltrar(s: Kernel, xs: seq<Id>, fin: Id, esperan: bool, id: Id)
    ensures Veces(Filtrar(s, xs, fin, esperan), id) == if Espera(s, id, fin) == esperan then Veces(xs, id) else 0
  {
    if xs == [] {
    } else {
      var n := |xs| - 1;
      VecesFiltrar(s, xs[..n], fin, esperan, id);
      assert xs == xs[..n] + [xs[n]];
      VecesAgregar(xs[..n], xs[n], id);
      VecesAgregar(Filtrar(s, xs[..n], fin, esperan), xs[n], id);
    }
  }

  lemma {:induction false} EstaSii(xs: seq<Id>, id: Id)
    ensures id in xs <==> Veces(xs, id) > 0
  {
  }

  lemma {:induction false} SacarExecListas(s: Kernel, id: Id)
    requires Listas(s, None) && id in s.tcbs && s.tcbs[id].estado == Exec
    ensures Listas(SacarExec(s, id), Some(id))
  {
    forall x ensures UnaSola(SacarExec(s, id), x, Some(id)) {
      VecesQuitar(s.exec, id, x);
      assert UnaSola(s, x, None) && UnaSola(s, id, None);
    }
  }

  lemma {:induction false} SalirListas(s: Kernel, id: Id)
    requires Listas(s, None) && id in s.tcbs && s.tcbs[id].estado != Exit
    ensures Listas(Salir(s, id), Some(id))
  {
    forall x ensures UnaSola(Salir(s, id), x, Some(id)) {
      assert UnaSola(s, x, None) && UnaSola(s, id, None);
      VecesQuitar(s.ready, id, x);
      VecesQuitar(s.blocked, id, x);
      VecesQuitar(s.exec, id, x);
    }
  }

  lemma {:induction false} SacarBlockedListas(s: Kernel, id: Id)
    requires Listas(s, None) && id in s.tcbs && s.tcbs[id].estado == Blocked
    ensures Listas(SacarBlocked(s, id), Some(id))
  {
    forall x ensures UnaSola(SacarBlocked(s, id), x, Some(id)) {
      VecesQuitar(s.blocked, id, x);
      assert UnaSola(s, x, None) && UnaSola(s, id, None);
    }
  }

  lemma {:induction false} APonerReadyListas(s: Kernel, id: Id)
    requires Listas(s, Some(id)) && id in s.tcbs
    ensures Listas(APonerReady(s, id), None)
  {
    forall x ensures UnaSola(APonerReady(s, id), x, None) {
      assert UnaSola(s, x, Some(id));
      VecesAgregar(s.ready, id, x);
    }
  }

  lemma {:induction false} APonerBlockedListas(s: Kernel, id: Id, por: Option<nat>)
    requires Listas(s, Some(id)) && id in s.tcbs
    ensures Listas(APonerBlocked(s, id, por), None)
  {
    forall x ensures UnaSola(APonerBlocked(s, id, por), x, None) {
      assert UnaSola(s, x, Some(id));
      VecesAgregar(s.blocked, id, x);
    }
  }

  /** The mutexes are no part of the lists. */
  lemma {:induction false} MismasListas(s: Kernel, t: Kernel, fuera: Option<Id>)
    requires Listas(s, fuera) && t == s.(mutexes := t.mutexes)
    ensures Listas(t, fuera)
  {
    forall x ensures UnaSola(t, x, fuera) {
      assert UnaSola(s, x, fuera);
    }
  }

  lemma {:induction false} AExitListas(s: Kernel, id: Id)
    requires Listas(s, Some(id)) && id in s.tcbs
    ensures Listas(AExit(s, id), None)
  {
    forall x ensures UnaSola(AExit(s, id), x, None) {
      assert UnaSola(s, x, Some(id));
      VecesAgregar(s.exit, id, x);
    }
  }

  lemma {:induction false} DesbloquearUna(s: Kernel, fin: Id, x: Id)
    requires UnaSola(s, x, None)
    ensures UnaSola(Desbloquear(s, fin), x, None)
  {
    var t := Desbloquear(s, fin);
    EstaSii(s.blocked, x);
    VecesFiltrar(s, s.blocked, fin, true, x);
    VecesFiltrar(s, s.blocked, fin, false, x);
    VecesConcat(s.ready, Filtrar(s, s.blocked, fin, true), x);
    assert t.exec == s.exec && t.exit == s.exit;
    if x in s.tcbs && s.tcbs[x].estado == Blocked && Espera(s, x, fin) {
      assert t.tcbs[x].estado == Ready;
    } else if x in s.tcbs {
      assert t.tcbs[x].estado == s.tcbs[x].estado;
    }
  }

  lemma {:induction false} DesbloquearListas(s: Kernel, fin: Id)
    requires Listas(s, None)
    ensures Listas(Desbloquear(s, fin), None)
  {
    forall x ensures UnaSola(Desbloquear(s, fin), x, None) {
      assert UnaSola(s, x, None);
      DesbloquearUna(s, fin, x);
    }
  }

  lemma {:induction false} AEjecutarUna(s: Kernel, i: nat, x: Id)
    requires i < |s.ready| && s.ready[i] in s.tcbs
    requires UnaSola(s, x, None) && UnaSola(s, s.ready[i], None)
    ensures UnaSola(AEjecutar(s, i), x, None)
  {
    EstaSii(s.ready, s.ready[i]);
    VecesSacar(s.ready, i, x);
    VecesAgregar(s.exec, s.ready[i], x);
  }

  lemma {:induction false} DespacharListas(s: Kernel, fifo: bool)
    requires Listas(s, None) && s.ready != [] && s.ready[Proximo(s, fifo)] in s.tcbs
    ensures Listas(Despachar(s, fifo), None)
  {
    var i := Proximo(s, fifo);
    assert UnaSola(s, s.ready[i], None);
    forall x ensures UnaSola(AEjecutar(s, i), x, None) {
      assert UnaSola(s, x, None);
      AEjecutarUna(s, i, x);
    }
  }

  lemma {:induction false} AdmitirListas(s: Kernel, id: Id, prioridad: int)
    requires Listas(s, None) && id !in s.tcbs
    ensures Listas(Admitir(s, id, prioridad), None)
  {
    forall x ensures UnaSola(Admitir(s, id, prioridad), x, None) {
      assert UnaSola(s, x, None);
      VecesAgregar(s.ready, id, x);
    }
  }

  // --- Joins: nobody waits for a finished thread ---

  /** `id` names a thread that has not finished; `muerto` is one still being finished. */
  predicate Vivo(s: Kernel, id: Id, muerto: Option<Id>) {
    id in s.tcbs && (s.tcbs[id].estado == Exit ==> muerto == Some(id))
  }

  /** A blocked thread waits for a living one; one that can run at most remembers itself. */
  predicate JoinBien(s: Kernel, id: Id, muerto: Option<Id>)
    requires id in s.tcbs
  {
    match s.tcbs[id].bloqueadoPor
    case None => true
    case Some(t) =>
      match s.tcbs[id].estado
      case Blocked => Vivo(s, Id(id.pid, t), muerto)
      case Exit => true
      case _ => t == id.tid
  }

  ghost predicate Joins(s: Kernel, muerto: Option<Id>) {
    forall id :: id in s.tcbs ==> JoinBien(s, id, muerto)
  }

  /** `t` is `s` with only the control block of `x` changed or added. */
  ghost predicate Cambio(s: Kernel, t: Kernel, x: Id) {
    x in t.tcbs && t.tcbs == s.tcbs[x := t.tcbs[x]]
  }

  lemma {:induction false} CambioJoins(s: Kernel, t: Kernel, x: Id, muerto: Option<Id>, ahora: Option<Id>)
    requires Joins(s, muerto) && Cambio(s, t, x)
    requires ahora == muerto || (muerto == None && ahora == Some(x))
    requires Vivo(t, x, ahora) && JoinBien(t, x, ahora)
    ensures Joins(t, ahora)
  {
    forall id | id in t.tcbs ensures JoinBien(t, id, ahora) {
      if id != x {
        assert JoinBien(s, id, muerto);
      }
    }
  }

  lemma {:induction false} DesbloquearJoins(s: Kernel, fin: Id)
    requires Listas(s, None) && Joins(s, Some(fin)) && fin in s.tcbs && s.tcbs[fin].estado == Exit
    ensures Joins(Desbloquear(s, fin), None)
  {
    forall id | id in s.tcbs ensures JoinBien(Desbloquear(s, fin), id, None) {
      assert JoinBien(s, id, Some(fin)) && UnaSola(s, id, None);
      EstaSii(s.blocked, id);
    }
  }

  // --- Mutexes ---

  predicate EsperaMutex(s: Kernel, id: Id) {
    id in s.tcbs && s.tcbs[id].estado == Blocked && s.tcbs[id].bloqueadoPor == Some(id.tid)
  }

  /** The grants made so far and then the queue are the requests made, in order; the owner is
      the last thread granted, is alive, and there is one whenever somebody waits. */
  predicate Turnos(s: Kernel, pid: nat, m: Mutex, muerto: Option<Id>) {
    && m.pedidos == m.otorgados + m.cola
    && (m.cola != [] ==> m.dueno.Some?)
    && (m.dueno.Some? ==> Vivo(s, Id(pid, m.dueno.value), muerto) && m.otorgados != []
                          && m.otorgados[|m.otorgados| - 1] == m.dueno.value)
  }

  ghost predicate MutexBien(s: Kernel, pid: nat, m: Mutex, muerto: Option<Id>) {
    && Turnos(s, pid, m, muerto)
    && forall k :: 0 <= k < |m.cola| ==> EsperaMutex(s, Id(pid, m.cola[k]))
  }

  /** All mutexes in order; those of number `desde` on may still belong to the thread being
      finished. */
  ghost predicate Mutexes(s: Kernel, muerto: Option<Id>, desde: nat) {
    forall pid, i :: pid in s.mutexes && 0 <= i < |s.mutexes[pid]| ==>
      MutexBien(s, pid, s.mutexes[pid][i], if i < desde then None else muerto)
  }

  /** No thread waits twice. */
  ghost predicate Distintos(ms: seq<Mutex>) {
    forall i, j, a, b ::
      0 <= i < |ms| && 0 <= j < |ms| && 0 <= a < |ms[i].cola| && 0 <= b < |ms[j].cola|
          && ms[i].cola[a] == ms[j].cola[b] ==>
        i == j && a == b
  }

  ghost predicate Esperas(s: Kernel) {
    forall pid :: pid in s.mutexes ==> Distintos(s.mutexes[pid])
  }

  /** Thread `x` waits for no mutex. */
  ghost predicate NoEspera(ms: seq<Mutex>, tid: nat) {
    forall i, a :: 0 <= i < |ms| && 0 <= a < |ms[i].cola| ==> ms[i].cola[a] != tid
  }

  predicate Procesos(s: Kernel) {
    forall id :: id in s.tcbs ==> id.pid in s.mutexes
  }

  lemma {:induction false} QuienNoEspera(s: Kernel, x: Id, muerto: Option<Id>, desde: nat)
    requires Mutexes(s, muerto, desde) && !EsperaMutex(s, x) && x.pid in s.mutexes
    ensures NoEspera(s.mutexes[x.pid], x.tid)
  {
    var ms := s.mutexes[x.pid];
    forall i, a | 0 <= i < |ms| && 0 <= a < |ms[i].cola| ensures ms[i].cola[a] != x.tid {
      assert MutexBien(s, x.pid, ms[i], if i < desde then None else muerto);
    }
  }

  lemma {:induction false} CambioMutexBien(s: Kernel, t: Kernel, x: Id, pid: nat, m: Mutex, muerto: Option<Id>,
        ahora: Option<Id>)
    requires MutexBien(s, pid, m, muerto) && Cambio(s, t, x)
    requires pid == x.pid ==> forall k :: 0 <= k < |m.cola| ==> m.cola[k] != x.tid
    requires ahora == muerto || (muerto == None && ahora == Some(x))
    requires Vivo(t, x, ahora)
    ensures MutexBien(t, pid, m, ahora)
  {
    forall k | 0 <= k < |m.cola| ensures EsperaMutex(t, Id(pid, m.cola[k])) {
      assert EsperaMutex(s, Id(pid, m.cola[k]));
    }
  }

  /** A thread that waits for no mutex changes, and is still alive. */
  lemma {:induction false} CambioMutexes(s: Kernel, t: Kernel, x: Id, muerto: Option<Id>, desde: nat)
    requires Mutexes(s, muerto, desde) && Cambio(s, t, x) && t.mutexes == s.mutexes
    requires x.pid in s.mutexes && NoEspera(s.mutexes[x.pid], x.tid) && Vivo(t, x, None)
    ensures Mutexes(t, muerto, desde)
  {
    forall pid, i | pid in t.mutexes && 0 <= i < |t.mutexes[pid]|
      ensures MutexBien(t, pid, t.mutexes[pid][i], if i < desde then None else muerto)
    {
      var d := if i < desde then None else muerto;
      assert MutexBien(s, pid, s.mutexes[pid][i], d);
      CambioMutexBien(s, t, x, pid, t.mutexes[pid][i], d, d);
    }
  }

  lemma {:induction false} AExitMutexes(s: Kernel, t: Kernel, x: Id)
    requires Mutexes(s, None, 0) && Cambio(s, t, x) && t.mutexes == s.mutexes
    requires x.pid in s.mutexes && NoEspera(s.mutexes[x.pid], x.tid)
    ensures Mutexes(t, Some(x), 0)
  {
    forall pid, i | pid in t.mutexes && 0 <= i < |t.mutexes[pid]|
        ensures MutexBien(t, pid, t.mutexes[pid][i], Some(x)) {
      assert MutexBien(s, pid, s.mutexes[pid][i], None);
      CambioMutexBien(s, t, x, pid, t.mutexes[pid][i], None, Some(x));
    }
  }

  lemma {:induction false} MutexBienQueda(s: Kernel, t: Kernel, pid: nat, m: Mutex, muerto: Option<Id>)
    requires MutexBien(s, pid, m, muerto) && t.tcbs == s.tcbs
    ensures MutexBien(t, pid, m, muerto)
  {
    forall k | 0 <= k < |m.cola| ensures EsperaMutex(t, Id(pid, m.cola[k])) {
      assert EsperaMutex(s, Id(pid, m.cola[k]));
    }
  }

  /** One mutex is replaced by another one in order. */
  lemma {:induction false} OtroMutex(s: Kernel, t: Kernel, pid: nat, i: nat, m: Mutex, muerto: Option<Id>, desde: nat)
    requires Mutexes(s, muerto, desde) && pid in s.mutexes && i < |s.mutexes[pid]|
    requires t.tcbs == s.tcbs && t.mutexes == ConMutex(s, pid, i, m).mutexes
    requires MutexBien(s, pid, m, if i < desde then None else muerto)
    ensures Mutexes(t, muerto, desde)
  {
    forall p, j | p in t.mutexes && 0 <= j < |t.mutexes[p]|
      ensures MutexBien(t, p, t.mutexes[p][j], if j < desde then None else muerto)
    {
      var d := if j < desde then None else muerto;
      assert p != pid || j != i ==> MutexBien(s, p, s.mutexes[p][j], d);
      MutexBienQueda(s, t, p, t.mutexes[p][j], d);
    }
  }

  lemma {:induction false} EncolarDistintos(ms: seq<Mutex>, i: nat, m: Mutex, tid: nat)
    requires Distintos(ms) && i < |ms| && NoEspera(ms, tid) && m.cola == ms[i].cola + [tid]
    ensures Distintos(ms[i := m])
  {
  }

  lemma {:induction false} DesencolarDistintos(ms: seq<Mutex>, i: nat, m: Mutex)
    requires Distintos(ms) && i < |ms|
    requires m.cola == if ms[i].cola == [] then [] else ms[i].cola[1..]
    ensures Distintos(ms[i := m])
    ensures ms[i].cola != [] ==> NoEspera(ms[i := m], ms[i].cola[0])
  {
  }

  // --- Everything together ---

  ghost predicate Bien(s: Kernel, muerto: Option<Id>, desde: nat) {
    && Listas(s, None)
    && Joins(s, muerto)
    && Mutexes(s, muerto, desde)
    && Esperas(s)
    && Procesos(s)
  }

  ghost predicate Inv(s: Kernel) {
    Bien(s, None, 0)
  }

  /** The caller of a system call: a thread that is executing. */
  predicate Corre(s: Kernel, id: Id) {
    id in s.tcbs && s.tcbs[id].estado == Exec
  }

  lemma {:induction false} QuienCorre(s: Kernel, id: Id)
    requires Inv(s) && Corre(s, id)
    ensures id.pid in s.mutexes && NoEspera(s.mutexes[id.pid], id.tid)
    ensures s.tcbs[id].bloqueadoPor == None || s.tcbs[id].bloqueadoPor == Some(id.tid)
    ensures Listas(SacarExec(s, id), Some(id))
  {
    QuienNoEspera(s, id, None, 0);
    assert JoinBien(s, id, None);
    SacarExecListas(s, id);
  }

  /** The caller goes back to the ready list. */
  lemma {:induction false} SigueConserva(s: Kernel, id: Id)
    requires Inv(s) && Corre(s, id)
    ensures Inv(APonerReady(SacarExec(s, id), id))
  {
    var t := APonerReady(SacarExec(s, id), id);
    QuienCorre(s, id);
    APonerReadyListas(SacarExec(s, id), id);
    CambioJoins(s, t, id, None, None);
    CambioMutexes(s, t, id, None, 0);
  }

  /** The caller blocks, waiting for a living thread, for a mutex, or for a device. */
  lemma {:induction false} BloquearConserva(s: Kernel, id: Id, por: Option<nat>)
    requires Inv(s) && Corre(s, id) && (por.Some? ==> Vivo(s, Id(id.pid, por.value), None))
    ensures Inv(APonerBlocked(SacarExec(s, id), id, por))
  {
    var t := APonerBlocked(SacarExec(s, id), id, por);
    QuienCorre(s, id);
    APonerBlockedListas(SacarExec(s, id), id, por);
    CambioJoins(s, t, id, None, None);
    CambioMutexes(s, t, id, None, 0);
  }

  lemma {:induction false} OtroMutexConserva(s: Kernel, pid: nat, i: nat, m: Mutex, muerto: Option<Id>, desde: nat)
    requires Bien(s, muerto, desde) && pid in s.mutexes && i < |s.mutexes[pid]|
    requires MutexBien(s, pid, m, if i < desde then None else muerto)
    requires Distintos(s.mutexes[pid][i := m])
    ensures Bien(ConMutex(s, pid, i, m), muerto, desde)
  {
    var t := ConMutex(s, pid, i, m);
    MismasListas(s, t, None);
    OtroMutex(s, t, pid, i, m, muerto, desde);
    forall id | id in t.tcbs ensures JoinBien(t, id, muerto) {
      assert JoinBien(s, id, muerto);
    }
  }

  // --- Locking, and passing mutexes on ---

  lemma {:induction false} LockConserva(s: Kernel, id: Id, recurso: string)
    requires Inv(s) && Corre(s, id) && id.pid in s.mutexes
    requires BuscarMutex(s.mutexes[id.pid], recurso, 0) < |s.mutexes[id.pid]|
    ensures Inv(Lock(s, id, recurso))
  {
    var ms := s.mutexes[id.pid];
    var i := BuscarMutex(ms, recurso, 0);
    var m := ms[i];
    QuienCorre(s, id);
    if m.dueno == None {
      var t := APonerReady(SacarExec(s, id), id);
      var n := m.(dueno := Some(id.tid), pedidos := m.pedidos + [id.tid], otorgados := m.otorgados + [id.tid]);
      SigueConserva(s, id);
      assert MutexBien(t, id.pid, m, None);
      DesencolarDistintos(ms, i, n);
      OtroMutexConserva(t, id.pid, i, n, None, 0);
      assert Lock(s, id, recurso) == ConMutex(t, id.pid, i, n);
    } else {
      var t := APonerBlocked(SacarExec(s, id), id, Some(id.tid));
      var n := m.(cola := m.cola + [id.tid], pedidos := m.pedidos + [id.tid]);
      BloquearConserva(s, id, Some(id.tid));
      assert MutexBien(t, id.pid, m, None);
      assert n.pedidos == n.otorgados + n.cola;
      EncolarDistintos(ms, i, n, id.tid);
      OtroMutexConserva(t, id.pid, i, n, None, 0);
      assert Lock(s, id, recurso) == ConMutex(t, id.pid, i, n);
    }
  }

  /** A thread that waits for no mutex any more wakes up. */
  lemma {:induction false} DespertarConserva(s: Kernel, w: Id, muerto: Option<Id>, desde: nat)
    requires Bien(s, muerto, desde) && EsperaMutex(s, w) && NoEspera(s.mutexes[w.pid], w.tid)
    ensures Bien(APonerReady(SacarBlocked(s, w), w), muerto, desde)
  {
    var t := APonerReady(SacarBlocked(s, w), w);
    SacarBlockedListas(s, w);
    APonerReadyListas(SacarBlocked(s, w), w);
    CambioJoins(s, t, w, muerto, muerto);
    CambioMutexes(s, t, w, muerto, desde);
  }

  /** Mutex `i` no longer belongs to the thread being finished. */
  lemma {:induction false} Avanzar(s: Kernel, pid: nat, i: nat, muerto: Option<Id>)
    requires Bien(s, muerto, i) && (muerto.Some? ==> muerto.value.pid == pid)
    requires pid in s.mutexes && i < |s.mutexes[pid]|
    requires MutexBien(s, pid, s.mutexes[pid][i], None)
    ensures Bien(s, muerto, i + 1)
  {
    forall p, j | p in s.mutexes && 0 <= j < |s.mutexes[p]|
      ensures MutexBien(s, p, s.mutexes[p][j], if j < i + 1 then None else muerto)
    {
      assert MutexBien(s, p, s.mutexes[p][j], if j < i then None else muerto);
    }
  }

  /** Granting a mutex to the first thread waiting keeps it in order. */
  lemma {:induction false} OtorgadoBien(s: Kernel, pid: nat, m: Mutex, muerto: Option<Id>)
    requires MutexBien(s, pid, m, muerto) && m.cola != []
    ensures forall d :: MutexBien(s, pid, m.(dueno := Some(m.cola[0]), cola := m.cola[1..],
        otorgados := m.otorgados + [m.cola[0]]), d)
  {
    var n := m.(dueno := Some(m.cola[0]), cola := m.cola[1..], otorgados := m.otorgados + [m.cola[0]]);
    assert m.cola == [m.cola[0]] + m.cola[1..];
    assert EsperaMutex(s, Id(pid, m.cola[0]));
    forall k | 0 <= k < |n.cola| ensures EsperaMutex(s, Id(pid, n.cola[k])) {
      assert n.cola[k] == m.cola[k + 1];
    }
  }

  lemma {:induction false} CederConserva(s: Kernel, pid: nat, i: nat, muerto: Option<Id>)
    requires Bien(s, muerto, i) && (muerto.Some? ==> muerto.value.pid == pid)
    requires pid in s.mutexes && i < |s.mutexes[pid]|
    ensures Bien(Ceder(Reparada, s, pid, i), muerto, i + 1)
  {
    var ms := s.mutexes[pid];
    var m := ms[i];
    assert MutexBien(s, pid, m, muerto);
    if m.cola == [] {
      var n := m.(dueno := None);
      DesencolarDistintos(ms, i, n);
      OtroMutexConserva(s, pid, i, n, muerto, i);
      Avanzar(ConMutex(s, pid, i, n), pid, i, muerto);
    } else {
      var w := Id(pid, m.cola[0]);
      var n := m.(dueno := Some(w.tid), cola := m.cola[1..], otorgados := m.otorgados + [w.tid]);
      var t := ConMutex(s, pid, i, n);
      assert EsperaMutex(s, w);
      OtorgadoBien(s, pid, m, muerto);
      DesencolarDistintos(ms, i, n);
      OtroMutexConserva(s, pid, i, n, muerto, i);
      MutexBienQueda(s, t, pid, n, None);
      Avanzar(t, pid, i, muerto);
      DespertarConserva(t, w, muerto, i + 1);
    }
  }

  lemma {:induction false} SinMuerto(s: Kernel, desde: nat, hasta: nat)
    requires Bien(s, None, desde)
    ensures Bien(s, None, hasta)
  {
    forall p, j | p in s.mutexes && 0 <= j < |s.mutexes[p]| ensures MutexBien(s, p, s.mutexes[p][j], None) {
      assert MutexBien(s, p, s.mutexes[p][j], if j < desde then None else None);
    }
  }

  lemma {:induction false} UnlockConserva(s: Kernel, id: Id, recurso: string)
    requires Inv(s) && Corre(s, id) && id.pid in s.mutexes
    requires BuscarMutex(s.mutexes[id.pid], recurso, 0) < |s.mutexes[id.pid]|
    ensures Inv(Unlock(Reparada, s, id, recurso))
  {
    var i := BuscarMutex(s.mutexes[id.pid], recurso, 0);
    var t := APonerReady(SacarExec(s, id), id);
    SigueConserva(s, id);
    if s.mutexes[id.pid][i].dueno == Some(id.tid) {
      SinMuerto(t, 0, i);
      CederConserva(t, id.pid, i, None);
      SinMuerto(Ceder(Reparada, t, id.pid, i), i + 1, 0);
    }
  }

  /** What passing mutexes on leaves alone: the finished thread and the number of mutexes. */
  predicate Acompana(s: Kernel, t: Kernel, fin: Id) {
    && t.mutexes.Keys == s.mutexes.Keys
    && fin in s.tcbs && fin in t.tcbs && t.tcbs[fin] == s.tcbs[fin]
    && (fin.pid in s.mutexes ==> |t.mutexes[fin.pid]| == |s.mutexes[fin.pid]|)
  }

  lemma {:induction false} SoltarConserva(s: Kernel, fin: Id, i: nat)
    requires Bien(s, Some(fin), i) && fin in s.tcbs && s.tcbs[fin].estado == Exit
    requires fin.pid in s.mutexes && i < |s.mutexes[fin.pid]|
    ensures Acompana(s, Soltar(s, fin.pid, fin.tid, i), fin)
    ensures Bien(Soltar(s, fin.pid, fin.tid, i), Some(fin), i + 1)
  {
    var m := s.mutexes[fin.pid][i];
    assert MutexBien(s, fin.pid, m, Some(fin));
    if m.dueno == Some(fin.tid) {
      CederConserva(s, fin.pid, i, Some(fin));
      assert m.cola != [] ==> EsperaMutex(s, Id(fin.pid, m.cola[0]));
    } else {
      Avanzar(s, fin.pid, i, Some(fin));
    }
  }

  lemma {:induction false} CederTodosConserva(s: Kernel, fin: Id, i: nat)
    requires Bien(s, Some(fin), i) && fin in s.tcbs && s.tcbs[fin].estado == Exit
    requires fin.pid in s.mutexes && i <= |s.mutexes[fin.pid]|
    ensures Acompana(s, CederTodos(s, fin.pid, fin.tid, i), fin)
    ensures Bien(CederTodos(s, fin.pid, fin.tid, i), Some(fin), |s.mutexes[fin.pid]|)
    decreases |s.mutexes[fin.pid]| - i
  {
    if i >= |s.mutexes[fin.pid]| {
    } else {
      SoltarConserva(s, fin, i);
      CederTodosConserva(Soltar(s, fin.pid, fin.tid, i), fin, i + 1);
    }
  }

  /** Once all its mutexes are passed on, the finished thread owns none. */
  lemma {:induction false} NadaSuyo(s: Kernel, fin: Id)
    requires fin.pid in s.mutexes && Mutexes(s, Some(fin), |s.mutexes[fin.pid]|)
    ensures Mutexes(s, None, 0)
  {
    forall p, j | p in s.mutexes && 0 <= j < |s.mutexes[p]| ensures MutexBien(s, p, s.mutexes[p][j], None) {
      assert MutexBien(s, p, s.mutexes[p][j], if j < |s.mutexes[fin.pid]| then None else Some(fin));
    }
  }

  lemma {:induction false} DesbloquearMutexBien(s: Kernel, fin: Id, pid: nat, m: Mutex)
    requires MutexBien(s, pid, m, None) && fin in s.tcbs && s.tcbs[fin].estado == Exit
    ensures MutexBien(Desbloquear(s, fin), pid, m, None)
  {
    forall k | 0 <= k < |m.cola| ensures EsperaMutex(Desbloquear(s, fin), Id(pid, m.cola[k])) {
      assert EsperaMutex(s, Id(pid, m.cola[k]));
    }
  }

  /** Waking the threads that joined `fin` wakes nobody who waits for a mutex. */
  lemma {:induction false} DesbloquearMutexes(s: Kernel, fin: Id)
    requires Mutexes(s, None, 0) && fin in s.tcbs && s.tcbs[fin].estado == Exit
    ensures Mutexes(Desbloquear(s, fin), None, 0)
  {
    var t := Desbloquear(s, fin);
    forall p, j | p in t.mutexes && 0 <= j < |t.mutexes[p]| ensures MutexBien(t, p, t.mutexes[p][j], None) {
      DesbloquearMutexBien(s, fin, p, s.mutexes[p][j]);
    }
  }

  // --- A thread withdraws its requests ---

  lemma {:induction false} QuitarUno(cola: seq<nat>, tid: nat) returns (p: nat)
    requires tid in cola
    ensures p < |cola| && cola[p] == tid && Quitar(cola, tid) == cola[..p] + cola[p + 1..]
  {
    if cola[0] == tid {
      p := 0;
    } else {
      p := QuitarUno(cola[1..], tid);
      p := p + 1;
      assert cola == [cola[0]] + cola[1..];
    }
  }

  lemma {:induction false} RetiradoBien(s: Kernel, pid: nat, m: Mutex, tid: nat, muerto: Option<Id>)
    requires MutexBien(s, pid, m, muerto)
    ensures MutexBien(s, pid, Retirado(m, tid), muerto)
  {
    var n := Retirado(m, tid);
    forall k | 0 <= k < |n.cola| ensures EsperaMutex(s, Id(pid, n.cola[k])) {
      assert n.cola[k] in n.cola && n.cola[k] in m.cola;
      var j :| 0 <= j < |m.cola| && m.cola[j] == n.cola[k];
      assert EsperaMutex(s, Id(pid, m.cola[j]));
    }
  }

  /** Where each waiter of the list stood before `tid` withdrew. */
  lemma {:induction false} DondeEstaba(ms: seq<Mutex>, tid: nat, i: nat, a: nat) returns (b: nat)
    requires Distintos(ms) && i < |ms| && a < |Retirado(ms[i], tid).cola|
    ensures b < |ms[i].cola| && ms[i].cola[b] == Retirado(ms[i], tid).cola[a] && ms[i].cola[b] != tid
    ensures tid !in ms[i].cola ==> b == a
    ensures tid in ms[i].cola ==> exists p :: 0 <= p < |ms[i].cola| && ms[i].cola[p] == tid && b == if a < p then a
        else a + 1
  {
    b := a;
    if tid in ms[i].cola {
      var p := QuitarUno(ms[i].cola, tid);
      b := if a < p then a else a + 1;
    }
  }

  lemma {:induction false} RetiradosDistintos(ms: seq<Mutex>, tid: nat)
    requires Distintos(ms)
    ensures Distintos(Retirados(ms, tid)) && NoEspera(Retirados(ms, tid), tid)
  {
    var r := Retirados(ms, tid);
    forall i, j, a, b | 0 <= i < |r| && 0 <= j < |r| && 0 <= a < |r[i].cola| && 0 <= b < |r[j].cola|
        && r[i].cola[a] == r[j].cola[b]
      ensures i == j && a == b
    {
      var a' := DondeEstaba(ms, tid, i, a);
      var b' := DondeEstaba(ms, tid, j, b);
      assert i == j && a' == b';
    }
    forall i, a | 0 <= i < |r| && 0 <= a < |r[i].cola| ensures r[i].cola[a] != tid {
      var a' := DondeEstaba(ms, tid, i, a);
    }
  }

  lemma {:induction false} MismosJoins(s: Kernel, t: Kernel)
    requires Joins(s, None) && t.tcbs == s.tcbs
    ensures Joins(t, None)
  {
    forall x | x in t.tcbs ensures JoinBien(t, x, None) {
      assert JoinBien(s, x, None);
    }
  }

  lemma {:induction false} RetirarConserva(s: Kernel, id: Id)
    requires Inv(s) && id.pid in s.mutexes
    ensures Inv(Retirar(s, id)) && NoEspera(Retirar(s, id).mutexes[id.pid], id.tid)
  {
    var t := Retirar(s, id);
    MismasListas(s, t, None);
    MismosJoins(s, t);
    RetiradosDistintos(s.mutexes[id.pid], id.tid);
    forall p, j | p in t.mutexes && 0 <= j < |t.mutexes[p]| ensures MutexBien(t, p, t.mutexes[p][j], None) {
      assert MutexBien(s, p, s.mutexes[p][j], None);
      RetiradoBien(s, p, s.mutexes[p][j], id.tid, None);
      MutexBienQueda(s, t, p, t.mutexes[p][j], None);
    }
    forall p | p in t.mutexes ensures Distintos(t.mutexes[p]) {
      assert p != id.pid ==> Distintos(s.mutexes[p]);
    }
  }

  // --- A thread ends ---

  /** A thread that has not finished. */
  predicate Activo(s: Kernel, id: Id) {
    id in s.tcbs && s.tcbs[id].estado != Exit
  }

  /** The state in which thread `fin` is finished but still owns its mutexes. */
  function Muerto(s: Kernel, fin: Id): Kernel
    requires fin in s.tcbs && fin.pid in s.mutexes
  {
    AExit(Salir(Retirar(s, fin), fin), fin)
  }

  lemma {:induction false} MuertoBien(s: Kernel, fin: Id)
    requires Inv(s) && Activo(s, fin) && fin.pid in s.mutexes
    ensures Bien(Muerto(s, fin), Some(fin), 0)
  {
    var s1, s2 := Retirar(s, fin), Muerto(s, fin);
    RetirarConserva(s, fin);
    SalirListas(s1, fin);
    AExitListas(Salir(s1, fin), fin);
    CambioJoins(s1, s2, fin, None, Some(fin));
    AExitMutexes(s1, s2, fin);
  }

  /** The state in which the waiters of the finished thread are about to be woken. */
  function Repartido(s: Kernel, fin: Id): Kernel
    requires fin in s.tcbs && fin.pid in s.mutexes
  {
    CederTodos(Muerto(s, fin), fin.pid, fin.tid, 0)
  }

  lemma {:induction false} RepartidoBien(s: Kernel, fin: Id)
    requires Inv(s) && Activo(s, fin) && fin.pid in s.mutexes
    ensures Listas(Repartido(s, fin), None)
    ensures FinalizarHilo(s, fin) == Desbloquear(Repartido(s, fin), fin)
  {
    MuertoBien(s, fin);
    CederTodosConserva(Muerto(s, fin), fin, 0);
  }

  lemma {:induction false} FinalizarHiloConserva(s: Kernel, id: Id)
    requires Inv(s) && Activo(s, id) && id.pid in s.mutexes
    ensures Inv(FinalizarHilo(s, id))
  {
    var s2 := Repartido(s, id);
    MuertoBien(s, id);
    CederTodosConserva(Muerto(s, id), id, 0);
    NadaSuyo(s2, id);
    DesbloquearListas(s2, id);
    DesbloquearJoins(s2, id);
    DesbloquearMutexes(s2, id);
    assert Desbloquear(s2, id).mutexes == s2.mutexes;
  }

  /** The end of a thread neither adds nor removes processes. */
  lemma {:induction false} MismosProcesos(s: Kernel, id: Id)
    requires Inv(s) && Activo(s, id) && id.pid in s.mutexes
    ensures FinalizarHilo(s, id).mutexes.Keys == s.mutexes.Keys
  {
    MuertoBien(s, id);
    CederTodosConserva(Muerto(s, id), id, 0);
  }

  lemma {:induction false} FinalizarProcesoConserva(s: Kernel, pid: nat, lista: seq<Id>)
    requires Inv(s)
    ensures Inv(FinalizarProceso(s, pid, lista))
    decreases |lista|
  {
    if lista == [] {
    } else {
      if PorTerminar(s, lista[0], pid) {
        FinalizarHiloConserva(s, lista[0]);
        FinalizarProcesoConserva(FinalizarHilo(s, lista[0]), pid, lista[1..]);
      } else {
        FinalizarProcesoConserva(s, pid, lista[1..]);
      }
    }
  }

  // --- The other system calls ---

  lemma {:induction false} MasMutexes(s: Kernel, t: Kernel, pid: nat, recurso: string)
    requires Mutexes(s, None, 0) && pid in s.mutexes && t.tcbs == s.tcbs
    requires t.mutexes == s.mutexes[pid := s.mutexes[pid] + [Mutex(recurso, None, [], [], [])]]
    ensures Mutexes(t, None, 0)
  {
    forall p, j | p in t.mutexes && 0 <= j < |t.mutexes[p]| ensures MutexBien(t, p, t.mutexes[p][j], None) {
      if p != pid || j < |s.mutexes[p]| {
        assert MutexBien(s, p, s.mutexes[p][j], None);
        MutexBienQueda(s, t, p, t.mutexes[p][j], None);
      }
    }
  }

  lemma {:induction false} UnoMasDistintos(ms: seq<Mutex>, recurso: string)
    requires Distintos(ms)
    ensures Distintos(ms + [Mutex(recurso, None, [], [], [])])
  {
  }

  lemma {:induction false} CrearMutexConserva(s: Kernel, id: Id, recurso: string)
    requires Inv(s) && Corre(s, id) && id.pid in s.mutexes
    ensures Inv(CrearMutex(s, id, recurso))
  {
    var s1, t := APonerReady(SacarExec(s, id), id), CrearMutex(s, id, recurso);
    SigueConserva(s, id);
    MismasListas(s1, t, None);
    forall x | x in t.tcbs ensures JoinBien(t, x, None) {
      assert JoinBien(s1, x, None);
    }
    MasMutexes(s1, t, id.pid, recurso);
    assert Distintos(s1.mutexes[id.pid]);
    UnoMasDistintos(s1.mutexes[id.pid], recurso);
    forall p | p in t.mutexes ensures Distintos(t.mutexes[p]) {
      assert Distintos(s1.mutexes[p]);
    }
  }

  lemma {:induction false} JoinConserva(v: Variante, s: Kernel, id: Id, otro: nat)
    requires Inv(s) && Corre(s, id)
    ensures Inv(Join(v, s, id, otro))
  {
    var destino := Id(id.pid, otro);
    if destino !in s.tcbs || s.tcbs[destino].estado == Exit {
      SigueConserva(s, id);
    } else {
      BloquearConserva(s, id, Some(if v.Reparada? then otro else id.tid));
    }
  }

  lemma {:induction false} IoConserva(s: Kernel, id: Id)
    requires Inv(s) && Corre(s, id)
    ensures Inv(Io(s, id))
  {
    var por := s.tcbs[id].bloqueadoPor;
    var t := APonerBlocked(SacarExec(s, id), id, por);
    QuienCorre(s, id);
    BloquearConserva(s, id, por);
    var u := APonerReady(SacarBlocked(t, id), id);
    SacarBlockedListas(t, id);
    APonerReadyListas(SacarBlocked(t, id), id);
    CambioJoins(t, u, id, None, None);
    CambioMutexes(t, u, id, None, 0);
  }

  lemma {:induction false} DumpConserva(s: Kernel, id: Id)
    requires Inv(s) && Corre(s, id)
    ensures Inv(Dump(s, id))
  {
    QuienCorre(s, id);
    BloquearConserva(s, id, s.tcbs[id].bloqueadoPor);
  }

  lemma {:induction false} AdmitirConserva(s: Kernel, id: Id, prioridad: int)
    requires Inv(s) && id !in s.tcbs && id.pid in s.mutexes
    ensures Inv(Admitir(s, id, prioridad))
  {
    var t := Admitir(s, id, prioridad);
    AdmitirListas(s, id, prioridad);
    CambioJoins(s, t, id, None, None);
    QuienNoEspera(s, id, None, 0);
    CambioMutexes(s, t, id, None, 0);
  }

  lemma {:induction false} DespacharConserva(s: Kernel, fifo: bool)
    requires Inv(s) && s.ready != []
    ensures s.ready[Proximo(s, fifo)] in s.tcbs && s.tcbs[s.ready[Proximo(s, fifo)]].estado == Ready
    ensures Inv(Despachar(s, fifo))
  {
    var id := s.ready[Proximo(s, fifo)];
    EstaSii(s.ready, id);
    assert UnaSola(s, id, None);
    var t := Despachar(s, fifo);
    assert JoinBien(s, id, None);
    DespacharListas(s, fifo);
    CambioJoins(s, t, id, None, None);
    QuienNoEspera(s, id, None, 0);
    CambioMutexes(s, t, id, None, 0);
  }

  lemma {:induction false} NuevoProcesoConserva(s: Kernel, pid: nat)
    requires Inv(s) && pid !in s.mutexes
    ensures Inv(NuevoProceso(s, pid))
  {
    var t := NuevoProceso(s, pid);
    MismasListas(s, t, None);
    forall x | x in t.tcbs ensures JoinBien(t, x, None) {
      assert JoinBien(s, x, None);
    }
    forall p, j | p in t.mutexes && 0 <= j < |t.mutexes[p]| ensures MutexBien(t, p, t.mutexes[p][j], None) {
      assert MutexBien(s, p, s.mutexes[p][j], None);
      MutexBienQueda(s, t, p, t.mutexes[p][j], None);
    }
    forall p | p in t.mutexes ensures Distintos(t.mutexes[p]) {
      assert p != pid ==> Distintos(s.mutexes[p]);
    }
  }

  // --- Runs ---

  /** What can happen: a process or a thread is admitted, the short-term scheduler dispatches, or
      an executing thread makes a system call. `Sigue` is any call that leaves its caller
      runnable; `Acaba` is PROCESS_EXIT, with `lista_tcbs` in its order. */
  datatype Evento =
    | Proceso(pid: nat)
    | Hilo(id: Id, prioridad: int)
    | Despacha(fifo: bool)
    | Sigue(id: Id)
    | Une(id: Id, otro: nat)
    | Toma(id: Id, recurso: string)
    | Suelta(id: Id, recurso: string)
    | CreaMutex(id: Id, recurso: string)
    | Sale(id: Id)
    | Acaba(id: Id, lista: seq<Id>)
    | Cancela(id: Id, otro: nat)
    | Dispositivo(id: Id)
    | Vuelca(id: Id)

  /** The kernel gets past a mutex call only if the mutex exists. */
  predicate Existe(s: Kernel, id: Id, recurso: string) {
    id.pid in s.mutexes && BuscarMutex(s.mutexes[id.pid], recurso, 0) < |s.mutexes[id.pid]|
  }

  predicate Puede(s: Kernel, e: Evento) {
    match e
    case Proceso(pid) => pid !in s.mutexes
    case Hilo(id, _) => id !in s.tcbs && id.pid in s.mutexes
    case Despacha(fifo) => s.ready != [] && s.ready[Proximo(s, fifo)] in s.tcbs
    case Toma(id, r) => Corre(s, id) && Existe(s, id, r)
    case Suelta(id, r) => Corre(s, id) && Existe(s, id, r)
    case CreaMutex(id, _) => Corre(s, id) && id.pid in s.mutexes
    case Sale(id) => Corre(s, id) && id.pid in s.mutexes
    case Acaba(id, lista) => Corre(s, id) && id.tid == 0 && (forall x :: x in s.tcbs ==> x in lista)
    case Cancela(id, _) => Corre(s, id) && id.pid in s.mutexes
    case _ => Corre(s, e.id)
  }

  function Paso(s: Kernel, e: Evento): Kernel
    requires Puede(s, e)
  {
    match e
    case Proceso(pid) => NuevoProceso(s, pid)
    case Hilo(id, prioridad) => Admitir(s, id, prioridad)
    case Despacha(fifo) => Despachar(s, fifo)
    case Sigue(id) => APonerReady(SacarExec(s, id), id)
    case Une(id, otro) => Join(Reparada, s, id, otro)
    case Toma(id, r) => Lock(s, id, r)
    case Suelta(id, r) => Unlock(Reparada, s, id, r)
    case CreaMutex(id, r) => CrearMutex(s, id, r)
    case Sale(id) => FinalizarHilo(s, id)
    case Acaba(id, lista) => FinalizarProceso(s, id.pid, lista)
    case Cancela(id, otro) => Cancel(s, id, otro)
    case Dispositivo(id) => Io(s, id)
    case Vuelca(id) => Dump(s, id)
  }

  /** A run; an event that cannot happen is passed over. */
  function Correr(s: Kernel, es: seq<Evento>): Kernel
    decreases |es|
  {
    if es == [] then s
    else Correr(if Puede(s, es[0]) then Paso(s, es[0]) else s, es[1..])
  }

  const INICIAL := Kernel(map[], [], [], [], [], map[])

  lemma {:induction false} PasoConserva(s: Kernel, e: Evento)
    requires Inv(s) && Puede(s, e)
    ensures Inv(Paso(s, e))
  {
    match e
    case Proceso(pid) => NuevoProcesoConserva(s, pid);
    case Hilo(id, prioridad) => AdmitirConserva(s, id, prioridad);
    case Despacha(fifo) => DespacharConserva(s, fifo);
    case Sigue(id) => SigueConserva(s, id);
    case Une(id, otro) => JoinConserva(Reparada, s, id, otro);
    case Toma(id, r) => LockConserva(s, id, r);
    case Suelta(id, r) => UnlockConserva(s, id, r);
    case CreaMutex(id, r) => CrearMutexConserva(s, id, r);
    case Sale(id) => FinalizarHiloConserva(s, id);
    case Acaba(id, lista) => FinalizarProcesoConserva(s, id.pid, lista);
    case Cancela(id, otro) => FinalizarHiloConserva(s, id);
    case Dispositivo(id) => IoConserva(s, id);
    case Vuelca(id) => DumpConserva(s, id);
  }

  lemma {:induction false} CorrerConserva(s: Kernel, es: seq<Evento>)
    requires Inv(s)
    ensures Inv(Correr(s, es))
    decreases |es|
  {
    if es == [] {
    } else {
      if Puede(s, es[0]) {
        PasoConserva(s, es[0]);
      }
      CorrerConserva(if Puede(s, es[0]) then Paso(s, es[0]) else s, es[1..]);
    }
  }

  lemma {:induction false} InicialBien()
    ensures Inv(INICIAL)
  {
    forall id ensures UnaSola(INICIAL, id, None) {
    }
  }

  /** Over every run, every thread is in exactly the one list its state names, once. */
  lemma {:induction false} UnaSolaSiempre(es: seq<Evento>, id: Id)
    ensures UnaSola(Correr(INICIAL, es), id, None)
  {
    InicialBien();
    CorrerConserva(INICIAL, es);
  }

  /** Over every run, no thread is left blocked on one that has finished. */
  lemma {:induction false} NadieEsperaTerminado(es: seq<Evento>, id: Id)
    ensures var s := Correr(INICIAL, es);
      id in s.tcbs && s.tcbs[id].estado == Blocked && s.tcbs[id].bloqueadoPor.Some? ==>
        var otro := Id(id.pid, s.tcbs[id].bloqueadoPor.value);
        otro in s.tcbs && s.tcbs[otro].estado != Exit
  {
    InicialBien();
    CorrerConserva(INICIAL, es);
    var s := Correr(INICIAL, es);
    assert id in s.tcbs ==> JoinBien(s, id, None);
  }

  /** Over every run, a mutex with threads waiting has a living owner, its grants are its
      requests in order, its waiters are blocked, and no thread waits twice in its process. */
  lemma {:induction false} MutexesEnOrden(es: seq<Evento>, pid: nat, i: nat)
    ensures var s := Correr(INICIAL, es);
      pid in s.mutexes && i < |s.mutexes[pid]| ==>
        MutexBien(s, pid, s.mutexes[pid][i], None) && Distintos(s.mutexes[pid])
  {
    InicialBien();
    CorrerConserva(INICIAL, es);
    var s := Correr(INICIAL, es);
    assert pid in s.mutexes && i < |s.mutexes[pid]| ==> MutexBien(s, pid, s.mutexes[pid][i], None);
  }

  // --- What one call does ---

  /** An unlock changes nothing but its caller exactly when the caller does not own the mutex. */
  lemma {:induction false} UnlockSii(s: Kernel, id: Id, recurso: string)
    requires Inv(s) && Corre(s, id) && Existe(s, id, recurso)
    ensures var m := s.mutexes[id.pid][BuscarMutex(s.mutexes[id.pid], recurso, 0)];
      Unlock(Reparada, s, id, recurso).mutexes == s.mutexes <==> m.dueno != Some(id.tid)
  {
    var i := BuscarMutex(s.mutexes[id.pid], recurso, 0);
    var m, t := s.mutexes[id.pid][i], Unlock(Reparada, s, id, recurso);
    assert MutexBien(s, id.pid, m, None);
    if m.dueno == Some(id.tid) {
      if m.cola != [] {
        assert EsperaMutex(s, Id(id.pid, m.cola[0]));
      }
      assert t.mutexes[id.pid][i].cola != m.cola || t.mutexes[id.pid][i].dueno != m.dueno;
    }
  }

  /** The owner's unlock hands the mutex to the first thread waiting, which becomes ready. */
  lemma {:induction false} UnlockEntrega(s: Kernel, id: Id, recurso: string)
    requires Inv(s) && Corre(s, id) && Existe(s, id, recurso)
    ensures var t, i := Unlock(Reparada, s, id, recurso), BuscarMutex(s.mutexes[id.pid], recurso, 0);
      var m := s.mutexes[id.pid][i];
      m.dueno == Some(id.tid) && m.cola != [] ==>
        var w := Id(id.pid, m.cola[0]);
        && t.mutexes[id.pid][i].dueno == Some(w.tid) && t.mutexes[id.pid][i].cola == m.cola[1..]
        && w in t.tcbs && t.tcbs[w].estado == Ready && t.ready == s.ready + [id] + [w]
  {
    var i := BuscarMutex(s.mutexes[id.pid], recurso, 0);
    var m := s.mutexes[id.pid][i];
    assert MutexBien(s, id.pid, m, None);
    if m.cola != [] {
      assert EsperaMutex(s, Id(id.pid, m.cola[0]));
    }
  }

  lemma {:induction false} NoEstan(donde: seq<nat>, n: nat)
    requires forall k :: 0 <= k < |donde| ==> donde[k] < n
    ensures n !in donde
  {
  }

  /** The last place joins those found, or not. */
  lemma {:induction false} UnLugarMas(antes: seq<nat>, n: nat, esta: bool, i: nat)
    ensures i in antes + (if esta then [n] else []) <==> i in antes || (esta && i == n)
  {
  }

  /** What filtering a list means: the threads that match, all of them, in the order of the list. */
  lemma {:induction false} FiltrarEs(s: Kernel, xs: seq<Id>, fin: Id, esperan: bool) returns (donde: seq<nat>)
    ensures |donde| == |Filtrar(s, xs, fin, esperan)|
    ensures forall k :: 0 <= k < |donde| ==> donde[k] < |xs| && Filtrar(s, xs, fin, esperan)[k] == xs[donde[k]]
    ensures forall j, k :: 0 <= j < k < |donde| ==> donde[j] < donde[k]
    ensures forall i :: 0 <= i < |xs| ==> (i in donde <==> Espera(s, xs[i], fin) == esperan)
  {
    if xs == [] {
      donde := [];
    } else {
      var n := |xs| - 1;
      var esta := Espera(s, xs[n], fin) == esperan;
      var antes := FiltrarEs(s, xs[..n], fin, esperan);
      donde := antes + if esta then [n] else [];
      forall k | 0 <= k < |donde| ensures donde[k] < |xs| && Filtrar(s, xs, fin, esperan)[k] == xs[donde[k]] {
        assert k < |antes| ==> donde[k] == antes[k];
      }
      forall i | 0 <= i < |xs| ensures i in donde <==> Espera(s, xs[i], fin) == esperan {
        UnLugarMas(antes, n, esta, i);
        if i < n {
          assert xs[..n][i] == xs[i];
        } else {
          NoEstan(antes, n);
        }
      }
    }
  }

  // --- The code as it stands ---

  /** As written, an unlock leaves the lists in order exactly when the caller does not own the
      mutex or nobody waits for it. */
  lemma {:induction false} UnlockComoEstaSii(s: Kernel, id: Id, recurso: string)
    requires Inv(s) && Corre(s, id) && Existe(s, id, recurso)
    ensures var m := s.mutexes[id.pid][BuscarMutex(s.mutexes[id.pid], recurso, 0)];
      Listas(Unlock(ComoEsta, s, id, recurso), None) <==> (m.dueno != Some(id.tid) || m.cola == [])
  {
    var i := BuscarMutex(s.mutexes[id.pid], recurso, 0);
    var m := s.mutexes[id.pid][i];
    assert MutexBien(s, id.pid, m, None);
    UnlockConserva(s, id, recurso);
    if m.dueno == Some(id.tid) && m.cola != [] {
      var w, t := Id(id.pid, m.cola[0]), Unlock(ComoEsta, s, id, recurso);
      assert EsperaMutex(s, w) && UnaSola(s, w, None);
      assert t.blocked == s.blocked && t.tcbs[w].estado == Ready;
      assert !UnaSola(t, w, None);
    }
  }

  lemma {:induction false} NoEsperaQueda(ms: seq<Mutex>, i: nat, m: Mutex, tid: nat)
    requires NoEspera(ms, tid) && i < |ms|
    requires m.cola == ms[i].cola || (ms[i].cola != [] && m.cola == ms[i].cola[1..])
    ensures NoEspera(ms[i := m], tid)
  {
  }

  lemma {:induction false} CederDeja(s: Kernel, pid: nat, i: nat, x: Id)
    requires pid in s.mutexes && i < |s.mutexes[pid]| && x in s.tcbs
    requires x.pid == pid ==> NoEspera(s.mutexes[pid], x.tid)
    ensures var t := Ceder(Reparada, s, pid, i);
      x in t.tcbs && t.tcbs[x] == s.tcbs[x] && (x.pid == pid ==> NoEspera(t.mutexes[pid], x.tid))
  {
    var ms, m := s.mutexes[pid], Ceder(Reparada, s, pid, i).mutexes[pid][i];
    assert Ceder(Reparada, s, pid, i).mutexes[pid] == ms[i := m];
    if x.pid == pid {
      NoEsperaQueda(ms, i, m, x.tid);
      assert ms[i].cola != [] ==> ms[i].cola[0] != x.tid;
    }
  }

  lemma {:induction false} SoltarDeja(s: Kernel, pid: nat, tid: nat, i: nat, x: Id)
    requires pid in s.mutexes && i < |s.mutexes[pid]| && x in s.tcbs
    requires x.pid == pid ==> NoEspera(s.mutexes[pid], x.tid)
    ensures var t := Soltar(s, pid, tid, i);
      x in t.tcbs && t.tcbs[x] == s.tcbs[x] && (x.pid == pid ==> NoEspera(t.mutexes[pid], x.tid))
  {
    CederDeja(s, pid, i, x);
  }

  lemma {:induction false} CederTodosDeja(s: Kernel, pid: nat, tid: nat, i: nat, x: Id)
    requires pid in s.mutexes && i <= |s.mutexes[pid]| && x in s.tcbs
    requires x.pid == pid ==> NoEspera(s.mutexes[pid], x.tid)
    ensures var t := CederTodos(s, pid, tid, i);
      x in t.tcbs && t.tcbs[x] == s.tcbs[x] && pid in t.mutexes && (x.pid == pid ==> NoEspera(t.mutexes[pid], x.tid))
    decreases |s.mutexes[pid]| - i
  {
    if i >= |s.mutexes[pid]| {
    } else {
      SoltarDeja(s, pid, tid, i, x);
      CederTodosDeja(Soltar(s, pid, tid, i), pid, tid, i + 1, x);
    }
  }

  lemma {:induction false} RetiradosDejan(ms: seq<Mutex>, otro: nat, tid: nat)
    requires NoEspera(ms, tid)
    ensures NoEspera(Retirados(ms, otro), tid)
  {
    var r := Retirados(ms, otro);
    forall i, a | 0 <= i < |r| && 0 <= a < |r[i].cola| ensures r[i].cola[a] != tid {
      assert r[i].cola[a] in r[i].cola && r[i].cola[a] in ms[i].cola;
    }
  }

  /** A thread that waits for no mutex still waits for none once `fin` has finished, and has not
      changed unless it is `fin`. */
  lemma {:induction false} MuertoDeja(s: Kernel, fin: Id, x: Id)
    requires fin in s.tcbs && fin.pid in s.mutexes && x in s.tcbs
    requires x.pid == fin.pid && x != fin ==> NoEspera(s.mutexes[x.pid], x.tid)
    requires x == fin ==> NoEspera(Retirar(s, fin).mutexes[fin.pid], fin.tid)
    ensures var t := Repartido(s, fin);
      && x in t.tcbs && t.tcbs[x] == Muerto(s, fin).tcbs[x] && (x != fin ==> t.tcbs[x] == s.tcbs[x])
      && fin.pid in t.mutexes && (x.pid == fin.pid ==> NoEspera(t.mutexes[x.pid], x.tid))
  {
    if x.pid == fin.pid && x != fin {
      RetiradosDejan(s.mutexes[x.pid], fin.tid, x.tid);
    }
    CederTodosDeja(Muerto(s, fin), fin.pid, fin.tid, 0, x);
  }

  /** When `fin` finishes, a thread that waits for no mutex changes exactly if it is recorded as
      waiting for `fin`, and then it becomes ready. */
  lemma {:induction false} FinalizarDespierta(s: Kernel, fin: Id, x: Id)
    requires Inv(s) && Activo(s, fin) && fin.pid in s.mutexes
    requires x in s.tcbs && s.tcbs[x].estado == Blocked && x != fin && x.pid in s.mutexes
    requires NoEspera(s.mutexes[x.pid], x.tid)
    ensures var t := FinalizarHilo(s, fin);
      && x in t.tcbs
      && t.tcbs[x] == if Espera(s, x, fin) then s.tcbs[x].(estado := Ready, bloqueadoPor := None) else s.tcbs[x]
  {
    var s2 := Repartido(s, fin);
    RepartidoBien(s, fin);
    MuertoDeja(s, fin, x);
    assert UnaSola(s2, x, None);
    EstaSii(s2.blocked, x);
  }

  /** A join wakes up with the end of the thread it names, whatever that was doing, only once
      repaired: as written, no other thread's end ever makes the caller ready again. */
  lemma {:induction false} JoinDespiertaSii(v: Variante, s: Kernel, id: Id, otro: nat, fin: Id)
    requires Inv(s) && Corre(s, id) && Vivo(s, Id(id.pid, otro), None)
    requires Activo(Join(v, s, id, otro), fin) && fin != id && fin.pid in s.mutexes
    ensures var t := FinalizarHilo(Join(v, s, id, otro), fin);
      id in t.tcbs && (t.tcbs[id].estado == Ready <==> (v.Reparada? && fin == Id(id.pid, otro)))
  {
    QuienCorre(s, id);
    BloquearConserva(s, id, Some(if v.Reparada? then otro else id.tid));
    FinalizarDespierta(Join(v, s, id, otro), fin, id);
  }

  /** Passing mutexes on finishes nobody. */
  lemma {:induction false} CederTodosVivos(s: Kernel, pid: nat, tid: nat, i: nat, x: Id)
    requires pid in s.mutexes && i <= |s.mutexes[pid]| && x in s.tcbs && s.tcbs[x].estado != Exit
    ensures var t := CederTodos(s, pid, tid, i); x in t.tcbs && t.tcbs[x].estado != Exit
    decreases |s.mutexes[pid]| - i
  {
    if i >= |s.mutexes[pid]| {
    } else {
      var t := Soltar(s, pid, tid, i);
      assert x in t.tcbs && t.tcbs[x].estado != Exit;
      CederTodosVivos(t, pid, tid, i + 1, x);
    }
  }

  /** When `fin` finishes, the finished threads are those from before and `fin`. */
  lemma {:induction false} FinalizarSolo(s: Kernel, fin: Id, x: Id)
    requires Inv(s) && Activo(s, fin) && fin.pid in s.mutexes && x in s.tcbs
    ensures var t := FinalizarHilo(s, fin);
      x in t.tcbs && (t.tcbs[x].estado == Exit <==> (x == fin || s.tcbs[x].estado == Exit))
  {
    var s1 := Muerto(s, fin);
    RepartidoBien(s, fin);
    if s1.tcbs[x].estado == Exit {
      assert Procesos(s);
      if x == fin {
        RetirarConserva(s, fin);
      } else {
        QuienNoEspera(s, x, None, 0);
      }
      MuertoDeja(s, fin, x);
      assert UnaSola(Repartido(s, fin), x, None);
      EstaSii(Repartido(s, fin).blocked, x);
    } else {
      CederTodosVivos(s1, fin.pid, fin.tid, 0, x);
    }
  }

  /** As written, a cancel finishes its caller, and its target only if that is the caller or had
      already finished. */
  lemma {:induction false} CancelSii(s: Kernel, id: Id, otro: nat)
    requires Inv(s) && Corre(s, id) && id.pid in s.mutexes && Id(id.pid, otro) in s.tcbs
    ensures var t := Cancel(s, id, otro);
      && id in t.tcbs && t.tcbs[id].estado == Exit
      && Id(id.pid, otro) in t.tcbs
      && (t.tcbs[Id(id.pid, otro)].estado == Exit <==> (otro == id.tid || s.tcbs[Id(id.pid, otro)].estado == Exit))
  {
    FinalizarSolo(s, id, id);
    FinalizarSolo(s, id, Id(id.pid, otro));
  }

  // --- Dispatch order ---

  /** The ready list with its priorities. */
  function Listos(s: Kernel): (ls: seq<Listo<Id>>)
    requires forall i :: 0 <= i < |s.ready| ==> s.ready[i] in s.tcbs
    ensures |ls| == |s.ready|
  {
    seq(|s.ready|, i requires 0 <= i < |s.ready| => Listo(s.ready[i], s.tcbs[s.ready[i]].prioridad))
  }

  function Quienes(ls: seq<Listo<Id>>): (ids: seq<Id>)
    ensures |ids| == |ls|
  {
    seq(|ls|, i requires 0 <= i < |ls| => ls[i].quien)
  }

  /** Dispatches until nobody is ready. */
  function DespacharTodos(s: Kernel, fifo: bool): Kernel
    requires forall i :: 0 <= i < |s.ready| ==> s.ready[i] in s.tcbs
    decreases |s.ready|
  {
    if s.ready == [] then s else DespacharTodos(Despachar(s, fifo), fifo)
  }

  lemma {:induction false} DespacharResto(s: Kernel)
    requires s.ready != [] && forall i :: 0 <= i < |s.ready| ==> s.ready[i] in s.tcbs
    ensures forall i :: 0 <= i < |Despachar(s, false).ready| ==> Despachar(s, false).ready[i] in s.tcbs
    ensures var i := Menor(Planificador.Prioridades(Listos(s)), |s.ready|);
      && Proximo(s, false) == i
      && Listos(Despachar(s, false)) == Listos(s)[..i] + Listos(s)[i + 1..]
  {
    assert Planificador.Prioridades(Listos(s)) == Threads.Prioridades(s);
  }

  lemma {:induction false} EnCadena(corren: seq<Id>, x: Id, resto: seq<Id>, todos: seq<Id>)
    requires todos == [x] + resto
    ensures (corren + [x]) + resto == corren + todos
  {
  }

  lemma {:induction false} VaciarPrimero(ls: seq<Listo<Id>>)
    requires ls != []
    ensures var i := Menor(Planificador.Prioridades(ls), |ls|);
      Quienes(Vaciar(ls)) == [ls[i].quien] + Quienes(Vaciar(ls[..i] + ls[i + 1..]))
  {
  }

  /** Dispatching by priority until nobody is ready runs the threads in the order of the stable
      sort of the ready list by priority. */
  lemma {:induction false} DespacharOrdena(s: Kernel)
    requires forall i :: 0 <= i < |s.ready| ==> s.ready[i] in s.tcbs
    ensures DespacharTodos(s, false).ready == []
    ensures DespacharTodos(s, false).exec == s.exec + Quienes(Vaciar(Listos(s)))
    decreases |s.ready|
  {
    if s.ready == [] {
      assert Quienes(Vaciar(Listos(s))) == [];
    } else {
      var id := s.ready[Proximo(s, false)];
      var t := Despachar(s, false);
      DespacharResto(s);
      DespacharOrdena(t);
      VaciarPrimero(Listos(s));
      EnCadena(s.exec, id, Quienes(Vaciar(Listos(t))), Quienes(Vaciar(Listos(s))));
    }
  }

  lemma {:induction false} DespacharPrimero(s: Kernel)
    requires s.ready != [] && forall i :: 0 <= i < |s.ready| ==> s.ready[i] in s.tcbs
    ensures var t := Despachar(s, true);
      && t.ready == s.ready[1..] && t.exec == s.exec + [s.ready[0]]
      && forall i :: 0 <= i < |t.ready| ==> t.ready[i] in t.tcbs
  {
  }

  /** Dispatching first come, first served runs them in the order of the ready list. */
  lemma {:induction false} DespacharEnOrden(s: Kernel)
    requires forall i :: 0 <= i < |s.ready| ==> s.ready[i] in s.tcbs
    ensures DespacharTodos(s, true).ready == []
    ensures DespacharTodos(s, true).exec == s.exec + s.ready
    decreases |s.ready|
  {
    if s.ready == [] {
    } else {
      DespacharPrimero(s);
      DespacharEnOrden(Despachar(s, true));
      EnCadena(s.exec, s.ready[0], s.ready[1..], s.ready);
    }
  }
}
