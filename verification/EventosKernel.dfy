/** What the end of a thread does to the others and to the mutexes, and what each event of a run of the
    kernel does. */
module EventosKernel {
  import opened Comun
  import opened Efectos
  import opened Threads
  import opened ThreadsInv
  import R = ThreadsRun

  // --- The mutexes at the end of a thread ---

  /** A mutex once thread `tid` is gone: its requests are withdrawn, and if it was the owner the first
      thread waiting is the owner now, or nobody. */
  function Heredado(m: Mutex, tid: nat): Mutex {
    var n := Retirado(m, tid);
    if m.dueno != Some(tid) then n
    else if n.cola == [] then n.(dueno := None)
    else n.(dueno := Some(n.cola[0]), cola := n.cola[1..], otorgados := n.otorgados + [n.cola[0]])
  }

  predicate ColasVivas(s: Kernel, pid: nat) {
    pid in s.mutexes && forall i, a :: 0 <= i < |s.mutexes[pid]| && 0 <= a < |s.mutexes[pid][i].cola| ==>
      Id(pid, s.mutexes[pid][i].cola[a]) in s.tcbs
  }

  /** What passing one mutex on leaves of it. */
  function Cedido(m: Mutex, tid: nat): Mutex {
    if m.dueno != Some(tid) then m
    else if m.cola == [] then m.(dueno := None)
    else m.(dueno := Some(m.cola[0]), cola := m.cola[1..], otorgados := m.otorgados + [m.cola[0]])
  }

  lemma {:induction false} SoltarEs(s: Kernel, pid: nat, tid: nat, i: nat)
    requires ColasVivas(s, pid) && i < |s.mutexes[pid]|
    ensures var t := Soltar(s, pid, tid, i);
      && ColasVivas(t, pid) && t.mutexes == s.mutexes[pid := s.mutexes[pid][i := Cedido(s.mutexes[pid][i], tid)]]
  {
    var m, t := s.mutexes[pid][i], Soltar(s, pid, tid, i);
    if m.dueno == Some(tid) && m.cola != [] {
      assert Id(pid, m.cola[0]) in s.tcbs;
    }
    assert s.mutexes[pid][i := m] == s.mutexes[pid];
    forall j, a | 0 <= j < |t.mutexes[pid]| && 0 <= a < |t.mutexes[pid][j].cola|
      ensures Id(pid, t.mutexes[pid][j].cola[a]) in t.tcbs
    {
      var b := if j == i && |t.mutexes[pid][j].cola| < |m.cola| then a + 1 else a;
      assert t.mutexes[pid][j].cola[a] == s.mutexes[pid][j].cola[b];
    }
  }

  lemma {:induction false} CederTodosEs(s: Kernel, pid: nat, tid: nat, i: nat, j: nat)
    requires ColasVivas(s, pid) && i <= |s.mutexes[pid]| && j < |s.mutexes[pid]|
    ensures var t := CederTodos(s, pid, tid, i);
      && pid in t.mutexes && |t.mutexes[pid]| == |s.mutexes[pid]|
      && t.mutexes[pid][j] == if j < i then s.mutexes[pid][j] else Cedido(s.mutexes[pid][j], tid)
    decreases |s.mutexes[pid]| - i
  {
    if i == |s.mutexes[pid]| {
    } else {
      SoltarEs(s, pid, tid, i);
      CederTodosEs(Soltar(s, pid, tid, i), pid, tid, i + 1, j);
    }
  }

  lemma {:induction false} MuertoVivas(s: Kernel, fin: Id)
    requires Inv(s) && Activo(s, fin) && fin.pid in s.mutexes
    ensures ColasVivas(Muerto(s, fin), fin.pid)
  {
    var u := Muerto(s, fin);
    forall i, a | 0 <= i < |u.mutexes[fin.pid]| && 0 <= a < |u.mutexes[fin.pid][i].cola|
      ensures Id(fin.pid, u.mutexes[fin.pid][i].cola[a]) in u.tcbs
    {
      var m := s.mutexes[fin.pid][i];
      assert MutexBien(s, fin.pid, m, None) && u.mutexes[fin.pid][i].cola[a] in m.cola;
      var b :| 0 <= b < |m.cola| && m.cola[b] == u.mutexes[fin.pid][i].cola[a];
      assert EsperaMutex(s, Id(fin.pid, m.cola[b]));
    }
  }

  /** When a thread finishes, every mutex of its process is as `Heredado` says. */
  lemma {:induction false} FinalizarMutexes(s: Kernel, id: Id, j: nat)
    requires Inv(s) && Activo(s, id) && id.pid in s.mutexes && j < |s.mutexes[id.pid]|
    ensures var t := FinalizarHilo(s, id);
      && id.pid in t.mutexes && |t.mutexes[id.pid]| == |s.mutexes[id.pid]|
      && t.mutexes[id.pid][j] == Heredado(s.mutexes[id.pid][j], id.tid)
  {
    MuertoVivas(s, id);
    CederTodosEs(Muerto(s, id), id.pid, id.tid, 0, j);
  }

  // --- The threads at the end of a thread ---

  /** Thread `x` is first in the queue of one of the mutexes, from the `i`-th on, that `tid` owns. */
  predicate Hereda(ms: seq<Mutex>, pid: nat, tid: nat, i: nat, x: Id) {
    exists j :: i <= j < |ms| && ms[j].dueno == Some(tid) && ms[j].cola != [] && x == Id(pid, ms[j].cola[0])
  }

  lemma {:induction false} SoltarHilos(s: Kernel, pid: nat, tid: nat, i: nat, x: Id)
    requires ColasVivas(s, pid) && i < |s.mutexes[pid]| && x in s.tcbs
    ensures var t, m := Soltar(s, pid, tid, i), s.mutexes[pid][i];
      && t.tcbs.Keys == s.tcbs.Keys
      && t.tcbs[x] == if m.dueno == Some(tid) && m.cola != [] && x == Id(pid, m.cola[0])
                      then s.tcbs[x].(estado := Ready) else s.tcbs[x]
  {
    var m := s.mutexes[pid][i];
    if m.cola != [] {
      assert Id(pid, m.cola[0]) in s.tcbs;
    }
  }

  lemma {:induction false} CederTodosHilos(s: Kernel, pid: nat, tid: nat, i: nat, x: Id)
    requires ColasVivas(s, pid) && i <= |s.mutexes[pid]| && x in s.tcbs
    ensures var t := CederTodos(s, pid, tid, i);
      && t.tcbs.Keys == s.tcbs.Keys
      && t.tcbs[x] == if Hereda(s.mutexes[pid], pid, tid, i, x) then s.tcbs[x].(estado := Ready) else s.tcbs[x]
    decreases |s.mutexes[pid]| - i
  {
    if i == |s.mutexes[pid]| {
    } else {
      var t := Soltar(s, pid, tid, i);
      SoltarEs(s, pid, tid, i);
      SoltarHilos(s, pid, tid, i, x);
      CederTodosHilos(t, pid, tid, i + 1, x);
      assert Hereda(s.mutexes[pid], pid, tid, i + 1, x) <==> Hereda(t.mutexes[pid], pid, tid, i + 1, x) by {
        assert forall j :: i + 1 <= j < |s.mutexes[pid]| ==> t.mutexes[pid][j] == s.mutexes[pid][j];
      }
    }
  }

  /** A control block once thread `fin` has finished: that of `fin` says so, whoever inherits a mutex or
      had joined `fin` is ready, and every other is as it was. */
  function TcbTras(s: Kernel, fin: Id, x: Id): Tcb
    requires x in s.tcbs && fin.pid in s.mutexes
  {
    var b := s.tcbs[x];
    if x == fin then b.(estado := Exit)
    else if Hereda(Retirados(s.mutexes[fin.pid], fin.tid), fin.pid, fin.tid, 0, x) then b.(estado := Ready)
    else if b.estado == Blocked && Espera(s, x, fin) then b.(estado := Ready, bloqueadoPor := None)
    else b
  }

  /** Whoever is first in a queue of the process that ends is waiting for that mutex. */
  lemma {:induction false} HerederoEspera(s: Kernel, fin: Id, x: Id)
    requires Bien(s, Some(fin), 0) && fin.pid in s.mutexes && Hereda(s.mutexes[fin.pid], fin.pid, fin.tid, 0, x)
    ensures EsperaMutex(s, x)
  {
    var ms := s.mutexes[fin.pid];
    var j :| 0 <= j < |ms| && ms[j].dueno == Some(fin.tid) && ms[j].cola != [] && x == Id(fin.pid, ms[j].cola[0]);
    assert MutexBien(s, fin.pid, ms[j], Some(fin));
  }

  lemma {:induction false} FinalizarHilos(s: Kernel, fin: Id, x: Id)
    requires Inv(s) && Activo(s, fin) && fin.pid in s.mutexes && x in s.tcbs
    ensures var t := FinalizarHilo(s, fin); t.tcbs.Keys == s.tcbs.Keys && t.tcbs[x] == TcbTras(s, fin, x)
  {
    hide CederTodos, Bien, Hereda, Filtrar;
    var u, v := Muerto(s, fin), Repartido(s, fin);
    MuertoBien(s, fin);
    MuertoVivas(s, fin);
    CederTodosHilos(u, fin.pid, fin.tid, 0, x);
    RepartidoBien(s, fin);
    assert UnaSola(v, x, None);
    EstaSii(v.blocked, x);
    if Hereda(u.mutexes[fin.pid], fin.pid, fin.tid, 0, x) {
      HerederoEspera(u, fin, x);
    }
  }

  lemma {:induction false} CederTodosListas(s: Kernel, pid: nat, tid: nat, i: nat)
    requires pid in s.mutexes && i <= |s.mutexes[pid]|
    ensures var t := CederTodos(s, pid, tid, i); s.ready <= t.ready && t.exec == s.exec && t.exit == s.exit
    decreases |s.mutexes[pid]| - i
  {
    if i == |s.mutexes[pid]| {
    } else {
      CederTodosListas(Soltar(s, pid, tid, i), pid, tid, i + 1);
    }
  }

  /** Thread `fin` has finished, last of the list; those that were ready and executing keep their places,
      and the rest is as `TcbTras` and `Heredado` say. */
  ghost predicate Finado(s: Kernel, t: Kernel, fin: Id) {
    && fin.pid in s.mutexes && t.tcbs.Keys == s.tcbs.Keys && t.mutexes.Keys == s.mutexes.Keys
    && (forall x :: x in s.tcbs ==> t.tcbs[x] == TcbTras(s, fin, x))
    && t.exit == s.exit + [fin] && Quitar(s.ready, fin) <= t.ready && t.exec == Quitar(s.exec, fin)
    && |t.mutexes[fin.pid]| == |s.mutexes[fin.pid]|
    && (forall j :: 0 <= j < |s.mutexes[fin.pid]| ==>
          t.mutexes[fin.pid][j] == Heredado(s.mutexes[fin.pid][j], fin.tid))
    && (forall p :: p in s.mutexes && p != fin.pid ==> t.mutexes[p] == s.mutexes[p])
  }

  lemma {:induction false} QuitarAjeno(xs: seq<Id>, x: Id)
    requires x !in xs
    ensures Quitar(xs, x) == xs
  {
    if xs == [] {
    } else {
      QuitarAjeno(xs[1..], x);
    }
  }

  lemma {:induction false} FinalizarListas(s: Kernel, fin: Id)
    requires Inv(s) && Activo(s, fin) && fin.pid in s.mutexes
    ensures var t := FinalizarHilo(s, fin);
      t.exit == s.exit + [fin] && Quitar(s.ready, fin) <= t.ready && t.exec == Quitar(s.exec, fin)
  {
    assert UnaSola(s, fin, None);
    EstaSii(s.ready, fin);
    EstaSii(s.exec, fin);
    if s.tcbs[fin].estado != Ready {
      QuitarAjeno(s.ready, fin);
    }
    if s.tcbs[fin].estado != Exec {
      QuitarAjeno(s.exec, fin);
    }
    CederTodosListas(Muerto(s, fin), fin.pid, fin.tid, 0);
  }

  /** As many mutexes as before. */
  lemma {:induction false} MismosMutexes(s: Kernel, fin: Id)
    requires Inv(s) && Activo(s, fin) && fin.pid in s.mutexes
    ensures var t := FinalizarHilo(s, fin);
      t.mutexes.Keys == s.mutexes.Keys && |t.mutexes[fin.pid]| == |s.mutexes[fin.pid]|
  {
    MismosProcesos(s, fin);
    if s.mutexes[fin.pid] != [] {
      FinalizarMutexes(s, fin, 0);
    } else {
      assert Muerto(s, fin).mutexes[fin.pid] == [];
    }
  }

  /** The end of a thread, ready, executing or blocked. */
  lemma {:induction false} FinalizarEs(s: Kernel, fin: Id)
    requires Inv(s) && Activo(s, fin) && fin.pid in s.mutexes
    ensures Finado(s, FinalizarHilo(s, fin), fin)
  {
    hide CederTodos, FinalizarHilo, TcbTras, Heredado, Inv;
    MismosMutexes(s, fin);
    FinalizarListas(s, fin);
    FinalizarHilos(s, fin, fin);
    forall x | x in s.tcbs ensures FinalizarHilo(s, fin).tcbs[x] == TcbTras(s, fin, x) {
      FinalizarHilos(s, fin, x);
    }
    forall j | 0 <= j < |s.mutexes[fin.pid]|
      ensures FinalizarHilo(s, fin).mutexes[fin.pid][j] == Heredado(s.mutexes[fin.pid][j], fin.tid)
    {
      FinalizarMutexes(s, fin, j);
    }
    forall p | p in s.mutexes && p != fin.pid ensures FinalizarHilo(s, fin).mutexes[p] == s.mutexes[p] {
      R.FinalizarAjeno(s, fin, p);
    }
  }

  // --- Events ---

  /** Every thread of the process has finished; threads and mutexes of the others are as they were. */
  ghost predicate ProcesoFinado(s: Kernel, t: Kernel, pid: nat) {
    && t.tcbs.Keys >= s.tcbs.Keys && t.mutexes.Keys >= s.mutexes.Keys
    && (forall x :: x in s.tcbs ==> if x.pid == pid then t.tcbs[x].estado == Exit else t.tcbs[x] == s.tcbs[x])
    && (forall p :: p in s.mutexes && p != pid ==> t.mutexes[p] == s.mutexes[p])
  }

  /** What each event of a run leaves. */
  ghost predicate Hecho(s: Kernel, t: Kernel, e: Evento) {
    match e
    case Proceso(pid) => t.mutexes == s.mutexes[pid := []] && t == s.(mutexes := t.mutexes)
    case Hilo(id, prioridad) => Nacido(s, t, id, prioridad)
    case Despacha(fifo) => s.ready != [] && Despachado(s, t, Proximo(s, fifo))
    case Sigue(id) => VuelveAReady(s, t, id) && t.mutexes == s.mutexes
    case Une(id, otro) => Unido(Reparada, s, t, id, otro)
    case Toma(id, r) => MutexPedido(s, t, id, r)
    case Suelta(id, r) => MutexDevuelto(Reparada, s, t, id, r)
    case CreaMutex(id, r) => MutexCreado(s, t, id, r)
    case Sale(id) => Finado(s, t, id)
    case Acaba(id, _) => ProcesoFinado(s, t, id.pid)
    case Cancela(id, _) => Finado(s, t, id)
    case Dispositivo(id) => VuelveAReady(s, t, id) && t.mutexes == s.mutexes
    case Vuelca(id) => id in s.tcbs && SeBloquea(s, t, id, s.tcbs[id].bloqueadoPor) && t.mutexes == s.mutexes
  }

  /** The end of a process, over a list of all threads in any order. */
  lemma {:induction false} ProcesoEs(s: Kernel, pid: nat, lista: seq<Id>)
    requires Inv(s) && forall x :: x in s.tcbs ==> x in lista
    ensures ProcesoFinado(s, FinalizarProceso(s, pid, lista), pid)
  {
    hide FinalizarProceso, Inv;
    var t := FinalizarProceso(s, pid, lista);
    forall x | x in s.tcbs
      ensures x in t.tcbs && if x.pid == pid then t.tcbs[x].estado == Exit else t.tcbs[x] == s.tcbs[x]
    {
      R.ProcesoExit(s, pid, lista, x);
      if x.pid != pid {
        R.ProcesoAjeno(s, pid, lista, x.pid);
      }
    }
    R.ProcesoAjeno(s, pid, lista, pid + 1);
    forall p | p in s.mutexes && p != pid ensures p in t.mutexes && t.mutexes[p] == s.mutexes[p] {
      R.ProcesoAjeno(s, pid, lista, p);
    }
  }

  lemma {:induction false} PasoEs(s: Kernel, e: Evento)
    requires Inv(s) && Puede(s, e)
    ensures Hecho(s, Paso(s, e), e)
  {
    hide Inv, Io, Dump, Join, Lock, Unlock, CrearMutex, FinalizarHilo, FinalizarProceso, Despachar, Finado;
    hide Unido, MutexPedido, MutexDevuelto, MutexCreado, ProcesoFinado, Despachado, VuelveAReady, SeBloquea;
    match e
    case Proceso(_) =>
    case Hilo(_, _) =>
    case Despacha(fifo) => DespacharEs(s, fifo);
    case Sigue(id) => SigueEs(s, id);
    case Une(id, otro) => JoinEs(Reparada, s, id, otro);
    case Toma(id, r) => LockEs(s, id, r);
    case Suelta(id, r) => UnlockEs(Reparada, s, id, r);
    case CreaMutex(id, r) => CrearMutexEs(s, id, r);
    case Sale(id) => FinalizarEs(s, id);
    case Acaba(id, lista) => ProcesoEs(s, id.pid, lista);
    case Cancela(id, _) => FinalizarEs(s, id);
    case Dispositivo(id) => IoEs(s, id);
    case Vuelca(id) => DumpEs(s, id);
  }

  /** The state that a run reaches from `s`, told by its events alone: one that can happen is done, and
      any other passed over. */
  ghost predicate Alcanza(s: Kernel, es: seq<Evento>, t: Kernel)
    decreases |es|
  {
    if es == [] then t == s
    else
      exists u ::
        (if Puede(s, es[0]) then Hecho(s, u, es[0]) && Inv(u) else u == s) && Alcanza(u, es[1..], t)
  }

  /** Every run does what its events say, one after the other. */
  lemma {:induction false} CorrerEs(s: Kernel, es: seq<Evento>)
    requires Inv(s)
    ensures Alcanza(s, es, Correr(s, es))
    decreases |es|
  {
    hide Inv, Paso, Puede, Hecho;
    if es == [] {
    } else {
      var u := if Puede(s, es[0]) then Paso(s, es[0]) else s;
      if Puede(s, es[0]) {
        PasoConserva(s, es[0]);
        PasoEs(s, es[0]);
      }
      CorrerEs(u, es[1..]);
    }
  }
}
