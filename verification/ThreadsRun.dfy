/** What a call means for its caller over the rest of the run: how long a join waits, in what
    order a mutex is granted, and what the end of a process leaves. */
module ThreadsRun {
  import opened Comun
  import opened Threads
  import opened ThreadsInv

  predicate Terminado(s: Kernel, x: Id) {
    x in s.tcbs && s.tcbs[x].estado == Exit
  }

  // --- Other processes ---

  lemma {:induction false} CederAjeno(s: Kernel, pid: nat, i: nat, otro: nat)
    requires pid in s.mutexes && i < |s.mutexes[pid]| && otro != pid
    ensures var t := Ceder(Reparada, s, pid, i);
      && t.mutexes.Keys == s.mutexes.Keys && (otro in s.mutexes ==> t.mutexes[otro] == s.mutexes[otro])
      && forall x: Id :: x.pid == otro && x in s.tcbs ==> x in t.tcbs && t.tcbs[x] == s.tcbs[x]
  {
  }

  lemma {:induction false} CederTodosAjeno(s: Kernel, pid: nat, tid: nat, i: nat, otro: nat)
    requires pid in s.mutexes && i <= |s.mutexes[pid]| && otro != pid
    ensures var t := CederTodos(s, pid, tid, i);
      && t.mutexes.Keys == s.mutexes.Keys && (otro in s.mutexes ==> t.mutexes[otro] == s.mutexes[otro])
      && forall x: Id :: x.pid == otro && x in s.tcbs ==> x in t.tcbs && t.tcbs[x] == s.tcbs[x]
    decreases |s.mutexes[pid]| - i
  {
    if i >= |s.mutexes[pid]| {
    } else {
      CederAjeno(s, pid, i, otro);
      CederTodosAjeno(Soltar(s, pid, tid, i), pid, tid, i + 1, otro);
    }
  }

  /** The end of a thread changes no thread and no mutex of another process. */
  lemma {:induction false} FinalizarAjeno(s: Kernel, fin: Id, otro: nat)
    requires fin in s.tcbs && fin.pid in s.mutexes && otro != fin.pid
    ensures var t := FinalizarHilo(s, fin);
      && t.mutexes.Keys == s.mutexes.Keys && (otro in s.mutexes ==> t.mutexes[otro] == s.mutexes[otro])
      && forall x: Id :: x.pid == otro && x in s.tcbs ==> x in t.tcbs && t.tcbs[x] == s.tcbs[x]
  {
    CederTodosAjeno(Muerto(s, fin), fin.pid, fin.tid, 0, otro);
  }

  lemma {:induction false} ProcesoAjeno(s: Kernel, pid: nat, lista: seq<Id>, otro: nat)
    requires otro != pid
    ensures var t := FinalizarProceso(s, pid, lista);
      && t.mutexes.Keys == s.mutexes.Keys && (otro in s.mutexes ==> t.mutexes[otro] == s.mutexes[otro])
      && forall x: Id :: x.pid == otro && x in s.tcbs ==> x in t.tcbs && t.tcbs[x] == s.tcbs[x]
    decreases |lista|
  {
    if lista == [] {
    } else {
      if PorTerminar(s, lista[0], pid) {
        FinalizarAjeno(s, lista[0], otro);
        ProcesoAjeno(FinalizarHilo(s, lista[0]), pid, lista[1..], otro);
      } else {
        ProcesoAjeno(s, pid, lista[1..], otro);
      }
    }
  }

  // --- Finished threads ---

  lemma {:induction false} CederExit(s: Kernel, pid: nat, i: nat, x: Id)
    requires Inv(s) && pid in s.mutexes && i < |s.mutexes[pid]| && Terminado(s, x)
    ensures Terminado(Ceder(Reparada, s, pid, i), x)
  {
    var m := s.mutexes[pid][i];
    assert MutexBien(s, pid, m, None);
    if m.cola != [] {
      assert EsperaMutex(s, Id(pid, m.cola[0]));
    }
  }

  lemma {:induction false} ProcesoExit(s: Kernel, pid: nat, lista: seq<Id>, x: Id)
    requires Inv(s) && x in s.tcbs
    ensures var t := FinalizarProceso(s, pid, lista);
      x in t.tcbs && (t.tcbs[x].estado == Exit <==> s.tcbs[x].estado == Exit || (x.pid == pid && x in lista))
    decreases |lista|
  {
    if lista == [] {
    } else {
      var id, resto := lista[0], lista[1..];
      assert Procesos(s);
      assert x in lista <==> x == id || x in resto;
      if PorTerminar(s, id, pid) {
        FinalizarSolo(s, id, x);
        FinalizarHiloConserva(s, id);
        ProcesoExit(FinalizarHilo(s, id), pid, resto, x);
      } else {
        ProcesoExit(s, pid, resto, x);
      }
    }
  }

  /** PROCESS_EXIT finishes every thread of its process, whatever it was doing, and changes no
      thread of any other. */
  lemma {:induction false} ProcesoTermina(s: Kernel, id: Id, lista: seq<Id>, x: Id)
    requires Inv(s) && Puede(s, Acaba(id, lista)) && x in s.tcbs
    ensures var t := Paso(s, Acaba(id, lista));
      x in t.tcbs && if x.pid == id.pid then t.tcbs[x].estado == Exit else t.tcbs[x] == s.tcbs[x]
  {
    ProcesoExit(s, id.pid, lista, x);
    if x.pid != id.pid {
      ProcesoAjeno(s, id.pid, lista, x.pid);
    }
  }

  /** A finished thread stays finished. */
  lemma {:induction false} PasoExit(s: Kernel, e: Evento, x: Id)
    requires Inv(s) && Puede(s, e) && Terminado(s, x)
    ensures Terminado(Paso(s, e), x)
  {
    match e
    case Despacha(fifo) => DespacharConserva(s, fifo);
    case Suelta(id, r) =>
      var i := BuscarMutex(s.mutexes[id.pid], r, 0);
      SigueConserva(s, id);
      CederExit(APonerReady(SacarExec(s, id), id), id.pid, i, x);
    case Sale(id) => FinalizarSolo(s, id, x);
    case Cancela(id, _) => FinalizarSolo(s, id, x);
    case Acaba(id, lista) => ProcesoExit(s, id.pid, lista, x);
    case _ =>
  }

  lemma {:induction false} CorrerExit(s: Kernel, es: seq<Evento>, x: Id)
    requires Inv(s) && Terminado(s, x)
    ensures Terminado(Correr(s, es), x)
    decreases |es|
  {
    if es == [] {
    } else {
      if Puede(s, es[0]) {
        PasoConserva(s, es[0]);
        PasoExit(s, es[0], x);
      }
      CorrerExit(if Puede(s, es[0]) then Paso(s, es[0]) else s, es[1..], x);
    }
  }

  // --- How long a join waits ---

  /** Thread `id` is blocked by a join on `otro`, and by nothing else. */
  ghost predicate Unida(s: Kernel, id: Id, otro: nat) {
    && id in s.tcbs && s.tcbs[id].estado == Blocked && s.tcbs[id].bloqueadoPor == Some(otro)
    && id.pid in s.mutexes && NoEspera(s.mutexes[id.pid], id.tid)
  }

  predicate UnidaA(s: Kernel, id: Id, otro: nat) {
    id in s.tcbs && s.tcbs[id].estado == Blocked && s.tcbs[id].bloqueadoPor == Some(otro)
  }

  /** Same control block, still waiting for no mutex. */
  ghost predicate SigueUnida(s: Kernel, t: Kernel, id: Id, otro: nat) {
    Unida(t, id, otro) && id in s.tcbs && t.tcbs[id] == s.tcbs[id]
  }

  lemma {:induction false} LockUnida(s: Kernel, y: Id, r: string, id: Id, otro: nat)
    requires Unida(s, id, otro) && Corre(s, y) && Existe(s, y, r)
    ensures SigueUnida(s, Lock(s, y, r), id, otro)
  {
    var t := Lock(s, y, r);
    if y.pid == id.pid {
      var ms, ns := s.mutexes[id.pid], t.mutexes[id.pid];
      var i := BuscarMutex(ms, r, 0);
      forall j, a | 0 <= j < |ns| && 0 <= a < |ns[j].cola| ensures ns[j].cola[a] != id.tid {
        if j == i && a == |ms[i].cola| {
          assert ns[j].cola[a] == y.tid;
        } else {
          assert ns[j].cola[a] == ms[j].cola[a];
        }
      }
    }
  }

  lemma {:induction false} UnlockUnida(s: Kernel, y: Id, r: string, id: Id, otro: nat)
    requires Unida(s, id, otro) && Corre(s, y) && Existe(s, y, r)
    ensures SigueUnida(s, Unlock(Reparada, s, y, r), id, otro)
  {
    var i := BuscarMutex(s.mutexes[y.pid], r, 0);
    CederDeja(APonerReady(SacarExec(s, y), y), y.pid, i, id);
  }

  lemma {:induction false} FinalizarUnida(s: Kernel, fin: Id, id: Id, otro: nat)
    requires Inv(s) && Unida(s, id, otro) && Activo(s, fin) && fin.pid in s.mutexes
    requires fin != id && fin != Id(id.pid, otro)
    ensures SigueUnida(s, FinalizarHilo(s, fin), id, otro)
  {
    FinalizarDespierta(s, fin, id);
    if fin.pid == id.pid {
      MuertoDeja(s, fin, id);
    } else {
      FinalizarAjeno(s, fin, id.pid);
    }
  }

  lemma {:induction false} AcabaUnida(s: Kernel, y: Id, lista: seq<Id>, id: Id, otro: nat)
    requires Inv(s) && Unida(s, id, otro) && Puede(s, Acaba(y, lista)) && y.pid != id.pid
    ensures SigueUnida(s, Paso(s, Acaba(y, lista)), id, otro)
  {
    ProcesoAjeno(s, y.pid, lista, id.pid);
  }

  lemma {:induction false} DespacharUnida(s: Kernel, fifo: bool, id: Id, otro: nat)
    requires Inv(s) && Unida(s, id, otro) && s.ready != []
    ensures s.ready[Proximo(s, fifo)] in s.tcbs && SigueUnida(s, Despachar(s, fifo), id, otro)
  {
    DespacharConserva(s, fifo);
  }

  lemma {:induction false} CrearMutexUnida(s: Kernel, y: Id, r: string, id: Id, otro: nat)
    requires Unida(s, id, otro) && Corre(s, y) && y.pid in s.mutexes
    ensures SigueUnida(s, CrearMutex(s, y, r), id, otro)
  {
    var t := CrearMutex(s, y, r);
    forall j, a | 0 <= j < |t.mutexes[id.pid]| && 0 <= a < |t.mutexes[id.pid][j].cola|
      ensures t.mutexes[id.pid][j].cola[a] != id.tid
    {
      assert j < |s.mutexes[id.pid]|;
    }
  }

  /** No event but the end of its target moves a thread blocked by a join. */
  lemma {:induction false} PasoUnida(s: Kernel, e: Evento, id: Id, otro: nat)
    requires Inv(s) && Unida(s, id, otro) && Puede(s, e)
    requires Id(id.pid, otro) in s.tcbs && !Terminado(Paso(s, e), Id(id.pid, otro))
    ensures SigueUnida(s, Paso(s, e), id, otro)
  {
    match e
    case Despacha(fifo) => DespacharUnida(s, fifo, id, otro);
    case Toma(y, r) => LockUnida(s, y, r, id, otro);
    case Suelta(y, r) => UnlockUnida(s, y, r, id, otro);
    case CreaMutex(y, r) => CrearMutexUnida(s, y, r, id, otro);
    case Sale(y) =>
      FinalizarSolo(s, y, Id(id.pid, otro));
      FinalizarUnida(s, y, id, otro);
    case Cancela(y, _) =>
      FinalizarSolo(s, y, Id(id.pid, otro));
      FinalizarUnida(s, y, id, otro);
    case Acaba(y, lista) =>
      ProcesoTermina(s, y, lista, Id(id.pid, otro));
      AcabaUnida(s, y, lista, id, otro);
    case _ =>
  }

  lemma {:induction false} PasoSigueAhi(s: Kernel, e: Evento, x: Id)
    requires Inv(s) && Puede(s, e) && x in s.tcbs
    ensures x in Paso(s, e).tcbs
  {
    match e
    case Sale(y) => FinalizarSolo(s, y, x);
    case Cancela(y, _) => FinalizarSolo(s, y, x);
    case Acaba(y, lista) => ProcesoExit(s, y.pid, lista, x);
    case _ =>
  }

  lemma {:induction false} CorrerUnida(s: Kernel, es: seq<Evento>, id: Id, otro: nat)
    requires Inv(s) && Unida(s, id, otro) && Id(id.pid, otro) in s.tcbs
    ensures Id(id.pid, otro) in Correr(s, es).tcbs
    ensures !Terminado(Correr(s, es), Id(id.pid, otro)) ==> SigueUnida(s, Correr(s, es), id, otro)
    decreases |es|
  {
    if es == [] {
    } else {
      var x := Id(id.pid, otro);
      var t := if Puede(s, es[0]) then Paso(s, es[0]) else s;
      if Puede(s, es[0]) {
        PasoConserva(s, es[0]);
        PasoSigueAhi(s, es[0], x);
      }
      if Terminado(t, x) {
        CorrerExit(t, es[1..], x);
      } else {
        if Puede(s, es[0]) {
          PasoUnida(s, es[0], id, otro);
        }
        CorrerUnida(t, es[1..], id, otro);
      }
    }
  }

  /** A join blocks exactly when its target exists and has not finished; and then, over every run
      that follows, its caller is still blocked on it exactly as long as the target has not
      finished. */
  lemma {:induction false} JoinSii(s: Kernel, id: Id, otro: nat, es: seq<Evento>)
    requires Inv(s) && Corre(s, id)
    ensures var s1 := Join(Reparada, s, id, otro);
      && s1.tcbs[id].estado == (if Vivo(s, Id(id.pid, otro), None) then Blocked else Ready)
      && (Vivo(s, Id(id.pid, otro), None) ==>
            var t := Correr(s1, es);
            (UnidaA(t, id, otro) <==> !Terminado(t, Id(id.pid, otro))))
  {
    if Vivo(s, Id(id.pid, otro), None) {
      var s1 := Join(Reparada, s, id, otro);
      QuienCorre(s, id);
      JoinConserva(Reparada, s, id, otro);
      CorrerUnida(s1, es, id, otro);
      CorrerConserva(s1, es);
      assert id in Correr(s1, es).tcbs ==> JoinBien(Correr(s1, es), id, None);
    }
  }

  // --- In what order a mutex is granted ---

  /** How many times `w` has been granted the mutex. */
  function Concedidos(m: Mutex, w: nat): nat {
    multiset(m.otorgados)[w]
  }

  /** In the queue `cola`, nobody is ahead of `w` but threads of `antes`. */
  predicate NadieDelante(cola: seq<nat>, w: nat, antes: seq<nat>) {
    forall j, k :: 0 <= j < k < |cola| && cola[k] == w ==> cola[j] in antes
  }

  /** `w` has been granted the mutex `c` times. If it asked for it again then, with `antes` in the
      queue, it has been granted it since, or still waits for it (or has finished) with nobody but
      `antes` ahead. */
  predicate Turno(m: Mutex, w: nat, antes: Option<seq<nat>>, c: nat, terminado: bool) {
    && Concedidos(m, w) >= c
    && (antes.Some? && Concedidos(m, w) == c ==> (w in m.cola || terminado) && NadieDelante(m.cola, w, antes.value))
  }

  /** What one step may do to a mutex: nothing; pass it on to the first in its queue, or leave it
      free; grant or queue a request by `x`; or withdraw one by `x`. */
  datatype Cambio = Nada | Pasa | Pide(x: nat) | Retira(x: nat)

  predicate Cambia(m: Mutex, n: Mutex, c: Cambio) {
    match c
    case Nada => n.cola == m.cola && n.otorgados == m.otorgados
    case Pasa => m.cola != [] && n.cola == m.cola[1..] && n.otorgados == m.otorgados + [m.cola[0]]
    case Pide(x) =>
      || (n.cola == m.cola + [x] && n.otorgados == m.otorgados)
      || (n.cola == m.cola && n.otorgados == m.otorgados + [x])
    case Retira(x) => n.cola == Retirado(m, x).cola && n.otorgados == m.otorgados
  }

  lemma {:induction false} PasaTurno(m: Mutex, n: Mutex, w: nat, antes: Option<seq<nat>>, c: nat, terminado: bool)
    requires Turno(m, w, antes, c, terminado) && Cambia(m, n, Pasa)
    ensures Turno(n, w, antes, c, terminado)
  {
    if antes.Some? && Concedidos(n, w) == c {
      assert m.cola == [m.cola[0]] + n.cola;
      forall j, k | 0 <= j < k < |n.cola| && n.cola[k] == w ensures n.cola[j] in antes.value {
        assert m.cola[k + 1] == w && m.cola[j + 1] == n.cola[j];
      }
    }
  }

  lemma {:induction false} PideTurno(m: Mutex, n: Mutex, x: nat, w: nat, antes: Option<seq<nat>>, c: nat,
        terminado: bool)
    requires Turno(m, w, antes, c, terminado) && Cambia(m, n, Pide(x))
    requires (antes.Some? && Concedidos(m, w) == c ==> x != w)
    ensures Turno(n, w, antes, c, terminado)
  {
  }

  /** Whoever is ahead of `w` once `x` has withdrawn was ahead before. */
  lemma {:induction false} RetiraDelante(cola: seq<nat>, x: nat, w: nat, antes: seq<nat>)
    requires x in cola && NadieDelante(cola, w, antes)
    ensures NadieDelante(Quitar(cola, x), w, antes)
  {
    var p := QuitarUno(cola, x);
    var resto := Quitar(cola, x);
    forall j, k | 0 <= j < k < |resto| && resto[k] == w ensures resto[j] in antes {
      var j', k' := if j < p then j else j + 1, if k < p then k else k + 1;
      assert cola[j'] == resto[j] && cola[k'] == w && j' < k';
    }
  }

  lemma {:induction false} RetiraOtro(cola: seq<nat>, x: nat, w: nat)
    requires x in cola && w in cola && x != w
    ensures w in Quitar(cola, x)
  {
    var p := QuitarUno(cola, x);
    var k :| 0 <= k < |cola| && cola[k] == w;
    assert Quitar(cola, x)[if k < p then k else k - 1] == w;
  }

  lemma {:induction false} RetiraTurno(m: Mutex, n: Mutex, x: nat, w: nat, antes: Option<seq<nat>>, c: nat,
        terminado: bool)
    requires Turno(m, w, antes, c, terminado) && Cambia(m, n, Retira(x))
    ensures Turno(n, w, antes, c, terminado || x == w)
  {
    if antes.Some? && Concedidos(m, w) == c && x in m.cola {
      RetiraDelante(m.cola, x, w, antes.value);
      if w in m.cola && x != w {
        RetiraOtro(m.cola, x, w);
      }
    }
  }

  /** Mutex `i` of process `pid`, as thread `w` of it sees it. */
  ghost predicate Fila(s: Kernel, pid: nat, i: nat, w: nat, antes: Option<seq<nat>>, c: nat) {
    && pid in s.mutexes && i < |s.mutexes[pid]|
    && Turno(s.mutexes[pid][i], w, antes, c, Terminado(s, Id(pid, w)))
  }

  lemma {:induction false} CederFila(s: Kernel, pid2: nat, j: nat, pid: nat, i: nat, w: nat, antes: Option<seq<nat>>,
        c: nat, fin: bool)
    requires pid2 in s.mutexes && j < |s.mutexes[pid2]|
    requires forall y :: y in s.mutexes[pid2][j].cola ==> Id(pid2, y) in s.tcbs
    requires pid in s.mutexes && i < |s.mutexes[pid]| && Turno(s.mutexes[pid][i], w, antes, c, fin)
    ensures var t := Ceder(Reparada, s, pid2, j);
      pid in t.mutexes && |t.mutexes[pid]| == |s.mutexes[pid]| && Turno(t.mutexes[pid][i], w, antes, c, fin)
  {
    var t := Ceder(Reparada, s, pid2, j);
    var m, n := s.mutexes[pid][i], t.mutexes[pid][i];
    if pid == pid2 && i == j && m.cola != [] {
      assert m.cola[0] in m.cola;
      PasaTurno(m, n, w, antes, c, fin);
    }
  }

  lemma {:induction false} EnCola(s: Kernel, pid: nat, i: nat, muerto: Option<Id>, desde: nat)
    requires Mutexes(s, muerto, desde) && pid in s.mutexes && i < |s.mutexes[pid]|
    ensures forall y :: y in s.mutexes[pid][i].cola ==> Id(pid, y) in s.tcbs
  {
    var m := s.mutexes[pid][i];
    assert MutexBien(s, pid, m, if i < desde then None else muerto);
    forall y | y in m.cola ensures Id(pid, y) in s.tcbs {
      var k :| 0 <= k < |m.cola| && m.cola[k] == y;
      assert EsperaMutex(s, Id(pid, m.cola[k]));
    }
  }

  lemma {:induction false} SoltarFila(s: Kernel, fin: Id, j: nat, pid: nat, i: nat, w: nat, antes: Option<seq<nat>>,
        c: nat, ya: bool)
    requires Bien(s, Some(fin), j) && fin in s.tcbs && fin.pid in s.mutexes && j < |s.mutexes[fin.pid]|
    requires pid in s.mutexes && i < |s.mutexes[pid]| && Turno(s.mutexes[pid][i], w, antes, c, ya)
    ensures var t := Soltar(s, fin.pid, fin.tid, j);
      pid in t.mutexes && |t.mutexes[pid]| == |s.mutexes[pid]| && Turno(t.mutexes[pid][i], w, antes, c, ya)
  {
    EnCola(s, fin.pid, j, Some(fin), j);
    CederFila(s, fin.pid, j, pid, i, w, antes, c, ya);
  }

  lemma {:induction false} CederTodosFila(s: Kernel, fin: Id, j: nat, pid: nat, i: nat, w: nat,
        antes: Option<seq<nat>>, c: nat, ya: bool)
    requires Bien(s, Some(fin), j) && fin in s.tcbs && s.tcbs[fin].estado == Exit
    requires fin.pid in s.mutexes && j <= |s.mutexes[fin.pid]|
    requires pid in s.mutexes && i < |s.mutexes[pid]| && Turno(s.mutexes[pid][i], w, antes, c, ya)
    ensures var t := CederTodos(s, fin.pid, fin.tid, j);
      pid in t.mutexes && |t.mutexes[pid]| == |s.mutexes[pid]| && Turno(t.mutexes[pid][i], w, antes, c, ya)
    decreases |s.mutexes[fin.pid]| - j
  {
    if j >= |s.mutexes[fin.pid]| {
    } else {
      SoltarFila(s, fin, j, pid, i, w, antes, c, ya);
      SoltarConserva(s, fin, j);
      CederTodosFila(Soltar(s, fin.pid, fin.tid, j), fin, j + 1, pid, i, w, antes, c, ya);
    }
  }

  lemma {:induction false} FinalizarFila(s: Kernel, fin: Id, pid: nat, i: nat, w: nat, antes: Option<seq<nat>>, c: nat)
    requires Inv(s) && Activo(s, fin) && fin.pid in s.mutexes && Fila(s, pid, i, w, antes, c) && Id(pid, w) in s.tcbs
    ensures Fila(FinalizarHilo(s, fin), pid, i, w, antes, c)
  {
    var m, s1 := s.mutexes[pid][i], Muerto(s, fin);
    var ya := Terminado(s, Id(pid, w)) || fin == Id(pid, w);
    MuertoBien(s, fin);
    RepartidoBien(s, fin);
    FinalizarSolo(s, fin, Id(pid, w));
    if pid == fin.pid {
      RetiraTurno(m, s1.mutexes[pid][i], fin.tid, w, antes, c, Terminado(s, Id(pid, w)));
    }
    CederTodosFila(s1, fin, 0, pid, i, w, antes, c, ya);
  }

  lemma {:induction false} ProcesoFila(s: Kernel, quien: nat, lista: seq<Id>, pid: nat, i: nat, w: nat,
        antes: Option<seq<nat>>, c: nat)
    requires Inv(s) && Fila(s, pid, i, w, antes, c) && Id(pid, w) in s.tcbs
    ensures Fila(FinalizarProceso(s, quien, lista), pid, i, w, antes, c)
    decreases |lista|
  {
    if lista == [] {
    } else {
      if PorTerminar(s, lista[0], quien) {
        FinalizarFila(s, lista[0], pid, i, w, antes, c);
        FinalizarHiloConserva(s, lista[0]);
        FinalizarSolo(s, lista[0], Id(pid, w));
        ProcesoFila(FinalizarHilo(s, lista[0]), quien, lista[1..], pid, i, w, antes, c);
      } else {
        ProcesoFila(s, quien, lista[1..], pid, i, w, antes, c);
      }
    }
  }

  lemma {:induction false} LockFila(s: Kernel, y: Id, r: string, pid: nat, i: nat, w: nat, antes: Option<seq<nat>>,
        c: nat)
    requires Inv(s) && Corre(s, y) && Existe(s, y, r) && Fila(s, pid, i, w, antes, c)
    ensures Fila(Lock(s, y, r), pid, i, w, antes, c)
  {
    var m, n := s.mutexes[pid][i], Lock(s, y, r).mutexes[pid][i];
    QuienCorre(s, y);
    if y.pid == pid && i == BuscarMutex(s.mutexes[pid], r, 0) {
      assert y.tid !in m.cola;
      PideTurno(m, n, y.tid, w, antes, c, Terminado(s, Id(pid, w)));
    }
  }

  lemma {:induction false} UnlockFila(s: Kernel, y: Id, r: string, pid: nat, i: nat, w: nat, antes: Option<seq<nat>>,
        c: nat)
    requires Inv(s) && Corre(s, y) && Existe(s, y, r) && Fila(s, pid, i, w, antes, c) && Id(pid, w) in s.tcbs
    ensures Fila(Unlock(Reparada, s, y, r), pid, i, w, antes, c)
  {
    var j := BuscarMutex(s.mutexes[y.pid], r, 0);
    var s1 := APonerReady(SacarExec(s, y), y);
    SigueConserva(s, y);
    EnCola(s1, y.pid, j, None, 0);
    CederFila(s1, y.pid, j, pid, i, w, antes, c, Terminado(s, Id(pid, w)));
    if Terminado(s, Id(pid, w)) {
      PasoExit(s, Suelta(y, r), Id(pid, w));
    }
  }

  lemma {:induction false} MismaFila(s: Kernel, t: Kernel, pid: nat, i: nat, w: nat, antes: Option<seq<nat>>, c: nat)
    requires Fila(s, pid, i, w, antes, c) && pid in t.mutexes && i < |t.mutexes[pid]|
    requires t.mutexes[pid][i] == s.mutexes[pid][i]
    requires Terminado(s, Id(pid, w)) ==> Terminado(t, Id(pid, w))
    ensures Fila(t, pid, i, w, antes, c)
  {
  }

  lemma {:induction false} PasoFila(s: Kernel, e: Evento, pid: nat, i: nat, w: nat, antes: Option<seq<nat>>, c: nat)
    requires Inv(s) && Puede(s, e) && Fila(s, pid, i, w, antes, c) && Id(pid, w) in s.tcbs
    ensures Fila(Paso(s, e), pid, i, w, antes, c)
  {
    match e
    case Toma(y, r) => LockFila(s, y, r, pid, i, w, antes, c);
    case Suelta(y, r) => UnlockFila(s, y, r, pid, i, w, antes, c);
    case Sale(y) => FinalizarFila(s, y, pid, i, w, antes, c);
    case Cancela(y, _) => FinalizarFila(s, y, pid, i, w, antes, c);
    case Acaba(y, lista) => ProcesoFila(s, y.pid, lista, pid, i, w, antes, c);
    case _ =>
      if Terminado(s, Id(pid, w)) {
        PasoExit(s, e, Id(pid, w));
      }
      MismaFila(s, Paso(s, e), pid, i, w, antes, c);
  }

  lemma {:induction false} CorrerFila(s: Kernel, es: seq<Evento>, pid: nat, i: nat, w: nat, antes: Option<seq<nat>>,
        c: nat)
    requires Inv(s) && Fila(s, pid, i, w, antes, c) && Id(pid, w) in s.tcbs
    ensures Fila(Correr(s, es), pid, i, w, antes, c)
    decreases |es|
  {
    if es == [] {
    } else {
      if Puede(s, es[0]) {
        PasoConserva(s, es[0]);
        PasoSigueAhi(s, es[0], Id(pid, w));
        PasoFila(s, es[0], pid, i, w, antes, c);
      }
      CorrerFila(if Puede(s, es[0]) then Paso(s, es[0]) else s, es[1..], pid, i, w, antes, c);
    }
  }

  /** A lock is granted at once exactly when the mutex has no owner. Otherwise, over every run that
      follows, the request waits until it is granted or its thread finishes, and nobody is ever
      ahead of it in the queue who was not when it was made. */
  lemma {:induction false} LockSii(s: Kernel, id: Id, recurso: string, es: seq<Evento>)
    requires Inv(s) && Corre(s, id) && Existe(s, id, recurso)
    ensures var i, s1 := BuscarMutex(s.mutexes[id.pid], recurso, 0), Lock(s, id, recurso);
      var m, t := s.mutexes[id.pid][i], Correr(s1, es);
      && (s1.tcbs[id].estado == Ready <==> m.dueno == None)
      && (s1.mutexes[id.pid][i].dueno == Some(id.tid) <==> m.dueno == None || m.dueno == Some(id.tid))
      && id.pid in t.mutexes && i < |t.mutexes[id.pid]|
      && var n := t.mutexes[id.pid][i];
         && Concedidos(n, id.tid) >= Concedidos(m, id.tid) + (if m.dueno == None then 1 else 0)
         && (Concedidos(n, id.tid) == Concedidos(m, id.tid) ==>
               && (id.tid in n.cola || Terminado(t, id))
               && NadieDelante(n.cola, id.tid, m.cola))
  {
    var i, s1 := BuscarMutex(s.mutexes[id.pid], recurso, 0), Lock(s, id, recurso);
    var m := s.mutexes[id.pid][i];
    var n1, c := s1.mutexes[id.pid][i], Concedidos(m, id.tid) + if m.dueno == None then 1 else 0;
    LockConserva(s, id, recurso);
    QuienCorre(s, id);
    assert MutexBien(s, id.pid, m, None);
    assert Concedidos(n1, id.tid) == c;
    if m.dueno == None {
      CorrerFila(s1, es, id.pid, i, id.tid, None, c);
    } else {
      assert n1.cola[|m.cola|] == id.tid;
      forall j, k | 0 <= j < k < |n1.cola| && n1.cola[k] == id.tid ensures n1.cola[j] in m.cola {
        assert n1.cola[j] == m.cola[j];
      }
      CorrerFila(s1, es, id.pid, i, id.tid, Some(m.cola), c);
    }
  }
}