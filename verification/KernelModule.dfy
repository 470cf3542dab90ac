/** The kernel's control blocks and lists, updated in place. Every handler is proved to do what
    `Threads` says of the state by value. */
module KernelModule {
  import opened Comun
  import T = Threads
  import E = Efectos
  import I = ThreadsInv
  import K = EventosKernel
  import Planificador

  class Tcb {
    const pid: nat
    const tid: nat
    const prioridad: int
    var estado: T.Estado
    var bloqueadoPor: Option<nat>

    function Quien(): T.Id {
      T.Id(pid, tid)
    }

    ghost function Valor(): T.Tcb
      reads this
    {
      T.Tcb(estado, bloqueadoPor, prioridad)
    }

    /** `iniciar_hilo`. */
    constructor (tid: nat, prioridad: int, pid: nat)
      ensures Quien() == T.Id(pid, tid) && Valor() == T.Tcb(T.Ready, None, prioridad)
    {
      this.pid, this.tid, this.prioridad := pid, tid, prioridad;
      estado, bloqueadoPor := T.Ready, None;
    }
  }

  function Ids(xs: seq<Tcb>): (r: seq<T.Id>)
    ensures |r| == |xs|
    ensures forall i :: 0 <= i < |xs| ==> r[i] == xs[i].Quien()
  {
    seq(|xs|, i requires 0 <= i < |xs| => xs[i].Quien())
  }

  lemma {:induction false} QuitarDelante<X>(x: X, xs: seq<X>, y: X)
    ensures T.Quitar([x] + xs, y) == if x == y then xs else [x] + T.Quitar(xs, y)
  {
    assert ([x] + xs)[1..] == xs;
  }

  lemma {:induction false} IdsDelante(x: Tcb, xs: seq<Tcb>)
    ensures Ids([x] + xs) == [x.Quien()] + Ids(xs)
  {
  }

  /** Dropping a control block from a list drops its name. */
  lemma {:induction false} IdsQuitar(xs: seq<Tcb>, t: Tcb)
    requires forall x :: x in xs && x.Quien() == t.Quien() ==> x == t
    ensures Ids(T.Quitar(xs, t)) == T.Quitar(Ids(xs), t.Quien())
    ensures forall x :: x in T.Quitar(xs, t) ==> x in xs
  {
    if xs == [] {
    } else {
      var x, resto := xs[0], xs[1..];
      assert xs == [x] + resto && x in xs;
      assert forall y :: y in resto ==> y in xs;
      IdsQuitar(resto, t);
      IdsDelante(x, resto);
      IdsDelante(x, T.Quitar(resto, t));
      QuitarDelante(x, resto, t);
      QuitarDelante(x.Quien(), Ids(resto), t.Quien());
    }
  }

  lemma {:induction false} IdsSacar(xs: seq<Tcb>, i: nat)
    requires i < |xs|
    ensures Ids(xs[..i] + xs[i + 1..]) == Ids(xs)[..i] + Ids(xs)[i + 1..]
    ensures forall x :: x in xs[..i] + xs[i + 1..] ==> x in xs
  {
  }

  lemma {:induction false} IdsAgregar(xs: seq<Tcb>, t: Tcb)
    ensures Ids(xs + [t]) == Ids(xs) + [t.Quien()]
  {
  }

  predicate SinRepetidos(ids: seq<T.Id>) {
    forall i, j :: 0 <= i < j < |ids| ==> ids[i] != ids[j]
  }

  /** A list that holds each thread once has no repetitions. */
  lemma {:induction false} ListasSinRepetidos(s: T.Kernel)
    requires I.Listas(s, None)
    ensures SinRepetidos(s.blocked)
  {
    forall i, j | 0 <= i < j < |s.blocked| ensures s.blocked[i] != s.blocked[j] {
      if s.blocked[i] == s.blocked[j] {
        var x, antes := s.blocked[i], s.blocked[..j];
        assert I.UnaSola(s, x, None) && antes[i] == x;
        assert s.blocked == antes + [x] + s.blocked[j + 1..];
        I.VecesConcat(antes + [x], s.blocked[j + 1..], x);
        I.VecesAgregar(antes, x, x);
        I.EstaSii(antes, x);
      }
    }
  }

  /** The `i`-th blocked thread becomes ready. */
  function DespertarEn(s: T.Kernel, i: nat): T.Kernel
    requires i < |s.blocked| && s.blocked[i] in s.tcbs
  {
    var id := s.blocked[i];
    s.(tcbs := s.tcbs[id := s.tcbs[id].(estado := T.Ready, bloqueadoPor := None)],
       ready := s.ready + [id], blocked := s.blocked[..i] + s.blocked[i + 1..])
  }

  /** What is left of the pass over the blocked list when it stands at position `i`. */
  function Pasada(s: T.Kernel, fin: T.Id, i: nat): T.Kernel
    requires i <= |s.blocked|
    decreases |s.blocked| - i
  {
    if i == |s.blocked| then s
    else if T.Espera(s, s.blocked[i], fin) then Pasada(DespertarEn(s, i), fin, i)
    else Pasada(s, fin, i + 1)
  }

  function HastaTcbs(s: T.Kernel, fin: T.Id, k: nat): map<T.Id, T.Tcb>
    requires k <= |s.blocked|
  {
    map id | id in s.tcbs ::
      if id in s.blocked[..k] && T.Espera(s, id, fin) then s.tcbs[id].(estado := T.Ready, bloqueadoPor := None)
          else s.tcbs[id]
  }

  function HastaBlocked(s: T.Kernel, fin: T.Id, k: nat): seq<T.Id>
    requires k <= |s.blocked|
  {
    T.Filtrar(s, s.blocked[..k], fin, false) + s.blocked[k..]
  }

  function HastaReady(s: T.Kernel, fin: T.Id, k: nat): seq<T.Id>
    requires k <= |s.blocked|
  {
    s.ready + T.Filtrar(s, s.blocked[..k], fin, true)
  }

  /** Where the pass over the blocked list stands after its first `k` threads. */
  function DesbloquearHasta(s: T.Kernel, fin: T.Id, k: nat): T.Kernel
    requires k <= |s.blocked|
  {
    s.(tcbs := HastaTcbs(s, fin, k), ready := HastaReady(s, fin, k), blocked := HastaBlocked(s, fin, k))
  }

  lemma {:induction false} NadaAun(s: T.Kernel, fin: T.Id)
    ensures DesbloquearHasta(s, fin, 0) == s
  {
    assert HastaTcbs(s, fin, 0) == s.tcbs && HastaReady(s, fin, 0) == s.ready && HastaBlocked(s, fin, 0) == s.blocked;
  }

  lemma {:induction false} YaTodos(s: T.Kernel, fin: T.Id)
    ensures DesbloquearHasta(s, fin, |s.blocked|) == T.Desbloquear(s, fin)
  {
    assert s.blocked[..|s.blocked|] == s.blocked;
    assert HastaBlocked(s, fin, |s.blocked|) == T.Filtrar(s, s.blocked, fin, false);
    assert HastaTcbs(s, fin, |s.blocked|) == T.Desbloquear(s, fin).tcbs;
  }

  lemma {:induction false} FiltrarUno(s: T.Kernel, xs: seq<T.Id>, k: nat, fin: T.Id, esperan: bool)
    requires k < |xs|
    ensures T.Filtrar(s, xs[..k + 1], fin, esperan)
         == T.Filtrar(s, xs[..k], fin, esperan) + if T.Espera(s, xs[k], fin) == esperan then [xs[k]] else []
  {
    assert xs[..k + 1][..k] == xs[..k];
  }

  lemma {:induction false} Partida(a: seq<T.Id>, x: T.Id, b: seq<T.Id>, resto: seq<T.Id>)
    requires b == [x] + resto
    ensures (a + b)[|a|] == x && (a + b)[..|a|] + (a + b)[|a| + 1..] == a + resto && (a + [x]) + resto == a + b
  {
  }

  lemma {:induction false} PasoBlocked(s: T.Kernel, fin: T.Id, k: nat)
    requires k < |s.blocked|
    ensures var u, t := HastaBlocked(s, fin, k), HastaBlocked(s, fin, k + 1);
      var i, id := |T.Filtrar(s, s.blocked[..k], fin, false)|, s.blocked[k];
      && i < |u| && u[i] == id
      && |T.Filtrar(s, s.blocked[..k + 1], fin, false)| == (if T.Espera(s, id, fin) then i else i + 1)
      && t == if T.Espera(s, id, fin) then u[..i] + u[i + 1..] else u
  {
    var a, id, resto := T.Filtrar(s, s.blocked[..k], fin, false), s.blocked[k], s.blocked[k + 1..];
    FiltrarUno(s, s.blocked, k, fin, false);
    assert s.blocked[k..] == [id] + resto;
    Partida(a, id, s.blocked[k..], resto);
    assert HastaBlocked(s, fin, k) == a + s.blocked[k..];
    assert HastaBlocked(s, fin, k + 1) == (if T.Espera(s, id, fin) then a else a + [id]) + resto by {
      assert a + [] == a;
    }
  }

  lemma {:induction false} PasoReady(s: T.Kernel, fin: T.Id, k: nat)
    requires k < |s.blocked|
    ensures HastaReady(s, fin, k + 1) == HastaReady(s, fin, k) + if T.Espera(s, s.blocked[k],
        fin) then [s.blocked[k]] else []
  {
    FiltrarUno(s, s.blocked, k, fin, true);
  }

  lemma {:induction false} PasoTcbs(s: T.Kernel, fin: T.Id, k: nat)
    requires k < |s.blocked| && SinRepetidos(s.blocked)
    ensures var u, t, id := HastaTcbs(s, fin, k), HastaTcbs(s, fin, k + 1), s.blocked[k];
      && (id in s.tcbs ==> u[id] == s.tcbs[id])
      && t == if T.Espera(s, id, fin) then u[id := s.tcbs[id].(estado := T.Ready, bloqueadoPor := None)] else u
  {
    var id := s.blocked[k];
    assert s.blocked[..k + 1] == s.blocked[..k] + [id];
    assert id !in s.blocked[..k];
  }

  lemma {:induction false} PasoEstado(s: T.Kernel, fin: T.Id, k: nat, i: nat)
    requires k < |s.blocked| && SinRepetidos(s.blocked) && i == |T.Filtrar(s, s.blocked[..k], fin, false)|
    requires i < |DesbloquearHasta(s, fin, k).blocked| && DesbloquearHasta(s, fin, k).blocked[i] == s.blocked[k]
    requires s.blocked[k] in DesbloquearHasta(s, fin, k).tcbs || !T.Espera(s, s.blocked[k], fin)
    ensures var u := DesbloquearHasta(s, fin, k);
      DesbloquearHasta(s, fin, k + 1) == if T.Espera(s, s.blocked[k], fin) then DespertarEn(u, i) else u
  {
    PasoBlocked(s, fin, k);
    PasoReady(s, fin, k);
    PasoTcbs(s, fin, k);
    assert HastaReady(s, fin, k) + [] == HastaReady(s, fin, k);
  }

  /** The `k`-th thread of the list is dealt with: taken out if it waits, passed over if not. */
  lemma {:induction false} PasoDesbloquear(s: T.Kernel, fin: T.Id, k: nat)
    requires k < |s.blocked| && SinRepetidos(s.blocked)
    ensures var u, i := DesbloquearHasta(s, fin, k), |T.Filtrar(s, s.blocked[..k], fin, false)|;
      && i < |u.blocked| && u.blocked[i] == s.blocked[k]
      && (T.Espera(u, s.blocked[k], fin) <==> T.Espera(s, s.blocked[k], fin))
      && |T.Filtrar(s, s.blocked[..k + 1], fin, false)| == (if T.Espera(s, s.blocked[k], fin) then i else i + 1)
      && DesbloquearHasta(s, fin, k + 1) == if T.Espera(s, s.blocked[k], fin) then DespertarEn(u, i) else u
  {
    PasoBlocked(s, fin, k);
    PasoTcbs(s, fin, k);
    PasoEstado(s, fin, k, |T.Filtrar(s, s.blocked[..k], fin, false)|);
  }

  lemma {:induction false} PasadaDesde(s: T.Kernel, fin: T.Id, k: nat)
    requires k <= |s.blocked| && SinRepetidos(s.blocked)
    ensures |T.Filtrar(s, s.blocked[..k], fin, false)| <= |DesbloquearHasta(s, fin, k).blocked|
    ensures Pasada(DesbloquearHasta(s, fin, k), fin, |T.Filtrar(s, s.blocked[..k], fin, false)|) == T.Desbloquear(s,
        fin)
    decreases |s.blocked| - k
  {
    if k == |s.blocked| {
      YaTodos(s, fin);
      assert |HastaBlocked(s, fin, k)| == |T.Filtrar(s, s.blocked[..k], fin, false)|;
    } else {
      PasoDesbloquear(s, fin, k);
      PasadaDesde(s, fin, k + 1);
    }
  }

  /** The pass that removes from the list as it goes leaves the threads that do not wait, in
      order, and appends those that do to the ready list, in order. */
  lemma {:induction false} PasadaEs(s: T.Kernel, fin: T.Id)
    requires SinRepetidos(s.blocked)
    ensures Pasada(s, fin, 0) == T.Desbloquear(s, fin)
  {
    NadaAun(s, fin);
    PasadaDesde(s, fin, 0);
    assert T.Filtrar(s, s.blocked[..0], fin, false) == [];
  }

  class Kernel {
    const variante: Variante
    /** `lista_tcbs`, which keeps the finished threads too. */
    var hilos: seq<Tcb>
    var ready: seq<Tcb>
    var blocked: seq<Tcb>
    var exec: seq<Tcb>
    var exit: seq<Tcb>
    var mutexes: map<nat, seq<T.Mutex>>
    /** The control block of every thread. */
    ghost var bloques: map<T.Id, Tcb>

    /** `t` is the control block of its thread. */
    ghost predicate Conocido(t: Tcb)
      reads this`bloques
    {
      t.Quien() in bloques && bloques[t.Quien()] == t
    }

    ghost predicate EnLista(xs: seq<Tcb>)
      reads this`bloques
    {
      forall t :: t in xs ==> Conocido(t)
    }

    /** The lists hold control blocks of `lista_tcbs`. */
    ghost predicate Forma()
      reads this
    {
      && (forall id :: id in bloques ==> bloques[id].Quien() == id && bloques[id] in hilos)
      && EnLista(hilos) && EnLista(ready) && EnLista(blocked) && EnLista(exec) && EnLista(exit)
    }

    ghost function Tcbs(): map<T.Id, T.Tcb>
      reads this`bloques, bloques.Values
    {
      map id | id in bloques :: bloques[id].Valor()
    }

    /** The state by value. */
    ghost function Estado(): T.Kernel
      reads this, bloques.Values
    {
      T.Kernel(Tcbs(), Ids(ready), Ids(blocked), Ids(exec), Ids(exit), mutexes)
    }

    /** Between calls the whole invariant holds: every thread in the one list its state names, joins
        on living threads, and mutexes granted in order. */
    ghost predicate Valid()
      reads this, bloques.Values
    {
      Forma() && I.Inv(Estado())
    }

    /** The caller of a system call. */
    ghost predicate Corre(t: Tcb)
      reads this, t
    {
      Conocido(t) && t.estado == T.Exec
    }

    constructor (variante: Variante)
      ensures Valid() && this.variante == variante && Estado() == I.INICIAL
    {
      this.variante := variante;
      hilos, ready, blocked, exec, exit := [], [], [], [], [];
      mutexes, bloques := map[], map[];
      new;
      I.InicialBien();
      assert Estado() == I.INICIAL;
    }

    /** `buscar_tcbs`. */
    method BuscarTcbs(tid: nat, pid: nat) returns (t: Tcb?)
      requires Forma()
      ensures t != null <==> T.Id(pid, tid) in bloques
      ensures t != null ==> t == bloques[T.Id(pid, tid)]
    {
      for i := 0 to |hilos|
        invariant forall j :: 0 <= j < i ==> hilos[j].Quien() != T.Id(pid, tid)
      {
        assert hilos[i] in hilos && Conocido(hilos[i]);
        if hilos[i].pid == pid && hilos[i].tid == tid {
          return hilos[i];
        }
      }
      return null;
    }

    /** `buscar_mutex`. */
    method BuscarMutex(ms: seq<T.Mutex>, recurso: string) returns (i: nat)
      ensures i == T.BuscarMutex(ms, recurso, 0)
    {
      i := 0;
      while i < |ms|
        invariant i <= |ms| && T.BuscarMutex(ms, recurso, 0) == T.BuscarMutex(ms, recurso, i)
      {
        if ms[i].recurso == recurso {
          return;
        }
        i := i + 1;
      }
    }

    /** Changes the state of a thread. */
    method Marcar(t: Tcb, estado: T.Estado)
      requires Forma() && Conocido(t)
      modifies t`estado
      ensures Estado() == T.ConEstado(old(Estado()), t.Quien(), estado)
    {
      t.estado := estado;
      assert Tcbs() == T.ConEstado(old(Estado()), t.Quien(), estado).tcbs;
    }

    /** Makes a thread ready. */
    method APonerReady(t: Tcb)
      requires Forma() && Conocido(t)
      modifies this`ready, t`estado
      ensures Forma() && Estado() == T.APonerReady(old(Estado()), t.Quien())
    {
      Marcar(t, T.Ready);
      ready := ready + [t];
      assert Ids(ready) == Ids(old(ready)) + [t.Quien()];
    }

    /** Blocks a thread. */
    method APonerBlocked(t: Tcb, por: Option<nat>)
      requires Forma() && Conocido(t)
      modifies this`blocked, t`estado, t`bloqueadoPor
      ensures Forma() && Estado() == T.APonerBlocked(old(Estado()), t.Quien(), por)
    {
      t.estado, t.bloqueadoPor := T.Blocked, por;
      blocked := blocked + [t];
      assert Ids(blocked) == Ids(old(blocked)) + [t.Quien()];
      assert Tcbs() == T.APonerBlocked(old(Estado()), t.Quien(), por).tcbs;
    }

    method SacarDeExec(t: Tcb)
      requires Forma() && Conocido(t)
      modifies this`exec
      ensures Forma() && Estado() == T.SacarExec(old(Estado()), t.Quien())
    {
      IdsQuitar(exec, t);
      exec := T.Quitar(exec, t);
    }

    method SacarDeBlocked(t: Tcb)
      requires Forma() && Conocido(t)
      modifies this`blocked
      ensures Forma() && Estado() == T.SacarBlocked(old(Estado()), t.Quien())
    {
      IdsQuitar(blocked, t);
      blocked := T.Quitar(blocked, t);
    }

    // --- Threads come and go ---

    /** `crear_proceso`: a process begins with an empty list of mutexes. */
    method CrearProceso(pid: nat)
      requires Valid() && pid !in mutexes
      modifies this`mutexes
      ensures Valid() && Estado() == T.NuevoProceso(old(Estado()), pid)
    {
      I.NuevoProcesoConserva(Estado(), pid);
      mutexes := mutexes[pid := []];
    }

    method Listar(tid: nat, prioridad: int, pid: nat)
      requires Forma() && T.Id(pid, tid) !in bloques
      modifies this`hilos, this`bloques, this`ready
      ensures Forma() && Estado() == T.Admitir(old(Estado()), T.Id(pid, tid), prioridad)
    {
      var t := new Tcb(tid, prioridad, pid);
      IdsAgregar(ready, t);
      hilos, ready := hilos + [t], ready + [t];
      bloques := bloques[T.Id(pid, tid) := t];
      assert Tcbs() == old(Tcbs())[T.Id(pid, tid) := t.Valor()];
    }

    /** `iniciar_hilo` and `confirmacion_crear_hilo`: the control block joins `lista_tcbs` and then
        `lista_ready`. */
    method AdmitirHilo(tid: nat, prioridad: int, pid: nat)
      requires Valid() && T.Id(pid, tid) !in bloques && pid in mutexes
      modifies this`hilos, this`bloques, this`ready
      ensures Valid() && Estado() == T.Admitir(old(Estado()), T.Id(pid, tid), prioridad)
      ensures E.Nacido(old(Estado()), Estado(), T.Id(pid, tid), prioridad)
    {
      hide I.Inv, E.Nacido;
      I.AdmitirConserva(Estado(), T.Id(pid, tid), prioridad);
      E.PrioridadSiempre(Estado(), T.Id(pid, tid), prioridad, []);
      Listar(tid, prioridad, pid);
    }

    /** `buscar_hilo_menorNro_prioridad`, without the removal. */
    method HiloMenorPrioridad() returns (i: nat)
      requires Forma() && ready != []
      ensures i == T.Proximo(Estado(), false)
    {
      ghost var ps := T.Prioridades(Estado());
      forall j | 0 <= j < |ready| ensures ps[j] == ready[j].prioridad {
        assert ready[j] in ready && Conocido(ready[j]);
      }
      i := 0;
      for k := 1 to |ready|
        invariant i == Planificador.Menor(ps, k)
      {
        if ready[k].prioridad < ready[i].prioridad {
          i := k;
        }
      }
    }

    /** Moves the `i`-th ready thread to the executing ones. */
    method AEjecutar(i: nat)
      requires Forma() && i < |ready|
      modifies this`ready, this`exec, ready[i]
      ensures Forma() && old(Estado()).ready[i] in old(Estado()).tcbs
      ensures Estado() == T.AEjecutar(old(Estado()), i)
    {
      var t := ready[i];
      assert t in ready;
      Marcar(t, T.Exec);
      IdsSacar(ready, i);
      IdsAgregar(exec, t);
      ready, exec := ready[..i] + ready[i + 1..], exec + [t];
    }

    method ElegirProximo(fifo: bool) returns (i: nat)
      requires Forma() && ready != []
      ensures i < |ready| && i == T.Proximo(Estado(), fifo)
    {
      if fifo {
        return 0;
      }
      i := HiloMenorPrioridad();
    }

    /** The short-term scheduler runs one thread. */
    method Despachar(fifo: bool) returns (t: Tcb)
      requires Valid() && ready != []
      modifies this`ready, this`exec, ready
      ensures Valid() && Corre(t) && t.Quien() in old(Estado()).tcbs
      ensures t.Quien() == old(Estado()).ready[T.Proximo(old(Estado()), fifo)]
      ensures Estado() == T.Despachar(old(Estado()), fifo)
      ensures E.Despachado(old(Estado()), Estado(), T.Proximo(old(Estado()), fifo))
    {
      hide I.Inv, T.Proximo, E.Despachado;
      I.DespacharConserva(Estado(), fifo);
      E.DespacharEs(Estado(), fifo);
      var i := ElegirProximo(fifo);
      t := ready[i];
      assert t in ready;
      AEjecutar(i);
      assert Estado().tcbs[t.Quien()] == t.Valor();
    }

    lemma {:induction false} EstadoCorre(t: Tcb)
      requires Valid() && Corre(t)
      ensures I.Corre(Estado(), t.Quien()) && t.pid in mutexes
    {
      assert Estado().tcbs[t.Quien()] == t.Valor();
      assert I.Procesos(Estado());
    }

    /** A call that leaves its caller runnable sends it back to the ready list. */
    method Seguir(t: Tcb)
      requires Valid() && Corre(t)
      modifies this`exec, this`ready, t`estado
      ensures Valid() && Estado() == T.APonerReady(T.SacarExec(old(Estado()), t.Quien()), t.Quien())
    {
      EstadoCorre(t);
      I.SigueConserva(Estado(), t.Quien());
      SacarDeExec(t);
      APonerReady(t);
    }

    // --- Joins ---

    method ThreadJoin(t: Tcb, otro: nat)
      requires Valid() && Corre(t)
      modifies this`exec, this`ready, this`blocked, t`estado, t`bloqueadoPor
      ensures Valid() && Estado() == T.Join(variante, old(Estado()), t.Quien(), otro)
      ensures E.Unido(variante, old(Estado()), Estado(), t.Quien(), otro)
    {
      hide I.Inv, E.Unido;
      EstadoCorre(t);
      E.JoinEs(variante, Estado(), t.Quien(), otro);
      I.JoinConserva(variante, Estado(), t.Quien(), otro);
      var buscado := BuscarTcbs(otro, t.pid);
      if buscado == null || buscado.estado == T.Exit {
        Seguir(t);
      } else {
        SacarDeExec(t);
        APonerBlocked(t, Some(if variante.Reparada? then otro else t.tid));
      }
    }

    // --- Devices ---

    /** IO: the caller is ready again, last of the list. */
    method Io(t: Tcb)
      requires Valid() && Corre(t)
      modifies this`exec, this`ready, this`blocked, t`estado, t`bloqueadoPor
      ensures Valid() && Estado() == T.Io(old(Estado()), t.Quien())
      ensures E.VuelveAReady(old(Estado()), Estado(), t.Quien()) && mutexes == old(mutexes)
    {
      hide I.Inv, E.VuelveAReady;
      EstadoCorre(t);
      E.IoEs(Estado(), t.Quien());
      SacarDeExec(t);
      APonerBlocked(t, t.bloqueadoPor);
      SacarDeBlocked(t);
      APonerReady(t);
    }

    /** DUMP_MEMORY: the caller is blocked. */
    method DumpMemory(t: Tcb)
      requires Valid() && Corre(t)
      modifies this`exec, this`blocked, t`estado, t`bloqueadoPor
      ensures Valid() && Estado() == T.Dump(old(Estado()), t.Quien())
      ensures E.SeBloquea(old(Estado()), Estado(), t.Quien(), t.bloqueadoPor) && mutexes == old(mutexes)
    {
      hide I.Inv, E.SeBloquea;
      EstadoCorre(t);
      assert Estado().tcbs[t.Quien()] == t.Valor();
      E.DumpEs(Estado(), t.Quien());
      I.DumpConserva(Estado(), t.Quien());
      SacarDeExec(t);
      APonerBlocked(t, t.bloqueadoPor);
    }

    // --- Mutexes ---

    method AgregarMutex(pid: nat, recurso: string)
      requires Forma() && pid in mutexes
      modifies this`mutexes
      ensures Forma()
      ensures Estado() == old(Estado()).(mutexes := old(mutexes)[pid := old(mutexes)[pid] + [T.Mutex(recurso, None,
          [], [], [])]])
    {
      mutexes := mutexes[pid := mutexes[pid] + [T.Mutex(recurso, None, [], [], [])]];
    }

    /** MUTEX_CREATE: the process has the mutex from then on, last of its list. */
    method MutexCreate(t: Tcb, recurso: string)
      requires Valid() && Corre(t)
      modifies this`exec, this`ready, this`mutexes, t`estado
      ensures Valid() && t.pid in old(mutexes) && Estado() == T.CrearMutex(old(Estado()), t.Quien(), recurso)
      ensures E.MutexCreado(old(Estado()), Estado(), t.Quien(), recurso)
    {
      hide I.Inv, E.MutexCreado;
      EstadoCorre(t);
      E.CrearMutexEs(Estado(), t.Quien(), recurso);
      I.CrearMutexConserva(Estado(), t.Quien(), recurso);
      Seguir(t);
      AgregarMutex(t.pid, recurso);
    }

    /** Updates the `i`-th mutex of a process. */
    method PonerMutex(pid: nat, i: nat, m: T.Mutex)
      requires Forma() && pid in mutexes && i < |mutexes[pid]|
      modifies this`mutexes
      ensures Forma() && Estado() == T.ConMutex(old(Estado()), pid, i, m)
    {
      mutexes := mutexes[pid := mutexes[pid][i := m]];
    }

    /** Takes the mutex if it has no owner, and queues for it if it has. */
    method Tomar(t: Tcb, recurso: string)
      requires Forma() && Conocido(t) && t.pid in mutexes
      requires T.BuscarMutex(mutexes[t.pid], recurso, 0) < |mutexes[t.pid]|
      modifies this`exec, this`ready, this`blocked, this`mutexes, t`estado, t`bloqueadoPor
      ensures Forma() && Estado() == T.Lock(old(Estado()), t.Quien(), recurso)
    {
      hide I.Inv;
      var i := BuscarMutex(mutexes[t.pid], recurso);
      var m := mutexes[t.pid][i];
      SacarDeExec(t);
      if m.dueno == None {
        PonerMutex(t.pid, i, m.(dueno := Some(t.tid), pedidos := m.pedidos + [t.tid],
            otorgados := m.otorgados + [t.tid]));
        APonerReady(t);
      } else {
        PonerMutex(t.pid, i, m.(cola := m.cola + [t.tid], pedidos := m.pedidos + [t.tid]));
        APonerBlocked(t, Some(t.tid));
      }
    }

    method MutexLock(t: Tcb, recurso: string)
      requires Valid() && Corre(t) && t.pid in mutexes
      requires T.BuscarMutex(mutexes[t.pid], recurso, 0) < |mutexes[t.pid]|
      modifies this`exec, this`ready, this`blocked, this`mutexes, t`estado, t`bloqueadoPor
      ensures Valid() && Estado() == T.Lock(old(Estado()), t.Quien(), recurso)
      ensures E.MutexPedido(old(Estado()), Estado(), t.Quien(), recurso)
    {
      hide I.Inv, E.MutexPedido;
      EstadoCorre(t);
      E.LockEs(Estado(), t.Quien(), recurso);
      I.LockConserva(Estado(), t.Quien(), recurso);
      Tomar(t, recurso);
    }

    /** Passes a mutex on. */
    method Ceder(v: Variante, pid: nat, i: nat)
      requires Forma() && pid in mutexes && i < |mutexes[pid]|
      modifies this`ready, this`blocked, this`mutexes, hilos
      ensures Forma() && Estado() == T.Ceder(v, old(Estado()), pid, i)
    {
      var m := mutexes[pid][i];
      if m.cola == [] {
        PonerMutex(pid, i, m.(dueno := None));
      } else {
        var w := BuscarTcbs(m.cola[0], pid);
        if w == null {
          PonerMutex(pid, i, m.(cola := m.cola[1..]));
        } else {
          PonerMutex(pid, i, m.(dueno := Some(w.tid), cola := m.cola[1..], otorgados := m.otorgados + [w.tid]));
          if v.Reparada? {
            SacarDeBlocked(w);
          }
          APonerReady(w);
        }
      }
    }

    method MutexUnlock(t: Tcb, recurso: string)
      requires Valid() && Corre(t) && t.pid in mutexes
      requires T.BuscarMutex(mutexes[t.pid], recurso, 0) < |mutexes[t.pid]|
      modifies this`exec, this`ready, this`blocked, this`mutexes, hilos
      ensures Forma() && (variante.Reparada? ==> Valid())
      ensures Estado() == T.Unlock(variante, old(Estado()), t.Quien(), recurso)
      ensures E.MutexDevuelto(variante, old(Estado()), Estado(), t.Quien(), recurso)
    {
      hide I.Inv, E.MutexDevuelto;
      EstadoCorre(t);
      E.UnlockEs(variante, Estado(), t.Quien(), recurso);
      I.UnlockConserva(Estado(), t.Quien(), recurso);
      var i := BuscarMutex(mutexes[t.pid], recurso);
      Seguir(t);
      if mutexes[t.pid][i].dueno == Some(t.tid) {
        Ceder(variante, t.pid, i);
      }
    }

    // --- Termination ---

    /** Passes on every mutex that belongs to `tid`. */
    method CederTodos(pid: nat, tid: nat)
      requires Forma() && pid in mutexes
      modifies this`ready, this`blocked, this`mutexes, hilos
      ensures Forma() && Estado() == T.CederTodos(old(Estado()), pid, tid, 0)
    {
      ghost var s := Estado();
      var n := |mutexes[pid]|;
      for i := 0 to n
        invariant Forma() && pid in mutexes && |mutexes[pid]| == n
        invariant T.CederTodos(s, pid, tid, 0) == T.CederTodos(Estado(), pid, tid, i)
      {
        if mutexes[pid][i].dueno == Some(tid) {
          Ceder(Reparada, pid, i);
        }
      }
    }

    /** Wakes the `i`-th blocked thread up. */
    method Despertar(i: nat)
      requires Forma() && i < |blocked|
      modifies this`ready, this`blocked, blocked[i]
      ensures Forma() && old(Estado()).blocked[i] in old(Estado()).tcbs
      ensures Estado() == DespertarEn(old(Estado()), i)
    {
      var t := blocked[i];
      assert t in blocked;
      t.estado, t.bloqueadoPor := T.Ready, None;
      IdsAgregar(ready, t);
      IdsSacar(blocked, i);
      ready, blocked := ready + [t], blocked[..i] + blocked[i + 1..];
      assert Tcbs() == old(Tcbs())[t.Quien() := t.Valor()];
    }

    /** `desbloquear_hilos_por_tid`: one pass over the blocked list, removing from it in place. */
    method DesbloquearHilosPorTid(fin: Tcb)
      requires Forma() && SinRepetidos(Ids(blocked))
      modifies this`ready, this`blocked, hilos
      ensures Forma() && Estado() == T.Desbloquear(old(Estado()), fin.Quien())
    {
      ghost var s := Estado();
      PasadaEs(s, fin.Quien());
      var i := 0;
      while i < |blocked|
        invariant Forma() && i <= |blocked|
        invariant Pasada(Estado(), fin.Quien(), i) == Pasada(s, fin.Quien(), 0)
        decreases |blocked| - i
      {
        assert blocked[i] in blocked;
        if blocked[i].pid == fin.pid && blocked[i].bloqueadoPor == Some(fin.tid) {
          Despertar(i);
        } else {
          i := i + 1;
        }
      }
    }

    /** Takes a thread out of the list its state names. */
    method Salir(t: Tcb)
      requires Forma() && Conocido(t)
      modifies this`ready, this`blocked, this`exec
      ensures Forma() && Estado() == T.Salir(old(Estado()), t.Quien())
    {
      match t.estado
      case Ready =>
        IdsQuitar(ready, t);
        ready := T.Quitar(ready, t);
      case Blocked => SacarDeBlocked(t);
      case Exec => SacarDeExec(t);
      case Exit =>
    }

    /** Withdraws the requests of thread `tid`, mutex by mutex. */
    method Retirar(t: Tcb)
      requires Forma() && t.pid in mutexes
      modifies this`mutexes
      ensures Forma() && Estado() == T.Retirar(old(Estado()), t.Quien())
    {
      var ms := mutexes[t.pid];
      var n := |ms|;
      for i := 0 to n
        invariant |ms| == n
        invariant forall j :: 0 <= j < i ==> ms[j] == T.Retirado(old(mutexes)[t.pid][j], t.tid)
        invariant forall j :: i <= j < n ==> ms[j] == old(mutexes)[t.pid][j]
      {
        ms := ms[i := T.Retirado(ms[i], t.tid)];
      }
      assert ms == T.Retirados(old(mutexes)[t.pid], t.tid);
      mutexes := mutexes[t.pid := ms];
    }

    method AExit(t: Tcb)
      requires Forma() && Conocido(t)
      modifies this`exit, t`estado
      ensures Forma() && Estado() == T.AExit(old(Estado()), t.Quien())
    {
      Marcar(t, T.Exit);
      IdsAgregar(exit, t);
      exit := exit + [t];
    }

    /** `finalizar_hilo`, of a thread in any state. */
    method FinalizarHilo(t: Tcb)
      requires Valid() && Conocido(t) && t.estado != T.Exit && t.pid in mutexes
      modifies this`exec, this`exit, this`ready, this`blocked, this`mutexes, hilos
      ensures Valid() && Estado() == T.FinalizarHilo(old(Estado()), t.Quien())
      ensures K.Finado(old(Estado()), Estado(), t.Quien())
    {
      hide I.Inv, K.Finado;
      assert Estado().tcbs[t.Quien()] == t.Valor();
      I.FinalizarHiloConserva(Estado(), t.Quien());
      K.FinalizarEs(Estado(), t.Quien());
      I.RepartidoBien(Estado(), t.Quien());
      Retirar(t);
      Salir(t);
      AExit(t);
      CederTodos(t.pid, t.tid);
      ListasSinRepetidos(Estado());
      DesbloquearHilosPorTid(t);
    }

    /** As written, the thread looked up is the caller. */
    method ThreadCancel(t: Tcb, otro: nat)
      requires Valid() && Corre(t) && t.pid in mutexes
      modifies this`exec, this`exit, this`ready, this`blocked, this`mutexes, hilos
      ensures Valid() && Estado() == T.Cancel(old(Estado()), t.Quien(), otro)
      ensures K.Finado(old(Estado()), Estado(), t.Quien())
    {
      hide I.Inv, K.Finado;
      EstadoCorre(t);
      var hilo := BuscarTcbs(t.tid, t.pid);
      if hilo != null && hilo.estado != T.Exit {
        FinalizarHilo(hilo);
      }
    }

    /** The end of a process, one thread at a time. */
    lemma {:induction false} ProcesoUno(s: T.Kernel, pid: nat, ids: seq<T.Id>, i: nat)
      requires i < |ids|
      ensures T.FinalizarProceso(s, pid, ids[i..])
           == T.FinalizarProceso(if T.PorTerminar(s, ids[i], pid) then T.FinalizarHilo(s, ids[i])
               else s, pid, ids[i + 1..])
    {
      assert ids[i..][1..] == ids[i + 1..];
    }

    /** Ends one thread of `lista_tcbs`, if it is of the process and has not ended yet. */
    method FinalizarSiEsDe(t: Tcb, pid: nat)
      requires Valid() && t in hilos && pid in mutexes
      modifies this`exec, this`exit, this`ready, this`blocked, this`mutexes, hilos
      ensures Valid() && pid in mutexes
      ensures Estado() == if T.PorTerminar(old(Estado()), t.Quien(), pid)
        then T.FinalizarHilo(old(Estado()), t.Quien()) else old(Estado())
    {
      assert Conocido(t) && Estado().tcbs[t.Quien()] == t.Valor();
      if t.pid == pid && t.estado != T.Exit {
        I.MismosProcesos(Estado(), t.Quien());
        FinalizarHilo(t);
      }
    }

    /** One turn of the pass. */
    method FinalizarUno(i: nat, pid: nat)
      requires Valid() && i < |hilos| && pid in mutexes
      modifies this`exec, this`exit, this`ready, this`blocked, this`mutexes, hilos
      ensures Valid() && pid in mutexes
      ensures T.FinalizarProceso(Estado(), pid, Ids(hilos)[i + 1..]) == T.FinalizarProceso(old(Estado()), pid,
          Ids(hilos)[i..])
    {
      hide T.FinalizarHilo;
      hide I.Inv;
      ProcesoUno(Estado(), pid, Ids(hilos), i);
      FinalizarSiEsDe(hilos[i], pid);
    }

    /** `finalizar_proceso`: one pass over `lista_tcbs`. */
    method FinalizarProceso(pid: nat)
      requires Valid() && pid in mutexes
      modifies this`exec, this`exit, this`ready, this`blocked, this`mutexes, hilos
      ensures Valid() && Estado() == T.FinalizarProceso(old(Estado()), pid, Ids(hilos))
      ensures K.ProcesoFinado(old(Estado()), Estado(), pid)
    {
      hide K.ProcesoFinado, I.Inv;
      ghost var ids := Ids(hilos);
      var n := |hilos|;
      ghost var fin := T.FinalizarProceso(Estado(), pid, ids);
      assert ids[0..] == ids;
      K.ProcesoEs(Estado(), pid, ids);
      for i := 0 to n
        invariant Valid() && |hilos| == n && Ids(hilos) == ids && pid in mutexes
        invariant T.FinalizarProceso(Estado(), pid, ids[i..]) == fin
      {
        FinalizarUno(i, pid);
      }
    }
  }
}