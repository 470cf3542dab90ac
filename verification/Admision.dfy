/** Admission of processes and threads: the kernel and the memory module talking over two FIFO
    channels, the long-term planner's semaphore, and the short-term scheduler's. Each message
    handler is one step. */
module Admision {
  import opened Comun
  import opened Particiones
  import T = Threads
  import I = ThreadsInv

  type Id = T.Id

  /** `tid_contador`, which the end of the process sets to -1. */
  type Contador = x: int | -1 <= x

  /** A process: its size, its thread counter, and whether its state is EXIT. */
  datatype Pcb = Pcb(pid: nat, tam: nat, contador: Contador, acabado: bool)

  /** ASIGNAR_MEMORIA, HILO_READY and FINALIZAR_PROCESO. */
  datatype AMemoria = PideEspacio(pid: nat, tam: nat) | HiloListo(id: Id) | FinProceso(pid: nat)

  /** CONFIRMAR_ESPACIO_PROCESO and CONFIRMAR_CREACION_HILO. */
  datatype AKernel = Espacio(pid: nat, bit: bool) | HiloCreado(id: Id)

  datatype Config = Config(v: Variante, esq: Esquema, alg: Algoritmo)

  /** `fichas` is `sem_plani_largo_plazo` and `aPlanificar` is `TCBaPlanificar`; `caida` says that
      the memory module has dereferenced NULL. The last five record what has happened: processes
      taken out of NEW, threads put into READY by their confirmation, requests never answered,
      dispatches made and creation confirmations received. */
  datatype Sistema = Sistema(
    procesos: seq<Pcb>, colaNew: seq<nat>, fichas: nat,
    aMemoria: seq<AMemoria>, aKernel: seq<AKernel>,
    particiones: seq<Part>, caida: bool,
    hilos: seq<Id>, ready: seq<Id>, exec: seq<Id>, blocked: seq<Id>, aPlanificar: nat,
    admitidos: seq<nat>, entradas: seq<Id>, perdidas: nat, despachos: nat, confirmaciones: nat)

  function Inicio(ps: seq<Part>): Sistema {
    Sistema([], [], 1, [], [], ps, false, [], [], [], [], 0, [], [], 0, 0, 0)
  }

  /** `buscar_proceso`. */
  function BuscarProceso(ps: seq<Pcb>, pid: nat, k: nat): (i: nat)
    requires k <= |ps|
    ensures k <= i <= |ps|
    ensures i < |ps| ==> ps[i].pid == pid
    decreases |ps| - k
  {
    if k == |ps| || ps[k].pid == pid then k else BuscarProceso(ps, pid, k + 1)
  }

  // --- The kernel's side ---

  /** `crear_proceso`. */
  function CrearProceso(s: Sistema, tam: nat): Sistema {
    var pid := |s.procesos| + 1;
    s.(procesos := s.procesos + [Pcb(pid, tam, 0, false)], colaNew := s.colaNew + [pid])
  }

  /** One turn of the long-term planner: `iniciar_proceso` asks for the head of NEW. */
  function IniciarProceso(s: Sistema): Sistema
    requires s.fichas > 0 && s.colaNew != [] && BuscarProceso(s.procesos, s.colaNew[0], 0) < |s.procesos|
  {
    var p := s.procesos[BuscarProceso(s.procesos, s.colaNew[0], 0)];
    s.(fichas := s.fichas - 1, aMemoria := s.aMemoria + [PideEspacio(p.pid, p.tam)])
  }

  /** `crear_hilo`: takes the head of NEW, whichever process was confirmed, and asks for its main
      thread. */
  function CrearHiloMain(s: Sistema): Sistema
    requires s.colaNew != [] && BuscarProceso(s.procesos, s.colaNew[0], 0) < |s.procesos|
  {
    var p := s.procesos[BuscarProceso(s.procesos, s.colaNew[0], 0)];
    var id := T.Id(p.pid, if p.contador < 0 then 0xFFFF_FFFF else p.contador);
    s.(colaNew := s.colaNew[1..], hilos := s.hilos + [id], aMemoria := s.aMemoria + [HiloListo(id)],
       admitidos := s.admitidos + [p.pid])
  }

  /** `confirmacion_crear_hilo`, and the post that follows it in any case. */
  function Confirmar(s: Sistema, id: Id): Sistema {
    var t := s.(aPlanificar := s.aPlanificar + 1, confirmaciones := s.confirmaciones + 1);
    if id in s.hilos then t.(ready := s.ready + [id], entradas := s.entradas + [id]) else t
  }

  predicate PuedeKernel(s: Sistema) {
    && s.aKernel != []
    && (s.aKernel[0].Espacio? && s.aKernel[0].bit ==>
          s.colaNew != [] && BuscarProceso(s.procesos, s.colaNew[0], 0) < |s.procesos|)
  }

  /** One message of `kernel_escucha_memoria`. */
  function RecibeKernel(s: Sistema): Sistema
    requires PuedeKernel(s)
  {
    var m, t := s.aKernel[0], s.(aKernel := s.aKernel[1..]);
    match m
    case Espacio(_, bit) => var u := if bit then CrearHiloMain(t) else t; u.(fichas := s.fichas + 1)
    case HiloCreado(id) => Confirmar(t, id)
  }

  /** THREAD_CREATE by a thread of `pid`: as written, the counter moves twice. */
  function ThreadCreate(s: Sistema, pid: nat): Sistema {
    var i := BuscarProceso(s.procesos, pid, 0);
    if i == |s.procesos| then s
    else
      var c := s.procesos[i].contador;
      var id := T.Id(pid, c + 1);
      s.(procesos := s.procesos[i := s.procesos[i].(contador := c + 2)],
         hilos := s.hilos + [id], aMemoria := s.aMemoria + [HiloListo(id)])
  }

  predicate PuedeAcabar(s: Sistema, i: nat) {
    i < |s.exec| && s.exec[i].tid == 0 && BuscarProceso(s.procesos, s.exec[i].pid, 0) < |s.procesos|
  }

  function Sin<X>(xs: seq<X>, i: nat): seq<X>
    requires i < |xs|
  {
    xs[..i] + xs[i + 1..]
  }

  /** PROCESS_EXIT by the main thread, the `i`-th executing: `finalizar_proceso` tells the memory
      module, marks the process and sets its counter to -1. Its other threads stay in the lists
      they are in. */
  function AcabarProceso(s: Sistema, i: nat): Sistema
    requires PuedeAcabar(s, i)
  {
    var pid := s.exec[i].pid;
    var j := BuscarProceso(s.procesos, pid, 0);
    s.(procesos := s.procesos[j := s.procesos[j].(contador := -1, acabado := true)],
       exec := Sin(s.exec, i), aMemoria := s.aMemoria + [FinProceso(pid)])
  }

  // --- The memory module's side ---

  /** The memory module has taken the request off its channel and come to `r`. */
  function Responder(s: Sistema, ps: seq<Part>, r: Respuesta): Sistema
    requires s.aMemoria != [] && s.aMemoria[0].PideEspacio?
  {
    var pid := s.aMemoria[0].pid;
    var t := s.(aMemoria := s.aMemoria[1..], particiones := ps);
    match r
    case Confirma => t.(aKernel := s.aKernel + [Espacio(pid, true)])
    case Niega => t.(aKernel := s.aKernel + [Espacio(pid, false)])
    case SinRespuesta => t.(perdidas := s.perdidas + 1)
    case Cae => t.(perdidas := s.perdidas + 1, caida := true)
  }

  /** `crear_hilo`: looks the process's partition up. */
  function CrearHilo(s: Sistema): Sistema
    requires s.aMemoria != [] && s.aMemoria[0].HiloListo?
  {
    var id, t := s.aMemoria[0].id, s.(aMemoria := s.aMemoria[1..]);
    if BuscarPid(s.particiones, id.pid, 0) == |s.particiones| then t.(caida := true)
    else t.(aKernel := s.aKernel + [HiloCreado(id)])
  }

  /** One message of `escuchar_kernel`. */
  function RecibeMemoria(c: Config, s: Sistema): Sistema
    requires s.aMemoria != []
  {
    match s.aMemoria[0]
    case PideEspacio(pid, tam) =>
      var a := Asignar(c.v, c.esq, c.alg, s.particiones, pid, tam);
      Responder(s, a.0, a.1)
    case HiloListo(_) => CrearHilo(s)
    case FinProceso(pid) =>
      s.(aMemoria := s.aMemoria[1..], particiones := Finalizar(c.v, c.esq, s.particiones, pid))
  }

  // --- Scheduling ---

  /** The short-term scheduler takes one token and the `i`-th ready thread. */
  function Despachar(s: Sistema, i: nat): Sistema
    requires s.aPlanificar > 0 && i < |s.ready|
  {
    s.(aPlanificar := s.aPlanificar - 1, despachos := s.despachos + 1, ready := Sin(s.ready, i),
        exec := s.exec + [s.ready[i]])
  }

  // --- Runs ---

  datatype Evento =
    | Crea(tam: nat)
    | Planifica
    | Memoria
    | Kernel
    | Hilo(i: nat)
    | Despacha(i: nat)
    | Vuelve(i: nat)
    | Bloquea(i: nat)
    | Desbloquea(i: nat)
    | Acaba(i: nat)

  predicate Puede(s: Sistema, e: Evento) {
    match e
    case Crea(_) => true
    case Planifica =>
      s.fichas > 0 && s.colaNew != [] && BuscarProceso(s.procesos, s.colaNew[0], 0) < |s.procesos|
    case Memoria => s.aMemoria != [] && !s.caida
    case Kernel => PuedeKernel(s)
    case Hilo(i) => i < |s.exec|
    case Despacha(i) => s.aPlanificar > 0 && i < |s.ready|
    case Vuelve(i) => i < |s.exec|
    case Bloquea(i) => i < |s.exec|
    case Desbloquea(i) => i < |s.blocked|
    case Acaba(i) => PuedeAcabar(s, i)
  }

  function Paso(c: Config, s: Sistema, e: Evento): Sistema
    requires Puede(s, e)
  {
    match e
    case Crea(tam) => CrearProceso(s, tam)
    case Planifica => IniciarProceso(s)
    case Memoria => RecibeMemoria(c, s)
    case Kernel => RecibeKernel(s)
    case Hilo(i) => ThreadCreate(s, s.exec[i].pid)
    case Despacha(i) => Despachar(s, i)
    case Vuelve(i) => s.(exec := Sin(s.exec, i), ready := s.ready + [s.exec[i]])
    case Bloquea(i) => s.(exec := Sin(s.exec, i), blocked := s.blocked + [s.exec[i]])
    case Desbloquea(i) => s.(blocked := Sin(s.blocked, i), ready := s.ready + [s.blocked[i]])
    case Acaba(i) => AcabarProceso(s, i)
  }

  /** A run; an event that cannot happen is passed over. */
  function Correr(c: Config, s: Sistema, es: seq<Evento>): Sistema
    decreases |es|
  {
    if es == [] then s else Correr(c, if Puede(s, es[0]) then Paso(c, s, es[0]) else s, es[1..])
  }

  // --- Counting messages ---

  /** Space requests on their way to the memory module. */
  function Pedidos(ms: seq<AMemoria>): nat {
    if ms == [] then 0 else Pedidos(ms[1..]) + if ms[0].PideEspacio? then 1 else 0
  }

  /** Space replies on their way to the kernel. */
  function Respuestas(ms: seq<AKernel>): nat {
    if ms == [] then 0 else Respuestas(ms[1..]) + if ms[0].Espacio? then 1 else 0
  }

  /** Creations of `id` on their way to the memory module. */
  function Listos(ms: seq<AMemoria>, id: Id): nat {
    if ms == [] then 0 else Listos(ms[1..], id) + if ms[0] == HiloListo(id) then 1 else 0
  }

  /** Confirmations of `id` on their way to the kernel. */
  function Creados(ms: seq<AKernel>, id: Id): nat {
    if ms == [] then 0 else Creados(ms[1..], id) + if ms[0] == HiloCreado(id) then 1 else 0
  }

  lemma {:induction false} PedidosMas(ms: seq<AMemoria>, m: AMemoria)
    ensures Pedidos(ms + [m]) == Pedidos(ms) + if m.PideEspacio? then 1 else 0
  {
    if ms == [] {
    } else {
      assert (ms + [m])[1..] == ms[1..] + [m];
      PedidosMas(ms[1..], m);
    }
  }

  lemma {:induction false} RespuestasMas(ms: seq<AKernel>, m: AKernel)
    ensures Respuestas(ms + [m]) == Respuestas(ms) + if m.Espacio? then 1 else 0
  {
    if ms == [] {
    } else {
      assert (ms + [m])[1..] == ms[1..] + [m];
      RespuestasMas(ms[1..], m);
    }
  }

  lemma {:induction false} ListosMas(ms: seq<AMemoria>, m: AMemoria, id: Id)
    ensures Listos(ms + [m], id) == Listos(ms, id) + if m == HiloListo(id) then 1 else 0
  {
    if ms == [] {
    } else {
      assert (ms + [m])[1..] == ms[1..] + [m];
      ListosMas(ms[1..], m, id);
    }
  }

  lemma {:induction false} CreadosMas(ms: seq<AKernel>, m: AKernel, id: Id)
    ensures Creados(ms + [m], id) == Creados(ms, id) + if m == HiloCreado(id) then 1 else 0
  {
    if ms == [] {
    } else {
      assert (ms + [m])[1..] == ms[1..] + [m];
      CreadosMas(ms[1..], m, id);
    }
  }

  lemma {:induction false} NingunPedido(ms: seq<AMemoria>, i: nat)
    requires Pedidos(ms) == 0 && i < |ms|
    ensures !ms[i].PideEspacio?
  {
    if i == 0 {
    } else {
      NingunPedido(ms[1..], i - 1);
    }
  }

  lemma {:induction false} NingunaRespuesta(ms: seq<AKernel>, i: nat)
    requires Respuestas(ms) == 0 && i < |ms|
    ensures !ms[i].Espacio?
  {
    if i == 0 {
    } else {
      NingunaRespuesta(ms[1..], i - 1);
    }
  }

  // --- The planner's token and the order of admission ---

  /** The processes ever created are 1, 2, 3... */
  predicate Numerados(ps: seq<Pcb>) {
    forall i :: 0 <= i < |ps| ==> ps[i].pid == i + 1
  }

  /** Those admitted so far and then those in NEW are all of them, in order of creation. */
  predicate EnOrden(admitidos: seq<nat>, colaNew: seq<nat>, n: nat) {
    && |admitidos| + |colaNew| == n
    && (forall k :: 0 <= k < |admitidos| ==> admitidos[k] == k + 1)
    && (forall k :: 0 <= k < |colaNew| ==> colaNew[k] == |admitidos| + k + 1)
  }

  /** The token is with the planner, or in a request or a reply on its way, or lost. */
  predicate UnaFicha(s: Sistema) {
    s.fichas + Pedidos(s.aMemoria) + Respuestas(s.aKernel) + s.perdidas == 1
  }

  /** Every request and reply on its way is about the process at the head of NEW. */
  predicate DeLaCabeza(s: Sistema) {
    && (forall i :: 0 <= i < |s.aMemoria| && s.aMemoria[i].PideEspacio? ==>
          s.colaNew != [] && s.aMemoria[i].pid == s.colaNew[0])
    && (forall i :: 0 <= i < |s.aKernel| && s.aKernel[i].Espacio? ==>
          s.colaNew != [] && s.aKernel[i].pid == s.colaNew[0])
  }

  predicate Turno(s: Sistema) {
    && Numerados(s.procesos)
    && EnOrden(s.admitidos, s.colaNew, |s.procesos|)
    && UnaFicha(s)
    && DeLaCabeza(s)
  }

  lemma {:induction false} BuscarNumerado(ps: seq<Pcb>, pid: nat, k: nat)
    requires Numerados(ps) && k < pid <= |ps|
    ensures BuscarProceso(ps, pid, k) == pid - 1
    decreases |ps| - k
  {
    if ps[k].pid == pid {
    } else {
      BuscarNumerado(ps, pid, k + 1);
    }
  }

  lemma {:induction false} CrearProcesoTurno(s: Sistema, tam: nat)
    requires Turno(s)
    ensures Turno(CrearProceso(s, tam))
  {
  }

  lemma {:induction false} IniciarProcesoTurno(s: Sistema)
    requires Turno(s) && Puede(s, Planifica)
    ensures Turno(IniciarProceso(s))
  {
    var p := s.procesos[BuscarProceso(s.procesos, s.colaNew[0], 0)];
    PedidosMas(s.aMemoria, PideEspacio(p.pid, p.tam));
  }

  lemma {:induction false} ResponderTurno(s: Sistema, ps: seq<Part>, r: Respuesta)
    requires Turno(s) && s.aMemoria != [] && s.aMemoria[0].PideEspacio?
    ensures Turno(Responder(s, ps, r))
  {
    RespuestasMas(s.aKernel, Espacio(s.aMemoria[0].pid, true));
    RespuestasMas(s.aKernel, Espacio(s.aMemoria[0].pid, false));
  }

  lemma {:induction false} RecibeMemoriaTurno(c: Config, s: Sistema)
    requires Turno(s) && s.aMemoria != []
    ensures Turno(RecibeMemoria(c, s))
  {
    match s.aMemoria[0]
    case PideEspacio(pid, tam) =>
      var a := Asignar(c.v, c.esq, c.alg, s.particiones, pid, tam);
      ResponderTurno(s, a.0, a.1);
    case HiloListo(id) =>
      RespuestasMas(s.aKernel, HiloCreado(id));
    case FinProceso(_) =>
  }

  /** The process popped is the one confirmed. */
  lemma {:induction false} CrearHiloMainTurno(s: Sistema)
    requires Turno(s) && PuedeKernel(s) && s.aKernel[0].Espacio? && s.aKernel[0].bit
    ensures Turno(RecibeKernel(s))
    ensures RecibeKernel(s).admitidos == s.admitidos + [s.aKernel[0].pid]
  {
    var t := RecibeKernel(s);
    var p := s.procesos[BuscarProceso(s.procesos, s.colaNew[0], 0)];
    assert p.pid == s.aKernel[0].pid;
    PedidosMas(s.aMemoria, t.aMemoria[|s.aMemoria|]);
    forall i | 0 <= i < |t.aMemoria| ensures !t.aMemoria[i].PideEspacio? {
      NingunPedido(t.aMemoria, i);
    }
    forall i | 0 <= i < |t.aKernel| ensures !t.aKernel[i].Espacio? {
      NingunaRespuesta(t.aKernel, i);
    }
  }

  lemma {:induction false} RecibeKernelTurno(s: Sistema)
    requires Turno(s) && PuedeKernel(s)
    ensures Turno(RecibeKernel(s))
  {
    if s.aKernel[0].Espacio? && s.aKernel[0].bit {
      CrearHiloMainTurno(s);
    }
  }

  lemma {:induction false} ThreadCreateTurno(s: Sistema, pid: nat)
    requires Turno(s)
    ensures Turno(ThreadCreate(s, pid))
  {
    var i := BuscarProceso(s.procesos, pid, 0);
    if i < |s.procesos| {
      PedidosMas(s.aMemoria, HiloListo(T.Id(pid, s.procesos[i].contador + 1)));
    }
  }

  lemma {:induction false} AcabarTurno(s: Sistema, i: nat)
    requires Turno(s) && PuedeAcabar(s, i)
    ensures Turno(AcabarProceso(s, i))
  {
    PedidosMas(s.aMemoria, FinProceso(s.exec[i].pid));
  }

  lemma {:induction false} PasoTurno(c: Config, s: Sistema, e: Evento)
    requires Turno(s) && Puede(s, e)
    ensures Turno(Paso(c, s, e))
  {
    match e
    case Crea(tam) => CrearProcesoTurno(s, tam);
    case Planifica => IniciarProcesoTurno(s);
    case Memoria => RecibeMemoriaTurno(c, s);
    case Kernel => RecibeKernelTurno(s);
    case Hilo(i) => ThreadCreateTurno(s, s.exec[i].pid);
    case Acaba(i) => AcabarTurno(s, i);
    case _ =>
  }

  lemma {:induction false} CorrerTurno(c: Config, s: Sistema, es: seq<Evento>)
    requires Turno(s)
    ensures Turno(Correr(c, s, es))
    decreases |es|
  {
    if es == [] {
    } else {
      if Puede(s, es[0]) {
        PasoTurno(c, s, es[0]);
      }
      CorrerTurno(c, if Puede(s, es[0]) then Paso(c, s, es[0]) else s, es[1..]);
    }
  }

  // --- Which threads are where ---

  predicate Activo(s: Sistema, id: Id) {
    id in s.ready || id in s.exec || id in s.blocked
  }

  /** Process `pid` has ended. */
  predicate Acabado(s: Sistema, pid: nat) {
    1 <= pid <= |s.procesos| && s.procesos[pid - 1].acabado
  }

  predicate Admitido(s: Sistema, pid: nat) {
    1 <= pid <= |s.admitidos|
  }

  /** Creations on their way name threads of `lista_tcbs`. */
  predicate EnLista(s: Sistema) {
    && (forall i :: 0 <= i < |s.aMemoria| && s.aMemoria[i].HiloListo? ==> s.aMemoria[i].id in s.hilos)
    && (forall i :: 0 <= i < |s.aKernel| && s.aKernel[i].HiloCreado? ==> s.aKernel[i].id in s.hilos)
  }

  /** The threads of every list, and those being created, are in `lista_tcbs`, and their processes
      have been admitted; only such a process ends. */
  ghost predicate Conocidos(s: Sistema) {
    && EnLista(s)
    && (forall id :: Activo(s, id) ==> id in s.hilos)
    && (forall id :: id in s.hilos ==> Admitido(s, id.pid))
    && (forall pid :: Acabado(s, pid) ==> Admitido(s, pid) && T.Id(pid, 0) in s.hilos)
    && (forall i :: |s.admitidos| <= i < |s.procesos| ==> s.procesos[i].contador == 0)
  }

  /** Every token of the short-term scheduler came with a confirmation, and went with a dispatch;
      no more are left than there are ready threads. */
  predicate Presupuesto(s: Sistema) {
    s.despachos + s.aPlanificar == s.confirmaciones && s.aPlanificar <= |s.ready|
  }

  ghost predicate Presentes(s: Sistema) {
    Conocidos(s) && Presupuesto(s)
  }

  lemma {:induction false} EnSin(xs: seq<Id>, i: nat, id: Id)
    requires i < |xs|
    ensures id in xs <==> id == xs[i] || id in Sin(xs, i)
  {
    assert xs == xs[..i] + [xs[i]] + xs[i + 1..];
  }

  /** Nothing new but threads already known. */
  lemma {:induction false} MismosConocidos(s: Sistema, t: Sistema)
    requires Conocidos(s) && t.hilos == s.hilos && t.procesos == s.procesos && t.admitidos == s.admitidos
    requires EnLista(t) && forall id :: Activo(t, id) ==> Activo(s, id) || id in s.hilos
    ensures Conocidos(t)
  {
    forall pid | Acabado(t, pid) ensures Admitido(t, pid) && T.Id(pid, 0) in t.hilos {
      assert Acabado(s, pid);
    }
    forall id | id in t.hilos ensures Admitido(t, id.pid) {
      assert Admitido(s, id.pid);
    }
  }

  lemma {:induction false} CrearProcesoPresentes(s: Sistema, tam: nat)
    requires Turno(s) && Presentes(s)
    ensures Presentes(CrearProceso(s, tam))
  {
    var t := CrearProceso(s, tam);
    forall id | Activo(t, id) ensures id in t.hilos {
      assert Activo(s, id);
    }
    forall pid | Acabado(t, pid) ensures Admitido(t, pid) && T.Id(pid, 0) in t.hilos {
      assert Acabado(s, pid);
    }
    forall id | id in t.hilos ensures Admitido(t, id.pid) {
      assert Admitido(s, id.pid);
    }
  }

  /** What the memory module does with a message, as far as the kernel can tell. */
  predicate Recibido(s: Sistema, t: Sistema)
    requires s.aMemoria != []
  {
    && t == s.(aMemoria := s.aMemoria[1..], aKernel := t.aKernel, particiones := t.particiones, caida := t.caida,
        perdidas := t.perdidas)
    && match s.aMemoria[0]
       case PideEspacio(pid, _) =>
         && (t.aKernel == s.aKernel || t.aKernel == s.aKernel + [Espacio(pid, true)]
             || t.aKernel == s.aKernel + [Espacio(pid, false)])
         && (s.caida ==> t.caida)
       case HiloListo(id) => if t.caida != s.caida then t.caida && t.aKernel == s.aKernel
         else t.aKernel == s.aKernel + [HiloCreado(id)] || (t.caida && t.aKernel == s.aKernel)
       case FinProceso(_) => t.aKernel == s.aKernel && t.caida == s.caida
  }

  lemma {:induction false} RecibeMemoriaEs(c: Config, s: Sistema)
    requires s.aMemoria != []
    ensures Recibido(s, RecibeMemoria(c, s))
  {
  }

  lemma {:induction false} RecibidoPresentes(s: Sistema, t: Sistema)
    requires Presentes(s) && s.aMemoria != [] && Recibido(s, t)
    ensures Presentes(t)
  {
    assert forall id :: Activo(t, id) ==> Activo(s, id);
    assert forall i :: 0 <= i < |t.aMemoria| ==> t.aMemoria[i] == s.aMemoria[i + 1];
    assert forall i :: 0 <= i < |t.aKernel| && t.aKernel[i].HiloCreado? ==>
        i < |s.aKernel| || s.aMemoria[0] == HiloListo(t.aKernel[i].id);
    assert forall i :: 0 <= i < |s.aKernel| ==> t.aKernel[i] == s.aKernel[i];
    MismosConocidos(s, t);
  }

  lemma {:induction false} CrearHiloMainPresentes(s: Sistema)
    requires Turno(s) && Presentes(s) && PuedeKernel(s) && s.aKernel[0].Espacio? && s.aKernel[0].bit
    ensures Presentes(RecibeKernel(s))
  {
    var t, pid := RecibeKernel(s), s.colaNew[0];
    BuscarNumerado(s.procesos, pid, 0);
    forall id | Activo(t, id) ensures id in t.hilos {
      assert Activo(s, id);
    }
    forall x | Acabado(t, x) ensures Admitido(t, x) && T.Id(x, 0) in t.hilos {
      assert Acabado(s, x);
    }
    forall id | id in t.hilos ensures Admitido(t, id.pid) {
      assert id in s.hilos ==> Admitido(s, id.pid);
    }
  }

  lemma {:induction false} ConfirmarPresentes(s: Sistema)
    requires Presentes(s) && PuedeKernel(s) && !(s.aKernel[0].Espacio? && s.aKernel[0].bit)
    ensures Presentes(RecibeKernel(s))
  {
    var t := RecibeKernel(s);
    assert s.aKernel[0].HiloCreado? ==> s.aKernel[0].id in s.hilos;
    forall id | Activo(t, id) ensures Activo(s, id) || id in s.hilos {
    }
    MismosConocidos(s, t);
  }

  lemma {:induction false} ThreadCreatePresentes(s: Sistema, i: nat)
    requires Turno(s) && Presentes(s) && i < |s.exec|
    ensures Presentes(ThreadCreate(s, s.exec[i].pid))
  {
    var pid := s.exec[i].pid;
    assert Activo(s, s.exec[i]) && Admitido(s, pid);
    BuscarNumerado(s.procesos, pid, 0);
    var t := ThreadCreate(s, pid);
    forall id | Activo(t, id) ensures id in t.hilos {
      assert Activo(s, id);
    }
    forall x | Acabado(t, x) ensures Admitido(t, x) && T.Id(x, 0) in t.hilos {
      assert Acabado(s, x);
    }
    forall id | id in t.hilos ensures Admitido(t, id.pid) {
      assert id in s.hilos ==> Admitido(s, id.pid);
    }
  }

  lemma {:induction false} AcabarPresentes(s: Sistema, i: nat)
    requires Turno(s) && Presentes(s) && PuedeAcabar(s, i)
    ensures Presentes(AcabarProceso(s, i))
  {
    var t, pid := AcabarProceso(s, i), s.exec[i].pid;
    assert Activo(s, s.exec[i]) && Admitido(s, pid) && s.exec[i] == T.Id(pid, 0);
    BuscarNumerado(s.procesos, pid, 0);
    forall id | Activo(t, id) ensures id in t.hilos {
      EnSin(s.exec, i, id);
      assert Activo(s, id);
    }
    forall x | Acabado(t, x) ensures Admitido(t, x) && T.Id(x, 0) in t.hilos {
      assert x != pid ==> Acabado(s, x);
    }
    forall id | id in t.hilos ensures Admitido(t, id.pid) {
      assert Admitido(s, id.pid);
    }
  }

  lemma {:induction false} IniciarProcesoPresentes(s: Sistema)
    requires Presentes(s) && Puede(s, Planifica)
    ensures Presentes(IniciarProceso(s))
  {
    assert forall id :: Activo(IniciarProceso(s), id) ==> Activo(s, id);
    MismosConocidos(s, IniciarProceso(s));
  }

  lemma {:induction false} MoverPresentes(c: Config, s: Sistema, e: Evento)
    requires Presentes(s) && Puede(s, e) && (e.Despacha? || e.Vuelve? || e.Bloquea? || e.Desbloquea?)
    ensures Presentes(Paso(c, s, e))
  {
    var t := Paso(c, s, e);
    forall id | Activo(t, id) ensures Activo(s, id) {
      match e
      case Despacha(i) => EnSin(s.ready, i, id);
      case Desbloquea(i) => EnSin(s.blocked, i, id);
      case Vuelve(i) => EnSin(s.exec, i, id);
      case Bloquea(i) => EnSin(s.exec, i, id);
    }
    MismosConocidos(s, t);
  }

  lemma {:induction false} PasoPresentes(c: Config, s: Sistema, e: Evento)
    requires Turno(s) && Presentes(s) && Puede(s, e)
    ensures Presentes(Paso(c, s, e))
  {
    match e
    case Crea(tam) => CrearProcesoPresentes(s, tam);
    case Planifica => IniciarProcesoPresentes(s);
    case Memoria => RecibeMemoriaEs(c, s); RecibidoPresentes(s, RecibeMemoria(c, s));
    case Kernel =>
      if s.aKernel[0].Espacio? && s.aKernel[0].bit { CrearHiloMainPresentes(s); } else { ConfirmarPresentes(s); }
    case Hilo(i) => ThreadCreatePresentes(s, i);
    case Acaba(i) => AcabarPresentes(s, i);
    case _ => MoverPresentes(c, s, e);
  }

  lemma {:induction false} CorrerPresentes(c: Config, s: Sistema, es: seq<Evento>)
    requires Turno(s) && Presentes(s)
    ensures Turno(Correr(c, s, es)) && Presentes(Correr(c, s, es))
    decreases |es|
  {
    if es == [] {
    } else {
      if Puede(s, es[0]) {
        PasoTurno(c, s, es[0]);
        PasoPresentes(c, s, es[0]);
      }
      CorrerPresentes(c, if Puede(s, es[0]) then Paso(c, s, es[0]) else s, es[1..]);
    }
  }

  // --- Threads created by processes that have ended ---

  /** A thread whose process has ended makes THREAD_CREATE. The code does not look at the state of
      the process, which it has at hand. */
  predicate Fantasma(s: Sistema, e: Evento) {
    e.Hilo? && e.i < |s.exec| && Acabado(s, s.exec[e.i].pid)
  }

  /** It never happens in the run. */
  predicate SinFantasmas(c: Config, s: Sistema, es: seq<Evento>)
    decreases |es|
  {
    es == []
    || if Puede(s, es[0]) then !Fantasma(s, es[0]) && SinFantasmas(c, Paso(c, s, es[0]), es[1..])
       else SinFantasmas(c, s, es[1..])
  }

  /** Thread `id` is being created, or has entered READY, at most once, and exactly once if it is
      in `lista_tcbs` and the memory module is up. */
  predicate HiloBien(s: Sistema, id: Id) {
    var suma := Listos(s.aMemoria, id) + Creados(s.aKernel, id) + I.Veces(s.entradas, id);
    && suma <= I.Veces(s.hilos, id) <= 1
    && (!s.caida ==> suma == I.Veces(s.hilos, id))
  }

  /** Its number is 0 or odd, and no larger than the counter of a process that goes on. */
  predicate NumeroBien(s: Sistema, id: Id) {
    && (id.tid == 0 || id.tid % 2 == 1)
    && (1 <= id.pid <= |s.procesos| && !Acabado(s, id.pid) ==> id.tid <= s.procesos[id.pid - 1].contador)
  }

  predicate ContadorBien(p: Pcb) {
    if p.acabado then p.contador == -1 else p.contador >= 0 && p.contador % 2 == 0
  }

  ghost predicate Unicos(s: Sistema) {
    && (forall id :: HiloBien(s, id))
    && (forall id :: id in s.hilos ==> NumeroBien(s, id))
    && (forall i :: 0 <= i < |s.procesos| ==> ContadorBien(s.procesos[i]))
  }

  lemma {:induction false} CrearProcesoUnicos(s: Sistema, tam: nat)
    requires Turno(s) && Presentes(s) && Unicos(s)
    ensures Unicos(CrearProceso(s, tam))
  {
    var t := CrearProceso(s, tam);
    forall id ensures HiloBien(t, id) {
      assert HiloBien(s, id);
    }
    forall id | id in t.hilos ensures NumeroBien(t, id) {
      assert NumeroBien(s, id) && Admitido(s, id.pid);
    }
  }

  /** A message that creates no thread is sent to the memory module. */
  lemma {:induction false} MensajeUnicos(s: Sistema, t: Sistema, m: AMemoria)
    requires Unicos(s) && !m.HiloListo? && t.aMemoria == s.aMemoria + [m]
    requires t.aKernel == s.aKernel && t.entradas == s.entradas && t.hilos == s.hilos && t.caida == s.caida
    ensures forall id :: HiloBien(t, id)
  {
    forall id ensures HiloBien(t, id) {
      assert HiloBien(s, id);
      ListosMas(s.aMemoria, m, id);
    }
  }

  lemma {:induction false} IniciarProcesoUnicos(s: Sistema)
    requires Unicos(s) && Puede(s, Planifica)
    ensures Unicos(IniciarProceso(s))
  {
    var t := IniciarProceso(s);
    MensajeUnicos(s, t, t.aMemoria[|s.aMemoria|]);
    forall id | id in t.hilos ensures NumeroBien(t, id) {
      assert NumeroBien(s, id);
    }
  }

  lemma {:induction false} AcabarUnicos(s: Sistema, i: nat)
    requires Turno(s) && Presentes(s) && Unicos(s) && PuedeAcabar(s, i)
    ensures Unicos(AcabarProceso(s, i))
  {
    var t, pid := AcabarProceso(s, i), s.exec[i].pid;
    assert Activo(s, s.exec[i]) && Admitido(s, pid);
    BuscarNumerado(s.procesos, pid, 0);
    MensajeUnicos(s, t, FinProceso(pid));
    forall id | id in t.hilos ensures NumeroBien(t, id) {
      assert NumeroBien(s, id);
    }
  }

  lemma {:induction false} RecibidoUnicos(s: Sistema, t: Sistema)
    requires Unicos(s) && s.aMemoria != [] && Recibido(s, t)
    ensures Unicos(t)
  {
    forall id ensures HiloBien(t, id) {
      assert HiloBien(s, id);
      if |t.aKernel| > |s.aKernel| {
        CreadosMas(s.aKernel, t.aKernel[|s.aKernel|], id);
      }
    }
    forall id | id in t.hilos ensures NumeroBien(t, id) {
      assert NumeroBien(s, id);
    }
  }

  /** A thread numbered anew is asked for. */
  lemma {:induction false} NuevoHiloBien(s: Sistema, t: Sistema, nuevo: Id, id: Id)
    requires HiloBien(s, id) && I.Veces(s.hilos, nuevo) == 0
    requires t.hilos == s.hilos + [nuevo] && t.aMemoria == s.aMemoria + [HiloListo(nuevo)]
    requires Creados(t.aKernel, id) == Creados(s.aKernel, id) && t.entradas == s.entradas && t.caida == s.caida
    ensures HiloBien(t, id)
  {
    ListosMas(s.aMemoria, HiloListo(nuevo), id);
    I.VecesAgregar(s.hilos, nuevo, id);
  }

  lemma {:induction false} CrearHiloMainUnicos(s: Sistema)
    requires Turno(s) && Presentes(s) && Unicos(s) && PuedeKernel(s) && s.aKernel[0].Espacio? && s.aKernel[0].bit
    ensures Unicos(RecibeKernel(s))
  {
    var t, pid := RecibeKernel(s), s.colaNew[0];
    BuscarNumerado(s.procesos, pid, 0);
    var nuevo := T.Id(pid, 0);
    assert nuevo in s.hilos ==> Admitido(s, pid);
    I.EstaSii(s.hilos, nuevo);
    forall id ensures HiloBien(t, id) {
      assert HiloBien(s, id);
      NuevoHiloBien(s, t, nuevo, id);
    }
    assert !Acabado(s, pid);
    forall id | id in t.hilos ensures NumeroBien(t, id) {
      assert id in s.hilos ==> NumeroBien(s, id);
    }
  }

  lemma {:induction false} ConfirmarUnicos(s: Sistema)
    requires Presentes(s) && Unicos(s) && PuedeKernel(s) && !(s.aKernel[0].Espacio? && s.aKernel[0].bit)
    ensures Unicos(RecibeKernel(s))
  {
    var t := RecibeKernel(s);
    forall id ensures HiloBien(t, id) {
      assert HiloBien(s, id);
      if s.aKernel[0].HiloCreado? {
        I.VecesAgregar(s.entradas, s.aKernel[0].id, id);
      }
    }
    forall id | id in t.hilos ensures NumeroBien(t, id) {
      assert NumeroBien(s, id);
    }
  }

  lemma {:induction false} ThreadCreateUnicos(s: Sistema, i: nat)
    requires Turno(s) && Presentes(s) && Unicos(s) && i < |s.exec| && !Acabado(s, s.exec[i].pid)
    ensures Unicos(ThreadCreate(s, s.exec[i].pid))
  {
    var pid := s.exec[i].pid;
    assert Activo(s, s.exec[i]) && Admitido(s, pid);
    BuscarNumerado(s.procesos, pid, 0);
    var t, nuevo := ThreadCreate(s, pid), T.Id(pid, s.procesos[pid - 1].contador + 1);
    assert nuevo in s.hilos ==> NumeroBien(s, nuevo);
    I.EstaSii(s.hilos, nuevo);
    forall id ensures HiloBien(t, id) {
      assert HiloBien(s, id);
      NuevoHiloBien(s, t, nuevo, id);
    }
    forall id | id in t.hilos ensures NumeroBien(t, id) {
      assert id in s.hilos ==> NumeroBien(s, id);
    }
  }

  lemma {:induction false} MoverUnicos(c: Config, s: Sistema, e: Evento)
    requires Unicos(s) && Puede(s, e) && (e.Despacha? || e.Vuelve? || e.Bloquea? || e.Desbloquea?)
    ensures Unicos(Paso(c, s, e))
  {
    var t := Paso(c, s, e);
    forall id ensures HiloBien(t, id) {
      assert HiloBien(s, id);
    }
    forall id | id in t.hilos ensures NumeroBien(t, id) {
      assert NumeroBien(s, id);
    }
  }

  lemma {:induction false} PasoUnicos(c: Config, s: Sistema, e: Evento)
    requires Turno(s) && Presentes(s) && Unicos(s) && Puede(s, e) && !Fantasma(s, e)
    ensures Unicos(Paso(c, s, e))
  {
    match e
    case Crea(tam) => CrearProcesoUnicos(s, tam);
    case Planifica => IniciarProcesoUnicos(s);
    case Memoria => RecibeMemoriaEs(c, s); RecibidoUnicos(s, RecibeMemoria(c, s));
    case Kernel =>
      if s.aKernel[0].Espacio? && s.aKernel[0].bit { CrearHiloMainUnicos(s); } else { ConfirmarUnicos(s); }
    case Hilo(i) => ThreadCreateUnicos(s, i);
    case Acaba(i) => AcabarUnicos(s, i);
    case _ => MoverUnicos(c, s, e);
  }

  /** A thread of an ended process is given number 0, which its main thread has. */
  lemma {:induction false} FantasmaRepite(c: Config, s: Sistema, e: Evento)
    requires Turno(s) && Presentes(s) && Unicos(s) && Puede(s, e) && Fantasma(s, e)
    ensures I.Veces(Paso(c, s, e).hilos, T.Id(s.exec[e.i].pid, 0)) > 1
  {
    var pid := s.exec[e.i].pid;
    BuscarNumerado(s.procesos, pid, 0);
    assert ContadorBien(s.procesos[pid - 1]);
    I.EstaSii(s.hilos, T.Id(pid, 0));
    I.VecesAgregar(s.hilos, T.Id(pid, 0), T.Id(pid, 0));
  }

  lemma {:induction false} PasoHilos(c: Config, s: Sistema, e: Evento, id: Id)
    ensures Puede(s, e) ==> I.Veces(Paso(c, s, e).hilos, id) >= I.Veces(s.hilos, id)
  {
    if Puede(s, e) {
      var t := Paso(c, s, e);
      if |t.hilos| > |s.hilos| {
        I.VecesAgregar(s.hilos, t.hilos[|s.hilos|], id);
      }
    }
  }

  lemma {:induction false} HilosCrecen(c: Config, s: Sistema, es: seq<Evento>, id: Id)
    ensures I.Veces(Correr(c, s, es).hilos, id) >= I.Veces(s.hilos, id)
    decreases |es|
  {
    if es == [] {
    } else {
      var t := if Puede(s, es[0]) then Paso(c, s, es[0]) else s;
      PasoHilos(c, s, es[0], id);
      HilosCrecen(c, t, es[1..], id);
    }
  }

  /** No two threads of the list have the same process and number. */
  ghost predicate SinRepetir(s: Sistema) {
    forall id :: I.Veces(s.hilos, id) <= 1
  }

  lemma {:induction false} CorrerUnicos(c: Config, s: Sistema, es: seq<Evento>)
    requires Turno(s) && Presentes(s) && Unicos(s)
    ensures SinFantasmas(c, s, es) ==> Unicos(Correr(c, s, es))
    ensures !SinFantasmas(c, s, es) ==> !SinRepetir(Correr(c, s, es))
    decreases |es|
  {
    if es == [] {
    } else {
      var e := es[0];
      if Puede(s, e) {
        PasoTurno(c, s, e);
        PasoPresentes(c, s, e);
        if Fantasma(s, e) {
          FantasmaRepite(c, s, e);
          HilosCrecen(c, Paso(c, s, e), es[1..], T.Id(s.exec[e.i].pid, 0));
        } else {
          PasoUnicos(c, s, e);
          CorrerUnicos(c, Paso(c, s, e), es[1..]);
        }
      } else {
        CorrerUnicos(c, s, es[1..]);
      }
    }
  }

  // --- Who holds a partition, with the repairs ---

  /** A process holds a partition only once it is admitted, or while its confirmation is on its
      way; space replies say which. */
  ghost predicate Duenos(s: Sistema) {
    && s.perdidas == 0
    && UnaPorProceso(s.particiones) && LibresSinPid(s.particiones)
    && (forall p :: p in Vivos(s.particiones) ==>
          Admitido(s, p) || (p == |s.admitidos| + 1 && Respuestas(s.aKernel) > 0))
    && (forall i :: 0 <= i < |s.aKernel| && s.aKernel[i].Espacio? ==>
          (s.aKernel[i].bit <==> s.aKernel[i].pid in Vivos(s.particiones)))
  }

  /** An admitted process holds its partition until the memory module is told of its end. */
  ghost predicate Fines(s: Sistema) {
    && (forall i :: 0 <= i < |s.aMemoria| && s.aMemoria[i].FinProceso? ==> Acabado(s, s.aMemoria[i].pid))
    && (forall p :: Admitido(s, p) && !Acabado(s, p) ==> p in Vivos(s.particiones))
    && (forall p :: Acabado(s, p) && p in Vivos(s.particiones) ==> FinProceso(p) in s.aMemoria)
  }

  ghost predicate Propia(s: Sistema) {
    Duenos(s) && Fines(s)
  }

  lemma {:induction false} TieneParticionSii(ps: seq<Part>, pid: nat)
    requires LibresSinPid(ps) && pid != 0
    ensures BuscarPid(ps, pid, 0) < |ps| <==> pid in Vivos(ps)
  {
    var i := BuscarPid(ps, pid, 0);
    if i < |ps| {
      assert ps[i] in ps && !ps[i].libre;
    }
    if pid in Vivos(ps) {
      var q :| q in ps && !q.libre && q.pid == pid;
    }
  }

  /** The head of NEW holds no partition while its request is on its way. */
  lemma {:induction false} SinParticionAun(s: Sistema)
    requires Turno(s) && Duenos(s) && s.aMemoria != [] && s.aMemoria[0].PideEspacio?
    ensures s.aMemoria[0].pid == |s.admitidos| + 1 && s.aMemoria[0].pid !in Vivos(s.particiones)
    ensures forall i :: 0 <= i < |s.aKernel| ==> !s.aKernel[i].Espacio?
  {
    forall i | 0 <= i < |s.aKernel| ensures !s.aKernel[i].Espacio? {
      NingunaRespuesta(s.aKernel, i);
    }
  }

  lemma {:induction false} SinPrimero(ms: seq<AMemoria>, p: nat)
    requires ms != [] && FinProceso(p) in ms && ms[0] != FinProceso(p)
    ensures FinProceso(p) in ms[1..]
  {
  }

  lemma {:induction false} ResponderPropia(s: Sistema, ps: seq<Part>, bit: bool)
    requires Turno(s) && Propia(s) && s.aMemoria != [] && s.aMemoria[0].PideEspacio?
    requires UnaPorProceso(ps) && LibresSinPid(ps) && !Acabado(s, s.aMemoria[0].pid)
    requires forall p :: p in Vivos(ps) <==> p in Vivos(s.particiones) || (bit && p == s.aMemoria[0].pid)
    ensures Propia(Responder(s, ps, if bit then Confirma else Niega))
  {
    var t := Responder(s, ps, if bit then Confirma else Niega);
    SinParticionAun(s);
    RespuestasMas(s.aKernel, Espacio(s.aMemoria[0].pid, bit));
    forall p | Acabado(t, p) && p in Vivos(t.particiones) ensures FinProceso(p) in t.aMemoria {
      assert Acabado(s, p);
      SinPrimero(s.aMemoria, p);
    }
    forall p | Admitido(t, p) && !Acabado(t, p) ensures p in Vivos(t.particiones) {
      assert !Acabado(s, p);
    }
  }

  lemma {:induction false} PideEspacioPropia(c: Config, s: Sistema)
    requires c.v.Reparada? && Turno(s) && Presentes(s) && Propia(s) && s.aMemoria != [] && s.aMemoria[0].PideEspacio?
    ensures Propia(RecibeMemoria(c, s))
  {
    var pid, n := s.aMemoria[0].pid, s.aMemoria[0].tam;
    var a := Asignar(c.v, c.esq, c.alg, s.particiones, pid, n);
    var bit := Elegir(c.alg, s.particiones, n, |s.particiones|) >= 0;
    SinParticionAun(s);
    AsignarVivos(c.v, c.esq, c.alg, s.particiones, pid, n);
    AsignarLibres(c.v, c.esq, c.alg, s.particiones, pid, n);
    assert a.1 == if bit then Confirma else Niega;
    assert Acabado(s, pid) ==> Admitido(s, pid);
    ResponderPropia(s, a.0, bit);
  }

  lemma {:induction false} CrearHiloPropia(s: Sistema)
    requires Propia(s) && s.aMemoria != [] && s.aMemoria[0].HiloListo?
    ensures Propia(CrearHilo(s))
  {
    var t := CrearHilo(s);
    if |t.aKernel| > |s.aKernel| {
      RespuestasMas(s.aKernel, t.aKernel[|s.aKernel|]);
    }
    forall p | Acabado(t, p) && p in Vivos(t.particiones) ensures FinProceso(p) in t.aMemoria {
      assert Acabado(s, p);
      SinPrimero(s.aMemoria, p);
    }
    forall p | Admitido(t, p) && !Acabado(t, p) ensures p in Vivos(t.particiones) {
      assert !Acabado(s, p);
    }
  }

  lemma {:induction false} FinProcesoPropia(c: Config, s: Sistema)
    requires Turno(s) && Presentes(s) && Propia(s) && s.aMemoria != [] && s.aMemoria[0].FinProceso?
    ensures Propia(RecibeMemoria(c, s))
    ensures Vivos(RecibeMemoria(c, s).particiones) == Vivos(s.particiones) - {s.aMemoria[0].pid}
  {
    var pid, t := s.aMemoria[0].pid, RecibeMemoria(c, s);
    assert Acabado(s, pid) && Admitido(s, pid);
    FinalizarVivos(c.v, c.esq, s.particiones, pid);
    FinalizarLibres(c.v, c.esq, s.particiones, pid);
    assert Vivos(t.particiones) == Vivos(s.particiones) - {pid};
    forall i | 0 <= i < |t.aKernel| && t.aKernel[i].Espacio?
      ensures t.aKernel[i].bit <==> t.aKernel[i].pid in Vivos(t.particiones)
    {
      assert s.aKernel[i].pid == s.colaNew[0] == |s.admitidos| + 1;
    }
    forall p | Acabado(t, p) && p in Vivos(t.particiones) ensures FinProceso(p) in t.aMemoria {
      assert Acabado(s, p);
      SinPrimero(s.aMemoria, p);
    }
    forall p | Admitido(t, p) && !Acabado(t, p) ensures p in Vivos(t.particiones) {
      assert !Acabado(s, p);
    }
  }

  lemma {:induction false} EspacioPropia(s: Sistema)
    requires Turno(s) && Propia(s) && PuedeKernel(s) && s.aKernel[0].Espacio?
    ensures Propia(RecibeKernel(s))
  {
    var t := RecibeKernel(s);
    var pid := s.aKernel[0].pid;
    assert pid == |s.admitidos| + 1;
    BuscarNumerado(s.procesos, pid, 0);
    assert s.aKernel[0].bit <==> pid in Vivos(s.particiones);
    forall p | p in Vivos(t.particiones) ensures Admitido(t, p)
        || (p == |t.admitidos| + 1 && Respuestas(t.aKernel) > 0) {
      assert Admitido(s, p) || p == pid;
    }
    forall p | Acabado(t, p) && p in Vivos(t.particiones) ensures FinProceso(p) in t.aMemoria {
      assert Acabado(s, p);
    }
    forall p | Admitido(t, p) && !Acabado(t, p) ensures p in Vivos(t.particiones) {
      assert !Acabado(s, p) && (Admitido(s, p) || p == pid);
    }
    forall i | 0 <= i < |t.aMemoria| && t.aMemoria[i].FinProceso? ensures Acabado(t, t.aMemoria[i].pid) {
      assert i < |s.aMemoria| && Acabado(s, s.aMemoria[i].pid);
    }
  }

  /** Steps that neither change partitions, replies, admissions nor ends. */
  lemma {:induction false} MismaPropia(s: Sistema, t: Sistema)
    requires Propia(s) && t.particiones == s.particiones && t.admitidos == s.admitidos && t.perdidas == s.perdidas
    requires |t.procesos| >= |s.procesos|
    requires (forall i :: 0 <= i < |s.procesos| ==> t.procesos[i].acabado == s.procesos[i].acabado)
    requires |s.admitidos| <= |s.procesos| && (forall i :: |s.procesos| <= i < |t.procesos| ==> !t.procesos[i].acabado)
    requires Respuestas(t.aKernel) == Respuestas(s.aKernel)
    requires forall i :: 0 <= i < |t.aKernel| && t.aKernel[i].Espacio? ==> t.aKernel[i] in s.aKernel
    requires |s.aMemoria| <= |t.aMemoria| && t.aMemoria[..|s.aMemoria|] == s.aMemoria
    requires forall i :: |s.aMemoria| <= i < |t.aMemoria| ==> !t.aMemoria[i].FinProceso?
    ensures Propia(t)
  {
    forall i | 0 <= i < |t.aKernel| && t.aKernel[i].Espacio?
      ensures t.aKernel[i].bit <==> t.aKernel[i].pid in Vivos(t.particiones)
    {
      var j :| 0 <= j < |s.aKernel| && s.aKernel[j] == t.aKernel[i];
    }
    forall p | p in Vivos(t.particiones) ensures Admitido(t, p)
        || (p == |t.admitidos| + 1 && Respuestas(t.aKernel) > 0) {
      assert Admitido(s, p) || p == |s.admitidos| + 1;
    }
    forall i | 0 <= i < |t.aMemoria| && t.aMemoria[i].FinProceso? ensures Acabado(t, t.aMemoria[i].pid) {
      assert t.aMemoria[i] == t.aMemoria[..|s.aMemoria|][i] && Acabado(s, s.aMemoria[i].pid);
    }
    forall p | Acabado(t, p) && p in Vivos(t.particiones) ensures FinProceso(p) in t.aMemoria {
      assert Acabado(s, p);
      var k :| 0 <= k < |s.aMemoria| && s.aMemoria[k] == FinProceso(p);
      assert t.aMemoria[..|s.aMemoria|][k] == t.aMemoria[k];
    }
    forall p | Admitido(t, p) && !Acabado(t, p) ensures p in Vivos(t.particiones) {
      assert Admitido(s, p) && !Acabado(s, p);
    }
  }

  lemma {:induction false} AcabarPropia(s: Sistema, i: nat)
    requires Turno(s) && Presentes(s) && Propia(s) && PuedeAcabar(s, i)
    ensures Propia(AcabarProceso(s, i))
  {
    var t, pid := AcabarProceso(s, i), s.exec[i].pid;
    assert Activo(s, s.exec[i]) && Admitido(s, pid);
    BuscarNumerado(s.procesos, pid, 0);
    forall j | 0 <= j < |t.aMemoria| && t.aMemoria[j].FinProceso? ensures Acabado(t, t.aMemoria[j].pid) {
      assert j < |s.aMemoria| ==> Acabado(s, s.aMemoria[j].pid);
    }
    forall p | Acabado(t, p) && p in Vivos(t.particiones) ensures FinProceso(p) in t.aMemoria {
      if p == pid {
        assert t.aMemoria[|s.aMemoria|] == FinProceso(pid);
      } else {
        assert Acabado(s, p);
      }
    }
    forall p | Admitido(t, p) && !Acabado(t, p) ensures p in Vivos(t.particiones) {
      assert Admitido(s, p) && !Acabado(s, p);
    }
    forall p | p in Vivos(t.particiones) ensures Admitido(t, p)
        || (p == |t.admitidos| + 1 && Respuestas(t.aKernel) > 0) {
      assert Admitido(s, p) || p == |s.admitidos| + 1;
    }
  }

  lemma {:induction false} ThreadCreatePropia(s: Sistema, i: nat)
    requires Turno(s) && Presentes(s) && Propia(s) && i < |s.exec|
    ensures Propia(ThreadCreate(s, s.exec[i].pid))
  {
    MismaPropia(s, ThreadCreate(s, s.exec[i].pid));
  }

  lemma {:induction false} MemoriaPropia(c: Config, s: Sistema)
    requires c.v.Reparada? && Turno(s) && Presentes(s) && Propia(s) && s.aMemoria != []
    ensures Propia(RecibeMemoria(c, s))
  {
    match s.aMemoria[0]
    case PideEspacio(_, _) => PideEspacioPropia(c, s);
    case HiloListo(_) => CrearHiloPropia(s);
    case FinProceso(_) => FinProcesoPropia(c, s);
  }

  lemma {:induction false} KernelPropia(s: Sistema)
    requires Turno(s) && Presentes(s) && Propia(s) && PuedeKernel(s)
    ensures Propia(RecibeKernel(s))
  {
    if s.aKernel[0].Espacio? {
      EspacioPropia(s);
    } else {
      MismaPropia(s, RecibeKernel(s));
    }
  }

  lemma {:induction false} CrearProcesoPropia(s: Sistema, tam: nat)
    requires Turno(s) && Propia(s)
    ensures Propia(CrearProceso(s, tam))
  {
    MismaPropia(s, CrearProceso(s, tam));
  }

  lemma {:induction false} IniciarProcesoPropia(s: Sistema)
    requires Turno(s) && Propia(s) && Puede(s, Planifica)
    ensures Propia(IniciarProceso(s))
  {
    MismaPropia(s, IniciarProceso(s));
  }

  /** Neither processes, channels nor partitions change when a thread moves. */
  lemma {:induction false} MoverPropia(c: Config, s: Sistema, e: Evento)
    requires Turno(s) && Propia(s) && Puede(s, e) && (e.Despacha? || e.Vuelve? || e.Bloquea? || e.Desbloquea?)
    ensures Propia(Paso(c, s, e))
  {
    MismaPropia(s, Paso(c, s, e));
  }

  lemma {:induction false} PasoPropia(c: Config, s: Sistema, e: Evento)
    requires c.v.Reparada? && Turno(s) && Presentes(s) && Propia(s) && Puede(s, e)
    ensures Propia(Paso(c, s, e))
  {
    match e
    case Crea(tam) => CrearProcesoPropia(s, tam);
    case Planifica => IniciarProcesoPropia(s);
    case Memoria => MemoriaPropia(c, s);
    case Kernel => KernelPropia(s);
    case Hilo(i) => ThreadCreatePropia(s, i);
    case Acaba(i) => AcabarPropia(s, i);
    case _ => MoverPropia(c, s, e);
  }

  // --- What the memory module meets ---

  /** When the `k`-th message is received, the process of the thread it creates will hold a
      partition. */
  ghost predicate Llega(s: Sistema, k: nat)
    requires k < |s.aMemoria|
  {
    s.aMemoria[k].HiloListo? ==>
      var pid := s.aMemoria[k].id.pid;
      pid in Vivos(s.particiones) && forall j :: 0 <= j < k ==> s.aMemoria[j] != FinProceso(pid)
  }

  /** The memory module has not fallen over, and no message on its way will make it. */
  ghost predicate Respaldo(s: Sistema) {
    !s.caida && forall k :: 0 <= k < |s.aMemoria| ==> Llega(s, k)
  }

  /** The memory module has fallen over, or the `k`-th message will make it. */
  ghost predicate Condena(s: Sistema, k: nat) {
    s.caida || (k < |s.aMemoria| && s.aMemoria[k].HiloListo? && !Llega(s, k))
  }

  lemma {:induction false} AgregarRespaldo(s: Sistema, t: Sistema)
    requires Respaldo(s) && !t.caida && Vivos(t.particiones) == Vivos(s.particiones)
    requires |t.aMemoria| >= |s.aMemoria| && t.aMemoria[..|s.aMemoria|] == s.aMemoria
    requires forall k :: |s.aMemoria| <= k < |t.aMemoria| ==> Llega(t, k)
    ensures Respaldo(t)
  {
    forall k | 0 <= k < |t.aMemoria| ensures Llega(t, k) {
      if k < |s.aMemoria| {
        assert Llega(s, k) && t.aMemoria[..|s.aMemoria|][k] == s.aMemoria[k];
        forall j | 0 <= j < k ensures t.aMemoria[j] == s.aMemoria[j] {
          assert t.aMemoria[..|s.aMemoria|][j] == s.aMemoria[j];
        }
      }
    }
  }

  /** A thread of a process that goes on can be created. */
  lemma {:induction false} CrearEnVida(s: Sistema, t: Sistema, id: Id)
    requires Propia(s) && Respaldo(s) && !t.caida && Vivos(t.particiones) == Vivos(s.particiones)
    requires t.aMemoria == s.aMemoria + [HiloListo(id)] && id.pid in Vivos(s.particiones) && !Acabado(s, id.pid)
    ensures Respaldo(t)
  {
    forall j | 0 <= j < |s.aMemoria| ensures t.aMemoria[j] != FinProceso(id.pid) {
      assert s.aMemoria[j].FinProceso? ==> Acabado(s, s.aMemoria[j].pid);
    }
    AgregarRespaldo(s, t);
  }

  /** The partitions after a message is received, for a process other than the head of NEW. */
  lemma {:induction false} VivosTras(c: Config, s: Sistema, pid: nat)
    requires c.v.Reparada? && Turno(s) && Presentes(s) && Propia(s) && s.aMemoria != [] && Admitido(s, pid)
    ensures pid in Vivos(RecibeMemoria(c, s).particiones)
       <==> pid in Vivos(s.particiones) && s.aMemoria[0] != FinProceso(pid)
  {
    match s.aMemoria[0]
    case PideEspacio(otro, n) =>
      SinParticionAun(s);
      AsignarVivos(c.v, c.esq, c.alg, s.particiones, otro, n);
    case HiloListo(_) =>
    case FinProceso(_) => FinProcesoPropia(c, s);
  }

  lemma {:induction false} LlegaTras(c: Config, s: Sistema, k: nat)
    requires c.v.Reparada? && Turno(s) && Presentes(s) && Propia(s) && k + 1 < |s.aMemoria|
    ensures Llega(RecibeMemoria(c, s), k) <==> Llega(s, k + 1)
  {
    var t := RecibeMemoria(c, s);
    RecibeMemoriaEs(c, s);
    assert t.aMemoria[k] == s.aMemoria[k + 1];
    if s.aMemoria[k + 1].HiloListo? {
      var pid := s.aMemoria[k + 1].id.pid;
      assert s.aMemoria[k + 1].id in s.hilos && Admitido(s, pid);
      VivosTras(c, s, pid);
      if Llega(s, k + 1) {
        forall j | 0 <= j < k ensures t.aMemoria[j] != FinProceso(pid) {
          assert t.aMemoria[j] == s.aMemoria[j + 1];
        }
      }
      if Llega(t, k) {
        forall j | 0 <= j < k + 1 ensures s.aMemoria[j] != FinProceso(pid) {
          assert j > 0 ==> s.aMemoria[j] == t.aMemoria[j - 1];
        }
      }
    }
  }

  lemma {:induction false} CaeSii(c: Config, s: Sistema)
    requires c.v.Reparada? && Presentes(s) && Propia(s) && s.aMemoria != [] && !s.caida
    ensures RecibeMemoria(c, s).caida <==> s.aMemoria[0].HiloListo? && !Llega(s, 0)
  {
    if s.aMemoria[0].HiloListo? {
      assert s.aMemoria[0].id in s.hilos && Admitido(s, s.aMemoria[0].id.pid);
      TieneParticionSii(s.particiones, s.aMemoria[0].id.pid);
    }
  }

  lemma {:induction false} RecibeRespaldo(c: Config, s: Sistema)
    requires c.v.Reparada? && Turno(s) && Presentes(s) && Propia(s) && Respaldo(s) && s.aMemoria != []
    ensures Respaldo(RecibeMemoria(c, s))
  {
    var t := RecibeMemoria(c, s);
    RecibeMemoriaEs(c, s);
    assert Llega(s, 0);
    CaeSii(c, s);
    forall k | 0 <= k < |t.aMemoria| ensures Llega(t, k) {
      assert Llega(s, k + 1);
      LlegaTras(c, s, k);
    }
  }

  lemma {:induction false} CrearHiloMainRespaldo(s: Sistema)
    requires Turno(s) && Presentes(s) && Propia(s) && Respaldo(s) && PuedeKernel(s) && s.aKernel[0].Espacio?
    requires s.aKernel[0].bit
    ensures Respaldo(RecibeKernel(s))
  {
    var t, pid := RecibeKernel(s), s.aKernel[0].pid;
    BuscarNumerado(s.procesos, pid, 0);
    assert Acabado(s, pid) ==> Admitido(s, pid);
    CrearEnVida(s, t, t.aMemoria[|s.aMemoria|].id);
  }

  lemma {:induction false} ThreadCreateRespaldo(s: Sistema, i: nat)
    requires Turno(s) && Presentes(s) && Propia(s) && Respaldo(s) && i < |s.exec| && !Acabado(s, s.exec[i].pid)
    ensures Respaldo(ThreadCreate(s, s.exec[i].pid))
  {
    var pid := s.exec[i].pid;
    assert Activo(s, s.exec[i]) && Admitido(s, pid);
    BuscarNumerado(s.procesos, pid, 0);
    var t := ThreadCreate(s, pid);
    CrearEnVida(s, t, t.aMemoria[|s.aMemoria|].id);
  }

  lemma {:induction false} PasoRespaldo(c: Config, s: Sistema, e: Evento)
    requires c.v.Reparada? && Turno(s) && Presentes(s) && Propia(s) && Respaldo(s) && Puede(s, e) && !Fantasma(s, e)
    ensures Respaldo(Paso(c, s, e))
  {
    match e
    case Memoria => RecibeRespaldo(c, s);
    case Kernel =>
      if s.aKernel[0].Espacio? && s.aKernel[0].bit { CrearHiloMainRespaldo(s); }
          else { AgregarRespaldo(s, Paso(c, s, e)); }
    case Hilo(i) => ThreadCreateRespaldo(s, i);
    case _ => AgregarRespaldo(s, Paso(c, s, e));
  }

  /** A thread of an ended process is created after the memory module is told of the end. */
  lemma {:induction false} FantasmaCondena(c: Config, s: Sistema, e: Evento)
    requires Turno(s) && Presentes(s) && Propia(s) && Puede(s, e) && Fantasma(s, e)
    ensures Condena(Paso(c, s, e), |s.aMemoria|)
  {
    var t, pid := Paso(c, s, e), s.exec[e.i].pid;
    BuscarNumerado(s.procesos, pid, 0);
    if pid in Vivos(s.particiones) {
      var j :| 0 <= j < |s.aMemoria| && s.aMemoria[j] == FinProceso(pid);
      assert t.aMemoria[j] == FinProceso(pid);
    }
  }

  lemma {:induction false} MismaCondena(s: Sistema, t: Sistema, k: nat)
    requires Condena(s, k) && (s.caida ==> t.caida) && t.particiones == s.particiones
    requires |t.aMemoria| >= |s.aMemoria| && t.aMemoria[..|s.aMemoria|] == s.aMemoria
    ensures Condena(t, k)
  {
    if !t.caida {
      assert t.aMemoria[..|s.aMemoria|][k] == s.aMemoria[k];
      if Llega(t, k) {
        forall j | 0 <= j < k ensures s.aMemoria[j] != FinProceso(s.aMemoria[k].id.pid) {
          assert t.aMemoria[..|s.aMemoria|][j] == s.aMemoria[j];
        }
      }
    }
  }

  lemma {:induction false} RecibeCondena(c: Config, s: Sistema, k: nat)
    requires c.v.Reparada? && Turno(s) && Presentes(s) && Propia(s) && Condena(s, k) && s.aMemoria != [] && !s.caida
    ensures Condena(RecibeMemoria(c, s), if k > 0 then k - 1 else k)
  {
    CaeSii(c, s);
    if k > 0 {
      RecibeMemoriaEs(c, s);
      LlegaTras(c, s, k - 1);
    }
  }

  /** Whatever happens next, the message that will make the memory module fall over stays on its
      way until it does. */
  lemma {:induction false} PasoCondena(c: Config, s: Sistema, e: Evento, k: nat)
    requires c.v.Reparada? && Turno(s) && Presentes(s) && Propia(s) && Condena(s, k) && Puede(s, e)
    ensures Condena(Paso(c, s, e), if e == Memoria && k > 0 then k - 1 else k)
  {
    if e == Memoria {
      RecibeCondena(c, s, k);
    } else {
      MismaCondena(s, Paso(c, s, e), k);
    }
  }

  lemma {:induction false} CorrerCondena(c: Config, s: Sistema, es: seq<Evento>, k: nat) returns (m: nat)
    requires c.v.Reparada? && Turno(s) && Presentes(s) && Propia(s) && Condena(s, k)
    ensures Condena(Correr(c, s, es), m)
    decreases |es|
  {
    m := k;
    if es == [] {
    } else {
      var e := es[0];
      if Puede(s, e) {
        PasoTurno(c, s, e);
        PasoPresentes(c, s, e);
        PasoPropia(c, s, e);
        PasoCondena(c, s, e, k);
        m := CorrerCondena(c, Paso(c, s, e), es[1..], if e == Memoria && k > 0 then k - 1 else k);
      } else {
        m := CorrerCondena(c, s, es[1..], k);
      }
    }
  }

  /** The memory module receives `n` messages, if there are so many and it stays up. */
  function Memorias(n: nat): (es: seq<Evento>)
    ensures |es| == n
  {
    seq(n, _ => Memoria)
  }

  lemma {:induction false} UnaMemoriaMas(c: Config, s: Sistema, n: nat)
    requires n > 0
    ensures Correr(c, s, Memorias(n)) == Correr(c, if Puede(s, Memoria) then RecibeMemoria(c, s)
        else s, Memorias(n - 1))
  {
    assert Memorias(n)[0] == Memoria && Memorias(n)[1..] == Memorias(n - 1);
  }

  lemma {:induction false} DrenarCae(c: Config, s: Sistema, k: nat, n: nat)
    requires c.v.Reparada? && Turno(s) && Presentes(s) && Propia(s) && Condena(s, k)
    requires s.caida || n >= |s.aMemoria|
    ensures Correr(c, s, Memorias(n)).caida
    decreases n
  {
    if n == 0 {
    } else {
      UnaMemoriaMas(c, s, n);
      if Puede(s, Memoria) {
        PasoTurno(c, s, Memoria);
        PasoPresentes(c, s, Memoria);
        PasoPropia(c, s, Memoria);
        PasoCondena(c, s, Memoria, k);
        RecibeMemoriaEs(c, s);
        DrenarCae(c, RecibeMemoria(c, s), if k > 0 then k - 1 else k, n - 1);
      } else {
        DrenarCae(c, s, k, n - 1);
      }
    }
  }

  // --- Runs from the start ---

  ghost predicate ListaInicial(ps: seq<Part>) {
    forall q :: q in ps ==> q.libre && q.pid == 0
  }

  lemma {:induction false} InicioBien(ps: seq<Part>)
    requires ListaInicial(ps)
    ensures Turno(Inicio(ps)) && Presentes(Inicio(ps)) && Unicos(Inicio(ps)) && Propia(Inicio(ps))
    ensures Respaldo(Inicio(ps))
  {
    forall id ensures HiloBien(Inicio(ps), id) {
    }
  }

  lemma {:induction false} CorrerPropia(c: Config, s: Sistema, es: seq<Evento>)
    requires c.v.Reparada? && Turno(s) && Presentes(s) && Propia(s)
    ensures Turno(Correr(c, s, es)) && Presentes(Correr(c, s, es)) && Propia(Correr(c, s, es))
    decreases |es|
  {
    if es == [] {
    } else {
      if Puede(s, es[0]) {
        PasoTurno(c, s, es[0]);
        PasoPresentes(c, s, es[0]);
        PasoPropia(c, s, es[0]);
      }
      CorrerPropia(c, if Puede(s, es[0]) then Paso(c, s, es[0]) else s, es[1..]);
    }
  }

  /** With the repairs, a run either keeps every creation on its way safe, or has sent one that
      will make the memory module fall over. */
  lemma {:induction false} CorrerRespaldo(c: Config, s: Sistema, es: seq<Evento>) returns (k: nat)
    requires c.v.Reparada? && Turno(s) && Presentes(s) && Propia(s) && Respaldo(s)
    ensures SinFantasmas(c, s, es) ==> Respaldo(Correr(c, s, es))
    ensures !SinFantasmas(c, s, es) ==> Condena(Correr(c, s, es), k)
    decreases |es|
  {
    k := 0;
    if es == [] {
    } else {
      var e := es[0];
      if Puede(s, e) {
        PasoTurno(c, s, e);
        PasoPresentes(c, s, e);
        PasoPropia(c, s, e);
        if Fantasma(s, e) {
          FantasmaCondena(c, s, e);
          k := CorrerCondena(c, Paso(c, s, e), es[1..], |s.aMemoria|);
        } else {
          PasoRespaldo(c, s, e);
          k := CorrerRespaldo(c, Paso(c, s, e), es[1..]);
        }
      } else {
        k := CorrerRespaldo(c, s, es[1..]);
      }
    }
  }

  /** The memory module only receives: no thread of an ended process is created. */
  lemma {:induction false} MemoriasSinFantasmas(c: Config, s: Sistema, n: nat)
    ensures SinFantasmas(c, s, Memorias(n))
    decreases n
  {
    if n == 0 {
    } else {
      assert Memorias(n)[0] == Memoria && Memorias(n)[1..] == Memorias(n - 1);
      MemoriasSinFantasmas(c, if Puede(s, Memoria) then Paso(c, s, Memoria) else s, n - 1);
    }
  }

  // --- Main results ---

  /** The kernel can serve any message it receives. */
  lemma {:induction false} PuedeServir(s: Sistema)
    requires Turno(s)
    ensures s.aKernel != [] ==> PuedeKernel(s)
  {
    if s.colaNew != [] {
      BuscarNumerado(s.procesos, s.colaNew[0], 0);
    }
  }

  /** Over every run, as written or repaired: planner tokens, space requests and space replies
      on their way, and requests never answered total one; each of those messages is about the
      head of NEW, so the kernel can serve whatever it receives; and processes are admitted in the
      order they were created. */
  lemma {:induction false} UnaFichaSiempre(c: Config, ps: seq<Part>, es: seq<Evento>)
    requires ListaInicial(ps)
    ensures var s := Correr(c, Inicio(ps), es);
      && s.fichas + Pedidos(s.aMemoria) + Respuestas(s.aKernel) + s.perdidas == 1
      && DeLaCabeza(s) && (s.aKernel != [] ==> PuedeKernel(s))
      && EnOrden(s.admitidos, s.colaNew, |s.procesos|)
  {
    InicioBien(ps);
    CorrerTurno(c, Inicio(ps), es);
    PuedeServir(Correr(c, Inicio(ps), es));
  }

  // --- What processes and threads are given ---

  /** The sizes asked for, in order. */
  function Creaciones(es: seq<Evento>): seq<nat>
    decreases |es|
  {
    if es == [] then [] else (if es[0].Crea? then [es[0].tam] else []) + Creaciones(es[1..])
  }

  function Tamanios(ps: seq<Pcb>): (ts: seq<nat>)
    ensures |ts| == |ps|
    ensures forall i :: 0 <= i < |ts| ==> ts[i] == ps[i].tam
  {
    seq(|ps|, i requires 0 <= i < |ps| => ps[i].tam)
  }

  lemma {:induction false} PasoTamanios(c: Config, s: Sistema, e: Evento)
    requires Puede(s, e)
    ensures Tamanios(Paso(c, s, e).procesos) == Tamanios(s.procesos) + if e.Crea? then [e.tam] else []
  {
    hide Asignar, Finalizar;
  }

  lemma {:induction false} CorrerTamanios(c: Config, s: Sistema, es: seq<Evento>)
    ensures Tamanios(Correr(c, s, es).procesos) == Tamanios(s.procesos) + Creaciones(es)
    decreases |es|
  {
    if es == [] {
    } else {
      var t := if Puede(s, es[0]) then Paso(c, s, es[0]) else s;
      if Puede(s, es[0]) {
        PasoTamanios(c, s, es[0]);
      }
      CorrerTamanios(c, t, es[1..]);
      Asociar(Tamanios(s.procesos), if es[0].Crea? then [es[0].tam] else [], Creaciones(es[1..]));
      assert !es[0].Crea? ==> Tamanios(s.procesos) + [] == Tamanios(s.procesos);
      assert !es[0].Crea? ==> [] + Creaciones(es[1..]) == Creaciones(es[1..]);
    }
  }

  /** A partition handed out for `n` bytes: of that size in the dynamic scheme, at least that in the
      fixed one. */
  predicate Mide(esq: Esquema, q: Part, n: nat) {
    if esq.Dinamicas? then q.tamanio == n else q.tamanio >= n
  }

  predicate MideBien(esq: Esquema, q: Part, ts: seq<nat>) {
    q.libre || (1 <= q.pid <= |ts| && Mide(esq, q, ts[q.pid - 1]))
  }

  predicate PideBien(m: AMemoria, ts: seq<nat>) {
    m.PideEspacio? ==> 1 <= m.pid <= |ts| && m.tam == ts[m.pid - 1]
  }

  /** Requests on their way ask for the size of their process, and partitions in use have it. */
  ghost predicate Medidas(c: Config, s: Sistema) {
    var ts := Tamanios(s.procesos);
    && (forall k :: 0 <= k < |s.aMemoria| ==> PideBien(s.aMemoria[k], ts))
    && (forall q :: q in s.particiones ==> MideBien(c.esq, q, ts))
  }

  /** What is handed out has the size asked for. */
  lemma {:induction false} EntregadaMide(esq: Esquema, p: Part, pid: nat, n: nat, ts: seq<nat>)
    requires 1 <= pid <= |ts| && n == ts[pid - 1] && Cabe(p, n)
    ensures MideBien(esq, Entregada(esq, p, pid, n), ts)
  {
  }

  lemma {:induction false} AsignarMideUna(c: Config, ps: seq<Part>, pid: nat, n: nat, ts: seq<nat>, q: Part)
    requires 1 <= pid <= |ts| && n == ts[pid - 1] && (q in ps ==> MideBien(c.esq, q, ts))
    requires q in Asignar(c.v, c.esq, c.alg, ps, pid, n).0 && !q.libre
    ensures MideBien(c.esq, q, ts)
  {
    hide Asignar, Elegir, MideBien, Entregada;
    var e := Elegir(c.alg, ps, n, |ps|);
    AsignarEntrega(c.v, c.esq, c.alg, ps, pid, n, q);
    assert multiset(Asignar(c.v, c.esq, c.alg, ps, pid, n).0)[q] > 0;
    if e >= 0 && Entregada(c.esq, ps[e], pid, n) == q {
      EntregadaMide(c.esq, ps[e], pid, n, ts);
    } else {
      assert multiset(ps)[q] > 0;
    }
  }

  lemma {:induction false} AsignarMide(c: Config, ps: seq<Part>, pid: nat, n: nat, ts: seq<nat>)
    requires 1 <= pid <= |ts| && n == ts[pid - 1] && forall q :: q in ps ==> MideBien(c.esq, q, ts)
    ensures forall q :: q in Asignar(c.v, c.esq, c.alg, ps, pid, n).0 ==> MideBien(c.esq, q, ts)
  {
    hide Asignar;
    forall q | q in Asignar(c.v, c.esq, c.alg, ps, pid, n).0 ensures MideBien(c.esq, q, ts) {
      if !q.libre {
        AsignarMideUna(c, ps, pid, n, ts, q);
      }
    }
  }

  lemma {:induction false} FinalizarMide(c: Config, ps: seq<Part>, pid: nat, ts: seq<nat>)
    requires forall q :: q in ps ==> MideBien(c.esq, q, ts)
    ensures forall q :: q in Finalizar(c.v, c.esq, ps, pid) ==> MideBien(c.esq, q, ts)
  {
    var r := Finalizar(c.v, c.esq, ps, pid);
    forall q | q in r ensures MideBien(c.esq, q, ts) {
      if !q.libre {
        FinalizarDevuelve(c.v, c.esq, ps, pid, q);
        assert multiset(r)[q] > 0;
        assert multiset(ps)[q] > 0;
      }
    }
  }

  lemma {:induction false} RecibeMedidas(c: Config, s: Sistema)
    requires Medidas(c, s) && s.aMemoria != []
    ensures Medidas(c, RecibeMemoria(c, s))
  {
    hide Asignar, Finalizar;
    var ts := Tamanios(s.procesos);
    assert PideBien(s.aMemoria[0], ts);
    match s.aMemoria[0]
    case PideEspacio(pid, tam) => AsignarMide(c, s.particiones, pid, tam, ts);
    case HiloListo(_) =>
    case FinProceso(pid) => FinalizarMide(c, s.particiones, pid, ts);
  }

  lemma {:induction false} PasoMedidas(c: Config, s: Sistema, e: Evento)
    requires Turno(s) && Medidas(c, s) && Puede(s, e)
    ensures Medidas(c, Paso(c, s, e))
  {
    hide Asignar, Finalizar;
    PasoTamanios(c, s, e);
    if e.Memoria? {
      RecibeMedidas(c, s);
    } else {
      var t := Paso(c, s, e);
      var ts, us := Tamanios(s.procesos), Tamanios(t.procesos);
      assert forall i :: 0 <= i < |ts| ==> us[i] == ts[i];
      forall k | 0 <= k < |t.aMemoria| ensures PideBien(t.aMemoria[k], us) {
        if k < |s.aMemoria| {
          assert PideBien(s.aMemoria[k], ts) && t.aMemoria[k] == s.aMemoria[k];
        } else if e.Planifica? {
          BuscarNumerado(s.procesos, s.colaNew[0], 0);
        }
      }
      forall q | q in t.particiones ensures MideBien(c.esq, q, us) {
        assert MideBien(c.esq, q, ts);
      }
    }
  }

  lemma {:induction false} CorrerMedidas(c: Config, s: Sistema, es: seq<Evento>)
    requires Turno(s) && Medidas(c, s)
    ensures Medidas(c, Correr(c, s, es))
    decreases |es|
  {
    if es == [] {
    } else {
      if Puede(s, es[0]) {
        PasoTurno(c, s, es[0]);
        PasoMedidas(c, s, es[0]);
      }
      CorrerMedidas(c, if Puede(s, es[0]) then Paso(c, s, es[0]) else s, es[1..]);
    }
  }

  lemma {:induction false} InicioMedidas(c: Config, ps: seq<Part>)
    requires ListaInicial(ps)
    ensures Medidas(c, Inicio(ps)) && Tamanios(Inicio(ps).procesos) == []
  {
  }

  /** Over every run, as written or repaired: the processes have the sizes asked for, in the order of
      their creations, and whoever holds a partition holds one of its size, or at least of its size in
      the fixed scheme. */
  lemma {:induction false} TamanioSiempre(c: Config, ps: seq<Part>, es: seq<Evento>, q: Part)
    requires ListaInicial(ps)
    ensures var s := Correr(c, Inicio(ps), es);
      && Tamanios(s.procesos) == Creaciones(es)
      && (q in s.particiones && !q.libre ==> 1 <= q.pid <= |s.procesos| && Mide(c.esq, q, Creaciones(es)[q.pid - 1]))
  {
    hide Correr, Creaciones, Mide, Turno, Presentes, Unicos, Propia, Respaldo;
    InicioBien(ps);
    CorrerTamanios(c, Inicio(ps), es);
    assert [] + Creaciones(es) == Creaciones(es);
    InicioMedidas(c, ps);
    CorrerMedidas(c, Inicio(ps), es);
    assert q in Correr(c, Inicio(ps), es).particiones ==> MideBien(c.esq, q, Creaciones(es));
  }

  /** The threads of a process that has not ended are numbered 0, 1, 3, 5... up to its counter. */
  ghost predicate NumerosDe(hilos: seq<Id>, pid: nat, contador: int) {
    contador >= 0 && contador % 2 == 0
    && forall t: nat :: T.Id(pid, t) in hilos <==> t == 0 || (t % 2 == 1 && t < contador)
  }

  ghost predicate Seguidos(s: Sistema) {
    forall pid: nat :: Admitido(s, pid) && pid <= |s.procesos| && !Acabado(s, pid) ==>
      NumerosDe(s.hilos, pid, s.procesos[pid - 1].contador)
  }

  lemma {:induction false} CrearHiloMainSeguidos(s: Sistema)
    requires Turno(s) && Presentes(s) && Seguidos(s) && PuedeKernel(s) && s.aKernel[0].Espacio? && s.aKernel[0].bit
    ensures Seguidos(RecibeKernel(s))
  {
    var t, nuevo := RecibeKernel(s), s.colaNew[0];
    BuscarNumerado(s.procesos, nuevo, 0);
    forall pid: nat | Admitido(t, pid) && pid <= |t.procesos| && !Acabado(t, pid)
      ensures NumerosDe(t.hilos, pid, t.procesos[pid - 1].contador)
    {
      if pid == nuevo {
        forall k: nat ensures T.Id(pid, k) in t.hilos <==> k == 0 {
          assert T.Id(pid, k) in s.hilos ==> Admitido(s, pid);
        }
      } else {
        assert Admitido(s, pid) && !Acabado(s, pid);
        assert NumerosDe(s.hilos, pid, s.procesos[pid - 1].contador);
        forall k: nat ensures T.Id(pid, k) in t.hilos <==> T.Id(pid, k) in s.hilos {
        }
      }
    }
  }

  lemma {:induction false} ThreadCreateSeguidos(s: Sistema, i: nat)
    requires Turno(s) && Presentes(s) && Seguidos(s) && i < |s.exec|
    ensures Seguidos(ThreadCreate(s, s.exec[i].pid))
  {
    var creador := s.exec[i].pid;
    assert Activo(s, s.exec[i]) && Admitido(s, creador);
    BuscarNumerado(s.procesos, creador, 0);
    var t, c := ThreadCreate(s, creador), s.procesos[creador - 1].contador;
    forall pid: nat | Admitido(t, pid) && pid <= |t.procesos| && !Acabado(t, pid)
      ensures NumerosDe(t.hilos, pid, t.procesos[pid - 1].contador)
    {
      assert Admitido(s, pid) && !Acabado(s, pid);
      assert NumerosDe(s.hilos, pid, s.procesos[pid - 1].contador);
      forall k: nat ensures T.Id(pid, k) in t.hilos <==> T.Id(pid, k) in s.hilos || (pid == creador && k == c + 1) {
      }
    }
  }

  lemma {:induction false} MismosSeguidos(s: Sistema, t: Sistema)
    requires Seguidos(s) && t.hilos == s.hilos && t.admitidos == s.admitidos && |t.procesos| >= |s.procesos|
    requires |s.admitidos| <= |s.procesos|
    requires forall i :: 0 <= i < |s.procesos| && !t.procesos[i].acabado ==> t.procesos[i] == s.procesos[i]
    ensures Seguidos(t)
  {
    forall pid: nat | Admitido(t, pid) && pid <= |t.procesos| && !Acabado(t, pid)
      ensures NumerosDe(t.hilos, pid, t.procesos[pid - 1].contador)
    {
      assert Admitido(s, pid) && !Acabado(s, pid);
    }
  }

  lemma {:induction false} PasoSeguidos(c: Config, s: Sistema, e: Evento)
    requires Turno(s) && Presentes(s) && Seguidos(s) && Puede(s, e)
    ensures Seguidos(Paso(c, s, e))
  {
    match e
    case Kernel =>
      if s.aKernel[0].Espacio? && s.aKernel[0].bit {
        CrearHiloMainSeguidos(s);
      } else {
        MismosSeguidos(s, Paso(c, s, e));
      }
    case Hilo(i) => ThreadCreateSeguidos(s, i);
    case Memoria => RecibeMemoriaEs(c, s); MismosSeguidos(s, RecibeMemoria(c, s));
    case _ => MismosSeguidos(s, Paso(c, s, e));
  }

  lemma {:induction false} CorrerSeguidos(c: Config, s: Sistema, es: seq<Evento>)
    requires Turno(s) && Presentes(s) && Seguidos(s)
    ensures Turno(Correr(c, s, es)) && Presentes(Correr(c, s, es)) && Seguidos(Correr(c, s, es))
    decreases |es|
  {
    if es == [] {
    } else {
      if Puede(s, es[0]) {
        PasoTurno(c, s, es[0]);
        PasoPresentes(c, s, es[0]);
        PasoSeguidos(c, s, es[0]);
      }
      CorrerSeguidos(c, if Puede(s, es[0]) then Paso(c, s, es[0]) else s, es[1..]);
    }
  }

  /** Over every run, as written or repaired, the threads of an admitted process that has not ended are
      numbered 0, 1, 3, 5... with none left out up to its counter, and no others. */
  lemma {:induction false} NumerosSiempre(c: Config, ps: seq<Part>, es: seq<Evento>, pid: nat)
    requires ListaInicial(ps)
    ensures var s := Correr(c, Inicio(ps), es);
      Admitido(s, pid) && !Acabado(s, pid) ==>
        pid <= |s.procesos| && NumerosDe(s.hilos, pid, s.procesos[pid - 1].contador)
  {
    InicioBien(ps);
    CorrerSeguidos(c, Inicio(ps), es);
  }

  /** With the repairs no request goes unanswered, so the token is never lost. */
  lemma {:induction false} NingunaFichaPerdida(c: Config, ps: seq<Part>, es: seq<Evento>)
    requires ListaInicial(ps) && c.v.Reparada?
    ensures var s := Correr(c, Inicio(ps), es);
      s.perdidas == 0 && s.fichas + Pedidos(s.aMemoria) + Respuestas(s.aKernel) == 1
  {
    InicioBien(ps);
    CorrerPropia(c, Inicio(ps), es);
    UnaFichaSiempre(c, ps, es);
  }

  /** Over every run, as written or repaired: dispatches made and tokens left are the creation
      confirmations received, and there are at least as many ready threads as tokens, so a
      dispatch never takes from an empty list. */
  lemma {:induction false} PresupuestoSiempre(c: Config, ps: seq<Part>, es: seq<Evento>)
    requires ListaInicial(ps)
    ensures var s := Correr(c, Inicio(ps), es);
      s.despachos + s.aPlanificar == s.confirmaciones && s.aPlanificar <= |s.ready|
  {
    InicioBien(ps);
    CorrerPresentes(c, Inicio(ps), es);
  }

  lemma {:induction false} SinFichasPaso(c: Config, s: Sistema, e: Evento)
    requires s.aPlanificar == 0
    ensures Puede(s, e) ==> Paso(c, s, e).confirmaciones >= s.confirmaciones
    ensures Puede(s, e) && Paso(c, s, e).confirmaciones == s.confirmaciones ==>
      Paso(c, s, e).aPlanificar == 0 && Paso(c, s, e).despachos == s.despachos && s.ready <= Paso(c, s, e).ready
  {
  }

  lemma {:induction false} ConfirmacionesCrecen(c: Config, s: Sistema, es: seq<Evento>)
    ensures Correr(c, s, es).confirmaciones >= s.confirmaciones
    decreases |es|
  {
    if es == [] {
    } else {
      ConfirmacionesCrecen(c, if Puede(s, es[0]) then Paso(c, s, es[0]) else s, es[1..]);
    }
  }

  /** A thread that comes back to READY brings no token: with none left, and until a creation is
      confirmed, nobody is dispatched and every ready thread stays where it is. */
  lemma {:induction false} SinFichasNadieCorre(c: Config, s: Sistema, es: seq<Evento>)
    requires s.aPlanificar == 0 && Correr(c, s, es).confirmaciones == s.confirmaciones
    ensures Correr(c, s, es).despachos == s.despachos && s.ready <= Correr(c, s, es).ready
    decreases |es|
  {
    if es == [] {
    } else {
      var t := if Puede(s, es[0]) then Paso(c, s, es[0]) else s;
      ConfirmacionesCrecen(c, t, es[1..]);
      SinFichasPaso(c, s, es[0]);
      SinFichasNadieCorre(c, t, es[1..]);
    }
  }

  /** As written or repaired, no two threads ever have the same process and number exactly when no
      thread of an ended process creates another: the counter of such a process is -1, and the
      next number is that of its main thread. Then, too, each thread enters READY from its
      creation at most once, and its number is 0 or odd. */
  lemma {:induction false} HilosUnaVez(c: Config, ps: seq<Part>, es: seq<Evento>)
    requires ListaInicial(ps)
    ensures var s := Correr(c, Inicio(ps), es);
      && (SinRepetir(s) <==> SinFantasmas(c, Inicio(ps), es))
      && (SinRepetir(s) ==> forall id ::
            && I.Veces(s.entradas, id) <= I.Veces(s.hilos, id) <= 1
            && (id in s.hilos ==> id.tid == 0 || id.tid % 2 == 1))
  {
    InicioBien(ps);
    CorrerUnicos(c, Inicio(ps), es);
    var s := Correr(c, Inicio(ps), es);
    if Unicos(s) {
      forall id ensures I.Veces(s.entradas, id) <= I.Veces(s.hilos, id) <= 1 && (id in s.hilos ==>
          id.tid == 0 || id.tid % 2 == 1) {
        assert HiloBien(s, id);
        assert id in s.hilos ==> NumeroBien(s, id);
      }
    }
  }

  /** With the repairs, the memory module never meets the creation of a thread whose process holds
      no partition, now or once it has received all that is on its way, exactly when no thread of
      an ended process has created another. */
  lemma {:induction false} MemoriaCaeSii(c: Config, ps: seq<Part>, es: seq<Evento>)
    requires ListaInicial(ps) && c.v.Reparada?
    ensures var s := Correr(c, Inicio(ps), es);
      && (Correr(c, s, Memorias(|s.aMemoria|)).caida <==> !SinFantasmas(c, Inicio(ps), es))
      && (SinFantasmas(c, Inicio(ps), es) ==> !s.caida)
  {
    InicioBien(ps);
    var s := Correr(c, Inicio(ps), es);
    CorrerPropia(c, Inicio(ps), es);
    var k := CorrerRespaldo(c, Inicio(ps), es);
    if SinFantasmas(c, Inicio(ps), es) {
      MemoriasSinFantasmas(c, s, |s.aMemoria|);
      var m := CorrerRespaldo(c, s, Memorias(|s.aMemoria|));
    } else {
      DrenarCae(c, s, k, |s.aMemoria|);
    }
  }

  /** With the repairs, as long as no thread of an ended process creates another: every thread of
      `lista_tcbs` is being created or has entered READY, exactly once; a creation on its way will
      find its process's partition; and a confirmation on its way names a process that holds one,
      unless that process has ended since. */
  lemma {:induction false} CreacionRespaldada(c: Config, ps: seq<Part>, es: seq<Evento>, id: Id)
    requires ListaInicial(ps) && c.v.Reparada? && SinFantasmas(c, Inicio(ps), es)
    ensures var s := Correr(c, Inicio(ps), es);
      && Listos(s.aMemoria, id) + Creados(s.aKernel, id) + I.Veces(s.entradas, id) == (if id in s.hilos then 1 else 0)
      && (forall k :: 0 <= k < |s.aMemoria| ==> Llega(s, k))
      && (Creados(s.aKernel, id) > 0 ==> id.pid in Vivos(s.particiones) || Acabado(s, id.pid))
  {
    InicioBien(ps);
    CorrerUnicos(c, Inicio(ps), es);
    CorrerPropia(c, Inicio(ps), es);
    var _ := CorrerRespaldo(c, Inicio(ps), es);
    var s := Correr(c, Inicio(ps), es);
    assert HiloBien(s, id);
    I.EstaSii(s.hilos, id);
    if Creados(s.aKernel, id) > 0 {
      assert Admitido(s, id.pid);
    }
  }

  // --- A process that ends while its threads are being created ---

  /** Creations of threads of `pid` on their way to the memory module. */
  function PorCrear(ms: seq<AMemoria>, pid: nat): nat {
    if ms == [] then 0 else PorCrear(ms[1..], pid) + if ms[0].HiloListo? && ms[0].id.pid == pid then 1 else 0
  }

  /** Confirmations of threads of `pid` on their way to the kernel. */
  function PorConfirmar(ms: seq<AKernel>, pid: nat): nat {
    if ms == [] then 0 else PorConfirmar(ms[1..], pid) + if ms[0].HiloCreado? && ms[0].id.pid == pid then 1 else 0
  }

  lemma {:induction false} PorCrearMas(ms: seq<AMemoria>, m: AMemoria, pid: nat)
    ensures PorCrear(ms + [m], pid) == PorCrear(ms, pid) + if m.HiloListo? && m.id.pid == pid then 1 else 0
  {
    if ms == [] {
    } else {
      assert (ms + [m])[1..] == ms[1..] + [m];
      PorCrearMas(ms[1..], m, pid);
    }
  }

  lemma {:induction false} PorConfirmarMas(ms: seq<AKernel>, m: AKernel, pid: nat)
    ensures PorConfirmar(ms + [m], pid) == PorConfirmar(ms, pid) + if m.HiloCreado? && m.id.pid == pid then 1 else 0
  {
    if ms == [] {
    } else {
      assert (ms + [m])[1..] == ms[1..] + [m];
      PorConfirmarMas(ms[1..], m, pid);
    }
  }

  lemma {:induction false} RecibidoCuenta(s: Sistema, t: Sistema, pid: nat)
    requires s.aMemoria != [] && Recibido(s, t) && !t.caida
    ensures PorCrear(t.aMemoria, pid) + PorConfirmar(t.aKernel, pid) == PorCrear(s.aMemoria,
        pid) + PorConfirmar(s.aKernel, pid)
  {
    if |t.aKernel| > |s.aKernel| {
      PorConfirmarMas(s.aKernel, t.aKernel[|s.aKernel|], pid);
    }
  }

  /** Once the memory module has received all that was on its way, every creation of the process
      has become a confirmation. */
  lemma {:induction false} DrenarCuenta(c: Config, s: Sistema, n: nat, pid: nat)
    requires c.v.Reparada? && Turno(s) && Presentes(s) && Propia(s) && Respaldo(s) && n == |s.aMemoria|
    ensures var t := Correr(c, s, Memorias(n));
      && Turno(t) && Presentes(t) && Propia(t) && t.aMemoria == [] && t.procesos == s.procesos
          && t.admitidos == s.admitidos
      && PorConfirmar(t.aKernel, pid) == PorCrear(s.aMemoria, pid) + PorConfirmar(s.aKernel, pid)
    decreases n
  {
    if n == 0 {
    } else {
      UnaMemoriaMas(c, s, n);
      PasoTurno(c, s, Memoria);
      PasoPresentes(c, s, Memoria);
      PasoPropia(c, s, Memoria);
      RecibeRespaldo(c, s);
      RecibeMemoriaEs(c, s);
      RecibidoCuenta(s, RecibeMemoria(c, s), pid);
      DrenarCuenta(c, RecibeMemoria(c, s), n - 1, pid);
    }
  }

  /** A process ends, and the memory module then receives all that is on its way, before anything
      else happens. The process holds no partition, and the confirmations of its threads that are on
      their way are as many as its creations that were unconfirmed at its end. */
  lemma {:induction false} ConfirmacionesTras(c: Config, ps: seq<Part>, es: seq<Evento>, i: nat)
    requires ListaInicial(ps) && c.v.Reparada? && SinFantasmas(c, Inicio(ps), es)
    requires PuedeAcabar(Correr(c, Inicio(ps), es), i)
    ensures var s := Correr(c, Inicio(ps), es);
      var pid, s1 := s.exec[i].pid, AcabarProceso(s, i);
      var t := Correr(c, s1, Memorias(|s1.aMemoria|));
      && pid !in Vivos(t.particiones) && t.aMemoria == []
      && PorConfirmar(t.aKernel, pid) == PorCrear(s.aMemoria, pid) + PorConfirmar(s.aKernel, pid)
  {
    InicioBien(ps);
    CorrerPropia(c, Inicio(ps), es);
    var _ := CorrerRespaldo(c, Inicio(ps), es);
    var s := Correr(c, Inicio(ps), es);
    var pid, s1 := s.exec[i].pid, AcabarProceso(s, i);
    assert Activo(s, s.exec[i]) && Admitido(s, pid);
    BuscarNumerado(s.procesos, pid, 0);
    PasoTurno(c, s, Acaba(i));
    PasoPresentes(c, s, Acaba(i));
    PasoPropia(c, s, Acaba(i));
    PasoRespaldo(c, s, Acaba(i));
    PorCrearMas(s.aMemoria, FinProceso(pid), pid);
    DrenarCuenta(c, s1, |s1.aMemoria|, pid);
    assert Acabado(Correr(c, s1, Memorias(|s1.aMemoria|)), pid);
  }

  /** Creations of threads of `pid` that are not confirmed yet, wherever they are. */
  function SinConfirmar(s: Sistema, pid: nat): nat {
    PorCrear(s.aMemoria, pid) + PorConfirmar(s.aKernel, pid)
  }

  lemma {:induction false} RecibeSinConfirmar(c: Config, s: Sistema, pid: nat)
    requires s.aMemoria != []
    ensures RecibeMemoria(c, s).procesos == s.procesos && SinConfirmar(RecibeMemoria(c, s), pid) <= SinConfirmar(s, pid)
  {
    var t := RecibeMemoria(c, s);
    RecibeMemoriaEs(c, s);
    if |t.aKernel| > |s.aKernel| {
      PorConfirmarMas(s.aKernel, t.aKernel[|s.aKernel|], pid);
    }
  }

  /** The head of NEW has not ended. */
  lemma {:induction false} AtiendeSinConfirmar(s: Sistema, pid: nat)
    requires Turno(s) && Presentes(s) && Acabado(s, pid) && PuedeKernel(s)
    ensures RecibeKernel(s).procesos == s.procesos && SinConfirmar(RecibeKernel(s), pid) <= SinConfirmar(s, pid)
  {
    var t := RecibeKernel(s);
    if |t.aMemoria| > |s.aMemoria| {
      BuscarNumerado(s.procesos, s.colaNew[0], 0);
      assert Admitido(s, pid);
      PorCrearMas(s.aMemoria, t.aMemoria[|s.aMemoria|], pid);
    }
  }

  lemma {:induction false} CreaSinConfirmar(s: Sistema, i: nat, pid: nat)
    requires Turno(s) && Presentes(s) && Acabado(s, pid) && i < |s.exec| && !Acabado(s, s.exec[i].pid)
    ensures Acabado(ThreadCreate(s, s.exec[i].pid), pid)
    ensures SinConfirmar(ThreadCreate(s, s.exec[i].pid), pid) == SinConfirmar(s, pid)
  {
    assert Activo(s, s.exec[i]) && Admitido(s, s.exec[i].pid);
    BuscarNumerado(s.procesos, s.exec[i].pid, 0);
    PorCrearMas(s.aMemoria, ThreadCreate(s, s.exec[i].pid).aMemoria[|s.aMemoria|], pid);
  }

  /** Once a process has ended no step but a thread of it creating another adds a creation. */
  lemma {:induction false} PasoSinConfirmar(c: Config, s: Sistema, e: Evento, pid: nat)
    requires Turno(s) && Presentes(s) && Acabado(s, pid) && Puede(s, e) && !Fantasma(s, e)
    ensures Acabado(Paso(c, s, e), pid) && SinConfirmar(Paso(c, s, e), pid) <= SinConfirmar(s, pid)
  {
    var t := Paso(c, s, e);
    match e
    case Memoria => RecibeSinConfirmar(c, s, pid);
    case Kernel => AtiendeSinConfirmar(s, pid);
    case Hilo(i) => CreaSinConfirmar(s, i, pid);
    case Planifica => PorCrearMas(s.aMemoria, t.aMemoria[|s.aMemoria|], pid);
    case Acaba(i) =>
      assert Activo(s, s.exec[i]) && Admitido(s, s.exec[i].pid);
      BuscarNumerado(s.procesos, s.exec[i].pid, 0);
      PorCrearMas(s.aMemoria, t.aMemoria[|s.aMemoria|], pid);
    case _ =>
  }

  lemma {:induction false} CorrerSinConfirmar(c: Config, s: Sistema, es: seq<Evento>, pid: nat)
    requires Turno(s) && Presentes(s) && Acabado(s, pid) && SinFantasmas(c, s, es)
    ensures SinConfirmar(Correr(c, s, es), pid) <= SinConfirmar(s, pid)
    decreases |es|
  {
    if es == [] {
    } else {
      if Puede(s, es[0]) {
        PasoTurno(c, s, es[0]);
        PasoPresentes(c, s, es[0]);
        PasoSinConfirmar(c, s, es[0], pid);
        CorrerSinConfirmar(c, Paso(c, s, es[0]), es[1..], pid);
      } else {
        CorrerSinConfirmar(c, s, es[1..], pid);
      }
    }
  }

  /** After `mas`, a confirmation on its way for a thread of `pid` finds the process with its
      partition. */
  ghost predicate Respaldada(c: Config, s: Sistema, mas: seq<Evento>, pid: nat) {
    var t := Correr(c, s, mas);
    PorConfirmar(t.aKernel, pid) > 0 ==> pid in Vivos(t.particiones)
  }

  /** Whatever happens from `s` on, but for a thread of an ended process creating another. */
  ghost predicate SiempreRespaldada(c: Config, s: Sistema, pid: nat) {
    forall mas :: SinFantasmas(c, s, mas) ==> Respaldada(c, s, mas, pid)
  }

  lemma {:induction false} AcabaUno(c: Config, ps: seq<Part>, es: seq<Evento>, i: nat)
    requires ListaInicial(ps) && PuedeAcabar(Correr(c, Inicio(ps), es), i)
    ensures var s := Correr(c, Inicio(ps), es);
      var pid, s1 := s.exec[i].pid, AcabarProceso(s, i);
      Turno(s1) && Presentes(s1) && Acabado(s1, pid) && SinConfirmar(s1, pid) == SinConfirmar(s, pid)
  {
    InicioBien(ps);
    CorrerPresentes(c, Inicio(ps), es);
    var s := Correr(c, Inicio(ps), es);
    AcabarTurno(s, i);
    AcabarPresentes(s, i);
    assert Activo(s, s.exec[i]) && Admitido(s, s.exec[i].pid);
    BuscarNumerado(s.procesos, s.exec[i].pid, 0);
    PorCrearMas(s.aMemoria, FinProceso(s.exec[i].pid), s.exec[i].pid);
  }

  /** When a process ends: in every continuation, whichever side acts first, each confirmation on
      its way for a thread of it finds its partition, exactly when none of its creations was
      unconfirmed. */
  lemma {:induction false} ConfirmacionHuerfanaSii(c: Config, ps: seq<Part>, es: seq<Evento>, i: nat)
    requires ListaInicial(ps) && c.v.Reparada? && SinFantasmas(c, Inicio(ps), es)
    requires PuedeAcabar(Correr(c, Inicio(ps), es), i)
    ensures var s := Correr(c, Inicio(ps), es);
      var pid := s.exec[i].pid;
      SiempreRespaldada(c, AcabarProceso(s, i), pid) <==> PorCrear(s.aMemoria, pid) + PorConfirmar(s.aKernel, pid) == 0
  {
    var s := Correr(c, Inicio(ps), es);
    var pid, s1 := s.exec[i].pid, AcabarProceso(s, i);
    AcabaUno(c, ps, es, i);
    if SinConfirmar(s, pid) == 0 {
      forall mas | SinFantasmas(c, s1, mas) ensures Respaldada(c, s1, mas, pid) {
        CorrerSinConfirmar(c, s1, mas, pid);
      }
    } else {
      ConfirmacionesTras(c, ps, es, i);
      MemoriasSinFantasmas(c, s1, |s1.aMemoria|);
      assert !Respaldada(c, s1, Memorias(|s1.aMemoria|), pid);
    }
  }

  // --- The code as it stands ---

  /** A request keeps the token in play exactly when some free partition is large enough, unless
      the reply to a failed search has been repaired. */
  lemma {:induction false} PierdeFichaSii(c: Config, s: Sistema)
    requires Turno(s) && s.aMemoria != [] && s.aMemoria[0].PideEspacio?
    ensures RecibeMemoria(c, s).perdidas == 1
       <==> c.v.ComoEsta? && forall i :: 0 <= i < |s.particiones| ==> !Cabe(s.particiones[i], s.aMemoria[0].tam)
  {
  }

  lemma {:induction false} SinFichaPaso(c: Config, s: Sistema, e: Evento)
    requires Turno(s) && s.perdidas == 1 && Puede(s, e)
    ensures Paso(c, s, e).admitidos == s.admitidos && Paso(c, s, e).perdidas == 1
  {
    assert s.aMemoria != [] ==> !s.aMemoria[0].PideEspacio?;
    assert s.aKernel != [] ==> !s.aKernel[0].Espacio?;
  }

  /** Once the token is lost no process is ever admitted again. */
  lemma {:induction false} SinFichaNadie(c: Config, s: Sistema, es: seq<Evento>)
    requires Turno(s) && s.perdidas == 1
    ensures Correr(c, s, es).admitidos == s.admitidos && Correr(c, s, es).perdidas == 1
    decreases |es|
  {
    if es == [] {
    } else {
      if Puede(s, es[0]) {
        PasoTurno(c, s, es[0]);
        SinFichaPaso(c, s, es[0]);
      }
      SinFichaNadie(c, if Puede(s, es[0]) then Paso(c, s, es[0]) else s, es[1..]);
    }
  }

  /** `iniciar_proceso` as `finalizar_proceso` calls it, without waiting for the token. */
  function IniciarDeMas(s: Sistema): Sistema
    requires s.colaNew != [] && BuscarProceso(s.procesos, s.colaNew[0], 0) < |s.procesos|
  {
    IniciarProceso(s.(fichas := s.fichas + 1))
  }

  lemma {:induction false} CorrerDos(c: Config, s: Sistema, e: Evento)
    ensures var t := if Puede(s, e) then Paso(c, s, e) else s;
      Correr(c, s, [e, e]) == if Puede(t, e) then Paso(c, t, e) else t
  {
    assert [e, e][1..] == [e] && [e][1..] == [];
    var t := if Puede(s, e) then Paso(c, s, e) else s;
    assert Correr(c, t, [e]) == Correr(c, if Puede(t, e) then Paso(c, t, e) else t, []);
  }

  /** A request answered leaves no new holder but the process it is about. */
  lemma {:induction false} SoloElQuePide(c: Config, ps: seq<Part>, pid: nat, n: nat, otro: nat)
    requires otro != pid && otro in Vivos(Asignar(c.v, c.esq, c.alg, ps, pid, n).0)
    ensures otro in Vivos(ps)
  {
    var r, e := Asignar(c.v, c.esq, c.alg, ps, pid, n).0, Elegir(c.alg, ps, n, |ps|);
    var q :| q in r && !q.libre && q.pid == otro;
    if e >= 0 {
      assert q in ps;
    }
  }

  /** Memory handles a request on its way and leaves the kernel's side as it was. */
  lemma {:induction false} AtiendePedido(c: Config, s: Sistema, otro: nat)
    requires s.aMemoria != [] && s.aMemoria[0].PideEspacio? && s.aMemoria[0].pid != otro && !s.caida
    ensures var t := Correr(c, s, [Memoria]);
      && t.aMemoria == s.aMemoria[1..]
      && t.procesos == s.procesos && t.colaNew == s.colaNew && t.admitidos == s.admitidos && t.fichas == s.fichas
      && (otro in Vivos(t.particiones) ==> otro in Vivos(s.particiones))
  {
    RecibeMemoriaEs(c, s);
    assert [Memoria][1..] == [];
    assert Correr(c, RecibeMemoria(c, s), []) == RecibeMemoria(c, s);
    if otro in Vivos(RecibeMemoria(c, s).particiones) {
      SoloElQuePide(c, s.particiones, s.aMemoria[0].pid, s.aMemoria[0].tam, otro);
    }
  }

  /** Two confirmations for the head of NEW take out two processes. */
  lemma {:induction false} DosConfirmaciones(c: Config, s: Sistema, p: nat)
    requires Numerados(s.procesos) && EnOrden(s.admitidos, s.colaNew, |s.procesos|)
    requires |s.colaNew| >= 2 && s.colaNew[0] == p && s.aKernel == [Espacio(p, true), Espacio(p, true)]
    ensures Correr(c, s, [Kernel, Kernel]).admitidos == s.admitidos + [p, p + 1]
  {
    BuscarNumerado(s.procesos, p, 0);
    BuscarNumerado(s.procesos, p + 1, 0);
    CorrerDos(c, s, Kernel);
    var t := RecibeKernel(s);
    assert t.colaNew[0] == s.colaNew[1] == p + 1;
  }

  /** The search finds room, and the answer says so. */
  predicate Concede(c: Config, ps: seq<Part>, n: nat) {
    var e := Elegir(c.alg, ps, n, |ps|);
    e >= 0 && (c.v.ComoEsta? && c.esq.Dinamicas? ==> ps[e].tamanio > n)
  }

  /** What comes back for the request at the head of the channel. */
  lemma {:induction false} RespuestaDe(c: Config, s: Sistema)
    requires s.aMemoria != [] && s.aMemoria[0].PideEspacio? && !s.caida
    ensures var t, m := Correr(c, s, [Memoria]), s.aMemoria[0];
      && t.particiones == Asignar(c.v, c.esq, c.alg, s.particiones, m.pid, m.tam).0
      && (Concede(c, s.particiones, m.tam) ==> !t.caida && t.aKernel == s.aKernel + [Espacio(m.pid, true)])
      && (!Concede(c, s.particiones, m.tam) ==>
            t.aKernel == s.aKernel || t.aKernel == s.aKernel + [Espacio(m.pid, false)])
  {
    assert [Memoria][1..] == [];
    assert Correr(c, RecibeMemoria(c, s), []) == RecibeMemoria(c, s);
  }

  /** Memory finds room for process `p`, and again in the list that leaves. */
  predicate ConcedeDos(c: Config, ps: seq<Part>, p: nat, n: nat) {
    Concede(c, ps, n) && Concede(c, Asignar(c.v, c.esq, c.alg, ps, p, n).0, n)
  }

  /** At most two answers, about process `p`, and two positive ones exactly if `dos`. */
  ghost predicate DosBits(ms: seq<AKernel>, p: nat, dos: bool) {
    && |ms| <= 2 && (forall k :: 0 <= k < |ms| ==> ms[k].Espacio? && ms[k].pid == p)
    && (|ms| == 2 && ms[0].bit && ms[1].bit <==> dos)
  }

  /** `ms` goes on to `ns` with an answer about `p`, positive if and only if `bit`, or with none. */
  predicate Contesta(ms: seq<AKernel>, ns: seq<AKernel>, p: nat, bit: bool) {
    if bit then ns == ms + [Espacio(p, true)] else ns == ms || ns == ms + [Espacio(p, false)]
  }

  lemma {:induction false} SumaBits(ms: seq<AKernel>, ns: seq<AKernel>, p: nat, uno: bool, dos: bool)
    requires Contesta([], ms, p, uno) && Contesta(ms, ns, p, dos)
    ensures DosBits(ns, p, uno && dos)
  {
  }

  /** Both requests for the head of NEW are answered yes exactly when memory finds room twice; and
      whatever memory answers, it is about the process that asked. */
  lemma {:induction false} RespuestasDos(c: Config, t: Sistema, p: nat, n: nat)
    requires t.aMemoria == [PideEspacio(p, n), PideEspacio(p, n)] && t.aKernel == [] && !t.caida
    ensures var u := Correr(c, Correr(c, t, [Memoria]), [Memoria]);
      DosBits(u.aKernel, p, ConcedeDos(c, t.particiones, p, n))
  {
    AtiendePedido(c, t, p + 1);
    RespuestaDe(c, t);
    var t1 := Correr(c, t, [Memoria]);
    var u := Correr(c, t1, [Memoria]);
    var uno, dos := Concede(c, t.particiones, n), !t1.caida && Concede(c, t1.particiones, n);
    if t1.caida {
      assert [Memoria][1..] == [];
      assert Correr(c, t1, [Memoria]) == Correr(c, t1, []) == t1;
    } else {
      RespuestaDe(c, t1);
    }
    SumaBits(t1.aKernel, u.aKernel, p, uno, dos);
  }

  lemma {:induction false} AtiendeDos(c: Config, t: Sistema, p: nat, n: nat)
    requires t.aMemoria == [PideEspacio(p, n), PideEspacio(p, n)] && !t.caida
    ensures var u := Correr(c, Correr(c, t, [Memoria]), [Memoria]);
      && u.procesos == t.procesos && u.colaNew == t.colaNew && u.admitidos == t.admitidos
      && (p + 1 in Vivos(u.particiones) ==> p + 1 in Vivos(t.particiones))
  {
    AtiendePedido(c, t, p + 1);
    var t1 := Correr(c, t, [Memoria]);
    if t1.caida {
      assert [Memoria][1..] == [];
      assert Correr(c, t1, [Memoria]) == Correr(c, t1, []) == t1;
    } else {
      AtiendePedido(c, t1, p + 1);
    }
  }

  lemma {:induction false} UnoAdmite(s: Sistema)
    requires PuedeKernel(s)
    ensures RecibeKernel(s).aKernel == s.aKernel[1..]
    ensures |RecibeKernel(s).admitidos| == |s.admitidos| + if s.aKernel[0].Espacio? && s.aKernel[0].bit then 1 else 0
  {
  }

  /** Two messages admit two processes only if both are positive replies. */
  lemma {:induction false} DosAdmiten(c: Config, s: Sistema)
    requires |s.aKernel| <= 2 && |Correr(c, s, [Kernel, Kernel]).admitidos| == |s.admitidos| + 2
    ensures |s.aKernel| == 2 && forall k :: 0 <= k < 2 ==> s.aKernel[k].Espacio? && s.aKernel[k].bit
  {
    CorrerDos(c, s, Kernel);
    if PuedeKernel(s) {
      UnoAdmite(s);
      if PuedeKernel(RecibeKernel(s)) {
        UnoAdmite(RecibeKernel(s));
      }
    }
  }

  /** The planner's request and the one without a token go out, and memory answers both. */
  function DosPedidos(c: Config, s: Sistema): Sistema
    requires Puede(s, Planifica)
  {
    Correr(c, Correr(c, IniciarDeMas(IniciarProceso(s)), [Memoria]), [Memoria])
  }

  /** And then the kernel handles both answers. */
  function DosRespuestas(c: Config, s: Sistema): Sistema
    requires Puede(s, Planifica)
  {
    Correr(c, DosPedidos(c, s), [Kernel, Kernel])
  }

  /** Process `p + 1` is admitted beside process `p`. */
  predicate Adelanta(c: Config, s: Sistema, p: nat)
    requires Puede(s, Planifica)
  {
    DosRespuestas(c, s).admitidos == s.admitidos + [p, p + 1]
  }

  /** The request without a token goes out beside the planner's, for the same process. The process
      behind it is then admitted with it, though no space was asked for it, exactly when memory finds
      room twice. */
  lemma {:induction false} IniciarDeMasAdelanta(c: Config, s: Sistema)
    requires Turno(s) && s.fichas == 1 && s.aMemoria == [] && s.aKernel == [] && |s.colaNew| >= 2 && !s.caida
    ensures Puede(s, Planifica) && 1 <= s.colaNew[0] <= |s.procesos|
    ensures var p := s.colaNew[0];
      && (Adelanta(c, s, p) <==> ConcedeDos(c, s.particiones, p, s.procesos[p - 1].tam))
      && (p + 1 in Vivos(DosPedidos(c, s).particiones) ==> p + 1 in Vivos(s.particiones))
  {
    var p := s.colaNew[0];
    BuscarNumerado(s.procesos, p, 0);
    var t := IniciarDeMas(IniciarProceso(s));
    AtiendeDos(c, t, p, s.procesos[p - 1].tam);
    RespuestasDos(c, t, p, s.procesos[p - 1].tam);
    var u := DosPedidos(c, s);
    if |u.aKernel| == 2 && u.aKernel[0].bit && u.aKernel[1].bit {
      assert u.aKernel == [Espacio(p, true), Espacio(p, true)];
      DosConfirmaciones(c, u, p);
    } else if Correr(c, u, [Kernel, Kernel]).admitidos == s.admitidos + [p, p + 1] {
      DosAdmiten(c, u);
    }
  }

  // --- A run that goes wrong ---

  lemma {:induction false} CorrerUnoMas(c: Config, s: Sistema, es: seq<Evento>, e: Evento)
    ensures var t := Correr(c, s, es); Correr(c, s, es + [e]) == if Puede(t, e) then Paso(c, t, e) else t
    decreases |es|
  {
    if es == [] {
      assert [] + [e] == [e] && [e][1..] == [];
      var s1 := if Puede(s, e) then Paso(c, s, e) else s;
      assert Correr(c, s1, []) == s1;
    } else {
      assert (es + [e])[0] == es[0] && (es + [e])[1..] == es[1..] + [e];
      CorrerUnoMas(c, if Puede(s, es[0]) then Paso(c, s, es[0]) else s, es[1..], e);
    }
  }

  const REPARADO := Config(Reparada, Dinamicas, First)

  /** `es` leads from an empty memory of 1024 bytes to `s`, in the repaired code. */
  ghost predicate Lleva(es: seq<Evento>, s: Sistema) {
    Correr(REPARADO, Inicio(Inicial(1024)), es) == s
  }

  lemma {:induction false} Seguir(es: seq<Evento>, s: Sistema, e: Evento, t: Sistema)
    requires Lleva(es, s) && Puede(s, e) && Paso(REPARADO, s, e) == t
    ensures Lleva(es + [e], t)
  {
    CorrerUnoMas(REPARADO, Inicio(Inicial(1024)), es, e);
  }

  const MAIN := T.Id(1, 0)
  const OTRO := T.Id(1, 1)

  /** Two processes of 64 bytes in NEW, and an empty memory of 1024. */
  function DosEnNew(): Sistema {
    Inicio(Inicial(1024)).(procesos := [Pcb(1, 64, 0, false), Pcb(2, 64, 0, false)], colaNew := [1, 2])
  }

  lemma {:induction false} AdelantaEn(c: Config, s: Sistema, p: nat)
    requires Turno(s) && s.fichas == 1 && s.aMemoria == [] && s.aKernel == [] && !s.caida
    requires |s.colaNew| == 2 && s.colaNew[0] == p && 1 <= p <= |s.procesos|
    requires ConcedeDos(c, s.particiones, p, s.procesos[p - 1].tam) && p + 1 !in Vivos(s.particiones)
    ensures Puede(s, Planifica) && Adelanta(c, s, p) && p + 1 !in Vivos(DosPedidos(c, s).particiones)
  {
    IniciarDeMasAdelanta(c, s);
  }

  lemma {:induction false} CabenDos()
    ensures ConcedeDos(REPARADO, Inicial(1024), 1, 64)
  {
    var suya, resto := Part(0, 64, 63, false, 1), Part(64, 960, 1023, true, 0);
    ElegirFirst(Inicial(1024), 64, 0);
    assert Dividir(Reparada, Ocupar(Inicial(1024), 0, 1), 0, 64) == [suya, resto];
    ElegirFirst([suya, resto], 64, 1);
  }

  lemma {:induction false} DosEnNewAdelanta()
    ensures Puede(DosEnNew(), Planifica) && BuscarProceso(DosEnNew().procesos, 1, 0) == 0
    ensures Adelanta(REPARADO, DosEnNew(), 1)
    ensures 2 !in Vivos(DosPedidos(REPARADO, DosEnNew()).particiones)
  {
    CabenDos();
    assert 2 !in Vivos(Inicial(1024));
    AdelantaEn(REPARADO, DosEnNew(), 1);
  }

  /** The input: after two creations the request without a token admits process 2, for which no space
      was asked and which holds none. */
  lemma {:induction false} IniciarDeMasEntrada() returns (es: seq<Evento>)
    ensures Lleva(es, DosEnNew()) && Puede(DosEnNew(), Planifica)
    ensures BuscarProceso(DosEnNew().procesos, 1, 0) == 0 && Adelanta(REPARADO, DosEnNew(), 1)
    ensures 2 !in Vivos(DosPedidos(REPARADO, DosEnNew()).particiones)
  {
    var s0 := Inicio(Inicial(1024));
    var s1 := s0.(procesos := [Pcb(1, 64, 0, false)], colaNew := [1]);
    assert Lleva([], s0);
    Seguir([], s0, Crea(64), s1);
    Seguir([] + [Crea(64)], s1, Crea(64), DosEnNew());
    es := [] + [Crea(64)] + [Crea(64)];
    DosEnNewAdelanta();
  }

  /** A process of 64 bytes whose main thread is about to run. */
  function Listo(): Sistema {
    Sistema([Pcb(1, 64, 0, false)], [], 1, [], [], [Part(0, 64, 63, false, 1), Part(64, 960, 1023, true, 0)], false,
            [MAIN], [MAIN], [], [], 1, [1], [MAIN], 0, 0, 1)
  }

  lemma {:induction false} LlegaAEspacio(s: Sistema) returns (es: seq<Evento>)
    requires s == Inicio([Part(0, 64, 63, false, 1), Part(64, 960, 1023, true, 0)]).(
      procesos := [Pcb(1, 64, 0, false)], colaNew := [1], fichas := 0, aKernel := [Espacio(1, true)])
    ensures Lleva(es, s)
  {
    var s0 := Inicio(Inicial(1024));
    var libre, suya, resto := Inicial(1024), Part(0, 64, 63, false, 1), Part(64, 960, 1023, true, 0);
    var s1 := s0.(procesos := [Pcb(1, 64, 0, false)], colaNew := [1]);
    var s2 := s1.(fichas := 0, aMemoria := [PideEspacio(1, 64)]);
    assert Lleva([], s0);
    Seguir([], s0, Crea(64), s1);
    es := [] + [Crea(64)];
    Seguir(es, s1, Planifica, s2);
    es := es + [Planifica];
    ElegirFirst(libre, 64, 0);
    assert Dividir(Reparada, Ocupar(libre, 0, 1), 0, 64) == [suya, resto];
    Seguir(es, s2, Memoria, s);
    es := es + [Memoria];
  }

  lemma {:induction false} LlegaAListo() returns (es: seq<Evento>)
    ensures Lleva(es, Listo())
  {
    var s3 := Inicio([Part(0, 64, 63, false, 1), Part(64, 960, 1023, true, 0)]).(
      procesos := [Pcb(1, 64, 0, false)], colaNew := [1], fichas := 0, aKernel := [Espacio(1, true)]);
    es := LlegaAEspacio(s3);
    var s4 := s3.(fichas := 1, aKernel := [], colaNew := [], aMemoria := [HiloListo(MAIN)], hilos := [MAIN],
        admitidos := [1]);
    var s5 := s4.(aMemoria := [], aKernel := [HiloCreado(MAIN)]);
    Seguir(es, s3, Kernel, s4);
    es := es + [Kernel];
    assert BuscarPid(s4.particiones, 1, 0) == 0;
    Seguir(es, s4, Memoria, s5);
    es := es + [Memoria];
    Seguir(es, s5, Kernel, Listo());
    es := es + [Kernel];
  }

  /** The main thread creates another, and ends the process before that is confirmed. */
  function Huerfano(): Sistema {
    Sistema([Pcb(1, 64, -1, true)], [], 1, [], [HiloCreado(OTRO)], Inicial(1024), false,
            [MAIN, OTRO], [], [], [], 0, [1], [MAIN], 0, 1, 1)
  }

  /** The main thread has run and come back to READY: no token is left. */
  function SinFicha(): Sistema {
    Listo().(aPlanificar := 0, despachos := 1)
  }

  /** The input: it is at the head of READY, and stays there for as long as no creation is
      confirmed, whatever else happens. */
  lemma {:induction false} EsperaSinFicha(mas: seq<Evento>) returns (es: seq<Evento>)
    requires Correr(REPARADO, SinFicha(), mas).confirmaciones == SinFicha().confirmaciones
    ensures Lleva(es, SinFicha()) && SinFicha().aPlanificar == 0
    ensures var t := Correr(REPARADO, SinFicha(), mas); [MAIN] <= t.ready && t.despachos == 1
  {
    es := LlegaAListo();
    var s1 := Listo().(ready := [], exec := [MAIN], aPlanificar := 0, despachos := 1);
    Seguir(es, Listo(), Despacha(0), s1);
    es := es + [Despacha(0)];
    Seguir(es, s1, Vuelve(0), SinFicha());
    es := es + [Vuelve(0)];
    SinFichasNadieCorre(REPARADO, SinFicha(), mas);
  }

  /** The main thread has asked for another, and memory has created it. */
  function Creado(): Sistema {
    Listo().(ready := [], exec := [MAIN], aPlanificar := 0, despachos := 1,
             procesos := [Pcb(1, 64, 2, false)], hilos := [MAIN, OTRO], aKernel := [HiloCreado(OTRO)])
  }

  lemma {:induction false} LlegaACreado() returns (es: seq<Evento>)
    ensures Lleva(es, Creado())
  {
    es := LlegaAListo();
    var s0 := Listo();
    var s1 := s0.(ready := [], exec := [MAIN], aPlanificar := 0, despachos := 1);
    var s2 := s1.(procesos := [Pcb(1, 64, 2, false)], hilos := [MAIN, OTRO], aMemoria := [HiloListo(OTRO)]);
    Seguir(es, s0, Despacha(0), s1);
    es := es + [Despacha(0)];
    Seguir(es, s1, Hilo(0), s2);
    es := es + [Hilo(0)];
    assert BuscarPid(s2.particiones, 1, 0) == 0;
    Seguir(es, s2, Memoria, Creado());
    es := es + [Memoria];
  }

  lemma {:induction false} LlegaAHuerfano() returns (es: seq<Evento>)
    ensures Lleva(es, Huerfano())
  {
    es := LlegaACreado();
    var s3 := Creado();
    var s4 := s3.(procesos := [Pcb(1, 64, -1, true)], exec := [], aMemoria := [FinProceso(1)]);
    Seguir(es, s3, Acaba(0), s4);
    es := es + [Acaba(0)];
    assert Finalizar(Reparada, Dinamicas, s4.particiones, 1) == Inicial(1024);
    Seguir(es, s4, Memoria, Huerfano());
    es := es + [Memoria];
  }

  lemma {:induction false} UnaPorConfirmar(id: Id)
    ensures PorConfirmar([HiloCreado(id)], id.pid) == 1
  {
    assert [HiloCreado(id)][1..] == [];
  }

  lemma {:induction false} SinRepetirHuerfano(es: seq<Evento>)
    requires Lleva(es, Huerfano())
    ensures SinFantasmas(REPARADO, Inicio(Inicial(1024)), es)
  {
    forall id ensures I.Veces(Huerfano().hilos, id) <= 1 {
      assert Huerfano().hilos == [MAIN] + [OTRO];
      I.VecesAgregar([MAIN], OTRO, id);
    }
    HilosUnaVez(REPARADO, Inicial(1024), es);
  }

  /** Even with the repairs there is a run after which a confirmation on its way names a process
      that holds no partition. It goes on: the thread becomes ready, runs, and creates another,
      with the number of the main thread; and the memory module falls over. */
  lemma {:induction false} ConfirmacionHuerfana() returns (es: seq<Evento>, mas: seq<Evento>)
    ensures var s, t := Correr(REPARADO, Inicio(Inicial(1024)), es), Correr(REPARADO, Inicio(Inicial(1024)), mas);
      && SinFantasmas(REPARADO, Inicio(Inicial(1024)), es)
      && PorConfirmar(s.aKernel, 1) == 1 && 1 !in Vivos(s.particiones)
      && t.caida && t.hilos == [MAIN, OTRO, MAIN]
  {
    es := LlegaAHuerfano();
    mas := es;
    var s0 := Huerfano();
    var s1 := s0.(aKernel := [], ready := [OTRO], aPlanificar := 1, entradas := [MAIN, OTRO], confirmaciones := 2);
    var s2 := s1.(ready := [], exec := [OTRO], aPlanificar := 0, despachos := 2);
    var s3 := s2.(procesos := [Pcb(1, 64, 1, true)], hilos := [MAIN, OTRO, MAIN], aMemoria := [HiloListo(MAIN)]);
    var s4 := s3.(aMemoria := [], caida := true);
    Seguir(mas, s0, Kernel, s1);
    mas := mas + [Kernel];
    Seguir(mas, s1, Despacha(0), s2);
    mas := mas + [Despacha(0)];
    Seguir(mas, s2, Hilo(0), s3);
    mas := mas + [Hilo(0)];
    assert BuscarPid(s3.particiones, 1, 0) == 1;
    Seguir(mas, s3, Memoria, s4);
    mas := mas + [Memoria];
    SinRepetirHuerfano(es);
    UnaPorConfirmar(OTRO);
  }
}
