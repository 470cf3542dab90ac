/** What each message and each scheduling event of the admission protocol does, once the searches of the
    handlers are known to find what they look for. */
module EventosAdmision {
  import opened Admision
  import opened Comun
  import P = Particiones
  import T = Threads

  /** A space reply: with the repairs it says whether there is room; as written there is none without
      room, and fixed partitions bring the module down, and an exact fit of the dynamic scheme is told as
      no room. */
  ghost predicate Contestada(c: Config, s: Sistema, t: Sistema, pid: nat, n: nat) {
    var e, hay := P.Elegir(c.alg, s.particiones, n, |s.particiones|), P.HayLugar(s.particiones, n);
    if c.v.Reparada? || hay then
      && t.perdidas == s.perdidas && t.caida == s.caida
      && t.aKernel == s.aKernel
           + [Espacio(pid, hay && (c.v.ComoEsta? && c.esq.Dinamicas? ==> e >= 0 && s.particiones[e].tamanio > n))]
    else t.perdidas == s.perdidas + 1 && t.caida == (s.caida || c.esq.Fijas?) && t.aKernel == s.aKernel
  }

  /** A message to the memory module. A creation brings it down exactly when the process holds no
      partition. */
  ghost predicate Atendida(c: Config, s: Sistema, t: Sistema)
    requires s.aMemoria != []
  {
    && t == s.(aMemoria := s.aMemoria[1..], particiones := t.particiones, aKernel := t.aKernel,
        perdidas := t.perdidas, caida := t.caida)
    && match s.aMemoria[0]
       case PideEspacio(pid, n) =>
         && Contestada(c, s, t, pid, n)
         && t.particiones == P.Asignar(c.v, c.esq, c.alg, s.particiones, pid, n).0
       case HiloListo(id) =>
         && t.particiones == s.particiones && t.perdidas == s.perdidas
         && (if id.pid in P.Vivos(s.particiones) then t.aKernel == s.aKernel + [HiloCreado(id)] && t.caida == s.caida
             else t.aKernel == s.aKernel && t.caida)
       case FinProceso(pid) =>
         && t.particiones == P.Finalizar(c.v, c.esq, s.particiones, pid)
         && t.aKernel == s.aKernel && t.perdidas == s.perdidas && t.caida == s.caida
  }

  /** A message to the kernel. A positive reply is about the head of NEW, which leaves it, and whose main
      thread, numbered 0, is listed and asked for; a thread confirmed is always listed, and goes to the end
      of READY with a token. */
  ghost predicate Recibida(s: Sistema, t: Sistema)
    requires s.aKernel != []
  {
    match s.aKernel[0]
    case Espacio(pid, bit) =>
      if !bit then t == s.(aKernel := s.aKernel[1..], fichas := s.fichas + 1)
      else
        var main := T.Id(pid, 0);
        && s.colaNew != [] && s.colaNew[0] == pid == |s.admitidos| + 1
        && t == s.(aKernel := s.aKernel[1..], fichas := s.fichas + 1, colaNew := s.colaNew[1..],
             admitidos := s.admitidos + [pid], hilos := s.hilos + [main], aMemoria := s.aMemoria + [HiloListo(main)])
    case HiloCreado(id) =>
      && id in s.hilos
      && t == s.(aKernel := s.aKernel[1..], ready := s.ready + [id], aPlanificar := s.aPlanificar + 1,
           confirmaciones := s.confirmaciones + 1, entradas := s.entradas + [id])
  }

  /** What each event leaves. */
  ghost predicate Hecho(c: Config, s: Sistema, t: Sistema, e: Evento)
    requires Puede(s, e)
  {
    match e
    case Crea(tam) =>
      var pid := |s.procesos| + 1;
      t == s.(procesos := s.procesos + [Pcb(pid, tam, 0, false)], colaNew := s.colaNew + [pid])
    case Planifica =>
      var pid := s.colaNew[0];
      && pid == |s.admitidos| + 1 <= |s.procesos|
      && t == s.(fichas := s.fichas - 1, aMemoria := s.aMemoria + [PideEspacio(pid, s.procesos[pid - 1].tam)])
    case Memoria => Atendida(c, s, t)
    case Kernel => Recibida(s, t)
    case Hilo(i) =>
      var pid := s.exec[i].pid;
      && 1 <= pid <= |s.procesos|
      && var p := s.procesos[pid - 1];
         var nuevo := T.Id(pid, p.contador + 1);
         t == s.(procesos := s.procesos[pid - 1 := Pcb(pid, p.tam, p.contador + 2, p.acabado)],
           hilos := s.hilos + [nuevo], aMemoria := s.aMemoria + [HiloListo(nuevo)])
    case Despacha(i) =>
      t == s.(ready := Sin(s.ready, i), exec := s.exec + [s.ready[i]], aPlanificar := s.aPlanificar - 1,
        despachos := s.despachos + 1)
    case Vuelve(i) => t == s.(exec := Sin(s.exec, i), ready := s.ready + [s.exec[i]])
    case Bloquea(i) => t == s.(exec := Sin(s.exec, i), blocked := s.blocked + [s.exec[i]])
    case Desbloquea(i) => t == s.(blocked := Sin(s.blocked, i), ready := s.ready + [s.blocked[i]])
    case Acaba(i) =>
      var pid := s.exec[i].pid;
      && 1 <= pid <= |s.procesos| && s.exec[i] == T.Id(pid, 0)
      && t == s.(procesos := s.procesos[pid - 1 := Pcb(pid, s.procesos[pid - 1].tam, -1, true)],
           exec := Sin(s.exec, i), aMemoria := s.aMemoria + [FinProceso(pid)])
  }

  /** What holds over every run, as written or repaired. */
  ghost predicate Bien(s: Sistema) {
    Turno(s) && Presentes(s) && P.LibresSinPid(s.particiones)
  }

  lemma {:induction false} RecibeMemoriaHecho(c: Config, s: Sistema)
    requires Bien(s) && s.aMemoria != []
    ensures Atendida(c, s, RecibeMemoria(c, s))
  {
    hide P.Asignar, P.Finalizar, P.Elegir;
    match s.aMemoria[0]
    case PideEspacio(pid, n) => P.RespuestaSii(c.v, c.esq, c.alg, s.particiones, pid, n);
    case HiloListo(id) =>
      assert s.aMemoria[0].id in s.hilos && Admitido(s, id.pid);
      TieneParticionSii(s.particiones, id.pid);
    case FinProceso(_) =>
  }

  lemma {:induction false} RecibeKernelHecho(s: Sistema)
    requires Bien(s) && PuedeKernel(s)
    ensures Recibida(s, RecibeKernel(s))
  {
    match s.aKernel[0]
    case Espacio(pid, bit) =>
      if bit {
        BuscarNumerado(s.procesos, pid, 0);
      }
    case HiloCreado(id) => assert s.aKernel[0].id in s.hilos;
  }

  /** The process of an executing thread is found at its place. */
  lemma {:induction false} EjecutanteEsta(s: Sistema, i: nat)
    requires Turno(s) && Presentes(s) && i < |s.exec|
    ensures var pid := s.exec[i].pid; 1 <= pid <= |s.procesos| && BuscarProceso(s.procesos, pid, 0) == pid - 1
  {
    assert Activo(s, s.exec[i]) && Admitido(s, s.exec[i].pid);
    BuscarNumerado(s.procesos, s.exec[i].pid, 0);
  }

  lemma {:induction false} PlanificaHecho(c: Config, s: Sistema)
    requires Turno(s) && Puede(s, Planifica)
    ensures Hecho(c, s, IniciarProceso(s), Planifica)
  {
    BuscarNumerado(s.procesos, s.colaNew[0], 0);
  }

  lemma {:induction false} PasoEs(c: Config, s: Sistema, e: Evento)
    requires Bien(s) && Puede(s, e)
    ensures Hecho(c, s, Paso(c, s, e), e)
  {
    hide Turno, Presentes, P.LibresSinPid, RecibeMemoria, RecibeKernel, Atendida, Recibida;
    match e
    case Planifica => PlanificaHecho(c, s);
    case Memoria => RecibeMemoriaHecho(c, s);
    case Kernel => RecibeKernelHecho(s);
    case Hilo(i) => EjecutanteEsta(s, i);
    case Acaba(i) => EjecutanteEsta(s, i);
    case _ =>
  }

  lemma {:induction false} PasoLibres(c: Config, s: Sistema, e: Evento)
    requires P.LibresSinPid(s.particiones) && Puede(s, e)
    ensures P.LibresSinPid(Paso(c, s, e).particiones)
  {
    hide P.Asignar, P.Finalizar;
    if e.Memoria? {
      match s.aMemoria[0]
      case PideEspacio(pid, n) => P.AsignarLibres(c.v, c.esq, c.alg, s.particiones, pid, n);
      case HiloListo(_) =>
      case FinProceso(pid) => P.FinalizarLibres(c.v, c.esq, s.particiones, pid);
    }
  }

  lemma {:induction false} PasoBien(c: Config, s: Sistema, e: Evento)
    requires Bien(s) && Puede(s, e)
    ensures Bien(Paso(c, s, e))
  {
    PasoTurno(c, s, e);
    PasoPresentes(c, s, e);
    PasoLibres(c, s, e);
  }

  /** The state that a run reaches from `s`, told by its events alone. */
  ghost predicate Alcanza(c: Config, s: Sistema, es: seq<Evento>, t: Sistema)
    decreases |es|
  {
    if es == [] then t == s
    else exists u :: (if Puede(s, es[0]) then Hecho(c, s, u, es[0]) else u == s) && Alcanza(c, u, es[1..], t)
  }

  lemma {:induction false} CorrerHecho(c: Config, s: Sistema, es: seq<Evento>)
    requires Bien(s)
    ensures Alcanza(c, s, es, Correr(c, s, es))
    decreases |es|
  {
    hide Bien, Paso, Puede, Hecho;
    if es == [] {
    } else {
      var u := if Puede(s, es[0]) then Paso(c, s, es[0]) else s;
      if Puede(s, es[0]) {
        PasoBien(c, s, es[0]);
        PasoEs(c, s, es[0]);
      }
      CorrerHecho(c, u, es[1..]);
    }
  }

  /** Every run from the start does what its events say, one after the other. */
  lemma {:induction false} CorrerEs(c: Config, ps: seq<P.Part>, es: seq<Evento>)
    requires ListaInicial(ps)
    ensures Alcanza(c, Inicio(ps), es, Correr(c, Inicio(ps), es))
  {
    InicioBien(ps);
    CorrerHecho(c, Inicio(ps), es);
  }
}
