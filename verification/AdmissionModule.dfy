/** The kernel's side of admission, on the process records and lists themselves. Every handler is
    proved to do what `Admision` says of the state by value, and to keep what holds over its runs:
    whose turn it is, and which threads are where. */
module AdmissionModule {
  import opened Comun
  import A = Admision
  import P = Particiones
  import T = Threads

  class Pcb {
    const pid: nat
    const tam: nat
    var contador: A.Contador
    /** Whether its state is EXIT. */
    var acabado: bool

    ghost function Valor(): A.Pcb
      reads this
    {
      A.Pcb(pid, tam, contador, acabado)
    }

    constructor (pid: nat, tam: nat)
      ensures Valor() == A.Pcb(pid, tam, 0, false)
    {
      this.pid, this.tam, contador, acabado := pid, tam, 0, false;
    }
  }

  ghost function Valores(ps: seq<Pcb>): (r: seq<A.Pcb>)
    reads ps
    ensures |r| == |ps|
    ensures forall i :: 0 <= i < |r| ==> r[i] == ps[i].Valor()
  {
    seq(|ps|, i requires 0 <= i < |ps| reads ps => ps[i].Valor())
  }

  function Numeros(ps: seq<Pcb>): (r: seq<nat>)
    ensures |r| == |ps|
    ensures forall i :: 0 <= i < |r| ==> r[i] == ps[i].pid
  {
    seq(|ps|, i requires 0 <= i < |ps| => ps[i].pid)
  }

  lemma {:induction false} ValoresMas(ps: seq<Pcb>, p: Pcb)
    ensures Valores(ps + [p]) == Valores(ps) + [p.Valor()]
  {
  }

  /** Any message of the loop keeps what holds over the runs; a positive reply admits the process it
      is about. */
  lemma {:induction false} RecibeConserva(s: A.Sistema)
    requires A.Turno(s) && A.Presentes(s) && A.PuedeKernel(s)
    ensures A.Turno(A.RecibeKernel(s)) && A.Presentes(A.RecibeKernel(s))
    ensures s.aKernel[0].Espacio? && s.aKernel[0].bit ==>
      A.RecibeKernel(s).admitidos == s.admitidos + [s.aKernel[0].pid]
  {
    A.RecibeKernelTurno(s);
    if s.aKernel[0].Espacio? && s.aKernel[0].bit {
      A.CrearHiloMainTurno(s);
      A.CrearHiloMainPresentes(s);
    } else {
      A.ConfirmarPresentes(s);
    }
  }

  class Kernel {
    /** The last process number given. */
    var pid: nat
    var procesos: seq<Pcb>
    var colaNew: seq<Pcb>
    /** `sem_plani_largo_plazo` and `TCBaPlanificar`. */
    var fichas: nat
    var aPlanificar: nat
    var aMemoria: seq<A.AMemoria>
    var aKernel: seq<A.AKernel>
    var hilos: seq<T.Id>
    var ready: seq<T.Id>
    var exec: seq<T.Id>
    var blocked: seq<T.Id>
    /** The memory module's side, and what has happened so far. */
    ghost var particiones: seq<P.Part>
    ghost var caida: bool
    ghost var admitidos: seq<nat>
    ghost var entradas: seq<T.Id>
    ghost var perdidas: nat
    ghost var despachos: nat
    ghost var confirmaciones: nat

    /** The records are numbered as they stand, and NEW holds records of the list. */
    ghost predicate Forma()
      reads this
    {
      && pid == |procesos|
      && (forall i :: 0 <= i < |procesos| ==> procesos[i].pid == i + 1)
      && (forall p :: p in colaNew ==> 1 <= p.pid <= |procesos| && procesos[p.pid - 1] == p)
    }

    ghost function Procesos(): seq<A.Pcb>
      reads this`procesos, procesos
    {
      Valores(procesos)
    }

    /** The state by value. */
    ghost function Estado(): A.Sistema
      reads this, procesos
    {
      A.Sistema(Procesos(), Numeros(colaNew), fichas, aMemoria, aKernel, particiones, caida,
                hilos, ready, exec, blocked, aPlanificar, admitidos, entradas, perdidas, despachos, confirmaciones)
    }

    /** And what every run keeps: one token, and every message about the head of NEW; and only
        known threads of admitted processes in the lists. */
    ghost predicate Valid()
      reads this, procesos
    {
      Forma() && A.Turno(Estado()) && A.Presentes(Estado())
    }

    constructor (ghost ps: seq<P.Part>)
      requires A.ListaInicial(ps)
      ensures Valid() && Estado() == A.Inicio(ps)
    {
      pid, procesos, colaNew, fichas, aPlanificar := 0, [], [], 1, 0;
      aMemoria, aKernel, hilos, ready, exec, blocked := [], [], [], [], [], [];
      particiones, caida, admitidos, entradas, perdidas, despachos, confirmaciones := ps, false, [], [], 0, 0, 0;
      new;
      A.InicioBien(ps);
    }

    /** `buscar_proceso`. */
    method BuscarProceso(buscado: nat) returns (p: Pcb?)
      requires Forma()
      ensures p != null <==> A.BuscarProceso(Procesos(), buscado, 0) < |procesos|
      ensures p != null ==> p == procesos[A.BuscarProceso(Procesos(), buscado, 0)]
    {
      for i := 0 to |procesos|
        invariant A.BuscarProceso(Procesos(), buscado, 0) == A.BuscarProceso(Procesos(), buscado, i)
      {
        if procesos[i].pid == buscado {
          return procesos[i];
        }
      }
      return null;
    }

    method Encolar(p: Pcb)
      requires Forma() && p.Valor() == A.Pcb(pid + 1, p.tam, 0, false)
      modifies this`pid, this`colaNew, this`procesos
      ensures Forma() && Estado() == A.CrearProceso(old(Estado()), p.tam)
    {
      ValoresMas(procesos, p);
      pid := p.pid;
      colaNew := colaNew + [p];
      procesos := procesos + [p];
      assert Numeros(colaNew) == old(Numeros(colaNew)) + [pid];
    }

    method AgregarProceso(tam: nat)
      requires Forma()
      modifies this`pid, this`colaNew, this`procesos
      ensures Forma() && Estado() == A.CrearProceso(old(Estado()), tam)
    {
      var p := new Pcb(pid + 1, tam);
      assert Procesos() == old(Procesos());
      Encolar(p);
    }

    /** `crear_proceso`. */
    method CrearProceso(tam: nat)
      requires Valid()
      modifies this`pid, this`colaNew, this`procesos
      ensures Valid() && Estado() == A.CrearProceso(old(Estado()), tam)
    {
      A.CrearProcesoTurno(Estado(), tam);
      A.CrearProcesoPresentes(Estado(), tam);
      AgregarProceso(tam);
    }

    lemma {:induction false} CabezaEs()
      requires Forma() && colaNew != []
      ensures A.BuscarProceso(Procesos(), Numeros(colaNew)[0], 0) == colaNew[0].pid - 1 < |procesos|
      ensures procesos[colaNew[0].pid - 1] == colaNew[0]
    {
      assert colaNew[0] in colaNew;
      A.BuscarNumerado(Procesos(), colaNew[0].pid, 0);
    }

    method PedirEspacio()
      requires Forma() && A.Puede(Estado(), A.Planifica)
      modifies this`fichas, this`aMemoria
      ensures Forma() && Estado() == A.IniciarProceso(old(Estado()))
    {
      CabezaEs();
      fichas := fichas - 1;
      aMemoria := aMemoria + [A.PideEspacio(colaNew[0].pid, colaNew[0].tam)];
    }

    /** `iniciar_proceso`, after the planner's wait. */
    method IniciarProceso()
      requires Valid() && fichas > 0 && colaNew != []
      modifies this`fichas, this`aMemoria
      ensures Valid() && A.Puede(old(Estado()), A.Planifica) && Estado() == A.IniciarProceso(old(Estado()))
    {
      CabezaEs();
      A.IniciarProcesoTurno(Estado());
      A.IniciarProcesoPresentes(Estado());
      PedirEspacio();
    }

    /** `enviar_a_memoria`. */
    method EnviarAMemoria(id: T.Id)
      requires Forma()
      modifies this`hilos, this`aMemoria
      ensures Forma()
      ensures Estado() == old(Estado()).(hilos := old(hilos) + [id], aMemoria := old(aMemoria) + [A.HiloListo(id)])
    {
      hilos := hilos + [id];
      aMemoria := aMemoria + [A.HiloListo(id)];
    }

    /** `queue_pop`. */
    method SacarDeNew() returns (p: Pcb)
      requires Forma() && colaNew != []
      modifies this`colaNew, this`admitidos
      ensures Forma() && p == old(colaNew)[0] && Numeros(colaNew) == Numeros(old(colaNew))[1..]
      ensures Estado() == old(Estado()).(colaNew := Numeros(colaNew), admitidos := old(admitidos) + [p.pid])
    {
      p := colaNew[0];
      colaNew := colaNew[1..];
      admitidos := admitidos + [p.pid];
    }

    /** `crear_hilo`: the head of NEW leaves it. */
    method CrearHiloMain()
      requires Forma() && colaNew != []
      modifies this`colaNew, this`hilos, this`aMemoria, this`admitidos
      ensures Forma() && A.BuscarProceso(old(Procesos()), old(Numeros(colaNew))[0], 0) < |procesos|
      ensures Estado() == A.CrearHiloMain(old(Estado()))
    {
      CabezaEs();
      var p := SacarDeNew();
      EnviarAMemoria(T.Id(p.pid, if p.contador < 0 then 0xFFFF_FFFF else p.contador));
    }

    /** `buscar_tcbs`. */
    method BuscarTcbs(id: T.Id) returns (esta: bool)
      ensures esta == (id in hilos)
    {
      for i := 0 to |hilos|
        invariant id !in hilos[..i]
      {
        if hilos[i] == id {
          return true;
        }
      }
      return false;
    }

    /** `confirmacion_crear_hilo` and the post that follows it. */
    method ConfirmacionCrearHilo(id: T.Id)
      requires Forma()
      modifies this`ready, this`aPlanificar, this`entradas, this`confirmaciones
      ensures Forma() && Estado() == A.Confirmar(old(Estado()), id)
    {
      var esta := BuscarTcbs(id);
      if esta {
        ready := ready + [id];
        entradas := entradas + [id];
      }
      aPlanificar, confirmaciones := aPlanificar + 1, confirmaciones + 1;
    }

    method DevolverFicha()
      requires Forma()
      modifies this`fichas
      ensures Forma() && Estado() == old(Estado()).(fichas := old(fichas) + 1)
    {
      fichas := fichas + 1;
    }

    /** CONFIRMAR_ESPACIO_PROCESO: either way the planner gets its token back. */
    method ConfirmarEspacio(bit: bool)
      requires Forma() && (bit ==> colaNew != [])
      modifies this`colaNew, this`hilos, this`aMemoria, this`admitidos, this`fichas
      ensures Forma() && (bit ==> A.BuscarProceso(old(Procesos()), Numeros(old(colaNew))[0], 0) < |procesos|)
      ensures Estado() == (if bit then A.CrearHiloMain(old(Estado())) else old(Estado())).(fichas := old(fichas) + 1)
    {
      if bit {
        CrearHiloMain();
      }
      DevolverFicha();
    }

    method SacarMensaje() returns (m: A.AKernel)
      requires Forma() && aKernel != []
      modifies this`aKernel
      ensures Forma() && m == old(aKernel)[0] && Estado() == old(Estado()).(aKernel := old(aKernel)[1..])
    {
      m := aKernel[0];
      aKernel := aKernel[1..];
    }

    method Atender()
      requires Forma() && A.PuedeKernel(Estado())
      modifies this`aKernel, this`colaNew, this`hilos, this`aMemoria, this`admitidos, this`fichas
      modifies this`ready, this`aPlanificar, this`entradas, this`confirmaciones
      ensures Forma() && Estado() == A.RecibeKernel(old(Estado()))
    {
      var m := SacarMensaje();
      match m
      case Espacio(_, bit) => ConfirmarEspacio(bit);
      case HiloCreado(id) => ConfirmacionCrearHilo(id);
    }

    /** One message of `kernel_escucha_memoria`: a positive reply admits the process it is about. */
    method EscucharMemoria()
      requires Valid() && aKernel != []
      modifies this`aKernel, this`colaNew, this`hilos, this`aMemoria, this`admitidos, this`fichas
      modifies this`ready, this`aPlanificar, this`entradas, this`confirmaciones
      ensures Valid() && A.PuedeKernel(old(Estado())) && Estado() == A.RecibeKernel(old(Estado()))
      ensures old(aKernel)[0].Espacio? && old(aKernel)[0].bit ==> admitidos == old(admitidos) + [old(aKernel)[0].pid]
    {
      A.PuedeServir(Estado());
      RecibeConserva(Estado());
      Atender();
    }

    /** The process of an executing thread is in the list. */
    lemma {:induction false} ProcesoDe(i: nat)
      requires Valid() && i < |exec|
      ensures A.BuscarProceso(Procesos(), exec[i].pid, 0) < |procesos|
    {
      assert A.Activo(Estado(), exec[i]);
      assert A.Admitido(Estado(), exec[i].pid);
      A.BuscarNumerado(Procesos(), exec[i].pid, 0);
    }

    /** The counter of process `p`, the `i`-th of the list, moves twice; the number in between is
        taken. */
    method NuevoTid(p: Pcb, ghost i: nat) returns (nuevo: nat)
      requires Forma() && i < |procesos| && procesos[i] == p
      modifies p`contador
      ensures Forma() && nuevo == old(p.contador) + 1
      ensures Estado() == old(Estado()).(procesos := old(Procesos())[i := old(Procesos())[i].(contador := nuevo + 1)])
    {
      p.contador := p.contador + 1;
      nuevo := p.contador;
      p.contador := p.contador + 1;
    }

    method NuevoHilo(buscado: nat)
      requires Forma()
      modifies this`hilos, this`aMemoria, procesos`contador
      ensures Forma() && Estado() == A.ThreadCreate(old(Estado()), buscado)
    {
      var p := BuscarProceso(buscado);
      if p != null {
        var nuevo := NuevoTid(p, A.BuscarProceso(Procesos(), buscado, 0));
        EnviarAMemoria(T.Id(buscado, nuevo));
      }
    }

    /** THREAD_CREATE by the `i`-th executing thread: its process is in the list. */
    method ThreadCreate(i: nat)
      requires Valid() && i < |exec|
      modifies this`hilos, this`aMemoria, procesos`contador
      ensures Valid() && Estado() == A.ThreadCreate(old(Estado()), exec[i].pid)
      ensures |hilos| == |old(hilos)| + 1 && hilos[|hilos| - 1].pid == exec[i].pid
    {
      ProcesoDe(i);
      A.ThreadCreateTurno(Estado(), exec[i].pid);
      A.ThreadCreatePresentes(Estado(), i);
      NuevoHilo(exec[i].pid);
    }

    /** Process `p`, the `j`-th of the list, is marked. */
    method Marcar(p: Pcb, ghost j: nat)
      requires Forma() && j < |procesos| && procesos[j] == p
      modifies p
      ensures Forma()
      ensures Estado() == old(Estado()).(procesos := old(Procesos())[j := old(Procesos())[j].(contador := -1,
          acabado := true)])
    {
      p.contador, p.acabado := -1, true;
    }

    /** `finalizar_proceso`. */
    method FinalizarProceso(i: nat)
      requires Forma() && A.PuedeAcabar(Estado(), i)
      modifies this`exec, this`aMemoria, procesos
      ensures Forma() && Estado() == A.AcabarProceso(old(Estado()), i)
    {
      var pid := exec[i].pid;
      var p := BuscarProceso(pid);
      if p != null {
        Marcar(p, A.BuscarProceso(Procesos(), pid, 0));
      }
      exec := exec[..i] + exec[i + 1..];
      aMemoria := aMemoria + [A.FinProceso(pid)];
    }

    /** PROCESS_EXIT by the `i`-th executing thread, a main thread: the process is marked, and the
        memory module told. Its other threads stay in the lists they are in. */
    method ProcessExit(i: nat)
      requires Valid() && i < |exec| && exec[i].tid == 0
      modifies this`exec, this`aMemoria, procesos
      ensures Valid() && A.PuedeAcabar(old(Estado()), i) && Estado() == A.AcabarProceso(old(Estado()), i)
    {
      ProcesoDe(i);
      A.AcabarTurno(Estado(), i);
      A.AcabarPresentes(Estado(), i);
      FinalizarProceso(i);
    }

    method Ejecutar()
      requires Forma() && aPlanificar > 0 && ready != []
      modifies this`aPlanificar, this`ready, this`exec, this`despachos
      ensures Forma() && Estado() == A.Despachar(old(Estado()), 0)
    {
      aPlanificar, despachos := aPlanificar - 1, despachos + 1;
      var id := ready[0];
      ready := ready[1..];
      exec := exec + [id];
      assert ready == A.Sin(old(ready), 0);
    }

    /** One turn of the short-term scheduler, first come first served: a token means a ready
        thread. */
    method Despachar()
      requires Valid() && aPlanificar > 0
      modifies this`aPlanificar, this`ready, this`exec, this`despachos
      ensures Valid() && old(ready) != [] && Estado() == A.Despachar(old(Estado()), 0)
    {
      A.PasoTurno(A.REPARADO, Estado(), A.Despacha(0));
      A.PasoPresentes(A.REPARADO, Estado(), A.Despacha(0));
      Ejecutar();
    }
  }
}
