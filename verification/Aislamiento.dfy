/** The memory that processes share: partitions, execution contexts, and the words that running
    threads read and write, with the repairs. Each process sees a private memory. */
module Aislamiento {
  import opened Comun
  import opened Particiones
  import C = Cpu
  import T = Threads
  import W = Wire

  /** `contextos` holds the place each thread's context was given; `corre` is the thread the CPU
      runs. `privadas` is the private memory of each live process: what its partition held when
      it was handed out, and since then only its own writes. */
  datatype Sistema = Sistema(
    esquema: Esquema, particiones: seq<Part>, mem: seq<Byte>, contextos: map<T.Id, C.Lugar>, corre: Option<T.Id>,
    privadas: map<nat, seq<Byte>>)

  datatype Evento =
    | Pide(alg: Algoritmo, pid: nat, n: nat)
    | Termina(pid: nat)
    | CreaHilo(id: T.Id)
    | Cambia(id: T.Id)
    | Escribe(x: nat, valor: nat)
    | Lee(x: nat)

  /** The bytes of a partition. */
  function Tramo(mem: seq<Byte>, base: nat, tam: nat): (r: seq<Byte>)
    ensures |r| == tam
  {
    seq(tam, i requires 0 <= i < tam => if base + i < |mem| then mem[base + i] else 0)
  }

  // --- Steps ---

  predicate Puede(s: Sistema, e: Evento) {
    match e
    case Pide(_, pid, _) => pid != 0 && pid !in Vivos(s.particiones)
    case Termina(pid) => pid != 0
    case CreaHilo(id) => id.pid != 0 && BuscarPid(s.particiones, id.pid, 0) < |s.particiones|
    case Cambia(id) => id in s.contextos
    case Escribe(_, valor) => s.corre.Some? && s.corre.value in s.contextos && valor < WORD
    case Lee(_) => s.corre.Some? && s.corre.value in s.contextos
  }

  /** A process that finds room starts with whatever its partition held. */
  function Pedir(s: Sistema, alg: Algoritmo, pid: nat, n: nat): Sistema {
    var e := Elegir(alg, s.particiones, n, |s.particiones|);
    var t := s.(particiones := Asignar(Reparada, s.esquema, alg, s.particiones, pid, n).0);
    if e < 0 then t
    else
      var q := Entregada(s.esquema, s.particiones[e], pid, n);
      t.(privadas := s.privadas[pid := Tramo(s.mem, q.base, q.tamanio)])
  }

  function Terminar(s: Sistema, pid: nat): Sistema {
    s.(particiones := Finalizar(Reparada, s.esquema, s.particiones, pid),
       contextos := map id | id in s.contextos && id.pid != pid :: s.contextos[id],
       corre := if s.corre.Some? && s.corre.value.pid == pid then None else s.corre,
       privadas := s.privadas - {pid})
  }

  /** A word of the private memory is written if it lies inside it, and does not end the whole
      memory of `largo` bytes. */
  function EscribirPrivada(mem: seq<Byte>, base: nat, largo: nat, x: nat, valor: nat): (r: seq<Byte>)
    ensures |r| == |mem|
  {
    if x + 4 <= |mem| && base + x + 4 < largo
    then seq(|mem|, i requires 0 <= i < |mem| => C.Mezcla(mem, x, valor, i))
    else mem
  }

  function Escribir(s: Sistema, x: nat, valor: nat): Sistema
    requires Puede(s, Escribe(x, valor))
  {
    var id := s.corre.value;
    var l := s.contextos[id];
    match C.Mmu(Reparada, l, x)
    case None => s.(corre := None)
    case Some(d) =>
      var t := s.(mem := C.Escribir(s.mem, d, valor));
      if id.pid in s.privadas
      then t.(privadas := s.privadas[id.pid := EscribirPrivada(s.privadas[id.pid], l.base, |s.mem|, x, valor)])
      else t
  }

  /** The word the running thread gets, if an answer comes. */
  function Leido(s: Sistema, x: nat): Option<nat>
    requires Puede(s, Lee(x))
  {
    match C.Mmu(Reparada, s.contextos[s.corre.value], x)
    case None => None
    case Some(d) => C.LeerPalabra(s.mem, d)
  }

  function Paso(s: Sistema, e: Evento): Sistema
    requires Puede(s, e)
  {
    match e
    case Pide(alg, pid, n) => Pedir(s, alg, pid, n)
    case Termina(pid) => Terminar(s, pid)
    case CreaHilo(id) =>
      var q := s.particiones[BuscarPid(s.particiones, id.pid, 0)];
      s.(contextos := s.contextos[id := C.Lugar(q.base, q.tamanio)])
    case Cambia(id) => s.(corre := Some(id))
    case Escribe(x, valor) => Escribir(s, x, valor)
    case Lee(x) => if C.Mmu(Reparada, s.contextos[s.corre.value], x).None? then s.(corre := None) else s
  }

  function Correr(s: Sistema, es: seq<Evento>): Sistema
    decreases |es|
  {
    if es == [] then s else Correr(if Puede(s, es[0]) then Paso(s, es[0]) else s, es[1..])
  }

  function Inicio(esq: Esquema, ps: seq<Part>, mem: seq<Byte>): Sistema {
    Sistema(esq, ps, mem, map[], None, map[])
  }

  // --- Partitions do not overlap ---

  lemma {:induction false} EnOrden(ps: seq<Part>, total: nat, i: nat, j: nat)
    requires Tesela(ps, total) && i < j < |ps|
    ensures ps[i].base + ps[i].tamanio <= ps[j].base
    decreases j
  {
    if i >= j - 1 {
    } else {
      EnOrden(ps, total, i, j - 1);
    }
  }

  lemma {:induction false} Dentro(ps: seq<Part>, total: nat, i: nat)
    requires Tesela(ps, total) && i < |ps|
    ensures ps[i].base + ps[i].tamanio <= total
  {
    if i < |ps| - 1 {
      EnOrden(ps, total, i, |ps| - 1);
    }
  }

  lemma {:induction false} Disjuntas(ps: seq<Part>, total: nat, p: Part, q: Part)
    requires Tesela(ps, total) && p in ps && q in ps && p != q
    ensures p.base + p.tamanio <= q.base || q.base + q.tamanio <= p.base
  {
    var i :| 0 <= i < |ps| && ps[i] == p;
    var j :| 0 <= j < |ps| && ps[j] == q;
    if i < j {
      EnOrden(ps, total, i, j);
    } else {
      EnOrden(ps, total, j, i);
    }
  }

  // --- The relation between the shared memory and the private ones ---

  /** Partition `q` holds, byte by byte, the private memory of its process. */
  ghost predicate Guarda(mem: seq<Byte>, q: Part, privadas: map<nat, seq<Byte>>) {
    && q.base + q.tamanio <= |mem|
    && q.pid in privadas && |privadas[q.pid]| == q.tamanio
    && forall i :: 0 <= i < q.tamanio ==> mem[q.base + i] == privadas[q.pid][i]
  }

  ghost predicate EsDe(ps: seq<Part>, pid: nat, l: C.Lugar, q: Part) {
    q in ps && !q.libre && q.pid == pid && l == C.Lugar(q.base, q.tamanio)
  }

  /** The partition list is in order: it tiles the memory, each process holds one partition, and
      free ones carry no pid. */
  ghost predicate Lista(esq: Esquema, ps: seq<Part>, total: nat) {
    && Tesela(ps, total) && UnaPorProceso(ps) && LibresSinPid(ps)
    && (esq.Dinamicas? ==> Particiones.Inv(ps, total))
  }

  ghost predicate Orden(s: Sistema) {
    && Lista(s.esquema, s.particiones, |s.mem|)
    && (forall id :: id in s.contextos ==> id.pid != 0 && exists q :: EsDe(s.particiones, id.pid, s.contextos[id], q))
    && (s.corre.Some? ==> s.corre.value in s.contextos)
  }

  ghost predicate Aislado(s: Sistema) {
    forall q :: q in s.particiones && !q.libre ==> Guarda(s.mem, q, s.privadas)
  }

  lemma {:induction false} MismaTesela(a: seq<Part>, b: seq<Part>, total: nat)
    requires MismaForma(a, b) && Tesela(b, total)
    ensures Tesela(a, total)
  {
  }

  lemma {:induction false} AsignarLista(esq: Esquema, alg: Algoritmo, ps: seq<Part>, total: nat, pid: nat, n: nat)
    requires Lista(esq, ps, total) && pid != 0 && pid !in Vivos(ps)
    ensures Lista(esq, Asignar(Reparada, esq, alg, ps, pid, n).0, total)
  {
    AsignarVivos(Reparada, esq, alg, ps, pid, n);
    AsignarLibres(Reparada, esq, alg, ps, pid, n);
    if esq.Dinamicas? {
      AsignarConserva(alg, ps, pid, n, total);
    } else {
      FijasPaso(Reparada, ps, Particiones.Pide(alg, pid, n));
      MismaTesela(Asignar(Reparada, esq, alg, ps, pid, n).0, ps, total);
    }
  }

  lemma {:induction false} FinalizarLista(esq: Esquema, ps: seq<Part>, total: nat, pid: nat)
    requires Lista(esq, ps, total) && pid != 0
    ensures Lista(esq, Finalizar(Reparada, esq, ps, pid), total)
  {
    FinalizarVivos(Reparada, esq, ps, pid);
    FinalizarLibres(Reparada, esq, ps, pid);
    if esq.Dinamicas? {
      FinalizarConserva(ps, pid, total);
    } else {
      FijasPaso(Reparada, ps, Particiones.Termina(pid));
      MismaTesela(Finalizar(Reparada, esq, ps, pid), ps, total);
    }
  }

  lemma {:induction false} PedirOrden(s: Sistema, alg: Algoritmo, pid: nat, n: nat)
    requires Orden(s) && Puede(s, Evento.Pide(alg, pid, n))
    ensures Orden(Pedir(s, alg, pid, n))
  {
    var t := Pedir(s, alg, pid, n);
    AsignarLista(s.esquema, alg, s.particiones, |s.mem|, pid, n);
    AsignarVivos(Reparada, s.esquema, alg, s.particiones, pid, n);
    forall id | id in t.contextos ensures id.pid != 0 && exists q :: EsDe(t.particiones, id.pid, t.contextos[id], q) {
      var q :| EsDe(s.particiones, id.pid, s.contextos[id], q);
      assert EsDe(t.particiones, id.pid, t.contextos[id], q);
    }
  }

  lemma {:induction false} NuevaGuarda(mem: seq<Byte>, q: Part, privadas: map<nat, seq<Byte>>)
    requires q.base + q.tamanio <= |mem|
    ensures Guarda(mem, q, privadas[q.pid := Tramo(mem, q.base, q.tamanio)])
  {
  }

  lemma {:induction false} OtraGuarda(mem: seq<Byte>, q: Part, privadas: map<nat, seq<Byte>>, pid: nat, otra: seq<Byte>)
    requires Guarda(mem, q, privadas) && pid != q.pid
    ensures Guarda(mem, q, privadas[pid := otra])
  {
  }

  lemma {:induction false} PedirAislado(s: Sistema, alg: Algoritmo, pid: nat, n: nat)
    requires Orden(s) && Aislado(s) && Puede(s, Evento.Pide(alg, pid, n))
    ensures Aislado(Pedir(s, alg, pid, n))
  {
    var t := Pedir(s, alg, pid, n);
    var e := Elegir(alg, s.particiones, n, |s.particiones|);
    AsignarVivos(Reparada, s.esquema, alg, s.particiones, pid, n);
    forall q | q in t.particiones && !q.libre ensures Guarda(t.mem, q, t.privadas) {
      if q in s.particiones {
        assert Guarda(s.mem, q, s.privadas) && q.pid in Vivos(s.particiones);
        if e >= 0 {
          OtraGuarda(s.mem, q, s.privadas, pid, t.privadas[pid]);
        }
      } else {
        Dentro(s.particiones, |s.mem|, e);
        NuevaGuarda(s.mem, q, s.privadas);
      }
    }
  }

  lemma {:induction false} TerminarOrden(s: Sistema, pid: nat)
    requires Orden(s) && pid != 0
    ensures Orden(Terminar(s, pid))
  {
    var t := Terminar(s, pid);
    FinalizarLista(s.esquema, s.particiones, |s.mem|, pid);
    FinalizarVivos(Reparada, s.esquema, s.particiones, pid);
    forall id | id in t.contextos ensures id.pid != 0 && exists q :: EsDe(t.particiones, id.pid, t.contextos[id], q) {
      var q :| EsDe(s.particiones, id.pid, s.contextos[id], q);
      assert EsDe(t.particiones, id.pid, t.contextos[id], q);
    }
  }

  lemma {:induction false} TerminarAislado(s: Sistema, pid: nat)
    requires Orden(s) && Aislado(s) && pid != 0
    ensures Aislado(Terminar(s, pid))
  {
    var t := Terminar(s, pid);
    FinalizarVivos(Reparada, s.esquema, s.particiones, pid);
    forall q | q in t.particiones && !q.libre ensures Guarda(t.mem, q, t.privadas) {
      assert Guarda(s.mem, q, s.privadas);
    }
  }

  lemma {:induction false} CreaHiloOrden(s: Sistema, id: T.Id)
    requires Orden(s) && Puede(s, CreaHilo(id))
    ensures Orden(Paso(s, CreaHilo(id)))
  {
    var t := Paso(s, CreaHilo(id));
    var q := s.particiones[BuscarPid(s.particiones, id.pid, 0)];
    assert q in s.particiones;
    assert EsDe(t.particiones, id.pid, t.contextos[id], q);
    forall x | x in t.contextos ensures x.pid != 0 && exists q :: EsDe(t.particiones, x.pid, t.contextos[x], q) {
      if x != id {
        var q :| EsDe(s.particiones, x.pid, s.contextos[x], q);
        assert EsDe(t.particiones, x.pid, t.contextos[x], q);
      }
    }
  }

  /** Byte `i` of the memory after a word is written. */
  lemma {:induction false} EscribirByte(mem: seq<Byte>, d: nat, valor: nat, i: nat)
    requires i < |mem|
    ensures C.Escribir(mem, d, valor)[i] == if d + 4 < |mem| && d <= i < d + 4 then W.Octeto(valor, i - d) else mem[i]
  {
  }

  lemma {:induction false} EscribirPropia(mem: seq<Byte>, q: Part, privadas: map<nat, seq<Byte>>, x: nat, valor: nat)
    requires Guarda(mem, q, privadas) && x + 4 <= q.tamanio
    ensures Guarda(C.Escribir(mem, q.base + x, valor), q,
                   privadas[q.pid := EscribirPrivada(privadas[q.pid], q.base, |mem|, x, valor)])
  {
    forall i | 0 <= i < q.tamanio
      ensures C.Escribir(mem, q.base + x, valor)[q.base + i]
           == EscribirPrivada(privadas[q.pid], q.base, |mem|, x, valor)[i]
    {
      EscribirByte(mem, q.base + x, valor, q.base + i);
    }
  }

  lemma {:induction false} EscribirAjena(mem: seq<Byte>, q: Part, privadas: map<nat, seq<Byte>>, pid: nat,
        otra: seq<Byte>, d: nat, valor: nat)
    requires Guarda(mem, q, privadas) && pid != q.pid
    requires d + 4 <= q.base || q.base + q.tamanio <= d
    ensures Guarda(C.Escribir(mem, d, valor), q, privadas[pid := otra])
  {
    forall i | 0 <= i < q.tamanio ensures C.Escribir(mem, d, valor)[q.base + i] == privadas[q.pid][i] {
      EscribirByte(mem, d, valor, q.base + i);
    }
  }

  /** A write by the owner of `suya`, seen from partition `q`. */
  lemma {:induction false} EscribirGuarda(mem: seq<Byte>, ps: seq<Part>, privadas: map<nat, seq<Byte>>, suya: Part,
        q: Part, x: nat, valor: nat)
    requires Tesela(ps, |mem|) && UnaPorProceso(ps) && suya in ps && q in ps && !suya.libre && !q.libre
    requires Guarda(mem, q, privadas) && suya.pid in privadas && x + 4 <= suya.tamanio
    ensures Guarda(C.Escribir(mem, suya.base + x, valor), q,
                   privadas[suya.pid := EscribirPrivada(privadas[suya.pid], suya.base, |mem|, x, valor)])
  {
    if q == suya {
      EscribirPropia(mem, q, privadas, x, valor);
    } else {
      Disjuntas(ps, |mem|, q, suya);
      EscribirAjena(mem, q, privadas, suya.pid, EscribirPrivada(privadas[suya.pid], suya.base, |mem|, x, valor),
                    suya.base + x, valor);
    }
  }

  lemma {:induction false} EscribirEs(s: Sistema, x: nat, valor: nat, suya: Part)
    requires Puede(s, Escribe(x, valor)) && EsDe(s.particiones, s.corre.value.pid, s.contextos[s.corre.value], suya)
    requires suya.pid in s.privadas
    ensures Escribir(s, x, valor) == if x + 4 > suya.tamanio then s.(corre := None) else
      s.(mem := C.Escribir(s.mem, suya.base + x, valor),
         privadas := s.privadas[suya.pid := EscribirPrivada(s.privadas[suya.pid], suya.base, |s.mem|, x, valor)])
  {
  }

  lemma {:induction false} EscribirAislado(s: Sistema, x: nat, valor: nat)
    requires Orden(s) && Aislado(s) && Puede(s, Escribe(x, valor))
    ensures Aislado(Escribir(s, x, valor))
  {
    var suya :| EsDe(s.particiones, s.corre.value.pid, s.contextos[s.corre.value], suya);
    var t := Escribir(s, x, valor);
    assert Guarda(s.mem, suya, s.privadas);
    EscribirEs(s, x, valor, suya);
    forall q | q in t.particiones && !q.libre ensures Guarda(t.mem, q, t.privadas) {
      assert Guarda(s.mem, q, s.privadas);
      if x + 4 <= suya.tamanio {
        EscribirGuarda(s.mem, s.particiones, s.privadas, suya, q, x, valor);
      }
    }
  }

  /** Steps that leave partitions, contexts and the size of the memory alone. */
  lemma {:induction false} MismoOrden(s: Sistema, t: Sistema)
    requires Orden(s) && t.esquema == s.esquema && t.particiones == s.particiones
    requires t.contextos == s.contextos && |t.mem| == |s.mem|
    requires t.corre.Some? ==> t.corre.value in t.contextos
    ensures Orden(t)
  {
    forall id | id in t.contextos ensures id.pid != 0 && exists q :: EsDe(t.particiones, id.pid, t.contextos[id], q) {
      var q :| EsDe(s.particiones, id.pid, s.contextos[id], q);
      assert EsDe(t.particiones, id.pid, t.contextos[id], q);
    }
  }

  lemma {:induction false} MismoAislado(s: Sistema, t: Sistema)
    requires Aislado(s) && t.particiones == s.particiones && t.mem == s.mem && t.privadas == s.privadas
    ensures Aislado(t)
  {
    forall q | q in t.particiones && !q.libre ensures Guarda(t.mem, q, t.privadas) {
      assert Guarda(s.mem, q, s.privadas);
    }
  }

  lemma {:induction false} EscribirSoloMemoria(s: Sistema, x: nat, valor: nat)
    requires Puede(s, Escribe(x, valor))
    ensures var t := Escribir(s, x, valor);
      && t == s.(mem := t.mem, privadas := t.privadas, corre := t.corre)
      && |t.mem| == |s.mem| && (t.corre == s.corre || t.corre == None)
  {
  }

  lemma {:induction false} EscribirOrden(s: Sistema, x: nat, valor: nat)
    requires Orden(s) && Puede(s, Escribe(x, valor))
    ensures Orden(Escribir(s, x, valor)) && |Escribir(s, x, valor).mem| == |s.mem|
  {
    EscribirSoloMemoria(s, x, valor);
    MismoOrden(s, Escribir(s, x, valor));
  }

  lemma {:induction false} CambiaConserva(s: Sistema, id: T.Id)
    requires Orden(s) && Aislado(s) && id in s.contextos
    ensures Orden(s.(corre := Some(id))) && Aislado(s.(corre := Some(id)))
  {
    MismoOrden(s, s.(corre := Some(id)));
    MismoAislado(s, s.(corre := Some(id)));
  }

  lemma {:induction false} CortaConserva(s: Sistema)
    requires Orden(s) && Aislado(s)
    ensures Orden(s.(corre := None)) && Aislado(s.(corre := None))
  {
    MismoOrden(s, s.(corre := None));
    MismoAislado(s, s.(corre := None));
  }

  lemma {:induction false} CreaHiloConserva(s: Sistema, id: T.Id)
    requires Orden(s) && Aislado(s) && Puede(s, CreaHilo(id))
    ensures Orden(Paso(s, CreaHilo(id))) && Aislado(Paso(s, CreaHilo(id))) && |Paso(s, CreaHilo(id)).mem| == |s.mem|
  {
    CreaHiloOrden(s, id);
    MismoAislado(s, Paso(s, CreaHilo(id)));
  }

  lemma {:induction false} PedirConserva(s: Sistema, alg: Algoritmo, pid: nat, n: nat)
    requires Orden(s) && Aislado(s) && Puede(s, Evento.Pide(alg, pid, n))
    ensures var t := Paso(s, Evento.Pide(alg, pid, n)); Orden(t) && Aislado(t) && |t.mem| == |s.mem|
  {
    PedirOrden(s, alg, pid, n);
    PedirAislado(s, alg, pid, n);
  }

  lemma {:induction false} TerminarConserva(s: Sistema, pid: nat)
    requires Orden(s) && Aislado(s) && Puede(s, Evento.Termina(pid))
    ensures var t := Paso(s, Evento.Termina(pid)); Orden(t) && Aislado(t) && |t.mem| == |s.mem|
  {
    TerminarOrden(s, pid);
    TerminarAislado(s, pid);
  }

  lemma {:induction false} EscribirConserva(s: Sistema, x: nat, valor: nat)
    requires Orden(s) && Aislado(s) && Puede(s, Escribe(x, valor))
    ensures var t := Paso(s, Escribe(x, valor)); Orden(t) && Aislado(t) && |t.mem| == |s.mem|
  {
    EscribirOrden(s, x, valor);
    EscribirAislado(s, x, valor);
  }

  lemma {:induction false} PasoConserva(s: Sistema, e: Evento)
    requires Orden(s) && Aislado(s) && Puede(s, e)
    ensures Orden(Paso(s, e)) && Aislado(Paso(s, e)) && |Paso(s, e).mem| == |s.mem|
  {
    hide Orden, Aislado;
    match e
    case Pide(alg, pid, n) => PedirConserva(s, alg, pid, n);
    case Termina(pid) => TerminarConserva(s, pid);
    case CreaHilo(id) => CreaHiloConserva(s, id);
    case Escribe(x, valor) => EscribirConserva(s, x, valor);
    case Cambia(id) => CambiaConserva(s, id);
    case Lee(x) => CortaConserva(s);
  }

  lemma {:induction false} CorrerConserva(s: Sistema, es: seq<Evento>)
    requires Orden(s) && Aislado(s)
    ensures Orden(Correr(s, es)) && Aislado(Correr(s, es)) && |Correr(s, es).mem| == |s.mem|
    decreases |es|
  {
    if es == [] {
    } else {
      if Puede(s, es[0]) {
        PasoConserva(s, es[0]);
      }
      CorrerConserva(if Puede(s, es[0]) then Paso(s, es[0]) else s, es[1..]);
    }
  }

  lemma {:induction false} InicioBien(esq: Esquema, ps: seq<Part>, mem: seq<Byte>)
    requires Lista(esq, ps, |mem|) && Vivos(ps) == {}
    ensures Orden(Inicio(esq, ps, mem)) && Aislado(Inicio(esq, ps, mem))
  {
    forall q | q in ps ensures q.libre {
      assert !q.libre ==> q.pid in Vivos(ps);
    }
  }

  lemma {:induction false} FijarLibres(tamanios: seq<nat>, inicio: nat)
    ensures forall q :: q in Fijar(tamanios, inicio) ==> q.libre && q.pid == 0
  {
    if tamanios == [] {
    } else {
      FijarLibres(tamanios[1..], inicio + tamanios[0]);
    }
  }

  /** Both ways the memory starts: one partition, or the configured fixed ones. */
  lemma {:induction false} InicialesEnLista(total: nat, tamanios: seq<nat>)
    ensures Lista(Dinamicas, Inicial(total), total) && Vivos(Inicial(total)) == {}
    ensures tamanios != [] ==> Lista(Fijas, Fijar(tamanios, 0), Total(tamanios)) && Vivos(Fijar(tamanios, 0)) == {}
  {
    if tamanios != [] {
      FijarEs(tamanios, 0);
      FijarLibres(tamanios, 0);
    }
  }

  // --- Main results ---

  /** Over every interleaving of allocations, process ends, thread creations, context switches,
      reads and writes, in either scheme, the bytes of every partition in use are its process's
      private memory. */
  lemma {:induction false} MemoriaPrivada(esq: Esquema, ps: seq<Part>, mem: seq<Byte>, es: seq<Evento>, q: Part)
    requires Lista(esq, ps, |mem|) && Vivos(ps) == {}
    requires q in Correr(Inicio(esq, ps, mem), es).particiones && !q.libre
    ensures Guarda(Correr(Inicio(esq, ps, mem), es).mem, q, Correr(Inicio(esq, ps, mem), es).privadas)
  {
    InicioBien(esq, ps, mem);
    CorrerConserva(Inicio(esq, ps, mem), es);
  }

  lemma {:induction false} MismoNumero(a: seq<Byte>, i: nat, b: seq<Byte>, j: nat)
    requires i + 4 <= |a| && j + 4 <= |b|
    requires a[i] == b[j] && a[i + 1] == b[j + 1] && a[i + 2] == b[j + 2] && a[i + 3] == b[j + 3]
    ensures W.Numero(a, i) == W.Numero(b, j)
  {
  }

  lemma {:induction false} ByteGuardado(mem: seq<Byte>, q: Part, privadas: map<nat, seq<Byte>>, i: nat)
    requires Guarda(mem, q, privadas) && i < q.tamanio
    ensures mem[q.base + i] == privadas[q.pid][i]
  {
  }

  lemma {:induction false} NumeroGuardado(mem: seq<Byte>, q: Part, privadas: map<nat, seq<Byte>>, x: nat)
    requires Guarda(mem, q, privadas) && x + 4 <= q.tamanio
    ensures W.Numero(mem, q.base + x) == W.Numero(privadas[q.pid], x)
  {
    ByteGuardado(mem, q, privadas, x);
    ByteGuardado(mem, q, privadas, x + 1);
    ByteGuardado(mem, q, privadas, x + 2);
    ByteGuardado(mem, q, privadas, x + 3);
    MismoNumero(mem, q.base + x, privadas[q.pid], x);
  }

  /** The partition of the running thread's process keeps its private memory. */
  lemma {:induction false} SuParticion(s: Sistema) returns (q: Part)
    requires Orden(s) && Aislado(s) && s.corre.Some?
    ensures s.corre.value in s.contextos && EsDe(s.particiones, s.corre.value.pid, s.contextos[s.corre.value], q)
    ensures Guarda(s.mem, q, s.privadas)
  {
    q :| EsDe(s.particiones, s.corre.value.pid, s.contextos[s.corre.value], q);
  }

  lemma {:induction false} LeeDe(s: Sistema, x: nat, q: Part)
    requires Puede(s, Lee(x)) && EsDe(s.particiones, s.corre.value.pid, s.contextos[s.corre.value], q)
    requires Guarda(s.mem, q, s.privadas)
    ensures Paso(s, Lee(x)).corre == None <==> x + 4 > q.tamanio
    ensures Leido(s, x) == if x + 4 <= q.tamanio && q.base + x + 4 < |s.mem| then Some(W.Numero(s.privadas[q.pid],
        x)) else None
  {
    if x + 4 <= q.tamanio {
      NumeroGuardado(s.mem, q, s.privadas, x);
    }
  }

  /** The running thread reads the word of its process's private memory; it is cut off exactly
      when the word is not inside, and gets no answer exactly when it ends the whole memory. */
  lemma {:induction false} LeeLoSuyo(s: Sistema, x: nat)
    requires Orden(s) && Aislado(s) && Puede(s, Lee(x))
    ensures var l, pid := s.contextos[s.corre.value], s.corre.value.pid;
      && pid in s.privadas && |s.privadas[pid]| == l.limite
      && (Paso(s, Lee(x)).corre == None <==> x + 4 > l.limite)
      && Leido(s, x) == if x + 4 <= l.limite && l.base + x + 4 < |s.mem| then Some(W.Numero(s.privadas[pid], x))
          else None
  {
    var q := SuParticion(s);
    LeeDe(s, x, q);
  }

  // --- The last write to a word ---

  /** `e` neither ends the process nor is a write of its own that overlaps word `x`. */
  predicate NoToca(s: Sistema, e: Evento, pid: nat, x: nat)
    requires Puede(s, e)
  {
    && e != Evento.Termina(pid)
    && (e.Escribe? && s.corre.value.pid == pid ==> e.x + 4 <= x || x + 4 <= e.x)
  }

  predicate NadieToca(s: Sistema, es: seq<Evento>, pid: nat, x: nat)
    decreases |es|
  {
    es == []
    || if Puede(s, es[0]) then NoToca(s, es[0], pid, x) && NadieToca(Paso(s, es[0]), es[1..], pid, x)
       else NadieToca(s, es[1..], pid, x)
  }

  /** Process `pid` still holds partition `q`, and word `x` of its private memory is `valor`. */
  ghost predicate Vale(s: Sistema, q: Part, x: nat, valor: nat) {
    && q in s.particiones && !q.libre
    && q.pid in s.privadas && x + 4 <= |s.privadas[q.pid]|
    && forall k :: 0 <= k < 4 ==> s.privadas[q.pid][x + k] == W.Octeto(valor, k)
  }

  lemma {:induction false} EscribirPrivadaDeja(mem: seq<Byte>, base: nat, largo: nat, y: nat, valor: nat, i: nat)
    requires i < |mem| && (i < y || y + 4 <= i)
    ensures EscribirPrivada(mem, base, largo, y, valor)[i] == mem[i]
  {
  }

  lemma {:induction false} EscribirDeja(s: Sistema, q: Part, x: nat, valor: nat, y: nat, otro: nat)
    requires Vale(s, q, x, valor) && Puede(s, Escribe(y, otro)) && NoToca(s, Escribe(y, otro), q.pid, x)
    ensures Vale(Escribir(s, y, otro), q, x, valor)
  {
    var t, l := Escribir(s, y, otro), s.contextos[s.corre.value];
    if s.corre.value.pid == q.pid {
      forall k | 0 <= k < 4 ensures t.privadas[q.pid][x + k] == W.Octeto(valor, k) {
        EscribirPrivadaDeja(s.privadas[q.pid], l.base, |s.mem|, y, otro, x + k);
      }
    }
  }

  lemma {:induction false} PedirDeja(s: Sistema, q: Part, x: nat, valor: nat, alg: Algoritmo, pid: nat, n: nat)
    requires Orden(s) && Vale(s, q, x, valor) && Puede(s, Evento.Pide(alg, pid, n))
    ensures Vale(Pedir(s, alg, pid, n), q, x, valor)
  {
    AsignarVivos(Reparada, s.esquema, alg, s.particiones, pid, n);
    assert q.pid in Vivos(s.particiones);
  }

  lemma {:induction false} TerminarDeja(s: Sistema, q: Part, x: nat, valor: nat, pid: nat)
    requires Orden(s) && Vale(s, q, x, valor) && pid != 0 && pid != q.pid
    ensures Vale(Terminar(s, pid), q, x, valor)
  {
    FinalizarVivos(Reparada, s.esquema, s.particiones, pid);
  }

  lemma {:induction false} PasoDeja(s: Sistema, e: Evento, q: Part, x: nat, valor: nat)
    requires Orden(s) && Vale(s, q, x, valor) && Puede(s, e) && NoToca(s, e, q.pid, x)
    ensures Vale(Paso(s, e), q, x, valor)
  {
    match e
    case Pide(alg, pid, n) => PedirDeja(s, q, x, valor, alg, pid, n);
    case Termina(pid) => TerminarDeja(s, q, x, valor, pid);
    case Escribe(y, otro) => EscribirDeja(s, q, x, valor, y, otro);
    case _ =>
  }

  lemma {:induction false} CorrerDeja(s: Sistema, es: seq<Evento>, q: Part, x: nat, valor: nat)
    requires Orden(s) && Aislado(s) && Vale(s, q, x, valor) && NadieToca(s, es, q.pid, x)
    ensures Vale(Correr(s, es), q, x, valor)
    decreases |es|
  {
    if es == [] {
    } else {
      if Puede(s, es[0]) {
        PasoConserva(s, es[0]);
        PasoDeja(s, es[0], q, x, valor);
        CorrerDeja(Paso(s, es[0]), es[1..], q, x, valor);
      } else {
        CorrerDeja(s, es[1..], q, x, valor);
      }
    }
  }

  lemma {:induction false} EscritaVale(s: Sistema, x: nat, valor: nat, q: Part)
    requires Orden(s) && Aislado(s) && Puede(s, Escribe(x, valor))
    requires EsDe(s.particiones, s.corre.value.pid, s.contextos[s.corre.value], q)
    requires x + 4 <= q.tamanio && q.base + x + 4 < |s.mem|
    ensures Vale(Escribir(s, x, valor), q, x, valor)
  {
    assert Guarda(s.mem, q, s.privadas);
    EscribirEs(s, x, valor, q);
  }

  lemma {:induction false} ValeNumero(s: Sistema, q: Part, x: nat, valor: nat)
    requires Vale(s, q, x, valor) && valor < WORD
    ensures W.Numero(s.privadas[q.pid], x) == valor
  {
    var p := s.privadas[q.pid];
    assert p[x + 0] == W.Octeto(valor, 0) && p[x + 1] == W.Octeto(valor, 1)
        && p[x + 2] == W.Octeto(valor, 2) && p[x + 3] == W.Octeto(valor, 3);
    W.SumaDeOctetos(valor);
  }

  /** READ_MEM returns the last word written: after a write that is let through, whatever the
      processes do, and whichever thread of the writer's process reads the word next, it gets the
      value written, as long as that process has neither ended nor written over the word. */
  lemma {:induction false} LeeLoUltimoEscrito(s: Sistema, x: nat, valor: nat, es: seq<Evento>)
    requires Orden(s) && Aislado(s) && Puede(s, Escribe(x, valor))
    requires x + 4 <= s.contextos[s.corre.value].limite && s.contextos[s.corre.value].base + x + 4 < |s.mem|
    requires NadieToca(Escribir(s, x, valor), es, s.corre.value.pid, x)
    ensures var t := Correr(Escribir(s, x, valor), es);
      Puede(t, Lee(x)) && t.corre.value.pid == s.corre.value.pid ==> Leido(t, x) == Some(valor)
  {
    var s1 := Escribir(s, x, valor);
    var q :| EsDe(s.particiones, s.corre.value.pid, s.contextos[s.corre.value], q);
    PasoConserva(s, Escribe(x, valor));
    EscritaVale(s, x, valor, q);
    CorrerConserva(s1, es);
    CorrerDeja(s1, es, q, x, valor);
    var t := Correr(s1, es);
    if Puede(t, Lee(x)) && t.corre.value.pid == q.pid {
      LeeLoSuyo(t, x);
      ValeNumero(t, q, x, valor);
      var q2 :| EsDe(t.particiones, t.corre.value.pid, t.contextos[t.corre.value], q2);
      assert q2 == q;
    }
  }
}
