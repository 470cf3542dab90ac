/** Threads that share the CPU, with the repairs: contexts are saved and given back at each switch,
    and instructions of different threads interleave in any order. Each thread whose partition is
    its own runs as if it were alone. */
module Intercalado {
  import opened Comun
  import A = Aislamiento
  import C = Cpu
  import F = Fibo
  import K = Contextos
  import N = Numeros
  import P = Particiones
  import T = Threads
  import W = Wire

  /** `contextos` are those the memory module keeps, and `pc` and `regs` those of the thread the CPU
      runs. */
  datatype Sistema = Sistema(
    mem: seq<Byte>, contextos: seq<K.Contexto>, corre: Option<T.Id>, pc: nat, regs: C.Registros)

  /** The program of each thread. */
  type Programas = map<T.Id, seq<C.Instruccion>>

  function ProgramaDe(ps: Programas, id: T.Id): seq<C.Instruccion> {
    if id in ps then ps[id] else []
  }

  function ContextoDe(s: Sistema, id: T.Id): Option<K.Contexto> {
    K.Devolver(s.contextos, id.tid, id.pid)
  }

  /** The CPU goes over to thread `id`, or takes one more turn of its cycle. */
  datatype Evento = Cambia(id: T.Id) | Vuelta

  /** The context of the running thread is saved, and the CPU left free. */
  function Guardar(s: Sistema): Sistema {
    match s.corre
    case None => s
    case Some(id) => s.(contextos := K.Actualizar(s.contextos, id.tid, id.pid, s.regs, s.pc), corre := None)
  }

  /** The CPU is given the context of `id`, if there is one. */
  function Tomar(s: Sistema, id: T.Id): Sistema {
    match ContextoDe(s, id)
    case None => s
    case Some(c) => s.(corre := Some(id), pc := c.pc, regs := c.regs)
  }

  /** The machine the running thread sees. */
  function Cpu(s: Sistema): C.Maquina {
    C.Maquina(s.pc, s.regs, s.mem)
  }

  function Con(s: Sistema, m: C.Maquina): Sistema {
    s.(pc := m.pc, regs := m.regs, mem := m.mem)
  }

  /** One instruction of the running thread. A system call or a segmentation fault gives the CPU
      back; with no answer, the CPU goes on waiting. */
  function Turno(ps: Programas, s: Sistema): Sistema {
    if s.corre.None? || ContextoDe(s, s.corre.value).None? then s
    else
      var id := s.corre.value;
      match C.Paso(Reparada, ContextoDe(s, id).value.lugar, ProgramaDe(ps, id), Cpu(s))
      case Sigue(m) => Con(s, m)
      case Syscall(_, m) => Guardar(Con(s, m))
      case Segfault(m) => Guardar(Con(s, m))
      case Espera(m) => Con(s, m)
      case Cae => s
  }

  function Paso(ps: Programas, s: Sistema, e: Evento): Sistema {
    match e
    case Cambia(id) => Tomar(Guardar(s), id)
    case Vuelta => Turno(ps, s)
  }

  function Correr(ps: Programas, s: Sistema, es: seq<Evento>): Sistema
    decreases |es|
  {
    if es == [] then s else Correr(ps, Paso(ps, s, es[0]), es[1..])
  }

  /** The turns that thread `id` takes in a run. */
  function Turnos(ps: Programas, s: Sistema, es: seq<Evento>, id: T.Id): nat
    decreases |es|
  {
    if es == [] then 0
    else (if es[0] == Vuelta && s.corre == Some(id) then 1 else 0) + Turnos(ps, Paso(ps, s, es[0]), es[1..], id)
  }

  // --- A thread alone ---

  /** One turn of a program that has the machine for itself. */
  function Avanza(l: C.Lugar, p: seq<C.Instruccion>, m: C.Maquina): C.Maquina {
    match C.Paso(Reparada, l, p, m)
    case Sigue(m1) => m1
    case Syscall(_, m1) => m1
    case Segfault(m1) => m1
    case Espera(m1) => m1
    case Cae => m
  }

  function Solo(l: C.Lugar, p: seq<C.Instruccion>, m: C.Maquina, k: nat): C.Maquina
    decreases k
  {
    if k == 0 then m else Solo(l, p, Avanza(l, p, m), k - 1)
  }

  /** The machine as thread `id` sees it: its PC and registers, wherever they are. */
  function Vista(s: Sistema, id: T.Id): C.Maquina
    requires ContextoDe(s, id).Some?
  {
    if s.corre == Some(id) then Cpu(s)
    else C.Maquina(ContextoDe(s, id).value.pc, ContextoDe(s, id).value.regs, s.mem)
  }

  /** The same PC and registers, and the same bytes in the partition. */
  ghost predicate Igual(l: C.Lugar, a: C.Maquina, b: C.Maquina) {
    && a.pc == b.pc && a.regs == b.regs && |a.mem| == |b.mem|
    && forall x :: l.base <= x < l.base + l.limite && x < |a.mem| ==> a.mem[x] == b.mem[x]
  }

  lemma {:induction false} IgualTransita(l: C.Lugar, a: C.Maquina, b: C.Maquina, c: C.Maquina)
    requires Igual(l, a, b) && Igual(l, b, c)
    ensures Igual(l, a, c)
  {
  }

  lemma {:induction false} LeeIgual(l: C.Lugar, a: C.Maquina, b: C.Maquina, logica: nat)
    requires Igual(l, a, b) && logica + 4 <= l.limite
    ensures C.LeerPalabra(a.mem, l.base + logica) == C.LeerPalabra(b.mem, l.base + logica)
  {
    var d := l.base + logica;
    if d + 4 < |a.mem| {
      assert a.mem[d] == b.mem[d] && a.mem[d + 1] == b.mem[d + 1] && a.mem[d + 2] == b.mem[d + 2]
          && a.mem[d + 3] == b.mem[d + 3];
    }
  }

  lemma {:induction false} EscribeIgual(l: C.Lugar, a: C.Maquina, b: C.Maquina, d: nat, valor: nat)
    requires Igual(l, a, b)
    ensures Igual(l, a.(mem := C.Escribir(a.mem, d, valor)), b.(mem := C.Escribir(b.mem, d, valor)))
  {
  }

  /** The same kind of end, and the same machine as far as the partition goes. */
  ghost predicate MismaSalida(l: C.Lugar, s: C.Salida, t: C.Salida) {
    match (s, t)
    case (Sigue(a), Sigue(b)) => Igual(l, a, b)
    case (Syscall(i, a), Syscall(j, b)) => i == j && Igual(l, a, b)
    case (Segfault(a), Segfault(b)) => Igual(l, a, b)
    case (Espera(a), Espera(b)) => Igual(l, a, b)
    case (Cae, Cae) => true
    case _ => false
  }

  lemma {:induction false} WriteIgual(l: C.Lugar, i: C.Instruccion, a: C.Maquina, b: C.Maquina)
    requires Igual(l, a, b)
    ensures MismaSalida(l, C.EjecutarWrite(Reparada, l, i, a), C.EjecutarWrite(Reparada, l, i, b))
  {
    if i.r1.Some? && i.r2.Some? {
      EscribeIgual(l, a, b, l.base + C.Valor(a.regs, i.r1.value), C.Valor(a.regs, i.r2.value));
    }
  }

  lemma {:induction false} ReadIgual(l: C.Lugar, i: C.Instruccion, a: C.Maquina, b: C.Maquina)
    requires Igual(l, a, b)
    ensures MismaSalida(l, C.EjecutarRead(Reparada, l, i, a), C.EjecutarRead(Reparada, l, i, b))
  {
    if i.r1.Some? && i.r2.Some? && C.Valor(a.regs, i.r2.value) + 4 <= l.limite {
      LeeIgual(l, a, b, C.Valor(a.regs, i.r2.value));
    }
  }

  /** What an instruction does depends on the PC, the registers and the partition alone. */
  lemma {:induction false} EjecutarIgual(l: C.Lugar, i: C.Instruccion, a: C.Maquina, b: C.Maquina)
    requires Igual(l, a, b)
    ensures MismaSalida(l, C.Ejecutar(Reparada, l, i, a), C.Ejecutar(Reparada, l, i, b))
  {
    match i.op
    case WriteMem => WriteIgual(l, i, a, b);
    case ReadMem => ReadIgual(l, i, a, b);
    case _ =>
  }

  lemma {:induction false} AvanzaIgual(l: C.Lugar, p: seq<C.Instruccion>, a: C.Maquina, b: C.Maquina)
    requires Igual(l, a, b)
    ensures Igual(l, Avanza(l, p, a), Avanza(l, p, b))
  {
    if a.pc < |p| {
      EjecutarIgual(l, p[a.pc], a, b);
    }
  }

  lemma {:induction false} SoloIgual(l: C.Lugar, p: seq<C.Instruccion>, a: C.Maquina, b: C.Maquina, k: nat)
    requires Igual(l, a, b)
    ensures Igual(l, Solo(l, p, a, k), Solo(l, p, b, k))
    decreases k
  {
    if k == 0 {
    } else {
      AvanzaIgual(l, p, a, b);
      SoloIgual(l, p, Avanza(l, p, a), Avanza(l, p, b), k - 1);
    }
  }

  // --- Places apart ---

  predicate Ajenos(a: C.Lugar, b: C.Lugar) {
    a.base + a.limite <= b.base || b.base + b.limite <= a.base
  }

  /** Thread `id` has a context, at place `l`, and every other thread is elsewhere. */
  ghost predicate Aparte(s: Sistema, id: T.Id, l: C.Lugar) {
    && ContextoDe(s, id).Some? && ContextoDe(s, id).value.lugar == l
    && forall otro :: otro != id && ContextoDe(s, otro).Some? ==> Ajenos(ContextoDe(s, otro).value.lugar, l)
  }

  /** The contexts after the running thread's is saved. */
  lemma {:induction false} GuardarDevuelve(s: Sistema, id: T.Id)
    ensures ContextoDe(Guardar(s), id)
         == if s.corre == Some(id) && ContextoDe(s, id).Some?
            then Some(ContextoDe(s, id).value.(regs := s.regs, pc := s.pc)) else ContextoDe(s, id)
  {
    if s.corre.Some? {
      K.ActualizarDevuelve(s.contextos, s.corre.value.tid, s.corre.value.pid, s.regs, s.pc, id.tid, id.pid);
    }
  }

  lemma {:induction false} MismoAparte(s: Sistema, t: Sistema, id: T.Id, l: C.Lugar)
    requires Aparte(s, id, l)
    requires forall j :: ContextoDe(t, j).Some? <==> ContextoDe(s, j).Some?
    requires forall j :: ContextoDe(t, j).Some? ==> ContextoDe(t, j).value.lugar == ContextoDe(s, j).value.lugar
    ensures Aparte(t, id, l)
  {
  }

  lemma {:induction false} GuardarAparte(s: Sistema, id: T.Id, l: C.Lugar)
    requires Aparte(s, id, l)
    ensures Aparte(Guardar(s), id, l) && Vista(Guardar(s), id) == Vista(s, id)
  {
    forall j ensures ContextoDe(Guardar(s), j).Some? <==> ContextoDe(s, j).Some?
      ensures ContextoDe(s, j).Some? ==> ContextoDe(Guardar(s), j).value.lugar == ContextoDe(s, j).value.lugar
    {
      GuardarDevuelve(s, j);
    }
    MismoAparte(s, Guardar(s), id, l);
    GuardarDevuelve(s, id);
  }

  /** A switch changes nothing for any thread. */
  lemma {:induction false} CambiaDeja(s: Sistema, otro: T.Id, id: T.Id, l: C.Lugar)
    requires Aparte(s, id, l)
    ensures Aparte(Tomar(Guardar(s), otro), id, l) && Vista(Tomar(Guardar(s), otro), id) == Vista(s, id)
  {
    GuardarAparte(s, id, l);
    MismoAparte(Guardar(s), Tomar(Guardar(s), otro), id, l);
  }

  /** The running thread moves on as it would alone. */
  lemma {:induction false} TurnoPropio(ps: Programas, s: Sistema, id: T.Id, l: C.Lugar)
    requires Aparte(s, id, l) && s.corre == Some(id)
    ensures Aparte(Turno(ps, s), id, l) && Vista(Turno(ps, s), id) == Avanza(l, ProgramaDe(ps, id), Vista(s, id))
  {
    var m := Avanza(l, ProgramaDe(ps, id), Cpu(s));
    MismoAparte(s, Con(s, m), id, l);
    GuardarAparte(Con(s, m), id, l);
  }

  lemma {:induction false} AvanzaConfinada(l: C.Lugar, p: seq<C.Instruccion>, m: C.Maquina)
    ensures C.SoloDentro(l, m.mem, Avanza(l, p, m).mem)
  {
    if m.pc < |p| {
      C.EjecutarConfinado(Reparada, l, p[m.pc], m);
    }
  }

  /** Another thread's turn leaves this one's PC, registers and partition as they are. */
  lemma {:induction false} TurnoAjeno(ps: Programas, s: Sistema, id: T.Id, l: C.Lugar)
    requires Aparte(s, id, l) && s.corre != Some(id)
    ensures Aparte(Turno(ps, s), id, l) && Igual(l, Vista(s, id), Vista(Turno(ps, s), id))
  {
    if s.corre.Some? && ContextoDe(s, s.corre.value).Some? {
      var otro := ContextoDe(s, s.corre.value).value.lugar;
      var p := ProgramaDe(ps, s.corre.value);
      var m := Avanza(otro, p, Cpu(s));
      AvanzaConfinada(otro, p, Cpu(s));
      MismoAparte(s, Con(s, m), id, l);
      GuardarAparte(Con(s, m), id, l);
      assert Ajenos(otro, l);
      forall x | l.base <= x < l.base + l.limite && x < |s.mem| ensures s.mem[x] == m.mem[x] {
        assert !(otro.base <= x < otro.base + otro.limite);
      }
    }
  }

  /** One event of a run, for a thread whose partition no other has: its own turn takes it where its
      program goes, and anything else leaves it where it is. */
  lemma {:induction false} PasoIgual(ps: Programas, s: Sistema, e: Evento, id: T.Id, l: C.Lugar)
    requires Aparte(s, id, l)
    ensures var t, m := Paso(ps, s, e), Vista(s, id);
      && Aparte(t, id, l)
      && Igual(l, if e == Vuelta && s.corre == Some(id) then Avanza(l, ProgramaDe(ps, id), m) else m, Vista(t, id))
  {
    hide Aparte, Vista, ContextoDe, Avanza, Turno, Tomar, Guardar, ProgramaDe;
    match e
    case Cambia(otro) => CambiaDeja(s, otro, id, l);
    case Vuelta =>
      if s.corre == Some(id) {
        TurnoPropio(ps, s, id, l);
      } else {
        TurnoAjeno(ps, s, id, l);
      }
  }

  // --- Main results ---

  /** Over every interleaving, with contexts saved and given back at each switch, the PC, the
      registers and the partition of a thread whose partition no other thread has are those of its
      program run alone for as many turns as it took. */
  lemma {:induction false} ComoSolo(ps: Programas, s: Sistema, es: seq<Evento>, id: T.Id, l: C.Lugar)
    requires Aparte(s, id, l)
    ensures var t := Correr(ps, s, es);
      && Aparte(t, id, l)
      && Igual(l, Solo(l, ProgramaDe(ps, id), Vista(s, id), Turnos(ps, s, es, id)), Vista(t, id))
    decreases |es|
  {
    if es == [] {
    } else {
      hide Aparte, Igual, Vista, ContextoDe, Avanza, Paso, ProgramaDe;
      var t, p, m := Paso(ps, s, es[0]), ProgramaDe(ps, id), Vista(s, id);
      var k, m1 := Turnos(ps, t, es[1..], id), if es[0] == Vuelta && s.corre == Some(id) then Avanza(l, p, m) else m;
      PasoIgual(ps, s, es[0], id, l);
      SoloIgual(l, p, m1, Vista(t, id), k);
      ComoSolo(ps, t, es[1..], id, l);
      IgualTransita(l, Solo(l, p, m1, k), Solo(l, p, Vista(t, id), k), Vista(Correr(ps, s, es), id));
    }
  }

  /** Two runs that give a thread as many turns leave it in the same place, whatever the others do. */
  lemma {:induction false} DaIgualElOrden(ps: Programas, s: Sistema, es: seq<Evento>, fs: seq<Evento>, id: T.Id,
        l: C.Lugar)
    requires Aparte(s, id, l) && Turnos(ps, s, es, id) == Turnos(ps, s, fs, id)
    ensures ContextoDe(Correr(ps, s, es), id).Some? && ContextoDe(Correr(ps, s, fs), id).Some?
    ensures Igual(l, Vista(Correr(ps, s, es), id), Vista(Correr(ps, s, fs), id))
  {
    ComoSolo(ps, s, es, id, l);
    ComoSolo(ps, s, fs, id, l);
  }

  /** A program that only goes on is the same alone. */
  lemma {:induction false} SoloEsPasos(l: C.Lugar, p: seq<C.Instruccion>, m: C.Maquina, k: nat, f: C.Maquina)
    requires C.Pasos(Reparada, l, p, m, k) == C.Sigue(f)
    ensures Solo(l, p, m, k) == f
    decreases k
  {
    if k == 0 {
    } else {
      var m1 := Avanza(l, p, m);
      assert C.Paso(Reparada, l, p, m) == C.Sigue(m1);
      C.PasosUno(Reparada, l, p, m, m1, k - 1);
      SoloEsPasos(l, p, m1, k - 1, f);
    }
  }

  /** Wherever a program comes to alone, it comes to under any interleaving that gives it the turns. */
  lemma {:induction false} LlegaIgual(ps: Programas, s: Sistema, es: seq<Evento>, id: T.Id, l: C.Lugar, k: nat,
        f: C.Maquina)
    requires Aparte(s, id, l) && Turnos(ps, s, es, id) == k
    requires C.Pasos(Reparada, l, ProgramaDe(ps, id), Vista(s, id), k) == C.Sigue(f)
    ensures ContextoDe(Correr(ps, s, es), id).Some? && Igual(l, f, Vista(Correr(ps, s, es), id))
  {
    SoloEsPasos(l, ProgramaDe(ps, id), Vista(s, id), k, f);
    ComoSolo(ps, s, es, id, l);
  }

  /** The Fibonacci program under any interleaving: once it has taken 6 + 10n turns it is about to
      make its DUMP_MEMORY, its partition holds the first 2n Fibonacci numbers, but for one that
      would end the memory, and AX and BX the next two. */
  lemma {:induction false} FiboIntercalado(ps: Programas, s: Sistema, es: seq<Evento>, id: T.Id, l: C.Lugar, n: nat)
      returns (f: C.Maquina)
    requires Aparte(s, id, l) && ProgramaDe(ps, id) == F.Codigo(N.Decimal(n)) && Vista(s, id).pc == 0
    requires 0 < n < WORD && 8 * n <= l.limite && l.base + 8 * n <= |s.mem| < WORD
    requires Turnos(ps, s, es, id) == 6 + 10 * n
    ensures ContextoDe(Correr(ps, s, es), id).Some? && Igual(l, f, Vista(Correr(ps, s, es), id))
    ensures f.pc == 16 && f.regs.ax == Mod32(F.Fib(2 * n)) && f.regs.bx == Mod32(F.Fib(2 * n + 1))
    ensures F.Escrito(f.mem, s.mem, l.base, F.Entran(l.base, |s.mem|, 2 * n))
  {
    hide F.Fib, F.Escrito, F.Codigo, N.Decimal, C.Pasos, Igual, Correr, Turnos;
    f := F.FiboLlega(n, l, Vista(s, id));
    LlegaIgual(ps, s, es, id, l, 6 + 10 * n, f);
  }

  // --- What the instructions do to the memory that processes share ---

  /** The running thread of `s`, with the address in one register. */
  ghost predicate EnCpu(s: A.Sistema, m: C.Maquina, d: C.Reg, x: nat) {
    s.corre.Some? && s.corre.value in s.contextos && m.mem == s.mem && C.Valor(m.regs, d) == x
  }

  /** A READ_MEM instruction puts in its register what the run of `Aislamiento` says is read; with
      nothing read, it is cut off or left waiting. */
  lemma {:induction false} ReadEsLeido(s: A.Sistema, m: C.Maquina, i: C.Instruccion, x: nat)
    requires i.op == C.ReadMem && !i.syscall && i.r1.Some? && i.r2.Some? && EnCpu(s, m, i.r2.value, x)
    ensures var r := C.Ejecutar(Reparada, s.contextos[s.corre.value], i, m);
      match A.Leido(s, x)
      case Some(w) => r.Sigue? && C.Valor(r.m.regs, i.r1.value) == w && r.m.mem == s.mem
      case None => r == (if A.Paso(s, A.Lee(x)).corre == None then C.Segfault(m) else C.Espera(m))
  {
  }

  /** A WRITE_MEM instruction leaves the memory that the run of `Aislamiento` says; it is cut off exactly
      when the run says so. */
  lemma {:induction false} WriteEsEscribir(s: A.Sistema, m: C.Maquina, i: C.Instruccion, x: nat, valor: nat)
    requires i.op == C.WriteMem && !i.syscall && i.r1.Some? && i.r2.Some? && EnCpu(s, m, i.r1.value, x)
    requires C.Valor(m.regs, i.r2.value) == valor < WORD
    ensures var r, t := C.Ejecutar(Reparada, s.contextos[s.corre.value], i, m), A.Paso(s, A.Escribe(x, valor));
      && (r == C.Segfault(m) <==> t.corre == None)
      && (t.corre != None ==> r.Sigue? && r.m.mem == t.mem && r.m.regs == m.regs)
  {
  }

  lemma {:induction false} LugaresAjenosEn(s: A.Sistema, a: T.Id, b: T.Id)
    requires A.Orden(s) && a in s.contextos && b in s.contextos && a.pid != b.pid
    ensures Ajenos(s.contextos[a], s.contextos[b])
  {
    var p :| A.EsDe(s.particiones, a.pid, s.contextos[a], p);
    var q :| A.EsDe(s.particiones, b.pid, s.contextos[b], q);
    A.Disjuntas(s.particiones, |s.mem|, p, q);
  }

  /** Over every run of requests, ends and creations, threads of different processes have places
      apart. */
  lemma {:induction false} LugaresAjenos(esq: P.Esquema, ps: seq<P.Part>, mem: seq<Byte>, es: seq<A.Evento>, a: T.Id,
        b: T.Id)
    requires A.Lista(esq, ps, |mem|) && P.Vivos(ps) == {} && a.pid != b.pid
    ensures var s := A.Correr(A.Inicio(esq, ps, mem), es);
      a in s.contextos && b in s.contextos ==> Ajenos(s.contextos[a], s.contextos[b])
  {
    A.InicioBien(esq, ps, mem);
    A.CorrerConserva(A.Inicio(esq, ps, mem), es);
    var s := A.Correr(A.Inicio(esq, ps, mem), es);
    if a in s.contextos && b in s.contextos {
      LugaresAjenosEn(s, a, b);
    }
  }
}
