/** What each switch and each turn of the CPU does to the threads that share it. */
module EventosCpu {
  import opened Comun
  import opened Intercalado
  import C = Cpu
  import T = Threads

  /** The contexts of `t` are those of `s`, but that of thread `id`, if it has one, which has that PC and
      those registers. */
  ghost predicate Guardado(s: Sistema, t: Sistema, id: T.Id, regs: C.Registros, pc: nat) {
    && (forall x :: x != id ==> ContextoDe(t, x) == ContextoDe(s, x))
    && (ContextoDe(s, id).None? ==> ContextoDe(t, id).None?)
    && (ContextoDe(s, id).Some? ==> ContextoDe(t, id) == Some(ContextoDe(s, id).value.(regs := regs, pc := pc)))
  }

  /** The CPU holds what the context of `id` says, or, if there is none, is left free. */
  ghost predicate EnMarcha(t: Sistema, id: T.Id) {
    match ContextoDe(t, id)
    case None => t.corre == None
    case Some(c) => t.corre == Some(id) && t.pc == c.pc && t.regs == c.regs
  }

  /** The instruction that the running thread executes, and how it leaves the machine. */
  function Ejecutada(ps: Programas, s: Sistema, id: T.Id): C.Salida
    requires ContextoDe(s, id).Some?
  {
    var p := if id in ps then ps[id] else [];
    if s.pc < |p| then C.Ejecutar(Reparada, ContextoDe(s, id).value.lugar, p[s.pc], C.Maquina(s.pc, s.regs, s.mem))
    else C.Espera(C.Maquina(s.pc, s.regs, s.mem))
  }

  /** A switch saves the PC and registers of the thread that ran, and gives the CPU those of the other.
      In a turn, an instruction that goes on leaves the thread running; a system call or a segmentation
      fault saves its PC and registers and leaves the CPU free; with no answer nothing changes. */
  ghost predicate Hecho(ps: Programas, s: Sistema, t: Sistema, e: Evento) {
    match e
    case Cambia(id) =>
      && t.mem == s.mem && EnMarcha(t, id)
      && (match s.corre
          case None => t.contextos == s.contextos
          case Some(otro) => Guardado(s, t, otro, s.regs, s.pc))
    case Vuelta =>
      if s.corre.None? || ContextoDe(s, s.corre.value).None? then t == s
      else
        match Ejecutada(ps, s, s.corre.value)
        case Sigue(m) => t == s.(pc := m.pc, regs := m.regs, mem := m.mem)
        case Syscall(_, m) => t.corre == None && t.mem == m.mem && Guardado(s, t, s.corre.value, m.regs, m.pc)
        case Segfault(m) => t.corre == None && t.mem == m.mem && Guardado(s, t, s.corre.value, m.regs, m.pc)
        case Espera(_) => t == s
        case Cae => t == s
  }

  lemma {:induction false} GuardarEs(s: Sistema)
    requires s.corre.Some?
    ensures Guardado(s, Guardar(s), s.corre.value, s.regs, s.pc)
  {
    forall x ensures ContextoDe(Guardar(s), x)
         == if s.corre == Some(x) && ContextoDe(s, x).Some?
            then Some(ContextoDe(s, x).value.(regs := s.regs, pc := s.pc)) else ContextoDe(s, x)
    {
      GuardarDevuelve(s, x);
    }
  }

  /** A thread left without an answer is as it was. */
  lemma {:induction false} EsperaIgual(l: C.Lugar, p: seq<C.Instruccion>, m: C.Maquina)
    ensures var r := C.Paso(Reparada, l, p, m); r.Espera? ==> r.m == m
  {
  }

  lemma {:induction false} PasoEs(ps: Programas, s: Sistema, e: Evento)
    ensures Hecho(ps, s, Paso(ps, s, e), e)
  {
    match e
    case Cambia(id) =>
      if s.corre.Some? {
        GuardarEs(s);
      }
    case Vuelta =>
      if s.corre.Some? && ContextoDe(s, s.corre.value).Some? {
        var id := s.corre.value;
        var l, p := ContextoDe(s, id).value.lugar, ProgramaDe(ps, id);
        EsperaIgual(l, p, Cpu(s));
        match C.Paso(Reparada, l, p, Cpu(s))
        case Syscall(_, m) => GuardarEs(Con(s, m));
        case Segfault(m) => GuardarEs(Con(s, m));
        case _ =>
      }
  }

  /** The state that a run reaches from `s`, told by its events alone. */
  ghost predicate Alcanza(ps: Programas, s: Sistema, es: seq<Evento>, t: Sistema)
    decreases |es|
  {
    if es == [] then t == s else exists u :: Hecho(ps, s, u, es[0]) && Alcanza(ps, u, es[1..], t)
  }

  /** Every run does what its events say, one after the other. */
  lemma {:induction false} CorrerEs(ps: Programas, s: Sistema, es: seq<Evento>)
    ensures Alcanza(ps, s, es, Correr(ps, s, es))
    decreases |es|
  {
    hide Paso, Hecho;
    if es == [] {
    } else {
      PasoEs(ps, s, es[0]);
      CorrerEs(ps, Paso(ps, s, es[0]), es[1..]);
    }
  }
}
