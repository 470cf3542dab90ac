/** System calls: the lines that make a thread stop for one, and what the kernel is sent. */
module Llamadas {
  import opened Comun
  import opened Cpu
  import I = Instrucciones
  import N = Numeros
  import W = Wire

  /** A call as it is sent to the kernel, beside the numbers of the process and the thread. */
  datatype Llamada =
    | ProcessCreate(archivo: string, tamanio: nat, prioridad: nat)
    | ThreadCreate(archivo: string, prioridad: nat)
    | Io(tiempo: int)
    | MutexCreate(recurso: string)
    | MutexLock(recurso: string)
    | MutexUnlock(recurso: string)
    | ThreadJoin(tid: nat)
    | ThreadCancel(tid: nat)
    | DumpMemory
    | ThreadExit
    | ProcessExit

  /** `execute_syscall`: what is sent for an instruction taken for a system call, if anything. */
  function Enviada(i: Instruccion): Option<Llamada> {
    var ps := i.palabras;
    var op, o1, o2, o3 := Palabra(ps, 0), Palabra(ps, 1), Palabra(ps, 2), Palabra(ps, 3);
    if op == "PROCESS_CREATE" then Some(ProcessCreate(o1, Atoi(o2), Atoi(o3)))
    else if op == "IO" then Some(Io(W.DeBits(Atoi(o1))))
    else if op == "THREAD_CREATE" then Some(ThreadCreate(o1, Atoi(o2)))
    else if op == "THREAD_JOIN" then Some(ThreadJoin(Atoi(o1)))
    else if op == "THREAD_CANCEL" then Some(ThreadCancel(Atoi(o1)))
    else if op == "MUTEX_CREATE" then Some(MutexCreate(o1))
    else if op == "MUTEX_LOCK" then Some(MutexLock(o1))
    else if op == "MUTEX_UNLOCK" then Some(MutexUnlock(o1))
    else if op == "DUMP_MEMORY" then Some(DumpMemory)
    else if op == "THREAD_EXIT" then Some(ThreadExit)
    else if op == "PROCESS_EXIT" then Some(ProcessExit)
    else None
  }

  /** The names of the calls that the kernel serves. */
  const SERVIDAS: set<string> := {
    "PROCESS_CREATE", "PROCESS_EXIT", "THREAD_CREATE", "THREAD_JOIN", "THREAD_CANCEL", "THREAD_EXIT",
    "MUTEX_CREATE", "MUTEX_LOCK", "MUTEX_UNLOCK", "DUMP_MEMORY", "IO" }

  /** Those that the code as it stands does not decode, and what it has in their place. */
  const OLVIDADAS: set<string> := {"PROCESS_EXIT", "THREAD_CANCEL", "THREAD_EXIT", "DUMP_MEMORY"}
  const MAL_ESCRITA := "TRHEAD_CANCEL"

  /** The names of the instructions that the CPU executes itself. */
  const OPERACIONES: set<string> := {"SET", "SUM", "SUB", "JNZ", "LOG", "WRITE_MEM", "READ_MEM"}

  function Decodificadas(v: Variante): set<string> {
    if v.Reparada? then SERVIDAS else SERVIDAS - OLVIDADAS + {MAL_ESCRITA}
  }

  lemma {:induction false} EsSyscallSii(v: Variante, op: string)
    ensures EsSyscall(v, op) <==> op in Decodificadas(v)
  {
  }

  lemma {:induction false} SinNombre(v: Variante)
    ensures "" !in Decodificadas(v)
  {
  }

  /** For every line made of words, the thread stops for a system call at once exactly when its first
      word is among the names decoded as one; it then goes on from the next line. */
  lemma {:induction false} LlamaSii(v: Variante, l: Lugar, lineas: seq<string>, m: Maquina, ps: seq<string>)
    requires I.EnLinea(lineas, m, ps)
    ensures var s := I.Turno(v, l, lineas, m);
      && (s.Syscall? <==> ps != [] && ps[0] in Decodificadas(v))
      && (s.Syscall? ==> s.m == m.(pc := Mod32(m.pc + 1)))
  {
    hide EsSyscall, Decodificadas, I.Turno;
    I.TurnoEs(v, l, lineas, m, ps);
    EsSyscallSii(v, Palabra(ps, 0));
    EsSyscallSii(v, "");
    SinNombre(v);
  }

  /** A line whose first word is neither a call decoded as one nor an operation holds its thread for
      ever; so does a blank line. */
  lemma {:induction false} SinSalida(v: Variante, l: Lugar, lineas: seq<string>, m: Maquina, ps: seq<string>, k: nat)
    requires I.EnLinea(lineas, m, ps)
    requires ps == [] || (ps[0] !in Decodificadas(v) && ps[0] !in OPERACIONES)
    ensures Pasos(v, l, DecodificarTodo(v, lineas), m, k) == Sigue(m)
  {
    PalabrasDeLinea(ps);
    EsSyscallSii(v, Palabra(ps, 0));
    SinNombre(v);
    ParaSiempre(v, l, DecodificarTodo(v, lineas), m, k);
  }

  // --- What travels with a call ---

  /** A call written as a line of a program. */
  function Texto(c: Llamada): seq<string> {
    match c
    case ProcessCreate(archivo, tamanio, prioridad) =>
      ["PROCESS_CREATE", archivo, N.Decimal(tamanio), N.Decimal(prioridad)]
    case ThreadCreate(archivo, prioridad) => ["THREAD_CREATE", archivo, N.Decimal(prioridad)]
    case Io(tiempo) => ["IO", N.Entero(tiempo)]
    case MutexCreate(recurso) => ["MUTEX_CREATE", recurso]
    case MutexLock(recurso) => ["MUTEX_LOCK", recurso]
    case MutexUnlock(recurso) => ["MUTEX_UNLOCK", recurso]
    case ThreadJoin(tid) => ["THREAD_JOIN", N.Decimal(tid)]
    case ThreadCancel(tid) => ["THREAD_CANCEL", N.Decimal(tid)]
    case DumpMemory => ["DUMP_MEMORY"]
    case ThreadExit => ["THREAD_EXIT"]
    case ProcessExit => ["PROCESS_EXIT"]
  }

  /** Its names are words and its numbers have 32 bits. */
  predicate Valida(c: Llamada) {
    match c
    case ProcessCreate(archivo, tamanio, prioridad) => EsPalabra(archivo) && tamanio < WORD && prioridad < WORD
    case ThreadCreate(archivo, prioridad) => EsPalabra(archivo) && prioridad < WORD
    case Io(tiempo) => W.EsInt(tiempo)
    case MutexCreate(recurso) => EsPalabra(recurso)
    case MutexLock(recurso) => EsPalabra(recurso)
    case MutexUnlock(recurso) => EsPalabra(recurso)
    case ThreadJoin(tid) => tid < WORD
    case ThreadCancel(tid) => tid < WORD
    case _ => true
  }

  lemma {:induction false} TextoEnPalabras(c: Llamada)
    requires Valida(c)
    ensures Texto(c) != [] && forall j :: 0 <= j < |Texto(c)| ==> EsPalabra(Texto(c)[j])
  {
    hide N.Decimal, N.Entero;
    match c
    case ProcessCreate(_, tamanio, prioridad) => N.DecimalEsPalabra(tamanio); N.DecimalEsPalabra(prioridad);
    case ThreadCreate(_, prioridad) => N.DecimalEsPalabra(prioridad);
    case Io(tiempo) => N.EnteroEsPalabra(tiempo);
    case ThreadJoin(tid) => N.DecimalEsPalabra(tid);
    case ThreadCancel(tid) => N.DecimalEsPalabra(tid);
    case _ =>
  }

  lemma {:induction false} DeBitsMod(x: int)
    requires W.EsInt(x)
    ensures W.DeBits(Mod32(x)) == x
  {
  }

  /** What is sent for the text of a call is that call. */
  lemma {:induction false} EnviadaEs(v: Variante, c: Llamada)
    requires Valida(c)
    ensures Enviada(Resolver(v, Texto(c))) == Some(c)
  {
    hide Atoi, N.Decimal, N.Entero, W.DeBits;
    match c
    case ProcessCreate(_, tamanio, prioridad) => N.AtoiDe(tamanio); N.AtoiDe(prioridad);
    case ThreadCreate(_, prioridad) => N.AtoiDe(prioridad);
    case Io(tiempo) => N.AtoiEntero(tiempo); DeBitsMod(tiempo);
    case ThreadJoin(tid) => N.AtoiDe(tid);
    case ThreadCancel(tid) => N.AtoiDe(tid);
    case _ =>
  }

  lemma {:induction false} NombreDeTexto(c: Llamada)
    ensures Texto(c) != [] && Texto(c)[0] in SERVIDAS && Texto(c)[0] !in OPERACIONES
  {
  }

  /** For every call, with any names and numbers: a thread that comes to its line makes the kernel
      receive exactly that call, at once, if and only if the code is repaired or the call is not one
      of the four that it forgets; those four hold the thread for ever as written. */
  lemma {:induction false} LlamadaLlegaSii(v: Variante, l: Lugar, lineas: seq<string>, m: Maquina, c: Llamada, k: nat)
    requires Valida(c) && m.pc < |lineas| && lineas[m.pc] == Linea(Texto(c)) && k > 0
    ensures var s := Pasos(v, l, DecodificarTodo(v, lineas), m, k);
      if v.Reparada? || Texto(c)[0] !in OLVIDADAS
      then s.Syscall? && Enviada(s.i) == Some(c) && s.m == m.(pc := Mod32(m.pc + 1))
      else s == Sigue(m)
  {
    TextoEnPalabras(c);
    var ps := Texto(c);
    assert I.EnLinea(lineas, m, ps);
    NombreDeTexto(c);
    if v.Reparada? || ps[0] !in OLVIDADAS {
      LlamaSii(v, l, lineas, m, ps);
      I.TurnoEs(v, l, lineas, m, ps);
      EnviadaEs(v, c);
    } else {
      SinSalida(v, l, lineas, m, ps, k);
    }
  }

  /** As written, the misspelt name stops its thread for a call, and nobody is sent anything. */
  lemma {:induction false} MalEscritaCalla(l: Lugar, lineas: seq<string>, m: Maquina, o1: string)
    requires I.EnLinea(lineas, m, [MAL_ESCRITA, o1])
    ensures var s := I.Turno(ComoEsta, l, lineas, m); s.Syscall? && Enviada(s.i) == None
  {
    I.TurnoEs(ComoEsta, l, lineas, m, [MAL_ESCRITA, o1]);
  }
}
