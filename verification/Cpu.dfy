/** The CPU's instruction cycle, its address translation, and the words it reads and writes in
    the memory module. */
module Cpu {
  import opened Comun
  import W = Wire

  // --- Registers ---

  datatype Reg = AX | BX | CX | DX | EX | FX | GX | HX

  datatype Registros = Registros(ax: nat, bx: nat, cx: nat, dx: nat, ex: nat, fx: nat, gx: nat, hx: nat)

  /** `obtenerRegistro`. */
  function RegDe(nombre: string): Option<Reg> {
    if nombre == "AX" then Some(AX)
    else if nombre == "BX" then Some(BX)
    else if nombre == "CX" then Some(CX)
    else if nombre == "DX" then Some(DX)
    else if nombre == "EX" then Some(EX)
    else if nombre == "FX" then Some(FX)
    else if nombre == "GX" then Some(GX)
    else if nombre == "HX" then Some(HX)
    else None
  }

  function NombreDe(x: Reg): string {
    match x
    case AX => "AX"
    case BX => "BX"
    case CX => "CX"
    case DX => "DX"
    case EX => "EX"
    case FX => "FX"
    case GX => "GX"
    case HX => "HX"
  }

  function Valor(r: Registros, x: Reg): nat {
    match x
    case AX => r.ax
    case BX => r.bx
    case CX => r.cx
    case DX => r.dx
    case EX => r.ex
    case FX => r.fx
    case GX => r.gx
    case HX => r.hx
  }

  function Poner(r: Registros, x: Reg, n: nat): Registros {
    match x
    case AX => r.(ax := n)
    case BX => r.(bx := n)
    case CX => r.(cx := n)
    case DX => r.(dx := n)
    case EX => r.(ex := n)
    case FX => r.(fx := n)
    case GX => r.(gx := n)
    case HX => r.(hx := n)
  }

  // --- Decoding ---

  /** The words of a line: `strtok` on spaces, from `i` on. */
  function Palabras(linea: string, i: nat, palabra: string): seq<string>
    requires i <= |linea|
    decreases |linea| - i
  {
    if i == |linea| then (if palabra == "" then [] else [palabra])
    else if linea[i] == ' ' then (if palabra == "" then [] else [palabra]) + Palabras(linea, i + 1, "")
    else Palabras(linea, i + 1, palabra + [linea[i]])
  }

  function Palabra(ps: seq<string>, i: nat): string {
    if i < |ps| then ps[i] else ""
  }

  /** The number that the decimal digits from `i` on add to `n`. */
  function Digitos(s: string, i: nat, n: nat): nat
    requires i <= |s|
    decreases |s| - i
  {
    if i < |s| && '0' <= s[i] <= '9' then Digitos(s, i + 1, 10 * n + (s[i] as int - '0' as int)) else n
  }

  predicate EsBlanco(c: char) {
    c == ' ' || '\t' <= c <= '\r'
  }

  /** Where the blanks at `i` end. */
  function Blancos(s: string, i: nat): (j: nat)
    requires i <= |s|
    ensures i <= j <= |s|
    decreases |s| - i
  {
    if i < |s| && EsBlanco(s[i]) then Blancos(s, i + 1) else i
  }

  /** `atoi`, taken as a `uint32_t`. */
  function Atoi(s: string): (n: nat)
    ensures n < WORD
  {
    var i := Blancos(s, 0);
    if i < |s| && s[i] == '-' then Mod32(0 - Digitos(s, i + 1, 0))
    else Mod32(Digitos(s, if i < |s| && s[i] == '+' then i + 1 else i, 0))
  }

  datatype Op = Set | Sum | Sub | Jnz | Log | WriteMem | ReadMem | Desconocida

  function OpDe(op: string): Op {
    if op == "SET" then Set
    else if op == "SUM" then Sum
    else if op == "SUB" then Sub
    else if op == "JNZ" then Jnz
    else if op == "LOG" then Log
    else if op == "WRITE_MEM" then WriteMem
    else if op == "READ_MEM" then ReadMem
    else Desconocida
  }

  /** What `decode` takes for a system call. As written it leaves out four of those the kernel
      serves, one of them misspelt. */
  predicate EsSyscall(v: Variante, op: string) {
    || op == "THREAD_CREATE" || op == "PROCESS_CREATE" || op == "IO"
    || op == "MUTEX_CREATE" || op == "MUTEX_LOCK" || op == "MUTEX_UNLOCK" || op == "THREAD_JOIN"
    || (if v.ComoEsta? then op == "TRHEAD_CANCEL"
        else op == "THREAD_CANCEL" || op == "THREAD_EXIT" || op == "PROCESS_EXIT" || op == "DUMP_MEMORY")
  }

  /** A line, its names looked up: the first four words, and what they say as an operation, as
      registers and as a number. `fijo` says that the second operand is the word PC, which keeps
      the PC from moving on. */
  datatype Instruccion = Instruccion(palabras: seq<string>, syscall: bool, op: Op,
                                     r1: Option<Reg>, r2: Option<Reg>, n2: nat, fijo: bool)

  function Resolver(v: Variante, ps: seq<string>): Instruccion {
    var op, o1, o2 := Palabra(ps, 0), Palabra(ps, 1), Palabra(ps, 2);
    Instruccion([op, o1, o2, Palabra(ps, 3)], EsSyscall(v, op), OpDe(op), RegDe(o1), RegDe(o2), Atoi(o2), o2 == "PC")
  }

  function Decodificar(v: Variante, linea: string): Instruccion {
    Resolver(v, Palabras(linea, 0, ""))
  }

  function DecodificarTodo(v: Variante, lineas: seq<string>): (p: seq<Instruccion>)
    ensures |p| == |lineas|
    ensures forall i :: 0 <= i < |p| ==> p[i] == Decodificar(v, lineas[i])
  {
    seq(|lineas|, i requires 0 <= i < |lineas| => Decodificar(v, lineas[i]))
  }

  // --- Address translation ---

  /** Where the thread's partition is: `base`, and `limite`, which is the partition's size if
      repaired and its last address as written. */
  datatype Lugar = Lugar(base: nat, limite: nat)

  /** Repaired, the whole word has to lie inside the partition. */
  function Mmu(v: Variante, l: Lugar, logica: nat): (fisica: Option<nat>) {
    if v.Reparada? then
      if logica + 4 <= l.limite then Some(l.base + logica) else None
    else
      var d := Mod32(l.base + logica);
      if d < l.base || d > Mod32(l.base + l.limite) then None else Some(d)
  }

  // --- Words of memory ---

  function Mezcla(mem: seq<Byte>, d: nat, x: nat, i: nat): Byte
    requires i < |mem|
  {
    if d <= i < d + 4 then W.Octeto(x, i - d) else mem[i]
  }

  /** `write_mem` of the memory module, which refuses the last word. */
  function Escribir(mem: seq<Byte>, d: nat, x: nat): (r: seq<Byte>)
    ensures |r| == |mem|
  {
    if d + 4 >= |mem| then mem
    else seq(|mem|, i requires 0 <= i < |mem| => Mezcla(mem, d, x, i))
  }

  /** `read_mem` of the memory module. */
  function LeerPalabra(mem: seq<Byte>, d: nat): Option<nat> {
    if d + 4 < |mem| then Some(W.Numero(mem, d)) else None
  }

  // --- Execution ---

  datatype Maquina = Maquina(pc: nat, regs: Registros, mem: seq<Byte>)

  /** How an instruction leaves the machine: going on, stopped for a system call, with a
      segmentation fault, waiting for an answer that never comes, or fallen over. */
  datatype Salida =
    | Sigue(m: Maquina)
    | Syscall(i: Instruccion, m: Maquina)
    | Segfault(m: Maquina)
    | Espera(m: Maquina)
    | Cae

  /** The PC moves on unless the second operand is the word PC. */
  function Avanzar(i: Instruccion, m: Maquina): Salida {
    Sigue(if i.fijo then m else m.(pc := Mod32(m.pc + 1)))
  }

  /** An instruction over two registers does nothing when either name is unknown. */
  function Operar(i: Instruccion, m: Maquina, f: (int, int) -> int): Maquina {
    match (i.r1, i.r2)
    case (Some(d), Some(o)) => m.(regs := Poner(m.regs, d, Mod32(f(Valor(m.regs, d), Valor(m.regs, o)))))
    case _ => m
  }

  function EjecutarSet(i: Instruccion, m: Maquina): Maquina {
    match i.r1
    case Some(d) => m.(regs := Poner(m.regs, d, i.n2))
    case None => m
  }

  /** As written a jump writes through an integer taken for a pointer. */
  function EjecutarJnz(v: Variante, i: Instruccion, m: Maquina): Salida {
    match i.r1
    case None => Sigue(m)
    case Some(d) =>
      if v.ComoEsta? then Cae
      else if Valor(m.regs, d) != 0 then Sigue(m.(pc := i.n2))
      else Sigue(m.(pc := Mod32(m.pc + 1)))
  }

  function EjecutarWrite(v: Variante, l: Lugar, i: Instruccion, m: Maquina): Salida {
    match (i.r1, i.r2)
    case (Some(d), Some(o)) =>
      (match Mmu(v, l, Valor(m.regs, d))
       case None => Segfault(m)
       case Some(fisica) => Avanzar(i, m.(mem := Escribir(m.mem, fisica, Valor(m.regs, o)))))
    case _ => Avanzar(i, m)
  }

  function EjecutarRead(v: Variante, l: Lugar, i: Instruccion, m: Maquina): Salida {
    match (i.r1, i.r2)
    case (Some(d), Some(o)) =>
      (match Mmu(v, l, Valor(m.regs, o))
       case None => Segfault(m)
       case Some(fisica) =>
         match LeerPalabra(m.mem, fisica)
         case None => Espera(m)
         case Some(x) => Avanzar(i, m.(regs := Poner(m.regs, d, x))))
    case _ => Avanzar(i, m)
  }

  function Ejecutar(v: Variante, l: Lugar, i: Instruccion, m: Maquina): Salida {
    if i.syscall then Syscall(i, m.(pc := Mod32(m.pc + 1)))
    else
      match i.op
      case Set => Avanzar(i, EjecutarSet(i, m))
      case Sum => Avanzar(i, Operar(i, m, (x, y) => x + y))
      case Sub => Avanzar(i, Operar(i, m, (x, y) => x - y))
      case Jnz => EjecutarJnz(v, i, m)
      case Log => if i.r1.None? then Cae else Avanzar(i, m)
      case WriteMem => EjecutarWrite(v, l, i, m)
      case ReadMem => EjecutarRead(v, l, i, m)
      case Desconocida => Sigue(m)
  }

  /** Fetches and executes one instruction; past the end of the program no answer comes. */
  function Paso(v: Variante, l: Lugar, programa: seq<Instruccion>, m: Maquina): Salida {
    if m.pc < |programa| then Ejecutar(v, l, programa[m.pc], m) else Espera(m)
  }

  /** `k` turns of the cycle, or as many as it takes to leave it. */
  function Pasos(v: Variante, l: Lugar, programa: seq<Instruccion>, m: Maquina, k: nat): Salida
    decreases k
  {
    if k == 0 then Sigue(m)
    else
      match Paso(v, l, programa, m)
      case Sigue(m1) => Pasos(v, l, programa, m1, k - 1)
      case s => s
  }

  lemma {:induction false} PasosUno(v: Variante, l: Lugar, programa: seq<Instruccion>, m: Maquina, m1: Maquina, k: nat)
    requires Paso(v, l, programa, m) == Sigue(m1)
    ensures Pasos(v, l, programa, m, k + 1) == Pasos(v, l, programa, m1, k)
  {
  }

  lemma {:induction false} PasosMas(v: Variante, l: Lugar, programa: seq<Instruccion>, m: Maquina, a: nat,
        m1: Maquina, b: nat)
    requires Pasos(v, l, programa, m, a) == Sigue(m1)
    ensures Pasos(v, l, programa, m, a + b) == Pasos(v, l, programa, m1, b)
    decreases a
  {
    if a == 0 {
    } else {
      var m2 := Paso(v, l, programa, m).m;
      PasosUno(v, l, programa, m, m2, a - 1);
      PasosUno(v, l, programa, m, m2, a + b - 1);
      PasosMas(v, l, programa, m2, a - 1, m1, b);
    }
  }

  // --- Decoding a line built from words ---

  predicate EsPalabra(p: string) {
    p != "" && ' ' !in p
  }

  function Linea(ps: seq<string>): string {
    if ps == [] then "" else if |ps| == 1 then ps[0] else ps[0] + " " + Linea(ps[1..])
  }

  lemma {:induction false} PalabrasSaltan(linea: string, i: nat, p: string, palabra: string)
    requires i + |p| <= |linea| && linea[i..i + |p|] == p && ' ' !in p
    ensures Palabras(linea, i, palabra) == Palabras(linea, i + |p|, palabra + p)
    decreases |p|
  {
    if p == "" {
      assert palabra + p == palabra;
    } else {
      assert linea[i] == p[0] && p[0] in p;
      assert linea[i + 1..i + |p|] == p[1..];
      PalabrasSaltan(linea, i + 1, p[1..], palabra + [p[0]]);
      assert palabra + [p[0]] + p[1..] == palabra + p;
    }
  }

  /** The first word is read up to where the rest begins. */
  lemma {:induction false} PrimeraPalabra(linea: string, i: nat, p: string, resto: string)
    requires i <= |linea| && linea[i..] == p + resto && ' ' !in p
    ensures i + |p| <= |linea| && linea[i + |p|..] == resto
    ensures Palabras(linea, i, "") == Palabras(linea, i + |p|, p)
  {
    Corte(linea, i, p, resto);
    PalabrasSaltan(linea, i, p, "");
    assert "" + p == p;
  }

  lemma {:induction false} Espacio(linea: string, j: nat, resto: string)
    requires j <= |linea| && linea[j..] == " " + resto
    ensures j < |linea| && linea[j] == ' ' && linea[j + 1..] == resto
  {
    Corte(linea, j, " ", resto);
    assert linea[j] == linea[j..j + 1][0];
  }

  /** What follows the first word of a line. */
  function RestoDeLinea(ps: seq<string>): (r: string)
    requires ps != []
    ensures Linea(ps) == ps[0] + r
  {
    if |ps| == 1 then "" else " " + Linea(ps[1..])
  }

  lemma {:induction false} PalabrasDesde(linea: string, i: nat, ps: seq<string>)
    requires i <= |linea| && linea[i..] == Linea(ps)
    requires forall k :: 0 <= k < |ps| ==> EsPalabra(ps[k])
    ensures Palabras(linea, i, "") == ps
    decreases |ps|
  {
    if ps == [] {
    } else {
      var p, j := ps[0], i + |ps[0]|;
      assert EsPalabra(p);
      PrimeraPalabra(linea, i, p, RestoDeLinea(ps));
      if |ps| == 1 {
        assert ps == [p];
      } else {
        Espacio(linea, j, Linea(ps[1..]));
        PalabrasDesde(linea, j + 1, ps[1..]);
        assert ps == [p] + ps[1..];
      }
    }
  }

  /** Splitting goes on the same behind whatever came before. */
  lemma {:induction false} PalabrasCorren(antes: string, linea: string, i: nat, palabra: string)
    requires i <= |linea|
    ensures Palabras(antes + linea, |antes| + i, palabra) == Palabras(linea, i, palabra)
    decreases |linea| - i
  {
    if i == |linea| {
    } else if linea[i] == ' ' {
      PalabrasCorren(antes, linea, i + 1, "");
    } else {
      PalabrasCorren(antes, linea, i + 1, palabra + [linea[i]]);
    }
  }

  lemma {:induction false} PalabrasPartenDesde(a: string, b: string, i: nat, palabra: string)
    requires i <= |a|
    ensures Palabras(a + " " + b, i, palabra) == Palabras(a, i, palabra) + Palabras(b, 0, "")
    decreases |a| - i
  {
    var linea := a + " " + b;
    if i == |a| {
      assert linea[i] == ' ';
      PalabrasCorren(a + " ", b, 0, "");
    } else {
      assert linea[i] == a[i];
      if a[i] == ' ' {
        PalabrasPartenDesde(a, b, i + 1, "");
      } else {
        PalabrasPartenDesde(a, b, i + 1, palabra + [a[i]]);
      }
    }
  }

  /** What comes before a space and what comes after it are split each on its own, for any line: runs
      of spaces count as one, and those at either end for nothing. A piece without spaces is one word. */
  lemma {:induction false} PalabrasParten(a: string, b: string, p: string)
    requires ' ' !in p
    ensures Palabras(a + " " + b, 0, "") == Palabras(a, 0, "") + Palabras(b, 0, "")
    ensures Palabras(p, 0, "") == if p == "" then [] else [p]
  {
    PalabrasPartenDesde(a, b, 0, "");
    assert p[0..0 + |p|] == p;
    PalabrasSaltan(p, 0, p, "");
    assert "" + p == p;
  }

  /** A line made of words decodes into those words. */
  lemma {:induction false} PalabrasDeLinea(ps: seq<string>)
    requires forall k :: 0 <= k < |ps| ==> EsPalabra(ps[k])
    ensures Palabras(Linea(ps), 0, "") == ps
  {
    assert Linea(ps)[0..] == Linea(ps);
    PalabrasDesde(Linea(ps), 0, ps);
  }

  // --- Words written and read ---

  /** A word written is read back, unless it would end the memory; then nothing is written and
      no answer comes. */
  lemma {:induction false} EscribirLeer(mem: seq<Byte>, d: nat, x: nat)
    requires x < WORD
    ensures LeerPalabra(Escribir(mem, d, x), d) == if d + 4 < |mem| then Some(x) else None
  {
    if d + 4 < |mem| {
      var r := Escribir(mem, d, x);
      assert r[d + 0] == W.Octeto(x, 0) && r[d + 1] == W.Octeto(x, 1) && r[d + 2] == W.Octeto(x, 2)
          && r[d + 3] == W.Octeto(x, 3);
      W.SumaDeOctetos(x);
    }
  }

  predicate RegistrosEn32(r: Registros) {
    r.ax < WORD && r.bx < WORD && r.cx < WORD && r.dx < WORD && r.ex < WORD && r.fx < WORD && r.gx < WORD && r.hx < WORD
  }

  predicate En32(m: Maquina) {
    m.pc < WORD && RegistrosEn32(m.regs)
  }

  lemma {:induction false} PonerCabe(r: Registros, x: Reg, n: nat)
    requires RegistrosEn32(r) && n < WORD
    ensures RegistrosEn32(Poner(r, x, n)) && Valor(Poner(r, x, n), x) == n
    ensures forall y :: y != x ==> Valor(Poner(r, x, n), y) == Valor(r, y)
  {
  }

  /** A machine left on 32 bits, with the memory of the same size. */
  predicate Queda(s: Salida, largo: nat) {
    s.Cae? || (En32(s.m) && |s.m.mem| == largo)
  }

  lemma {:induction false} OperarCabe(i: Instruccion, m: Maquina, f: (int, int) -> int)
    requires En32(m)
    ensures En32(Operar(i, m, f)) && Operar(i, m, f).mem == m.mem
  {
    if i.r1.Some? && i.r2.Some? {
      PonerCabe(m.regs, i.r1.value, Mod32(f(Valor(m.regs, i.r1.value), Valor(m.regs, i.r2.value))));
    }
  }

  lemma {:induction false} SetCabe(i: Instruccion, m: Maquina)
    requires En32(m) && i.n2 < WORD
    ensures En32(EjecutarSet(i, m)) && EjecutarSet(i, m).mem == m.mem
  {
    if i.r1.Some? {
      PonerCabe(m.regs, i.r1.value, i.n2);
    }
  }

  lemma {:induction false} ReadCabe(v: Variante, l: Lugar, i: Instruccion, m: Maquina)
    requires En32(m)
    ensures Queda(EjecutarRead(v, l, i, m), |m.mem|)
  {
    if i.r1.Some? && i.r2.Some? {
      var d := Mmu(v, l, Valor(m.regs, i.r2.value));
      if d.Some? && d.value + 4 < |m.mem| {
        PonerCabe(m.regs, i.r1.value, W.Numero(m.mem, d.value));
      }
    }
  }

  lemma {:induction false} EjecutarCabe(v: Variante, l: Lugar, i: Instruccion, m: Maquina)
    requires En32(m) && i.n2 < WORD
    ensures Queda(Ejecutar(v, l, i, m), |m.mem|)
  {
    match i.op
    case Set => SetCabe(i, m);
    case Sum => OperarCabe(i, m, (x, y) => x + y);
    case Sub => OperarCabe(i, m, (x, y) => x - y);
    case ReadMem => ReadCabe(v, l, i, m);
    case _ =>
  }

  /** However long a program runs, PC and registers stay on 32 bits and the memory keeps its
      size. */
  lemma {:induction false} PasosCaben(v: Variante, l: Lugar, lineas: seq<string>, m: Maquina, k: nat)
    requires En32(m)
    ensures Queda(Pasos(v, l, DecodificarTodo(v, lineas), m, k), |m.mem|)
    decreases k
  {
    var p := DecodificarTodo(v, lineas);
    if k == 0 || m.pc >= |p| {
    } else {
      EjecutarCabe(v, l, p[m.pc], m);
      match Paso(v, l, p, m)
      case Sigue(m1) =>
        PasosUno(v, l, p, m, m1, k - 1);
        PasosCaben(v, l, lineas, m1, k - 1);
      case _ =>
    }
  }

  /** No byte outside the partition changes. */
  predicate SoloDentro(l: Lugar, antes: seq<Byte>, ahora: seq<Byte>) {
    && |ahora| == |antes|
    && forall k :: 0 <= k < |antes| && !(l.base <= k < l.base + l.limite) ==> ahora[k] == antes[k]
  }

  lemma {:induction false} EjecutarConfinado(v: Variante, l: Lugar, i: Instruccion, m: Maquina)
    requires v.Reparada?
    ensures var s := Ejecutar(v, l, i, m); s.Cae? || SoloDentro(l, m.mem, s.m.mem)
  {
    if !i.syscall && i.op == WriteMem && i.r1.Some? && i.r2.Some? && Mmu(v, l, Valor(m.regs, i.r1.value)).Some? {
      var fisica := Mmu(v, l, Valor(m.regs, i.r1.value)).value;
      assert Ejecutar(v, l, i, m).m.mem == Escribir(m.mem, fisica, Valor(m.regs, i.r2.value));
    } else {
      assert Ejecutar(v, l, i, m).Cae? || Ejecutar(v, l, i, m).m.mem == m.mem;
    }
  }

  /** With the repair, no program of any length changes a byte outside its partition. */
  lemma {:induction false} PasosConfinados(v: Variante, l: Lugar, programa: seq<Instruccion>, m: Maquina, k: nat)
    requires v.Reparada?
    ensures var s := Pasos(v, l, programa, m, k); s.Cae? || SoloDentro(l, m.mem, s.m.mem)
    decreases k
  {
    if k == 0 || m.pc >= |programa| {
    } else {
      EjecutarConfinado(v, l, programa[m.pc], m);
      match Paso(v, l, programa, m)
      case Sigue(m1) =>
        PasosUno(v, l, programa, m, m1, k - 1);
        PasosConfinados(v, l, programa, m1, k - 1);
      case _ =>
    }
  }

  lemma {:induction false} PonerDosVeces(r: Registros, x: Reg, n: nat)
    ensures Poner(Poner(r, x, n), x, Valor(r, x)) == r
  {
  }

  /** Subtracting what was added gives the registers back, whatever wraps round. */
  lemma {:induction false} SumaYResta(i: Instruccion, m: Maquina)
    requires En32(m) && (i.r1 != i.r2 || i.r1 == None)
    ensures Operar(i, Operar(i, m, (x, y) => x + y), (x, y) => x - y) == m
  {
    match (i.r1, i.r2)
    case (Some(d), Some(o)) =>
      var a, b := Valor(m.regs, d), Valor(m.regs, o);
      assert Mod32(Mod32(a + b) - b) == a;
      PonerDosVeces(m.regs, d, Mod32(a + b));
      PonerCabe(m.regs, d, Mod32(a + b));
    case _ =>
  }

  /** A word written through a register and read back through the same one arrives in the third
      register, unless it ends the memory, where the reader is left waiting. */
  lemma {:induction false} EscribeYLee(l: Lugar, w: Instruccion, r: Instruccion, m: Maquina)
    requires En32(m) && !w.fijo && !r.fijo && !w.syscall && !r.syscall && w.op == WriteMem && r.op == ReadMem
    requires w.r1.Some? && w.r2.Some? && r.r1.Some? && r.r2 == w.r1
    requires Valor(m.regs, w.r1.value) + 4 <= l.limite
    ensures var d, x := l.base + Valor(m.regs, w.r1.value), Valor(m.regs, w.r2.value);
      var s := Ejecutar(Reparada, l, w, m);
      && s.Sigue?
      && Ejecutar(Reparada, l, r, s.m)
         == if d + 4 < |m.mem|
            then Sigue(Maquina(Mod32(Mod32(m.pc + 1) + 1), Poner(m.regs, r.r1.value, x), Escribir(m.mem, d, x)))
            else Espera(m.(pc := Mod32(m.pc + 1)))
  {
    EscribirLeer(m.mem, l.base + Valor(m.regs, w.r1.value), Valor(m.regs, w.r2.value));
  }

  // --- The code as it stands ---

  /** As written, the translation lets through exactly the addresses up to the partition's last
      absolute address; repaired, those of the words that lie inside the partition. */
  lemma {:induction false} MmuAcepta(v: Variante, base: nat, tam: nat, x: nat)
    requires 0 < tam && base + tam <= 0x8000_0000 && x < WORD
    ensures Mmu(v, Lugar(base, if v.ComoEsta? then base + tam - 1 else tam), x)
         == if (if v.ComoEsta? then x <= base + tam - 1 else x + 4 <= tam) then Some(base + x) else None
  {
  }

  /** Whatever is let through at logical address `x` is inside the partition. */
  predicate MmuSegura(v: Variante, l: Lugar, base: nat, tam: nat, x: nat) {
    var d := Mmu(v, l, x);
    d.Some? ==> base <= d.value < base + tam
  }

  ghost predicate MmuProtege(v: Variante, l: Lugar, base: nat, tam: nat) {
    forall x :: 0 <= x < WORD ==> MmuSegura(v, l, base, tam, x)
  }

  /** As written, no address outside the partition is let through exactly if it starts at 0. */
  lemma {:induction false} MmuComoEstaSii(base: nat, tam: nat)
    requires 0 < tam && base + tam <= 0x8000_0000
    ensures MmuProtege(ComoEsta, Lugar(base, base + tam - 1), base, tam) <==> base == 0
  {
    var l := Lugar(base, base + tam - 1);
    if base > 0 {
      MmuAcepta(ComoEsta, base, tam, base + tam - 1);
      assert !MmuSegura(ComoEsta, l, base, tam, base + tam - 1);
    } else {
      forall x | 0 <= x < WORD ensures MmuSegura(ComoEsta, l, base, tam, x) {
        MmuAcepta(ComoEsta, base, tam, x);
      }
    }
  }

  /** WRITE_MEM of register BX to the address in AX. */
  const ESCRITURA := Instruccion(["WRITE_MEM", "AX", "BX", ""], false, WriteMem, Some(AX), Some(BX), 0, false)

  /** As written, from machine `m`, the write changes no byte outside the partition. */
  predicate EscribeDentro(base: nat, tam: nat, m: Maquina)
    requires 0 < tam
  {
    var s := EjecutarWrite(ComoEsta, Lugar(base, base + tam - 1), ESCRITURA, m);
    s.Cae? || SoloDentro(Lugar(base, tam), m.mem, s.m.mem)
  }

  ghost predicate EscribeSiempreDentro(base: nat, tam: nat, largo: nat)
    requires 0 < tam
  {
    forall m :: En32(m) && |m.mem| == largo ==> EscribeDentro(base, tam, m)
  }

  /** A machine of `largo` bytes at 0, about to write at logical address `x`. */
  function Testigo(largo: nat, x: nat): Maquina {
    Maquina(0, Registros(x, 0x0100_0000, 0, 0, 0, 0, 0, 0), seq(largo, _ => 0))
  }

  lemma {:induction false} EscribeFuera(base: nat, tam: nat, largo: nat)
    requires 0 < tam && base + tam <= 0x8000_0000 && base + (if tam < 3 then 3 else tam) + 1 < largo
    ensures En32(Testigo(largo, if tam < 3 then 0 else tam - 3))
    ensures !EscribeDentro(base, tam, Testigo(largo, if tam < 3 then 0 else tam - 3))
  {
    var x := if tam < 3 then 0 else tam - 3;
    var m := Testigo(largo, x);
    MmuAcepta(ComoEsta, base, tam, x);
    var mem := EjecutarWrite(ComoEsta, Lugar(base, base + tam - 1), ESCRITURA, m).m.mem;
    assert mem == Escribir(m.mem, base + x, 0x0100_0000);
    assert mem[base + x + 3] == W.Octeto(0x0100_0000, 3) == 1 && m.mem[base + x + 3] == 0;
  }

  /** As written, no WRITE_MEM changes a byte outside the partition exactly when the partition
      reaches the end of the memory, but for one byte at most: a word that starts near the end of
      the partition goes on into the next. */
  lemma {:induction false} EscribeDentroSii(base: nat, tam: nat, largo: nat)
    requires 0 < tam && base + tam <= 0x8000_0000
    ensures EscribeSiempreDentro(base, tam, largo) <==> largo <= base + (if tam < 3 then 3 else tam) + 1
  {
    if largo <= base + (if tam < 3 then 3 else tam) + 1 {
      forall m | En32(m) && |m.mem| == largo ensures EscribeDentro(base, tam, m) {
        MmuAcepta(ComoEsta, base, tam, m.regs.ax);
      }
    } else {
      EscribeFuera(base, tam, largo);
    }
  }

  /** A line that is neither a system call nor an operation holds its thread for ever. */
  lemma {:induction false} ParaSiempre(v: Variante, l: Lugar, programa: seq<Instruccion>, m: Maquina, k: nat)
    requires m.pc < |programa| && !programa[m.pc].syscall && programa[m.pc].op == Desconocida
    ensures Pasos(v, l, programa, m, k) == Sigue(m)
    decreases k
  {
    if k == 0 {
    } else {
      PasosUno(v, l, programa, m, m, k - 1);
      ParaSiempre(v, l, programa, m, k - 1);
    }
  }
}
