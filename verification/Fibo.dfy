/** The Fibonacci programs of `scripts-pruebas`, run on the interpreter. */
module Fibo {
  import opened Comun
  import opened Cpu
  import N = Numeros
  import W = Wire

  function Fib(n: nat): nat {
    if n < 2 then n else Fib(n - 1) + Fib(n - 2)
  }

  /** The words of line `k` of the program that writes 2n numbers, `d` being n in digits. */
  function PalabrasDe(d: string, k: nat): seq<string> {
    match k
    case 0 => ["SET", "AX", "0"]
    case 1 => ["SET", "BX", "1"]
    case 2 => ["SET", "CX", "0"]
    case 3 => ["SET", "DX", d]
    case 4 => ["SET", "EX", "4"]
    case 5 => ["SET", "FX", "1"]
    case 6 => ["WRITE_MEM", "CX", "AX"]
    case 7 => ["LOG", "AX"]
    case 8 => ["SUM", "AX", "BX"]
    case 9 => ["SUM", "CX", "EX"]
    case 10 => ["WRITE_MEM", "CX", "BX"]
    case 11 => ["LOG", "BX"]
    case 12 => ["SUM", "BX", "AX"]
    case 13 => ["SUM", "CX", "EX"]
    case 14 => ["SUB", "DX", "FX"]
    case 15 => ["JNZ", "DX", "6"]
    case 16 => ["DUMP_MEMORY"]
    case _ => ["PROCESS_EXIT"]
  }

  function Programa(d: string): (p: seq<string>)
    ensures |p| == 18
  {
    seq(18, i requires 0 <= i < 18 => Linea(PalabrasDe(d, i)))
  }

  /** The program as the CPU sees it, line by line. */
  function Codigo(d: string): (p: seq<Instruccion>)
    ensures |p| == 18
  {
    DecodificarTodo(Reparada, Programa(d))
  }

  // --- What each kind of line decodes into ---

  predicate EsSet(i: Instruccion, r: Reg, n: nat) {
    !i.syscall && i.op == Set && i.r1 == Some(r) && i.n2 == n && !i.fijo
  }

  predicate EsDeDos(i: Instruccion, op: Op, d: Reg, o: Reg) {
    !i.syscall && i.op == op && i.r1 == Some(d) && i.r2 == Some(o) && !i.fijo
  }

  predicate EsLog(i: Instruccion) {
    !i.syscall && i.op == Log && i.r1.Some? && !i.fijo
  }

  predicate EsJnz(i: Instruccion, d: Reg, n: nat) {
    !i.syscall && i.op == Jnz && i.r1 == Some(d) && i.n2 == n
  }

  lemma {:induction false} DecodificaTres(a: string, b: string, c: string)
    requires EsPalabra(a) && EsPalabra(b) && EsPalabra(c)
    ensures Decodificar(Reparada, Linea([a, b, c])) == Resolver(Reparada, [a, b, c])
  {
    PalabrasDeLinea([a, b, c]);
  }

  lemma {:induction false} DecodificaDos(a: string, b: string)
    requires EsPalabra(a) && EsPalabra(b)
    ensures Decodificar(Reparada, Linea([a, b])) == Resolver(Reparada, [a, b])
  {
    PalabrasDeLinea([a, b]);
  }

  lemma {:induction false} DecodificaUna(a: string)
    requires EsPalabra(a)
    ensures Decodificar(Reparada, Linea([a])) == Resolver(Reparada, [a])
  {
    PalabrasDeLinea([a]);
  }

  /** The word PC is neither a register nor a number other than 0. */
  lemma {:induction false} NoEsPC(d: string)
    requires Atoi(d) != 0 || RegDe(d).Some?
    ensures d != "PC"
  {
  }

  /** The names of the registers are words. */
  lemma {:induction false} NombreEsPalabra(nombre: string)
    requires RegDe(nombre).Some?
    ensures EsPalabra(nombre)
  {
  }

  lemma {:induction false} SetDecodifica(o1: string, o2: string, r: Reg)
    requires RegDe(o1) == Some(r) && EsPalabra(o2) && o2 != "PC"
    ensures EsSet(Decodificar(Reparada, Linea(["SET", o1, o2])), r, Atoi(o2))
  {
    NombreEsPalabra(o1);
    DecodificaTres("SET", o1, o2);
  }

  lemma {:induction false} DeDosDecodifica(op: string, o1: string, o2: string, d: Reg, o: Reg)
    requires op == "SUM" || op == "SUB" || op == "WRITE_MEM"
    requires RegDe(o1) == Some(d) && RegDe(o2) == Some(o)
    ensures EsDeDos(Decodificar(Reparada, Linea([op, o1, o2])), if op == "SUM" then Sum else if op == "SUB" then Sub
        else WriteMem, d, o)
  {
    NombreEsPalabra(o1);
    NombreEsPalabra(o2);
    NoEsPC(o2);
    DecodificaTres(op, o1, o2);
  }

  lemma {:induction false} LogDecodifica(o1: string)
    requires RegDe(o1).Some?
    ensures EsLog(Decodificar(Reparada, Linea(["LOG", o1])))
  {
    NombreEsPalabra(o1);
    DecodificaDos("LOG", o1);
  }

  lemma {:induction false} JnzDecodifica(o1: string, o2: string, d: Reg)
    requires RegDe(o1) == Some(d) && EsPalabra(o2)
    ensures EsJnz(Decodificar(Reparada, Linea(["JNZ", o1, o2])), d, Atoi(o2))
  {
    NombreEsPalabra(o1);
    DecodificaTres("JNZ", o1, o2);
  }

  lemma {:induction false} EjecutaSet(l: Lugar, i: Instruccion, m: Maquina, r: Reg, n: nat)
    requires EsSet(i, r, n)
    ensures Ejecutar(Reparada, l, i, m) == Sigue(m.(pc := Mod32(m.pc + 1), regs := Poner(m.regs, r, n)))
  {
  }

  lemma {:induction false} EjecutaSum(l: Lugar, i: Instruccion, m: Maquina, d: Reg, o: Reg)
    requires EsDeDos(i, Sum, d, o)
    ensures Ejecutar(Reparada, l, i, m)
         == Sigue(m.(pc := Mod32(m.pc + 1), regs := Poner(m.regs, d, Mod32(Valor(m.regs, d) + Valor(m.regs, o)))))
  {
  }

  lemma {:induction false} EjecutaSub(l: Lugar, i: Instruccion, m: Maquina, d: Reg, o: Reg)
    requires EsDeDos(i, Sub, d, o)
    ensures Ejecutar(Reparada, l, i, m)
         == Sigue(m.(pc := Mod32(m.pc + 1), regs := Poner(m.regs, d, Mod32(Valor(m.regs, d) - Valor(m.regs, o)))))
  {
  }

  lemma {:induction false} EjecutaLog(l: Lugar, i: Instruccion, m: Maquina)
    requires EsLog(i)
    ensures Ejecutar(Reparada, l, i, m) == Sigue(m.(pc := Mod32(m.pc + 1)))
  {
  }

  lemma {:induction false} EjecutaWrite(l: Lugar, i: Instruccion, m: Maquina, d: Reg, o: Reg)
    requires EsDeDos(i, WriteMem, d, o) && Valor(m.regs, d) + 4 <= l.limite
    ensures Ejecutar(Reparada, l, i, m)
         == Sigue(m.(pc := Mod32(m.pc + 1), mem := Escribir(m.mem, l.base + Valor(m.regs, d), Valor(m.regs, o))))
  {
  }

  lemma {:induction false} EjecutaJnz(l: Lugar, i: Instruccion, m: Maquina, d: Reg, n: nat)
    requires EsJnz(i, d, n)
    ensures Ejecutar(Reparada, l, i, m) == Sigue(m.(pc := if Valor(m.regs, d) != 0 then n else Mod32(m.pc + 1)))
  {
  }

  lemma {:induction false} LosRegistros()
    ensures RegDe("AX") == Some(AX) && RegDe("BX") == Some(BX) && RegDe("CX") == Some(CX)
    ensures RegDe("DX") == Some(DX) && RegDe("EX") == Some(EX) && RegDe("FX") == Some(FX)
  {
  }

  lemma {:induction false} LosNumeros()
    ensures Atoi("0") == 0 && Atoi("1") == 1 && Atoi("4") == 4 && Atoi("6") == 6
    ensures EsPalabra("0") && EsPalabra("1") && EsPalabra("4") && EsPalabra("6")
    ensures "0" != "PC" && "1" != "PC" && "4" != "PC"
  {
  }

  /** What line `k` decodes into. */
  ghost predicate Decodificada(i: Instruccion, k: nat, n: nat) {
    match k
    case 0 => EsSet(i, AX, 0)
    case 1 => EsSet(i, BX, 1)
    case 2 => EsSet(i, CX, 0)
    case 3 => EsSet(i, DX, n)
    case 4 => EsSet(i, EX, 4)
    case 5 => EsSet(i, FX, 1)
    case 6 => EsDeDos(i, WriteMem, CX, AX)
    case 7 => EsLog(i)
    case 8 => EsDeDos(i, Sum, AX, BX)
    case 9 => EsDeDos(i, Sum, CX, EX)
    case 10 => EsDeDos(i, WriteMem, CX, BX)
    case 11 => EsLog(i)
    case 12 => EsDeDos(i, Sum, BX, AX)
    case 13 => EsDeDos(i, Sum, CX, EX)
    case 14 => EsDeDos(i, Sub, DX, FX)
    case 15 => EsJnz(i, DX, 6)
    case _ => true
  }

  lemma {:induction false} LineaDeSetTexto(d: string, k: nat)
    requires EsPalabra(d) && Atoi(d) != 0 && k < 6
    ensures Decodificada(Decodificar(Reparada, Linea(PalabrasDe(d, k))), k, Atoi(d))
  {
    LosRegistros();
    LosNumeros();
    NoEsPC(d);
    match k
    case 0 => SetDecodifica("AX", "0", AX);
    case 1 => SetDecodifica("BX", "1", BX);
    case 2 => SetDecodifica("CX", "0", CX);
    case 3 => SetDecodifica("DX", d, DX);
    case 4 => SetDecodifica("EX", "4", EX);
    case 5 => SetDecodifica("FX", "1", FX);
  }

  /** The numbers the scripts have in their fourth line. */
  lemma {:induction false} LosGuiones()
    ensures N.Decimal(5) == "5" && N.Decimal(10) == "10" && N.Decimal(15) == "15"
    ensures N.Decimal(20) == "20" && N.Decimal(23) == "23"
  {
  }

  lemma {:induction false} LineaDeSet(n: nat, k: nat)
    requires 0 < n < WORD && k < 6
    ensures Decodificada(Decodificar(Reparada, Linea(PalabrasDe(N.Decimal(n), k))), k, n)
  {
    hide Atoi, N.Decimal, Decodificada, PalabrasDe, Decodificar;
    N.AtoiDe(n);
    N.DecimalEsPalabra(n);
    LineaDeSetTexto(N.Decimal(n), k);
  }

  lemma {:induction false} LineaDeBucle(d: string, k: nat)
    requires 6 <= k < 16
    ensures Decodificada(Decodificar(Reparada, Linea(PalabrasDe(d, k))), k, Atoi(d))
  {
    LosRegistros();
    match k
    case 6 => DeDosDecodifica("WRITE_MEM", "CX", "AX", CX, AX);
    case 7 => LogDecodifica("AX");
    case 8 => DeDosDecodifica("SUM", "AX", "BX", AX, BX);
    case 9 => DeDosDecodifica("SUM", "CX", "EX", CX, EX);
    case 10 => DeDosDecodifica("WRITE_MEM", "CX", "BX", CX, BX);
    case 11 => LogDecodifica("BX");
    case 12 => DeDosDecodifica("SUM", "BX", "AX", BX, AX);
    case 13 => DeDosDecodifica("SUM", "CX", "EX", CX, EX);
    case 14 => DeDosDecodifica("SUB", "DX", "FX", DX, FX);
    case 15 => LosNumeros(); JnzDecodifica("DX", "6", DX);
  }

  // --- One line at a time ---

  /** What each line does to the machine, by number. */
  function Efecto(n: nat, l: Lugar, m: Maquina): Maquina
    requires m.pc < 16
  {
    var r, sig := m.regs, m.(pc := m.pc + 1);
    match m.pc
    case 0 => sig.(regs := r.(ax := 0))
    case 1 => sig.(regs := r.(bx := 1))
    case 2 => sig.(regs := r.(cx := 0))
    case 3 => sig.(regs := r.(dx := n))
    case 4 => sig.(regs := r.(ex := 4))
    case 5 => sig.(regs := r.(fx := 1))
    case 6 => sig.(mem := Escribir(m.mem, l.base + r.cx, r.ax))
    case 8 => sig.(regs := r.(ax := Mod32(r.ax + r.bx)))
    case 9 => sig.(regs := r.(cx := Mod32(r.cx + r.ex)))
    case 10 => sig.(mem := Escribir(m.mem, l.base + r.cx, r.bx))
    case 12 => sig.(regs := r.(bx := Mod32(r.bx + r.ax)))
    case 13 => sig.(regs := r.(cx := Mod32(r.cx + r.ex)))
    case 14 => sig.(regs := r.(dx := Mod32(r.dx - r.fx)))
    case 15 => if r.dx != 0 then m.(pc := 6) else sig
    case _ => sig
  }

  lemma {:induction false} EjecutaArranque(n: nat, l: Lugar, i: Instruccion, m: Maquina)
    requires m.pc < 6 && Decodificada(i, m.pc, n)
    ensures Ejecutar(Reparada, l, i, m) == Sigue(Efecto(n, l, m))
  {
    match m.pc
    case 0 => EjecutaSet(l, i, m, AX, 0);
    case 1 => EjecutaSet(l, i, m, BX, 1);
    case 2 => EjecutaSet(l, i, m, CX, 0);
    case 3 => EjecutaSet(l, i, m, DX, n);
    case 4 => EjecutaSet(l, i, m, EX, 4);
    case 5 => EjecutaSet(l, i, m, FX, 1);
  }

  lemma {:induction false} EjecutaBucle(n: nat, l: Lugar, i: Instruccion, m: Maquina)
    requires 6 <= m.pc < 16 && Decodificada(i, m.pc, n)
    requires m.pc == 6 || m.pc == 10 ==> m.regs.cx + 4 <= l.limite
    ensures Ejecutar(Reparada, l, i, m) == Sigue(Efecto(n, l, m))
  {
    match m.pc
    case 6 => EjecutaWrite(l, i, m, CX, AX);
    case 7 => EjecutaLog(l, i, m);
    case 8 => EjecutaSum(l, i, m, AX, BX);
    case 9 => EjecutaSum(l, i, m, CX, EX);
    case 10 => EjecutaWrite(l, i, m, CX, BX);
    case 11 => EjecutaLog(l, i, m);
    case 12 => EjecutaSum(l, i, m, BX, AX);
    case 13 => EjecutaSum(l, i, m, CX, EX);
    case 14 => EjecutaSub(l, i, m, DX, FX);
    case 15 => EjecutaJnz(l, i, m, DX, 6);
  }

  predicate Cabe(l: Lugar, m: Maquina) {
    m.pc < 16 && (m.pc == 6 || m.pc == 10 ==> m.regs.cx + 4 <= l.limite)
  }

  lemma {:induction false} PasoDe(d: string, l: Lugar, m: Maquina)
    requires EsPalabra(d) && Atoi(d) != 0 && Cabe(l, m)
    ensures Paso(Reparada, l, Codigo(d), m) == Sigue(Efecto(Atoi(d), l, m))
  {
    if m.pc < 6 {
      LineaDeSetTexto(d, m.pc);
      EjecutaArranque(Atoi(d), l, Decodificar(Reparada, Linea(PalabrasDe(d, m.pc))), m);
    } else {
      LineaDeBucle(d, m.pc);
      EjecutaBucle(Atoi(d), l, Decodificar(Reparada, Linea(PalabrasDe(d, m.pc))), m);
    }
  }

  /** `k` lines, one after another. */
  function Efectos(n: nat, l: Lugar, m: Maquina, k: nat): Maquina
    decreases k
  {
    if k == 0 || m.pc >= 16 then m else Efectos(n, l, Efecto(n, l, m), k - 1)
  }

  /** All `k` lines are before the end and write inside the partition. */
  predicate Caben(n: nat, l: Lugar, m: Maquina, k: nat)
    decreases k
  {
    k == 0 || (Cabe(l, m) && Caben(n, l, Efecto(n, l, m), k - 1))
  }

  /** `p` runs line by line as `Efecto` says. */
  ghost predicate Sigue16(p: seq<Instruccion>, n: nat, l: Lugar) {
    forall m :: Cabe(l, m) ==> Paso(Reparada, l, p, m) == Sigue(Efecto(n, l, m))
  }

  lemma {:induction false} PasosEfectos(p: seq<Instruccion>, n: nat, l: Lugar, m: Maquina, k: nat)
    requires Sigue16(p, n, l) && Caben(n, l, m, k)
    ensures Pasos(Reparada, l, p, m, k) == Sigue(Efectos(n, l, m, k))
    decreases k
  {
    if k == 0 {
    } else {
      hide Efecto, Paso;
      var m1 := Efecto(n, l, m);
      assert Cabe(l, m);
      PasosUno(Reparada, l, p, m, m1, k - 1);
      PasosEfectos(p, n, l, m1, k - 1);
    }
  }

  // --- What is left in memory ---

  /** Word `j` of the partition holds the j-th Fibonacci number, on 32 bits. */
  ghost predicate EsFib(mem: seq<Byte>, base: nat, j: nat) {
    && base + 4 * j + 4 <= |mem|
    && forall t :: 0 <= t < 4 ==> mem[base + 4 * j + t] == W.Octeto(Mod32(Fib(j)), t)
  }

  /** The first `c` words of the partition are the first `c` numbers; no other byte has changed. */
  ghost predicate Escrito(mem: seq<Byte>, antes: seq<Byte>, base: nat, c: nat) {
    && |mem| == |antes|
    && (forall j :: 0 <= j < c ==> EsFib(mem, base, j))
    && (forall i :: 0 <= i < |mem| && !(base <= i < base + 4 * c) ==> mem[i] == antes[i])
  }

  lemma {:induction false} EscribirSiguiente(mem: seq<Byte>, antes: seq<Byte>, base: nat, c: nat, x: nat)
    requires Escrito(mem, antes, base, c) && base + 4 * c + 4 <= |mem| && x == Mod32(Fib(c))
    ensures Escrito(Escribir(mem, base + 4 * c, x), antes, base, if base + 4 * c + 4 < |mem| then c + 1 else c)
  {
    var d, r := base + 4 * c, Escribir(mem, base + 4 * c, x);
    if d + 4 < |mem| {
      forall j | 0 <= j < c + 1 ensures EsFib(r, base, j) {
        if j < c {
          assert EsFib(mem, base, j);
        }
      }
    }
  }

  /** How many of the first `k` words fit before the last word of the memory, which the memory
      module refuses to write. */
  function Entran(base: nat, largo: nat, k: nat): nat {
    if k > 0 && base + 4 * k >= largo then k - 1 else k
  }

  // --- The loop ---

  /** The registers at the top of the loop after `k` turns of `n`. */
  predicate Cuentas(r: Registros, n: nat, k: nat) {
    && r.ax == Mod32(Fib(2 * k)) && r.bx == Mod32(Fib(2 * k + 1))
    && r.cx == 8 * k && r.dx == n - k && r.ex == 4 && r.fx == 1
  }

  ghost predicate EnVuelta(m: Maquina, l: Lugar, antes: seq<Byte>, n: nat, k: nat) {
    k <= n && Cuentas(m.regs, n, k) && Escrito(m.mem, antes, l.base, Entran(l.base, |antes|, 2 * k))
  }

  lemma {:induction false} SumaMod(a: nat, b: nat)
    ensures Mod32(Mod32(a) + Mod32(b)) == Mod32(a + b)
  {
  }

  /** The first half of a turn, from line 6 to line 11. */
  function MediaVuelta(l: Lugar, m: Maquina): Maquina {
    var r := m.regs;
    var cx := Mod32(r.cx + r.ex);
    Maquina(11, r.(ax := Mod32(r.ax + r.bx), cx := cx),
            Escribir(Escribir(m.mem, l.base + r.cx, r.ax), l.base + cx, r.bx))
  }

  /** The second half, from line 11 on. */
  function OtraMedia(m: Maquina): Maquina {
    var r := m.regs;
    var dx := Mod32(r.dx - r.fx);
    Maquina(if dx != 0 then 6 else 16, r.(bx := Mod32(r.bx + r.ax), cx := Mod32(r.cx + r.ex), dx := dx), m.mem)
  }

  lemma {:induction false} Uno(n: nat, l: Lugar, m: Maquina, k: nat)
    requires Cabe(l, m)
    ensures Efectos(n, l, m, k + 1) == Efectos(n, l, Efecto(n, l, m), k)
    ensures Caben(n, l, m, k + 1) == Caben(n, l, Efecto(n, l, m), k)
  {
  }

  lemma {:induction false} PrimeraMedia(n: nat, l: Lugar, m: Maquina, k: nat)
    requires m.pc == 6 && m.regs.cx + 4 <= l.limite && Mod32(m.regs.cx + m.regs.ex) + 4 <= l.limite
    ensures Efectos(n, l, m, k + 5) == Efectos(n, l, MediaVuelta(l, m), k)
    ensures Caben(n, l, m, k + 5) == Caben(n, l, MediaVuelta(l, m), k)
  {
    var m7 := Efecto(n, l, m);
    var m8 := Efecto(n, l, m7);
    var m9 := Efecto(n, l, m8);
    var m10 := Efecto(n, l, m9);
    Uno(n, l, m, k + 4);
    Uno(n, l, m7, k + 3);
    Uno(n, l, m8, k + 2);
    Uno(n, l, m9, k + 1);
    Uno(n, l, m10, k);
  }

  lemma {:induction false} SegundaMedia(n: nat, l: Lugar, m: Maquina, k: nat)
    requires m.pc == 11
    ensures Efectos(n, l, m, k + 5) == Efectos(n, l, OtraMedia(m), k)
    ensures Caben(n, l, m, k + 5) == Caben(n, l, OtraMedia(m), k)
  {
    var m12 := Efecto(n, l, m);
    var m13 := Efecto(n, l, m12);
    var m14 := Efecto(n, l, m13);
    var m15 := Efecto(n, l, m14);
    Uno(n, l, m, k + 4);
    Uno(n, l, m12, k + 3);
    Uno(n, l, m13, k + 2);
    Uno(n, l, m14, k + 1);
    Uno(n, l, m15, k);
  }

  function Vuelta(l: Lugar, m: Maquina): Maquina {
    OtraMedia(MediaVuelta(l, m))
  }

  lemma {:induction false} VueltaMemoria(mem: seq<Byte>, antes: seq<Byte>, base: nat, n: nat, k: nat)
    requires k < n && base + 8 * n <= |antes| && Escrito(mem, antes, base, Entran(base, |antes|, 2 * k))
    ensures Escrito(Escribir(Escribir(mem, base + 8 * k, Mod32(Fib(2 * k))), base + (8 * k + 4), Mod32(Fib(2 * k + 1))),
                    antes, base, Entran(base, |antes|, 2 * (k + 1)))
  {
    EscribirSiguiente(mem, antes, base, 2 * k, Mod32(Fib(2 * k)));
    EscribirSiguiente(Escribir(mem, base + 8 * k, Mod32(Fib(2 * k))), antes, base, 2 * k + 1, Mod32(Fib(2 * k + 1)));
  }

  lemma {:induction false} SigueAx(ax: nat, bx: nat, k: nat)
    requires ax == Mod32(Fib(2 * k)) && bx == Mod32(Fib(2 * k + 1))
    ensures Mod32(ax + bx) == Mod32(Fib(2 * (k + 1)))
  {
    SumaMod(Fib(2 * k), Fib(2 * k + 1));
  }

  lemma {:induction false} SigueBx(ax: nat, bx: nat, k: nat)
    requires ax == Mod32(Fib(2 * (k + 1))) && bx == Mod32(Fib(2 * k + 1))
    ensures Mod32(bx + ax) == Mod32(Fib(2 * (k + 1) + 1))
  {
    SumaMod(Fib(2 * k + 1), Fib(2 * (k + 1)));
  }

  lemma {:induction false} CxDx(cx: nat, dx: nat)
    requires cx + 8 < WORD && 0 < dx < WORD
    ensures Mod32(cx + 4) == cx + 4 && Mod32(cx + 4 + 4) == cx + 8 && Mod32(dx - 1) == dx - 1
  {
  }

  lemma {:induction false} VueltaEs(l: Lugar, m: Maquina)
    ensures var r := m.regs;
      var ax, cx, dx := Mod32(r.ax + r.bx), Mod32(r.cx + r.ex), Mod32(r.dx - r.fx);
      Vuelta(l, m) == Maquina(if dx != 0 then 6 else 16,
                              r.(ax := ax, bx := Mod32(r.bx + ax), cx := Mod32(cx + r.ex), dx := dx),
                              Escribir(Escribir(m.mem, l.base + r.cx, r.ax), l.base + cx, r.bx))
  {
  }

  lemma {:induction false} VueltaRegistros(l: Lugar, m: Maquina, n: nat, k: nat)
    requires Cuentas(m.regs, n, k) && k < n < WORD && 8 * n < WORD
    ensures Vuelta(l, m).pc == (if k + 1 < n then 6 else 16) && Cuentas(Vuelta(l, m).regs, n, k + 1)
    ensures Vuelta(l, m).mem
         == Escribir(Escribir(m.mem, l.base + 8 * k, Mod32(Fib(2 * k))), l.base + (8 * k + 4), Mod32(Fib(2 * k + 1)))
  {
    VueltaEs(l, m);
    CxDx(8 * k, n - k);
    SigueAx(m.regs.ax, m.regs.bx, k);
    SigueBx(Mod32(m.regs.ax + m.regs.bx), m.regs.bx, k);
  }

  lemma {:induction false} VueltaMantiene(l: Lugar, m: Maquina, antes: seq<Byte>, n: nat, k: nat)
    requires EnVuelta(m, l, antes, n, k) && k < n < WORD
    requires 8 * n <= l.limite && l.base + 8 * n <= |antes| < WORD
    ensures Vuelta(l, m).pc == (if k + 1 < n then 6 else 16)
    ensures EnVuelta(Vuelta(l, m), l, antes, n, k + 1)
  {
    hide Fib, Escrito, Vuelta, Entran;
    VueltaRegistros(l, m, n, k);
    VueltaMemoria(m.mem, antes, l.base, n, k);
  }

  /** Ten steps of the loop are one turn of it. */
  lemma {:induction false} UnaVuelta(n: nat, l: Lugar, m: Maquina, antes: seq<Byte>, k: nat)
    requires k < n < WORD && m.pc == 6 && EnVuelta(m, l, antes, n, k)
    requires 8 * n <= l.limite && l.base + 8 * n <= |antes| < WORD
    ensures Efectos(n, l, m, 10 * (n - k)) == Efectos(n, l, Vuelta(l, m), 10 * (n - (k + 1)))
    ensures Caben(n, l, m, 10 * (n - k)) == Caben(n, l, Vuelta(l, m), 10 * (n - (k + 1)))
  {
    hide Efectos, Caben;
    PrimeraMedia(n, l, m, 10 * (n - k - 1) + 5);
    SegundaMedia(n, l, MediaVuelta(l, m), 10 * (n - k - 1));
  }

  lemma {:induction false} Vueltas(n: nat, l: Lugar, m: Maquina, antes: seq<Byte>, k: nat)
    requires 0 < n < WORD && m.pc == (if k < n then 6 else 16)
    requires 8 * n <= l.limite && l.base + 8 * n <= |antes| < WORD
    requires EnVuelta(m, l, antes, n, k)
    ensures Caben(n, l, m, 10 * (n - k))
    ensures var f := Efectos(n, l, m, 10 * (n - k)); f.pc == 16 && EnVuelta(f, l, antes, n, n)
    decreases n - k
  {
    if k >= n {
    } else {
      hide EnVuelta, Vuelta, Efectos, Caben;
      VueltaMantiene(l, m, antes, n, k);
      UnaVuelta(n, l, m, antes, k);
      Vueltas(n, l, Vuelta(l, m), antes, k + 1);
    }
  }

  function Arranque(n: nat, m: Maquina): Maquina {
    m.(pc := 6, regs := m.regs.(ax := 0, bx := 1, cx := 0, dx := n, ex := 4, fx := 1))
  }

  lemma {:induction false} ArranqueEfectos(n: nat, l: Lugar, m: Maquina, k: nat)
    requires m.pc == 0
    ensures Efectos(n, l, m, k + 6) == Efectos(n, l, Arranque(n, m), k)
    ensures Caben(n, l, m, k + 6) == Caben(n, l, Arranque(n, m), k)
  {
    var m1 := Efecto(n, l, m);
    var m2 := Efecto(n, l, m1);
    var m3 := Efecto(n, l, m2);
    var m4 := Efecto(n, l, m3);
    var m5 := Efecto(n, l, m4);
    Uno(n, l, m, k + 5);
    Uno(n, l, m1, k + 4);
    Uno(n, l, m2, k + 3);
    Uno(n, l, m3, k + 2);
    Uno(n, l, m4, k + 1);
    Uno(n, l, m5, k);
  }

  lemma {:induction false} EnDump(d: string)
    ensures Codigo(d)[16].syscall && Codigo(d)[16].palabras[0] == "DUMP_MEMORY"
  {
    DecodificaUna("DUMP_MEMORY");
  }

  lemma {:induction false} Recorrido(n: nat, l: Lugar, m: Maquina)
    requires 0 < n < WORD && m.pc == 0 && 8 * n <= l.limite && l.base + 8 * n <= |m.mem| < WORD
    ensures Caben(n, l, m, 6 + 10 * n)
    ensures var f := Efectos(n, l, m, 6 + 10 * n); f.pc == 16 && EnVuelta(f, l, m.mem, n, n)
  {
    ArranqueEfectos(n, l, m, 10 * n);
    Vueltas(n, l, Arranque(n, m), m.mem, 0);
  }

  lemma {:induction false} Llega(p: seq<Instruccion>, n: nat, l: Lugar, m: Maquina) returns (f: Maquina)
    requires Sigue16(p, n, l) && 0 < n < WORD && m.pc == 0 && 8 * n <= l.limite && l.base + 8 * n <= |m.mem| < WORD
    requires |p| == 18 && p[16].syscall
    ensures Pasos(Reparada, l, p, m, 6 + 10 * n) == Sigue(f)
    ensures f.pc == 16 && Paso(Reparada, l, p, f) == Syscall(p[16], f.(pc := 17))
    ensures EnVuelta(f, l, m.mem, n, n)
  {
    Recorrido(n, l, m);
    PasosEfectos(p, n, l, m, 6 + 10 * n);
    f := Efectos(n, l, m, 6 + 10 * n);
  }

  /** The same of any program that runs like it up to a system call at line 16. */
  lemma {:induction false} LlegaAlFinal(p: seq<Instruccion>, n: nat, l: Lugar, m: Maquina) returns (f: Maquina)
    requires Sigue16(p, n, l) && 0 < n < WORD && m.pc == 0 && 8 * n <= l.limite && l.base + 8 * n <= |m.mem| < WORD
    requires |p| == 18 && p[16].syscall
    ensures Pasos(Reparada, l, p, m, 6 + 10 * n) == Sigue(f)
    ensures f.pc == 16 && Paso(Reparada, l, p, f) == Syscall(p[16], f.(pc := 17))
    ensures f.regs.ax == Mod32(Fib(2 * n)) && f.regs.bx == Mod32(Fib(2 * n + 1))
    ensures Escrito(f.mem, m.mem, l.base, Entran(l.base, |m.mem|, 2 * n))
  {
    f := Llega(p, n, l, m);
  }

  lemma {:induction false} ProgramaSigue(d: string, l: Lugar)
    requires EsPalabra(d) && Atoi(d) != 0
    ensures Sigue16(Codigo(d), Atoi(d), l)
  {
    forall m | Cabe(l, m) ensures Paso(Reparada, l, Codigo(d), m) == Sigue(Efecto(Atoi(d), l, m)) {
      PasoDe(d, l, m);
    }
  }

  lemma {:induction false} FiboTexto(d: string, n: nat, l: Lugar, m: Maquina) returns (f: Maquina)
    requires EsPalabra(d) && Atoi(d) == n != 0 && m.pc == 0
    requires 8 * n <= l.limite && l.base + 8 * n <= |m.mem| < WORD
    ensures Pasos(Reparada, l, Codigo(d), m, 6 + 10 * n) == Sigue(f)
    ensures f.pc == 16 && Paso(Reparada, l, Codigo(d), f) == Syscall(Codigo(d)[16], f.(pc := 17))
    ensures Codigo(d)[16].palabras[0] == "DUMP_MEMORY"
    ensures f.regs.ax == Mod32(Fib(2 * n)) && f.regs.bx == Mod32(Fib(2 * n + 1))
    ensures Escrito(f.mem, m.mem, l.base, Entran(l.base, |m.mem|, 2 * n))
  {
    ProgramaSigue(d, l);
    EnDump(d);
    f := LlegaAlFinal(Codigo(d), n, l, m);
  }

  /** The program for n turns, n written in decimal, in a partition with room for 2n words, gets to its DUMP_MEMORY in
      6 + 10n steps. The words of the partition are then the first 2n Fibonacci numbers on 32
      bits, but for one that would end the whole memory, which stays as it was; every other byte
      is as it was; and AX and BX hold the next two numbers. */
  lemma {:induction false} FiboLlega(n: nat, l: Lugar, m: Maquina) returns (f: Maquina)
    requires 0 < n < WORD && m.pc == 0
    requires 8 * n <= l.limite && l.base + 8 * n <= |m.mem| < WORD
    ensures Pasos(Reparada, l, Codigo(N.Decimal(n)), m, 6 + 10 * n) == Sigue(f)
    ensures f.pc == 16
    ensures Paso(Reparada, l, Codigo(N.Decimal(n)), f) == Syscall(Codigo(N.Decimal(n))[16], f.(pc := 17))
    ensures Codigo(N.Decimal(n))[16].palabras[0] == "DUMP_MEMORY"
    ensures f.regs.ax == Mod32(Fib(2 * n)) && f.regs.bx == Mod32(Fib(2 * n + 1))
    ensures Escrito(f.mem, m.mem, l.base, Entran(l.base, |m.mem|, 2 * n))
  {
    hide Fib, Escrito, Pasos, Atoi, N.Decimal, Codigo, Paso;
    N.AtoiDe(n);
    N.DecimalEsPalabra(n);
    f := FiboTexto(N.Decimal(n), n, l, m);
  }

  // --- How large n can be ---

  lemma {:induction false} FibCrece(a: nat, b: nat)
    requires a <= b
    ensures Fib(a) <= Fib(b)
    decreases b
  {
    if a >= b {
    } else {
      FibCrece(a, b - 1);
    }
  }

  lemma {:induction false} FibCercaDeWord()
    ensures Fib(47) == 2971215073 && Fib(48) == 4807526976
  {
    assert Fib(10) == 55 && Fib(11) == 89;
    assert Fib(20) == 6765 && Fib(21) == 10946;
    assert Fib(30) == 832040 && Fib(31) == 1346269;
    assert Fib(40) == 102334155 && Fib(41) == 165580141;
  }

  /** AX and BX end as the true Fibonacci numbers exactly up to 23 turns. */
  lemma {:induction false} ExactoSii(n: nat)
    ensures Mod32(Fib(2 * n)) == Fib(2 * n) && Mod32(Fib(2 * n + 1)) == Fib(2 * n + 1) <==> n <= 23
  {
    FibCercaDeWord();
    if n <= 23 {
      FibCrece(2 * n, 47);
      FibCrece(2 * n + 1, 47);
    } else {
      FibCrece(48, 2 * n);
    }
  }
}
