/** What each line of a program does to the registers, the memory and the PC, from the text of the
    line to the machine it leaves. */
module Instrucciones {
  import opened Comun
  import opened Cpu
  import N = Numeros
  import W = Wire

  /** The thread is at the line made of the words `ps`. */
  ghost predicate EnLinea(lineas: seq<string>, m: Maquina, ps: seq<string>) {
    m.pc < |lineas| && lineas[m.pc] == Linea(ps) && forall j :: 0 <= j < |ps| ==> EsPalabra(ps[j])
  }

  /** One turn of the cycle on the lines of a program. */
  function Turno(v: Variante, l: Lugar, lineas: seq<string>, m: Maquina): Salida {
    Paso(v, l, DecodificarTodo(v, lineas), m)
  }

  lemma {:induction false} TurnoEs(v: Variante, l: Lugar, lineas: seq<string>, m: Maquina, ps: seq<string>)
    requires EnLinea(lineas, m, ps)
    ensures Turno(v, l, lineas, m) == Ejecutar(v, l, Resolver(v, ps), m)
  {
    PalabrasDeLinea(ps);
  }

  /** An operation with two operands, its names looked up. */
  lemma {:induction false} Dos(v: Variante, l: Lugar, lineas: seq<string>, m: Maquina, palabra: string, a: string,
        b: string)
      returns (i: Instruccion)
    requires EnLinea(lineas, m, [palabra, a, b]) && OpDe(palabra) != Desconocida
    ensures Turno(v, l, lineas, m) == Ejecutar(v, l, i, m) && !i.syscall && i.op == OpDe(palabra)
    ensures i.r1 == RegDe(a) && i.r2 == RegDe(b) && i.n2 == Atoi(b) && i.fijo == (b == "PC")
  {
    TurnoEs(v, l, lineas, m, [palabra, a, b]);
    i := Resolver(v, [palabra, a, b]);
  }

  /** And with one. */
  lemma {:induction false} Uno(v: Variante, l: Lugar, lineas: seq<string>, m: Maquina, palabra: string, a: string)
      returns (i: Instruccion)
    requires EnLinea(lineas, m, [palabra, a]) && OpDe(palabra) != Desconocida
    ensures Turno(v, l, lineas, m) == Ejecutar(v, l, i, m) && !i.syscall && i.op == OpDe(palabra)
    ensures i.r1 == RegDe(a) && !i.fijo
  {
    TurnoEs(v, l, lineas, m, [palabra, a]);
    i := Resolver(v, [palabra, a]);
  }

  lemma {:induction false} NombresDistintos(a: Reg, b: Reg)
    ensures NombreDe(a) == NombreDe(b) ==> a == b
    ensures RegDe(NombreDe(a)) == Some(a) && EsPalabra(NombreDe(a)) && NombreDe(a) != "PC"
  {
    assert NombreDe(a)[0] == NombreDe(b)[0] ==> a == b;
  }

  /** The eight registers are known by their names, and by nothing else. */
  lemma {:induction false} RegDeSii(nombre: string, r: Reg)
    ensures RegDe(nombre) == Some(r) <==> nombre == NombreDe(r)
  {
    if RegDe(nombre).Some? {
      assert nombre == NombreDe(RegDe(nombre).value);
    }
    NombresDistintos(r, if RegDe(nombre).Some? then RegDe(nombre).value else r);
  }

  predicate SinRegistro(nombre: string) {
    RegDe(nombre) == None
  }

  /** Only register `r` changes, to `n`. */
  ghost predicate SoloRegistro(a: Registros, b: Registros, r: Reg, n: nat) {
    Valor(b, r) == n && forall x :: x != r ==> Valor(b, x) == Valor(a, x)
  }

  lemma {:induction false} PonerSolo(a: Registros, r: Reg, n: nat)
    ensures SoloRegistro(a, Poner(a, r, n), r, n)
  {
  }

  /** The PC after a line whose second operand is `o2`: it stays if that is the word PC. */
  function Siguiente(pc: nat, o2: string): nat {
    if o2 == "PC" then pc else Mod32(pc + 1)
  }

  // --- Registers ---

  /** SET: the register takes the number, on 32 bits; the word PC counts as 0, and holds the thread
      there. */
  lemma {:induction false} LineaSet(v: Variante, l: Lugar, lineas: seq<string>, m: Maquina, r: Reg, x: string)
    requires EnLinea(lineas, m, ["SET", NombreDe(r), x])
    ensures var s := Turno(v, l, lineas, m);
      && s.Sigue? && s.m.pc == Siguiente(m.pc, x) && s.m.mem == m.mem
      && SoloRegistro(m.regs, s.m.regs, r, Atoi(x))
  {
    hide Turno, Atoi;
    NombresDistintos(r, r);
    var i := Dos(v, l, lineas, m, "SET", NombreDe(r), x);
    PonerSolo(m.regs, r, Atoi(x));
  }

  /** SET of a number in decimal. */
  lemma {:induction false} LineaSetDecimal(v: Variante, l: Lugar, lineas: seq<string>, m: Maquina, r: Reg, n: nat)
    requires n < WORD && EnLinea(lineas, m, ["SET", NombreDe(r), N.Decimal(n)])
    ensures var s := Turno(v, l, lineas, m);
      && s.Sigue? && s.m.pc == Mod32(m.pc + 1) && s.m.mem == m.mem && SoloRegistro(m.regs, s.m.regs, r, n)
  {
    LineaSet(v, l, lineas, m, r, N.Decimal(n));
    N.AtoiDe(n);
    N.DecimalEsPalabra(n);
  }

  /** SUM: the first register takes the sum, on 32 bits. */
  lemma {:induction false} LineaSum(v: Variante, l: Lugar, lineas: seq<string>, m: Maquina, d: Reg, o: Reg)
    requires EnLinea(lineas, m, ["SUM", NombreDe(d), NombreDe(o)])
    ensures var s := Turno(v, l, lineas, m);
      && s.Sigue? && s.m.pc == Mod32(m.pc + 1) && s.m.mem == m.mem
      && SoloRegistro(m.regs, s.m.regs, d, Mod32(Valor(m.regs, d) + Valor(m.regs, o)))
  {
    hide Turno, Atoi;
    NombresDistintos(d, d);
    NombresDistintos(o, o);
    var i := Dos(v, l, lineas, m, "SUM", NombreDe(d), NombreDe(o));
    PonerSolo(m.regs, d, Mod32(Valor(m.regs, d) + Valor(m.regs, o)));
  }

  /** SUB: the first register takes the difference, on 32 bits. */
  lemma {:induction false} LineaSub(v: Variante, l: Lugar, lineas: seq<string>, m: Maquina, d: Reg, o: Reg)
    requires EnLinea(lineas, m, ["SUB", NombreDe(d), NombreDe(o)])
    ensures var s := Turno(v, l, lineas, m);
      && s.Sigue? && s.m.pc == Mod32(m.pc + 1) && s.m.mem == m.mem
      && SoloRegistro(m.regs, s.m.regs, d, Mod32(Valor(m.regs, d) - Valor(m.regs, o)))
  {
    hide Turno, Atoi;
    NombresDistintos(d, d);
    NombresDistintos(o, o);
    var i := Dos(v, l, lineas, m, "SUB", NombreDe(d), NombreDe(o));
    PonerSolo(m.regs, d, Mod32(Valor(m.regs, d) - Valor(m.regs, o)));
  }

  /** JNZ: as written the CPU falls over; repaired it jumps if and only if the register is not 0. */
  lemma {:induction false} LineaJnz(v: Variante, l: Lugar, lineas: seq<string>, m: Maquina, r: Reg, x: string)
    requires EnLinea(lineas, m, ["JNZ", NombreDe(r), x])
    ensures var s := Turno(v, l, lineas, m);
      if v.ComoEsta? then s == Cae
      else s.Sigue? && s.m.regs == m.regs && s.m.mem == m.mem
           && s.m.pc == (if Valor(m.regs, r) != 0 then Atoi(x) else Mod32(m.pc + 1))
  {
    hide Turno, Atoi;
    NombresDistintos(r, r);
    var i := Dos(v, l, lineas, m, "JNZ", NombreDe(r), x);
  }

  /** LOG of a register changes nothing but the PC. */
  lemma {:induction false} LineaLog(v: Variante, l: Lugar, lineas: seq<string>, m: Maquina, r: Reg)
    requires EnLinea(lineas, m, ["LOG", NombreDe(r)])
    ensures Turno(v, l, lineas, m) == Sigue(m.(pc := Mod32(m.pc + 1)))
  {
    hide Turno, Atoi;
    NombresDistintos(r, r);
    var i := Uno(v, l, lineas, m, "LOG", NombreDe(r));
  }

  /** Names that are no register's: nothing happens but to the PC, which JNZ does not move; and LOG
      makes the CPU fall over. */
  lemma {:induction false} LineaSinRegistro(v: Variante, l: Lugar, lineas: seq<string>, m: Maquina, op: string,
        a: string, b: string)
    requires EnLinea(lineas, m, [op, a, b])
    requires SinRegistro(a) || (SinRegistro(b) && (op == "SUM" || op == "SUB" || op == "WRITE_MEM" || op == "READ_MEM"))
    requires OpDe(op) != Desconocida
    ensures Turno(v, l, lineas, m)
         == if op == "LOG" then Cae else if op == "JNZ" then Sigue(m) else Sigue(m.(pc := Siguiente(m.pc, b)))
  {
    hide Turno, Atoi, RegDe;
    var i := Dos(v, l, lineas, m, op, a, b);
  }

  // --- Memory ---

  /** The place of a thread whose partition is at `base` and has `tam` bytes. */
  predicate EnParticion(v: Variante, l: Lugar, base: nat, tam: nat) {
    0 < tam && base + tam <= 0x8000_0000 && l == Lugar(base, if v.ComoEsta? then base + tam - 1 else tam)
  }

  /** The logical address is let through: repaired, exactly if the word is inside the partition. */
  predicate Alcanza(v: Variante, base: nat, tam: nat, x: nat) {
    if v.ComoEsta? then x <= base + tam - 1 else x + 4 <= tam
  }

  /** Word `x` at address `d` is written, unless it would end the memory, and no other byte changes. */
  ghost predicate SoloPalabra(a: seq<Byte>, b: seq<Byte>, d: nat, x: nat) {
    if d + 4 >= |a| then b == a
    else
      && |b| == |a| && W.Numero(b, d) == x
      && forall k :: 0 <= k < |a| && !(d <= k < d + 4) ==> b[k] == a[k]
  }

  lemma {:induction false} EscribirSolo(mem: seq<Byte>, d: nat, x: nat)
    requires x < WORD
    ensures SoloPalabra(mem, Escribir(mem, d, x), d, x)
  {
    EscribirLeer(mem, d, x);
  }

  lemma {:induction false} PalabraQueda(a: seq<Byte>, b: seq<Byte>, d: nat, x: nat)
    requires SoloPalabra(a, b, d, x)
    ensures |b| == |a| && (if d + 4 >= |a| then b == a else W.Numero(b, d) == x)
  {
  }

  lemma {:induction false} ValorCabe(r: Registros, x: Reg)
    requires RegistrosEn32(r)
    ensures Valor(r, x) < WORD
  {
  }

  /** WRITE_MEM ends in a segmentation fault exactly when its address is not let through; otherwise
      it writes the word there and nothing else. */
  lemma {:induction false} LineaWrite(v: Variante, l: Lugar, base: nat, tam: nat, lineas: seq<string>, m: Maquina,
        d: Reg, o: Reg)
    requires En32(m) && EnParticion(v, l, base, tam) && EnLinea(lineas, m, ["WRITE_MEM", NombreDe(d), NombreDe(o)])
    ensures var s, x := Turno(v, l, lineas, m), Valor(m.regs, d);
      && (s == Segfault(m) <==> !Alcanza(v, base, tam, x))
      && (Alcanza(v, base, tam, x) ==>
            && s.Sigue? && s.m.pc == Mod32(m.pc + 1) && s.m.regs == m.regs
            && SoloPalabra(m.mem, s.m.mem, base + x, Valor(m.regs, o)))
  {
    hide Turno, Atoi;
    NombresDistintos(d, d);
    NombresDistintos(o, o);
    var i := Dos(v, l, lineas, m, "WRITE_MEM", NombreDe(d), NombreDe(o));
    ValorCabe(m.regs, d);
    ValorCabe(m.regs, o);
    MmuAcepta(v, base, tam, Valor(m.regs, d));
    EscribirSolo(m.mem, base + Valor(m.regs, d), Valor(m.regs, o));
  }

  /** READ_MEM ends in a segmentation fault exactly when its address is not let through; otherwise
      it waits for ever exactly when the word would end the memory, or else the register takes the
      word that is there. */
  lemma {:induction false} LineaRead(v: Variante, l: Lugar, base: nat, tam: nat, lineas: seq<string>, m: Maquina,
        r: Reg, d: Reg)
    requires En32(m) && EnParticion(v, l, base, tam) && EnLinea(lineas, m, ["READ_MEM", NombreDe(r), NombreDe(d)])
    ensures var s, x := Turno(v, l, lineas, m), Valor(m.regs, d);
      && (s == Segfault(m) <==> !Alcanza(v, base, tam, x))
      && (s == Espera(m) <==> Alcanza(v, base, tam, x) && base + x + 4 >= |m.mem|)
      && (Alcanza(v, base, tam, x) && base + x + 4 < |m.mem| ==>
            && s.Sigue? && s.m.pc == Mod32(m.pc + 1) && s.m.mem == m.mem
            && SoloRegistro(m.regs, s.m.regs, r, W.Numero(m.mem, base + x)))
  {
    hide Turno, Atoi;
    NombresDistintos(r, r);
    NombresDistintos(d, d);
    var i := Dos(v, l, lineas, m, "READ_MEM", NombreDe(r), NombreDe(d));
    ValorCabe(m.regs, d);
    MmuAcepta(v, base, tam, Valor(m.regs, d));
    var fisica := base + Valor(m.regs, d);
    if fisica + 4 < |m.mem| {
      PonerSolo(m.regs, r, W.Numero(m.mem, fisica));
    }
  }

  /** Two turns, when the first goes on. */
  lemma {:induction false} DosTurnos(v: Variante, l: Lugar, lineas: seq<string>, m: Maquina, m1: Maquina)
    requires Turno(v, l, lineas, m) == Sigue(m1)
    ensures Pasos(v, l, DecodificarTodo(v, lineas), m, 2) == Turno(v, l, lineas, m1)
  {
    var p := DecodificarTodo(v, lineas);
    PasosUno(v, l, p, m, m1, 1);
    assert Pasos(v, l, p, m1, 1) == Paso(v, l, p, m1) by {
      match Paso(v, l, p, m1)
      case Sigue(m2) => PasosUno(v, l, p, m1, m2, 0);
      case _ =>
    }
  }

  /** WRITE_MEM and then READ_MEM through the same address register carry the word over, whenever
      the address is let through; at the end of the memory the reader is left waiting. */
  lemma {:induction false} EscribeYLeeLineas(v: Variante, l: Lugar, base: nat, tam: nat, lineas: seq<string>,
        m: Maquina, d: Reg, o: Reg, r: Reg)
    requires En32(m) && EnParticion(v, l, base, tam) && m.pc + 1 < WORD && Alcanza(v, base, tam, Valor(m.regs, d))
    requires EnLinea(lineas, m, ["WRITE_MEM", NombreDe(d), NombreDe(o)])
    requires EnLinea(lineas, m.(pc := m.pc + 1), ["READ_MEM", NombreDe(r), NombreDe(d)])
    ensures var s, x := Pasos(v, l, DecodificarTodo(v, lineas), m, 2), Valor(m.regs, d);
      if base + x + 4 >= |m.mem| then s == Espera(m.(pc := m.pc + 1))
      else
        && s.Sigue? && s.m.pc == Mod32(m.pc + 2)
        && SoloRegistro(m.regs, s.m.regs, r, Valor(m.regs, o))
        && SoloPalabra(m.mem, s.m.mem, base + x, Valor(m.regs, o))
  {
    hide Turno, Atoi, SoloRegistro, SoloPalabra, Linea, NombreDe, Pasos, Valor, EsPalabra;
    LineaWrite(v, l, base, tam, lineas, m, d, o);
    var m1 := Turno(v, l, lineas, m).m;
    DosTurnos(v, l, lineas, m, m1);
    assert EnLinea(lineas, m1, ["READ_MEM", NombreDe(r), NombreDe(d)]);
    LineaRead(v, l, base, tam, lineas, m1, r, d);
    PalabraQueda(m.mem, m1.mem, base + Valor(m.regs, d), Valor(m.regs, o));
  }

  /** The memory scripts begin with these four lines. */
  const MEM_FIJAS := [["SET", "DX", "0"], ["SET", "AX", "64"], ["WRITE_MEM", "DX", "AX"], ["READ_MEM", "BX", "DX"]]

  lemma {:induction false} MemFijasPalabras()
    ensures MEM_FIJAS[0] == ["SET", NombreDe(DX), N.Decimal(0)] && MEM_FIJAS[1] == ["SET", NombreDe(AX), N.Decimal(64)]
    ensures MEM_FIJAS[2] == ["WRITE_MEM", NombreDe(DX), NombreDe(AX)]
    ensures MEM_FIJAS[3] == ["READ_MEM", NombreDe(BX), NombreDe(DX)]
    ensures forall k :: 0 <= k < 4 ==> |MEM_FIJAS[k]| == 3 && forall j :: 0 <= j < 3 ==> EsPalabra(MEM_FIJAS[k][j])
  {
    assert N.Decimal(0) == "0" && N.Decimal(64) == "64";
  }

  /** A register set stays on 32 bits with the others. */
  lemma {:induction false} SoloCabe(a: Registros, b: Registros, r: Reg, n: nat)
    requires RegistrosEn32(a) && SoloRegistro(a, b, r, n) && n < WORD
    ensures RegistrosEn32(b)
  {
    assert Valor(b, AX) < WORD && Valor(b, BX) < WORD && Valor(b, CX) < WORD && Valor(b, DX) < WORD;
    assert Valor(b, EX) < WORD && Valor(b, FX) < WORD && Valor(b, GX) < WORD && Valor(b, HX) < WORD;
  }

  /** Two registers set one after the other. */
  lemma {:induction false} DosSet(v: Variante, l: Lugar, lineas: seq<string>, m: Maquina, r1: Reg, n1: nat, r2: Reg,
        n2: nat, k: nat) returns (m2: Maquina)
    requires En32(m) && m.pc + 2 < WORD && n1 < WORD && n2 < WORD && r1 != r2
    requires EnLinea(lineas, m, ["SET", NombreDe(r1), N.Decimal(n1)])
    requires EnLinea(lineas, m.(pc := m.pc + 1), ["SET", NombreDe(r2), N.Decimal(n2)])
    ensures Pasos(v, l, DecodificarTodo(v, lineas), m, k + 2) == Pasos(v, l, DecodificarTodo(v, lineas), m2, k)
    ensures En32(m2) && m2.pc == m.pc + 2 && m2.mem == m.mem && Valor(m2.regs, r1) == n1 && Valor(m2.regs, r2) == n2
  {
    hide Atoi, N.Decimal, Linea, Pasos, Valor, Paso, NombreDe;
    var p := DecodificarTodo(v, lineas);
    LineaSetDecimal(v, l, lineas, m, r1, n1);
    var m1 := Turno(v, l, lineas, m).m;
    SoloCabe(m.regs, m1.regs, r1, n1);
    assert EnLinea(lineas, m1, ["SET", NombreDe(r2), N.Decimal(n2)]);
    LineaSetDecimal(v, l, lineas, m1, r2, n2);
    m2 := Turno(v, l, lineas, m1).m;
    SoloCabe(m1.regs, m2.regs, r2, n2);
    PasosUno(v, l, p, m, m1, k + 1);
    PasosUno(v, l, p, m1, m2, k);
  }

  /** They leave 64 in BX, and in the first word of the partition. */
  lemma {:induction false} MemFijasLee(v: Variante, l: Lugar, base: nat, tam: nat, lineas: seq<string>, m: Maquina)
    requires En32(m) && EnParticion(v, l, base, tam) && 4 <= tam && base + 4 < |m.mem| && m.pc == 0
    requires |lineas| >= 4 && forall k :: 0 <= k < 4 ==> lineas[k] == Linea(MEM_FIJAS[k])
    ensures var s := Pasos(v, l, DecodificarTodo(v, lineas), m, 4);
      && s.Sigue? && s.m.pc == 4 && Valor(s.m.regs, BX) == 64 && SoloPalabra(m.mem, s.m.mem, base, 64)
  {
    hide Atoi, N.Decimal, Linea, Pasos, SoloPalabra;
    MemFijasPalabras();
    assert EnLinea(lineas, m, MEM_FIJAS[0]) && EnLinea(lineas, m.(pc := 1), MEM_FIJAS[1]);
    var m2 := DosSet(v, l, lineas, m, DX, 0, AX, 64, 2);
    assert EnLinea(lineas, m2, MEM_FIJAS[2]) && EnLinea(lineas, m2.(pc := 3), MEM_FIJAS[3]);
    EscribeYLeeLineas(v, l, base, tam, lineas, m2, DX, AX, BX);
  }
}
