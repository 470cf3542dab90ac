/** The CPU's registers and the memory's bytes, changed in place. Every operation is proved to do
    what `Cpu` says of the machine by value; `execute` and the cycle, to stay on 32 bits and, with
    the repair, inside the partition. */
module CpuModule {
  import opened Comun
  import C = Cpu
  import W = Wire

  /** How an instruction ends, apart from the machine it leaves. */
  datatype Fin = Sigue | Syscall(i: C.Instruccion) | Segfault | Espera | Cae

  function Cerrar(fin: Fin, m: C.Maquina): C.Salida {
    match fin
    case Sigue => C.Sigue(m)
    case Syscall(i) => C.Syscall(i, m)
    case Segfault => C.Segfault(m)
    case Espera => C.Espera(m)
    case Cae => C.Cae
  }

  class Cpu {
    const variante: Variante
    const lugar: C.Lugar
    const memoria: array<Byte>
    var pc: nat
    var ax: nat
    var bx: nat
    var cx: nat
    var dx: nat
    var ex: nat
    var fx: nat
    var gx: nat
    var hx: nat

    ghost function Registros(): C.Registros
      reads this
    {
      C.Registros(ax, bx, cx, dx, ex, fx, gx, hx)
    }

    ghost function Maquina(): C.Maquina
      reads this, memoria
    {
      C.Maquina(pc, Registros(), memoria[..])
    }

    /** PC and registers are 32-bit words. */
    ghost predicate Valid()
      reads this
    {
      pc < WORD && C.RegistrosEn32(Registros())
    }

    /** A new context: PC and registers at 0. */
    constructor (variante: Variante, lugar: C.Lugar, memoria: array<Byte>)
      ensures this.variante == variante && this.lugar == lugar && this.memoria == memoria
      ensures Maquina() == C.Maquina(0, C.Registros(0, 0, 0, 0, 0, 0, 0, 0), memoria[..]) && Valid()
    {
      this.variante, this.lugar, this.memoria := variante, lugar, memoria;
      pc, ax, bx, cx, dx, ex, fx, gx, hx := 0, 0, 0, 0, 0, 0, 0, 0, 0;
    }

    function Leer(r: C.Reg): (n: nat)
      reads this
      ensures n == C.Valor(Registros(), r)
    {
      match r
      case AX => ax
      case BX => bx
      case CX => cx
      case DX => dx
      case EX => ex
      case FX => fx
      case GX => gx
      case HX => hx
    }

    method Poner(r: C.Reg, n: nat)
      modifies this`ax, this`bx, this`cx, this`dx, this`ex, this`fx, this`gx, this`hx
      ensures Registros() == C.Poner(old(Registros()), r, n)
    {
      match r
      case AX => ax := n;
      case BX => bx := n;
      case CX => cx := n;
      case DX => dx := n;
      case EX => ex := n;
      case FX => fx := n;
      case GX => gx := n;
      case HX => hx := n;
    }

    method Avanzar(i: C.Instruccion)
      modifies this`pc
      ensures C.Sigue(Maquina()) == C.Avanzar(i, old(Maquina()))
    {
      if !i.fijo {
        pc := Mod32(pc + 1);
      }
    }

    method SetRegistro(i: C.Instruccion)
      modifies this`ax, this`bx, this`cx, this`dx, this`ex, this`fx, this`gx, this`hx
      ensures Maquina() == C.EjecutarSet(i, old(Maquina()))
    {
      if i.r1.Some? {
        Poner(i.r1.value, i.n2);
      }
    }

    method SumRegistro(i: C.Instruccion)
      modifies this`ax, this`bx, this`cx, this`dx, this`ex, this`fx, this`gx, this`hx
      ensures Maquina() == C.Operar(i, old(Maquina()), (x, y) => x + y)
    {
      if i.r1.Some? && i.r2.Some? {
        Poner(i.r1.value, Mod32(Leer(i.r1.value) + Leer(i.r2.value)));
      }
    }

    method SubRegistro(i: C.Instruccion)
      modifies this`ax, this`bx, this`cx, this`dx, this`ex, this`fx, this`gx, this`hx
      ensures Maquina() == C.Operar(i, old(Maquina()), (x, y) => x - y)
    {
      if i.r1.Some? && i.r2.Some? {
        Poner(i.r1.value, Mod32(Leer(i.r1.value) - Leer(i.r2.value)));
      }
    }

    method JnzRegistro(i: C.Instruccion) returns (fin: Fin)
      modifies this`pc
      ensures Cerrar(fin, Maquina()) == C.EjecutarJnz(variante, i, old(Maquina()))
      ensures fin == Cae ==> Maquina() == old(Maquina())
    {
      fin := Sigue;
      if i.r1.Some? {
        if variante.ComoEsta? {
          fin := Cae;
        } else if Leer(i.r1.value) != 0 {
          pc := i.n2;
        } else {
          pc := Mod32(pc + 1);
        }
      }
    }

    /** `write_mem` of the memory module: four bytes copied in place. */
    method EscribirEnMemoria(d: nat, x: nat)
      modifies memoria
      ensures memoria[..] == C.Escribir(old(memoria[..]), d, x)
    {
      if d + 4 >= memoria.Length {
        return;
      }
      for k := 0 to 4
        invariant forall i :: 0 <= i < memoria.Length ==>
          memoria[i] == if d <= i < d + k then W.Octeto(x, i - d) else old(memoria[i])
      {
        memoria[d + k] := W.Octeto(x, k);
      }
    }

    method WriteMem(i: C.Instruccion) returns (fin: Fin)
      modifies this`pc, memoria
      ensures Cerrar(fin, Maquina()) == C.EjecutarWrite(variante, lugar, i, old(Maquina()))
    {
      fin := Sigue;
      if i.r1.Some? && i.r2.Some? {
        var fisica := C.Mmu(variante, lugar, Leer(i.r1.value));
        if fisica == None {
          return Segfault;
        }
        EscribirEnMemoria(fisica.value, Leer(i.r2.value));
      }
      Avanzar(i);
    }

    method ReadMem(i: C.Instruccion) returns (fin: Fin)
      modifies this
      ensures memoria[..] == old(memoria[..])
      ensures Cerrar(fin, Maquina()) == C.EjecutarRead(variante, lugar, i, old(Maquina()))
    {
      fin := Sigue;
      if i.r1.Some? && i.r2.Some? {
        var fisica := C.Mmu(variante, lugar, Leer(i.r2.value));
        if fisica == None {
          return Segfault;
        }
        if fisica.value + 4 >= memoria.Length {
          return Espera;
        }
        Poner(i.r1.value, W.Numero(memoria[..], fisica.value));
      }
      Avanzar(i);
    }

    method Despachar(i: C.Instruccion) returns (fin: Fin)
      modifies this, memoria
      ensures Cerrar(fin, Maquina()) == C.Ejecutar(variante, lugar, i, old(Maquina()))
      ensures fin == Cae ==> Maquina() == old(Maquina())
    {
      fin := Sigue;
      if i.syscall {
        pc := Mod32(pc + 1);
        return Syscall(i);
      }
      match i.op
      case Set => SetRegistro(i); Avanzar(i);
      case Sum => SumRegistro(i); Avanzar(i);
      case Sub => SubRegistro(i); Avanzar(i);
      case Jnz => fin := JnzRegistro(i);
      case Log => if i.r1.None? { fin := Cae; } else { Avanzar(i); }
      case WriteMem => fin := WriteMem(i);
      case ReadMem => fin := ReadMem(i);
      case Desconocida =>
    }

    /** `execute`. */
    method Execute(i: C.Instruccion) returns (fin: Fin)
      requires Valid() && i.n2 < WORD
      modifies this, memoria
      ensures Valid() && Cerrar(fin, Maquina()) == C.Ejecutar(variante, lugar, i, old(Maquina()))
      ensures fin == Cae ==> Maquina() == old(Maquina())
      ensures variante.Reparada? ==> C.SoloDentro(lugar, old(memoria[..]), memoria[..])
    {
      C.EjecutarCabe(variante, lugar, i, Maquina());
      if variante.Reparada? {
        C.EjecutarConfinado(variante, lugar, i, Maquina());
      }
      fin := Despachar(i);
    }

    /** `ciclo_de_instruccion`, for at most `k` turns. */
    method Ciclo(lineas: seq<string>, k: nat) returns (fin: Fin)
      requires Valid()
      modifies this, memoria
      ensures Valid()
      ensures Cerrar(fin, Maquina()) == C.Pasos(variante, lugar, C.DecodificarTodo(variante, lineas), old(Maquina()), k)
      ensures variante.Reparada? ==> C.SoloDentro(lugar, old(memoria[..]), memoria[..])
    {
      ghost var p, m := C.DecodificarTodo(variante, lineas), Maquina();
      fin := Sigue;
      for n := 0 to k
        invariant fin == Sigue && Valid()
        invariant C.Pasos(variante, lugar, p, Maquina(), k - n) == C.Pasos(variante, lugar, p, m, k)
        invariant variante.Reparada? ==> C.SoloDentro(lugar, m.mem, memoria[..])
      {
        if pc >= |lineas| {
          return Espera;
        }
        ghost var antes := Maquina();
        fin := Execute(C.Decodificar(variante, lineas[pc]));
        if fin != Sigue {
          return;
        }
        C.PasosUno(variante, lugar, p, antes, Maquina(), k - n - 1);
      }
    }
  }
}
