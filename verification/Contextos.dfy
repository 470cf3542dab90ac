/** The memory module's execution contexts and program files. */
module Contextos {
  import opened Comun
  import C = Cpu
  import P = Particiones

  datatype Contexto = Contexto(pid: nat, tid: nat, lugar: C.Lugar, regs: C.Registros, pc: nat, archivo: string)

  const EN_CERO := C.Registros(0, 0, 0, 0, 0, 0, 0, 0)

  /** The first context of thread `tid` of process `pid`, from `k` on; the length if none. */
  function Buscar(cs: seq<Contexto>, tid: nat, pid: nat, k: nat): (i: nat)
    requires k <= |cs|
    ensures k <= i <= |cs|
    ensures i < |cs| ==> cs[i].tid == tid && cs[i].pid == pid
    ensures forall j :: k <= j < i ==> !(cs[j].tid == tid && cs[j].pid == pid)
    decreases |cs| - k
  {
    if k == |cs| || (cs[k].tid == tid && cs[k].pid == pid) then k else Buscar(cs, tid, pid, k + 1)
  }

  /** Where a new thread of the process that holds `p` may read and write. */
  function LugarDe(v: Variante, p: P.Part): C.Lugar {
    C.Lugar(p.base, if v.ComoEsta? then p.limite else p.tamanio)
  }

  /** `crear_hilo`; nothing if the process holds no partition, where the module falls over. */
  function Crear(v: Variante, cs: seq<Contexto>, ps: seq<P.Part>, tid: nat, pid: nat,
        archivo: string): Option<seq<Contexto>> {
    var i := P.BuscarPid(ps, pid, 0);
    if i == |ps| then None else Some(cs + [Contexto(pid, tid, LugarDe(v, ps[i]), EN_CERO, 0, archivo)])
  }

  /** `devolver_contexto_ejecucion`; nothing if the thread is unknown, where no answer is sent. */
  function Devolver(cs: seq<Contexto>, tid: nat, pid: nat): Option<Contexto> {
    var i := Buscar(cs, tid, pid, 0);
    if i == |cs| then None else Some(cs[i])
  }

  /** `actualizar_contexto_de_ejecucion`. */
  function Actualizar(cs: seq<Contexto>, tid: nat, pid: nat, regs: C.Registros, pc: nat): seq<Contexto> {
    var i := Buscar(cs, tid, pid, 0);
    if i == |cs| then cs else cs[i := cs[i].(regs := regs, pc := pc)]
  }

  /** `finalizar_hilo`. */
  function Finalizar(cs: seq<Contexto>, tid: nat, pid: nat): seq<Contexto> {
    var i := Buscar(cs, tid, pid, 0);
    if i == |cs| then cs else cs[..i] + cs[i + 1..]
  }

  /** No thread has two contexts. */
  ghost predicate Unicos(cs: seq<Contexto>) {
    forall i, j :: 0 <= i < j < |cs| ==> cs[i].tid != cs[j].tid || cs[i].pid != cs[j].pid
  }

  lemma {:induction false} BuscarEs(cs: seq<Contexto>, i: nat, k: nat)
    requires Unicos(cs) && k <= i < |cs|
    ensures Buscar(cs, cs[i].tid, cs[i].pid, k) == i
    decreases i - k
  {
    if k >= i {
    } else {
      BuscarEs(cs, i, k + 1);
    }
  }

  lemma {:induction false} MismaBusqueda(a: seq<Contexto>, b: seq<Contexto>, tid: nat, pid: nat, k: nat)
    requires |a| == |b| && k <= |a| && forall i :: 0 <= i < |a| ==> a[i].tid == b[i].tid && a[i].pid == b[i].pid
    ensures Buscar(a, tid, pid, k) == Buscar(b, tid, pid, k)
    decreases |a| - k
  {
    if k >= |a| {
    } else {
      MismaBusqueda(a, b, tid, pid, k + 1);
    }
  }

  /** A context saved by the CPU is the one given back to that thread next; every other thread
      gets back what it would have. */
  lemma {:induction false} ActualizarDevuelve(cs: seq<Contexto>, tid: nat, pid: nat, regs: C.Registros, pc: nat,
        tid2: nat, pid2: nat)
    ensures Devolver(Actualizar(cs, tid, pid, regs, pc), tid2, pid2)
         == match Devolver(cs, tid2, pid2)
            case None => None
            case Some(c) => Some(if tid2 == tid && pid2 == pid then c.(regs := regs, pc := pc) else c)
  {
    MismaBusqueda(cs, Actualizar(cs, tid, pid, regs, pc), tid2, pid2, 0);
  }

  lemma {:induction false} SinUnoEs(cs: seq<Contexto>, i: nat, r: seq<Contexto>, j: nat)
    requires i < |cs| && j < |cs| && j != i && r == cs[..i] + cs[i + 1..]
    ensures |r| == |cs| - 1 && r[if j < i then j else j - 1] == cs[j]
  {
  }

  lemma {:induction false} SinUnoUnicos(cs: seq<Contexto>, i: nat, r: seq<Contexto>, a: nat, b: nat)
    requires Unicos(cs) && i < |cs| && r == cs[..i] + cs[i + 1..] && a < b < |r|
    ensures r[a].tid != r[b].tid || r[a].pid != r[b].pid
  {
    var j, k := if a < i then a else a + 1, if b < i then b else b + 1;
    SinUnoEs(cs, i, r, j);
    SinUnoEs(cs, i, r, k);
  }

  lemma {:induction false} FinalizarUnicos(cs: seq<Contexto>, tid: nat, pid: nat)
    requires Unicos(cs)
    ensures Unicos(Finalizar(cs, tid, pid))
    ensures var i, r := Buscar(cs, tid, pid, 0), Finalizar(cs, tid, pid);
      forall j :: 0 <= j < |cs| && i < |cs| && j != i ==> r[if j < i then j else j - 1] == cs[j]
  {
    hide Buscar;
    var i, r := Buscar(cs, tid, pid, 0), Finalizar(cs, tid, pid);
    if i < |cs| {
      forall a, b | 0 <= a < b < |r| ensures r[a].tid != r[b].tid || r[a].pid != r[b].pid {
        SinUnoUnicos(cs, i, r, a, b);
      }
      forall j | 0 <= j < |cs| && j != i ensures r[if j < i then j else j - 1] == cs[j] {
        SinUnoEs(cs, i, r, j);
      }
    }
  }

  /** A thread that ends has no context left, and every other thread keeps its own. */
  lemma {:induction false} FinalizarDevuelve(cs: seq<Contexto>, tid: nat, pid: nat, tid2: nat, pid2: nat)
    requires Unicos(cs)
    ensures Unicos(Finalizar(cs, tid, pid))
    ensures Devolver(Finalizar(cs, tid, pid), tid2, pid2)
         == if tid2 == tid && pid2 == pid then None else Devolver(cs, tid2, pid2)
  {
    var r, i := Finalizar(cs, tid, pid), Buscar(cs, tid, pid, 0);
    var j := Buscar(cs, tid2, pid2, 0);
    FinalizarUnicos(cs, tid, pid);
    if i < |cs| && j < |cs| && i != j {
      BuscarEs(r, if j < i then j else j - 1, 0);
    }
  }

  lemma {:induction false} BuscarEnMas(cs: seq<Contexto>, c: Contexto, tid: nat, pid: nat, k: nat)
    requires k <= |cs|
    ensures var i := Buscar(cs, tid, pid, k);
      Buscar(cs + [c], tid, pid, k) == if i < |cs| || (c.tid == tid && c.pid == pid) then i else |cs| + 1
    decreases |cs| - k
  {
    if k >= |cs| {
    } else {
      BuscarEnMas(cs, c, tid, pid, k + 1);
    }
  }

  /** Creating a thread gives it the place of its process's partition, with its last address for a
      limit as written and its size repaired, and PC and registers at 0; every other thread keeps its
      context. */
  lemma {:induction false} CrearDevuelve(v: Variante, cs: seq<Contexto>, ps: seq<P.Part>, tid: nat, pid: nat,
        archivo: string, tid2: nat, pid2: nat)
    requires P.BuscarPid(ps, pid, 0) < |ps| && Devolver(cs, tid, pid) == None
    ensures var p := ps[P.BuscarPid(ps, pid, 0)];
      var l := C.Lugar(p.base, if v.Reparada? then p.tamanio else p.limite);
      Devolver(Crear(v, cs, ps, tid, pid, archivo).value, tid2, pid2)
         == if tid2 == tid && pid2 == pid
            then Some(Contexto(pid, tid, l, C.Registros(0, 0, 0, 0, 0, 0, 0, 0), 0, archivo))
            else Devolver(cs, tid2, pid2)
  {
    var r := Crear(v, cs, ps, tid, pid, archivo).value;
    BuscarEnMas(cs, r[|cs|], tid2, pid2, 0);
  }

  /** A new thread of a process whose partition has a right limit is confined to it, whatever address it
      asks for, exactly with the repair, or when the partition starts at 0. */
  lemma {:induction false} CrearConfinaSii(v: Variante, cs: seq<Contexto>, ps: seq<P.Part>, tid: nat, pid: nat,
        archivo: string)
    requires P.BuscarPid(ps, pid, 0) < |ps| && Devolver(cs, tid, pid) == None
    requires var p := ps[P.BuscarPid(ps, pid, 0)];
      0 < p.tamanio && p.base + p.tamanio <= 0x8000_0000 && p.limite == P.Limite(p.base, p.tamanio)
    ensures var p := ps[P.BuscarPid(ps, pid, 0)];
      var c := Devolver(Crear(v, cs, ps, tid, pid, archivo).value, tid, pid);
      c.Some? && (C.MmuProtege(v, c.value.lugar, p.base, p.tamanio) <==> v.Reparada? || p.base == 0)
  {
    CrearDevuelve(v, cs, ps, tid, pid, archivo, tid, pid);
    var p := ps[P.BuscarPid(ps, pid, 0)];
    if v.Reparada? {
      forall x | 0 <= x < WORD ensures C.MmuSegura(v, C.Lugar(p.base, p.tamanio), p.base, p.tamanio, x) {
        C.MmuAcepta(v, p.base, p.tamanio, x);
      }
    } else {
      C.MmuComoEstaSii(p.base, p.tamanio);
    }
  }

  // --- Program files ---

  /** The lines of a text from `i` on, `linea` being the start of the first: `getline`, with the
      line break taken off. */
  function Lineas(texto: string, i: nat, linea: string): seq<string>
    requires i <= |texto|
    decreases |texto| - i
  {
    if i == |texto| then (if linea == "" then [] else [linea])
    else if texto[i] == '\n' then [linea] + Lineas(texto, i + 1, "")
    else Lineas(texto, i + 1, linea + [texto[i]])
  }

  /** The text of a program whose last line has no line break. */
  function Texto(ls: seq<string>): string {
    if ls == [] then "" else if |ls| == 1 then ls[0] else ls[0] + "\n" + Texto(ls[1..])
  }

  lemma {:induction false} LineasSaltan(texto: string, i: nat, p: string, linea: string)
    requires i + |p| <= |texto| && texto[i..i + |p|] == p && '\n' !in p
    ensures Lineas(texto, i, linea) == Lineas(texto, i + |p|, linea + p)
    decreases |p|
  {
    if p == "" {
      assert linea + p == linea;
    } else {
      assert texto[i] == p[0] && p[0] in p;
      assert texto[i + 1..i + |p|] == p[1..];
      LineasSaltan(texto, i + 1, p[1..], linea + [p[0]]);
      assert linea + [p[0]] + p[1..] == linea + p;
    }
  }

  /** The first line is read up to where the rest begins. */
  lemma {:induction false} PrimeraLinea(texto: string, i: nat, p: string, resto: string)
    requires i <= |texto| && texto[i..] == p + resto && '\n' !in p
    ensures i + |p| <= |texto| && texto[i + |p|..] == resto
    ensures Lineas(texto, i, "") == Lineas(texto, i + |p|, p)
  {
    Corte(texto, i, p, resto);
    LineasSaltan(texto, i, p, "");
    assert "" + p == p;
  }

  lemma {:induction false} SaltoDeLinea(texto: string, j: nat, resto: string)
    requires j <= |texto| && texto[j..] == "\n" + resto
    ensures j < |texto| && texto[j] == '\n' && texto[j + 1..] == resto
  {
    Corte(texto, j, "\n", resto);
    assert texto[j] == texto[j..j + 1][0];
  }

  /** What follows the first line of a text. */
  function RestoDeTexto(ls: seq<string>): (r: string)
    requires ls != []
    ensures Texto(ls) == ls[0] + r
  {
    if |ls| == 1 then "" else "\n" + Texto(ls[1..])
  }

  /** A program file reads back line by line, blank lines included but for a last one. */
  lemma {:induction false} LineasDeTexto(texto: string, i: nat, ls: seq<string>)
    requires i <= |texto| && texto[i..] == Texto(ls)
    requires (forall k :: 0 <= k < |ls| ==> '\n' !in ls[k]) && (ls != [] ==> ls[|ls| - 1] != "")
    ensures Lineas(texto, i, "") == ls
    decreases |ls|
  {
    if ls == [] {
    } else {
      var p, j := ls[0], i + |ls[0]|;
      PrimeraLinea(texto, i, p, RestoDeTexto(ls));
      if |ls| == 1 {
        assert ls == [p];
      } else {
        SaltoDeLinea(texto, j, Texto(ls[1..]));
        LineasDeTexto(texto, j + 1, ls[1..]);
        assert ls == [p] + ls[1..];
      }
    }
  }

  /** `obtener_instruccion_por_pc`: reads every line, then picks one. */
  method ObtenerInstruccion(texto: string, pc: nat) returns (instruccion: Option<string>)
    ensures instruccion == if pc < |Lineas(texto, 0, "")| then Some(Lineas(texto, 0, "")[pc]) else None
  {
    var lineas, linea, i := [], "", 0;
    while i < |texto|
      invariant i <= |texto|
      invariant lineas + Lineas(texto, i, linea) == Lineas(texto, 0, "")
    {
      if texto[i] == '\n' {
        assert lineas + ([linea] + Lineas(texto, i + 1, "")) == (lineas + [linea]) + Lineas(texto, i + 1, "");
        lineas, linea := lineas + [linea], "";
      } else {
        linea := linea + [texto[i]];
      }
      i := i + 1;
    }
    if linea != "" {
      lineas := lineas + [linea];
    }
    instruccion := if pc < |lineas| then Some(lineas[pc]) else None;
  }

  // --- The list of contexts, in place ---

  class Ejecucion {
    const pid: nat
    const tid: nat
    const lugar: C.Lugar
    const archivo: string
    var regs: C.Registros
    var pc: nat

    ghost function Valor(): Contexto
      reads this
    {
      Contexto(pid, tid, lugar, regs, pc, archivo)
    }

    constructor (pid: nat, tid: nat, lugar: C.Lugar, archivo: string)
      ensures Valor() == Contexto(pid, tid, lugar, EN_CERO, 0, archivo)
    {
      this.pid, this.tid, this.lugar, this.archivo := pid, tid, lugar, archivo;
      regs, pc := EN_CERO, 0;
    }
  }

  ghost function Valores(es: seq<Ejecucion>): (r: seq<Contexto>)
    reads es
    ensures |r| == |es|
    ensures forall i :: 0 <= i < |r| ==> r[i] == es[i].Valor()
  {
    seq(|es|, i requires 0 <= i < |es| reads es => es[i].Valor())
  }

  class Lista {
    const variante: Variante
    var contextos: seq<Ejecucion>

    /** Each record is listed once. */
    ghost predicate Valid()
      reads this
    {
      forall i, j :: 0 <= i < j < |contextos| ==> contextos[i] != contextos[j]
    }

    ghost function Vista(): seq<Contexto>
      reads this, contextos
    {
      Valores(contextos)
    }

    constructor (variante: Variante)
      ensures Valid() && Vista() == [] && this.variante == variante
    {
      this.variante := variante;
      contextos := [];
    }

    /** `buscar_contexto_por_tid`. */
    method BuscarPorTid(tid: nat, pid: nat) returns (i: nat)
      ensures i == Buscar(Vista(), tid, pid, 0)
    {
      i := 0;
      while i < |contextos|
        invariant i <= |contextos| && Buscar(Vista(), tid, pid, 0) == Buscar(Vista(), tid, pid, i)
      {
        if contextos[i].tid == tid && contextos[i].pid == pid {
          return;
        }
        i := i + 1;
      }
    }

    method CrearHilo(ps: seq<P.Part>, tid: nat, pid: nat, archivo: string)
      requires Valid() && P.BuscarPid(ps, pid, 0) < |ps|
      modifies this
      ensures Valid() && Some(Vista()) == Crear(variante, old(Vista()), ps, tid, pid, archivo)
    {
      var nuevo := new Ejecucion(pid, tid, LugarDe(variante, ps[P.BuscarPid(ps, pid, 0)]), archivo);
      assert Valores(old(contextos)) == old(Vista());
      contextos := contextos + [nuevo];
      assert Vista() == Valores(old(contextos)) + [nuevo.Valor()];
    }

    /** Whether the context was found, which is when the CPU gets an answer. */
    method ActualizarContexto(tid: nat, pid: nat, regs: C.Registros, pc: nat) returns (hay: bool)
      requires Valid()
      modifies contextos
      ensures Valid() && hay == (Buscar(old(Vista()), tid, pid, 0) < |contextos|)
      ensures Vista() == Actualizar(old(Vista()), tid, pid, regs, pc)
    {
      var i := BuscarPorTid(tid, pid);
      hay := i < |contextos|;
      if hay {
        contextos[i].regs, contextos[i].pc := regs, pc;
      }
    }

    method FinalizarHilo(tid: nat, pid: nat)
      requires Valid()
      modifies this
      ensures Valid() && Vista() == Finalizar(old(Vista()), tid, pid)
    {
      var i := BuscarPorTid(tid, pid);
      if i < |contextos| {
        contextos := contextos[..i] + contextos[i + 1..];
        assert Vista() == old(Vista())[..i] + old(Vista())[i + 1..];
      }
    }
  }
}
