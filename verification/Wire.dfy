/** The wire format: byte buffers with a moving cursor, the messages the modules exchange,
    and packet framing. */
module Wire {
  import opened Comun

  // --- Integers and strings as bytes ---

  /** One more than the largest `size_t`. */
  const LARGO: nat := 0x1_0000_0000_0000_0000

  /** Byte `i` of `x`, the lowest first. */
  function Octeto(x: nat, i: nat): Byte {
    if i == 0 then x % 0x100 else Octeto(x / 0x100, i - 1)
  }

  /** A `uint32_t` as its four bytes, least significant first. */
  function Cuatro(x: nat): (bs: seq<Byte>)
    requires x < WORD
    ensures |bs| == 4
  {
    seq(4, i requires 0 <= i < 4 => Octeto(x, i))
  }

  /** The number held by the four bytes at `o`. */
  function Numero(bs: seq<Byte>, o: nat): (x: nat)
    requires o + 4 <= |bs|
    ensures x < WORD
  {
    var a: int, b: int, c: int, d: int := bs[o], bs[o + 1], bs[o + 2], bs[o + 3];
    a + 0x100 * b + 0x1_0000 * c + 0x100_0000 * d
  }

  /** A `size_t` as its eight bytes. */
  function Ocho(x: nat): (bs: seq<Byte>)
    requires x < LARGO
    ensures |bs| == 8
  {
    Cuatro(x % 0x1_0000_0000) + Cuatro(x / 0x1_0000_0000)
  }

  function NumeroLargo(bs: seq<Byte>, o: nat): nat
    requires o + 8 <= |bs|
  {
    Numero(bs, o) + 0x1_0000_0000 * Numero(bs, o + 4)
  }

  /** `parte` is found in `bs` at `o`. */
  ghost predicate En(bs: seq<Byte>, o: nat, parte: seq<Byte>) {
    && o + |parte| <= |bs|
    && forall k :: 0 <= k < |parte| ==> bs[o + k] == parte[k]
  }

  /** Two pieces in a row, each in its place. */
  lemma {:induction false} Partir(bs: seq<Byte>, o: nat, a: seq<Byte>, b: seq<Byte>)
    requires En(bs, o, a + b)
    ensures En(bs, o, a) && En(bs, o + |a|, b)
  {
    forall k | 0 <= k < |a| ensures bs[o + k] == a[k] {
      assert (a + b)[k] == a[k];
    }
    forall k | 0 <= k < |b| ensures bs[o + |a| + k] == b[k] {
      assert (a + b)[|a| + k] == b[k];
    }
  }

  lemma {:induction false} SumaDeOctetos(x: nat)
    requires x < WORD
    ensures var a: int, b: int, c: int, d: int := Octeto(x, 0), Octeto(x, 1), Octeto(x, 2), Octeto(x, 3);
      a + 0x100 * b + 0x1_0000 * c + 0x100_0000 * d == x
  {
    var y := x / 0x100;
    var z := y / 0x100;
    assert Octeto(x, 3) == Octeto(y, 2) == Octeto(z, 1) == Octeto(z / 0x100, 0);
    assert Octeto(x, 2) == Octeto(y, 1) == Octeto(z, 0);
  }

  lemma {:induction false} NumeroEn(bs: seq<Byte>, o: nat, x: nat)
    requires x < WORD && En(bs, o, Cuatro(x))
    ensures Numero(bs, o) == x
  {
    var c := Cuatro(x);
    assert c[0] == bs[o + 0] && c[1] == bs[o + 1] && c[2] == bs[o + 2] && c[3] == bs[o + 3];
    SumaDeOctetos(x);
  }

  /** The bytes of a number that was read are the ones it was read from. */
  lemma {:induction false} CuatroDe(bs: seq<Byte>, o: nat)
    requires o + 4 <= |bs|
    ensures Cuatro(Numero(bs, o)) == bs[o..o + 4]
  {
    var a: int, b: int, c: int, d: int := bs[o], bs[o + 1], bs[o + 2], bs[o + 3];
    var x := Numero(bs, o);
    var y := x / 0x100;
    var z := y / 0x100;
    assert y == b + 0x100 * c + 0x1_0000 * d && z == c + 0x100 * d && z / 0x100 == d;
    assert Octeto(x, 0) == a && Octeto(x, 1) == Octeto(y, 0) == b;
    assert Octeto(x, 2) == Octeto(y, 1) == Octeto(z, 0) == c;
    assert Octeto(x, 3) == Octeto(y, 2) == Octeto(z, 1) == Octeto(z / 0x100, 0) == d;
  }

  lemma {:induction false} NumeroLargoEn(bs: seq<Byte>, o: nat, x: nat)
    requires x < LARGO && En(bs, o, Ocho(x))
    ensures NumeroLargo(bs, o) == x
  {
    Partir(bs, o, Cuatro(x % 0x1_0000_0000), Cuatro(x / 0x1_0000_0000));
    NumeroEn(bs, o, x % 0x1_0000_0000);
    NumeroEn(bs, o + 4, x / 0x1_0000_0000);
  }

  predicate EsInt(x: int) {
    -0x8000_0000 <= x < 0x8000_0000
  }

  function DeBits(n: nat): int {
    if n >= 0x8000_0000 then n - WORD else n
  }

  /** A signed 32-bit integer as its bit pattern, and back. */
  function ABits(x: int): (n: nat)
    requires EsInt(x)
    ensures n < WORD && DeBits(n) == x
  {
    if x < 0 then x + WORD else x
  }

  /** The C string in the `n` bytes at `o`: what precedes the first NUL. */
  function Cadena(bs: seq<Byte>, o: nat, n: nat): seq<Byte>
    requires o + n <= |bs|
    decreases n
  {
    if n == 0 || bs[o] == 0 then [] else [bs[o]] + Cadena(bs, o + 1, n - 1)
  }

  lemma {:induction false} CadenaEn(bs: seq<Byte>, o: nat, s: seq<Byte>)
    requires 0 !in s && En(bs, o, s + [0])
    ensures Cadena(bs, o, |s| + 1) == s
    decreases s
  {
    assert bs[o + 0] == (s + [0])[0];
    if s == [] {
    } else {
      forall k | 0 <= k < |s| ensures bs[o + 1 + k] == (s[1..] + [0])[k] {
        assert (s + [0])[1 + k] == (s[1..] + [0])[k];
      }
      CadenaEn(bs, o + 1, s[1..]);
    }
  }

  // --- Fields ---

  ghost predicate Validos(cs: seq<Campo>) {
    forall i :: 0 <= i < |cs| ==> cs[i].Valido()
  }

  /** The fields each serializer writes, in its order. */
  function Campos(m: Mensaje): seq<Campo> {
    match m
    case ProcessCreate(pid, tid, archivo, tam, prioridad) => [U32(pid), U32(tid), Texto(archivo), U32(tam),
        U32(prioridad)]
    case ThreadCreate(pid, tid, archivo, prioridad) => [U32(pid), U32(tid), TextoLargo(archivo), U32(prioridad)]
    case Mutex(pid, tid, recurso) => [U32(pid), U32(tid), Texto(recurso)]
    case JoinCancel(pid, tid, otro) => [U32(pid), U32(tid), U32(otro)]
    case IO(pid, tid, tiempo) => [U32(pid), U32(tid), Ent(tiempo)]
    case DatosEsenciales(pid, tid) => [U32(pid), U32(tid)]
    case Contexto(tid, pc, base, limite, pid, registros) =>
      [U32(tid), U32(pc), U32(base), U32(limite), U32(pid)]
      + seq(|registros|, i requires 0 <= i < |registros| => U32(registros[i]))
    case ObtenerInstruccion(pc, tid, pid) => [U32(pc), U32(tid), U32(pid)]
    case EnviarInstruccion(instruccion) => [Texto(instruccion)]
    case WriteMem(dirFis, valor, pid, tid) => [U32(dirFis), U32(valor), U32(pid), U32(tid)]
    case ReadMem(dirFis, pid, tid) => [U32(dirFis), U32(pid), U32(tid)]
    case HiloReady(pid, tid, nivel, path) => [U32(pid), U32(tid), Ent(nivel), TextoLargo(path)]
    case AsignarMemoria(pid, tam) => [U32(pid), Ent(tam)]
    case ProcesoMemoria(pid, bit) => [U32(pid), U32(bit)]
    case HiloMemoria(pid, tid, bit) => [U32(pid), U32(tid), U32(bit)]
  }

  ghost predicate Valido(m: Mensaje) {
    Validos(Campos(m)) && (m.Contexto? ==> |m.registros| == 8)
  }

  /** What a message is made of: `uint32_t`, `int`, a string behind a 32-bit length, or one
      behind a `size_t` length. The lengths count the terminating NUL. */
  datatype Campo = U32(n: nat) | Ent(x: int) | Texto(s: seq<Byte>) | TextoLargo(s: seq<Byte>) {
    predicate Valido() {
      match this
      case U32(n) => n < WORD
      case Ent(x) => EsInt(x)
      case Texto(s) => 0 !in s && |s| + 1 < WORD
      case TextoLargo(s) => 0 !in s && |s| + 1 < LARGO
    }

    function De(): Tipo {
      match this
      case U32(_) => TU32
      case Ent(_) => TEnt
      case Texto(_) => TTexto
      case TextoLargo(_) => TTextoLargo
    }
  }

  datatype Tipo = TU32 | TEnt | TTexto | TTextoLargo

  function Codificar(c: Campo): seq<Byte>
    requires c.Valido()
  {
    match c
    case U32(n) => Cuatro(n)
    case Ent(x) => Cuatro(ABits(x))
    case Texto(s) => Cuatro(|s| + 1) + (s + [0])
    case TextoLargo(s) => Ocho(|s| + 1) + (s + [0])
  }

  function LeerTexto(bs: seq<Byte>, o: nat, n: nat): (r: Option<(Campo, nat)>)
    ensures r.Some? ==> o <= r.value.1 <= |bs| && r.value.0.Texto?
  {
    if o + n > |bs| then None else Some((Texto(Cadena(bs, o, n)), o + n))
  }

  /** Reads a field of type `t` at `offset`; nothing if it would run past the end. */
  function Leer(t: Tipo, bs: seq<Byte>, offset: nat): (r: Option<(Campo, nat)>)
    ensures r.Some? ==> offset <= r.value.1 <= |bs|
  {
    if offset + (if t.TTextoLargo? then 8 else 4) > |bs| then None
    else
      match t
      case TU32 => Some((U32(Numero(bs, offset)), offset + 4))
      case TEnt => Some((Ent(DeBits(Numero(bs, offset))), offset + 4))
      case TTexto => LeerTexto(bs, offset + 4, Numero(bs, offset))
      case TTextoLargo =>
        match LeerTexto(bs, offset + 8, NumeroLargo(bs, offset))
        case None => None
        case Some((c, o)) => Some((TextoLargo(c.s), o))
  }

  /** A field is read exactly if it is all there, its length and the bytes that the length counts. */
  lemma {:induction false} LeerSii(t: Tipo, bs: seq<Byte>, offset: nat)
    ensures Leer(t, bs, offset).Some? <==>
            match t
            case TTexto => offset + 4 <= |bs| && offset + 4 + Numero(bs, offset) <= |bs|
            case TTextoLargo => offset + 8 <= |bs| && offset + 8 + NumeroLargo(bs, offset) <= |bs|
            case _ => offset + 4 <= |bs|
  {
  }

  function Partes(cs: seq<Campo>): (partes: seq<seq<Byte>>)
    requires Validos(cs)
    ensures |partes| == |cs| && forall i :: 0 <= i < |cs| ==> partes[i] == Codificar(cs[i])
  {
    if cs == [] then [] else Partes(cs[..|cs| - 1]) + [Codificar(cs[|cs| - 1])]
  }

  function Concatenar<T>(partes: seq<seq<T>>): seq<T> {
    if partes == [] then [] else Concatenar(partes[..|partes| - 1]) + partes[|partes| - 1]
  }

  function CodificarTodos(cs: seq<Campo>): seq<Byte>
    requires Validos(cs)
  {
    Concatenar(Partes(cs))
  }

  lemma {:induction false} CodificarMas(cs: seq<Campo>, i: nat)
    requires Validos(cs) && i < |cs|
    ensures CodificarTodos(cs[..i + 1]) == CodificarTodos(cs[..i]) + Codificar(cs[i])
  {
    assert cs[..i + 1][..i] == cs[..i];
    assert Partes(cs[..i + 1])[..i] == Partes(cs[..i]);
  }

  /** Reads fields one after another, each from where the previous one left the cursor. */
  function LeerTodos(ts: seq<Tipo>, bs: seq<Byte>, offset: nat): Option<(seq<Campo>, nat)> {
    if ts == [] then Some(([], offset))
    else
      var m := |ts| - 1;
      match LeerTodos(ts[..m], bs, offset)
      case None => None
      case Some((cs, o)) =>
        match Leer(ts[m], bs, o)
        case None => None
        case Some((c, o')) => Some((cs + [c], o'))
  }

  function Tipos(cs: seq<Campo>): seq<Tipo> {
    seq(|cs|, i requires 0 <= i < |cs| => cs[i].De())
  }

  /** A field written anywhere in a buffer is read back from its own place, and the cursor
      moves just past it. */
  lemma {:induction false} LeerCodificado(bs: seq<Byte>, o: nat, c: Campo)
    requires c.Valido() && En(bs, o, Codificar(c))
    ensures Leer(c.De(), bs, o) == Some((c, o + |Codificar(c)|))
  {
    match c
    case U32(n) => NumeroEn(bs, o, n);
    case Ent(x) => NumeroEn(bs, o, ABits(x));
    case Texto(s) =>
      Partir(bs, o, Cuatro(|s| + 1), s + [0]);
      NumeroEn(bs, o, |s| + 1);
      CadenaEn(bs, o + 4, s);
    case TextoLargo(s) =>
      Partir(bs, o, Ocho(|s| + 1), s + [0]);
      NumeroLargoEn(bs, o, |s| + 1);
      CadenaEn(bs, o + 8, s);
  }

  /** Reading `c` wherever `parte` is found gives `c` and moves past it. */
  ghost predicate SeLeeComo(bs: seq<Byte>, c: Campo, parte: seq<Byte>) {
    forall o: nat :: En(bs, o, parte) ==> Leer(c.De(), bs, o) == Some((c, o + |parte|))
  }

  lemma {:induction false} CampoSeLee(bs: seq<Byte>, c: Campo)
    requires c.Valido()
    ensures SeLeeComo(bs, c, Codificar(c))
  {
    var parte := Codificar(c);
    forall o: nat | En(bs, o, parte) {
      LeerCodificado(bs, o, c);
    }
  }

  lemma {:induction false} ParteSeLee(bs: seq<Byte>, cs: seq<Campo>, i: nat)
    requires Validos(cs) && i < |cs|
    ensures SeLeeComo(bs, cs[i], Partes(cs)[i])
  {
    CampoSeLee(bs, cs[i]);
  }

  lemma {:induction false} LeerPaso(ts: seq<Tipo>, bs: seq<Byte>, o: nat, cs: seq<Campo>, o1: nat, c: Campo, o2: nat)
    requires ts != [] && LeerTodos(ts[..|ts| - 1], bs, o) == Some((cs, o1))
    requires Leer(ts[|ts| - 1], bs, o1) == Some((c, o2))
    ensures LeerTodos(ts, bs, o) == Some((cs + [c], o2))
  {
  }

  lemma {:induction false} SeLeeEn(bs: seq<Byte>, c: Campo, parte: seq<Byte>, o: nat)
    requires SeLeeComo(bs, c, parte) && En(bs, o, parte)
    ensures Leer(c.De(), bs, o) == Some((c, o + |parte|))
  {
  }

  /** Reading from `o` gives the fields `cs`, and ends at `fin`. */
  ghost predicate LeeDesde(bs: seq<Byte>, o: nat, cs: seq<Campo>, fin: nat) {
    LeerTodos(Tipos(cs), bs, o) == Some((cs, fin))
  }

  lemma {:induction false} LeerUnaMas(bs: seq<Byte>, o: nat, cs: seq<Campo>, o1: nat, c: Campo, parte: seq<Byte>)
    requires LeeDesde(bs, o, cs, o1)
    requires SeLeeComo(bs, c, parte) && En(bs, o1, parte)
    ensures LeeDesde(bs, o, cs + [c], o1 + |parte|)
  {
    SeLeeEn(bs, c, parte, o1);
    var ts := Tipos(cs + [c]);
    assert ts[..|cs|] == Tipos(cs) && ts[|cs|] == c.De();
    LeerPaso(ts, bs, o, cs, o1, c, o1 + |parte|);
  }

  ghost predicate SeLeen(bs: seq<Byte>, cs: seq<Campo>, partes: seq<seq<Byte>>) {
    |partes| == |cs| && forall i :: 0 <= i < |cs| ==> SeLeeComo(bs, cs[i], partes[i])
  }

  lemma {:induction false} SinLaUltima(bs: seq<Byte>, o: nat, cs: seq<Campo>, partes: seq<seq<Byte>>)
    returns (antes: seq<Campo>, c: Campo, previas: seq<seq<Byte>>, parte: seq<Byte>, fin: nat)
    requires cs != [] && SeLeen(bs, cs, partes) && En(bs, o, Concatenar(partes))
    ensures cs == antes + [c] && |antes| < |cs|
    ensures SeLeen(bs, antes, previas) && SeLeeComo(bs, c, parte)
    ensures En(bs, o, Concatenar(previas)) && fin == o + |Concatenar(previas)| && En(bs, fin, parte)
    ensures |Concatenar(partes)| == |Concatenar(previas)| + |parte|
  {
    var m := |cs| - 1;
    antes, c, previas, parte := cs[..m], cs[m], partes[..m], partes[m];
    fin := o + |Concatenar(previas)|;
    Partir(bs, o, Concatenar(previas), parte);
    forall i | 0 <= i < m ensures SeLeeComo(bs, antes[i], previas[i]) {
      assert SeLeeComo(bs, cs[i], partes[i]);
    }
  }

  lemma {:induction false} LeerParte(bs: seq<Byte>, o: nat, cs: seq<Campo>, antes: seq<Campo>, medio: nat, c: Campo,
        parte: seq<Byte>)
    requires cs == antes + [c] && LeeDesde(bs, o, antes, medio)
    requires SeLeeComo(bs, c, parte) && En(bs, medio, parte)
    ensures LeeDesde(bs, o, cs, medio + |parte|)
  {
    LeerUnaMas(bs, o, antes, medio, c, parte);
  }

  lemma {:induction false} LeerPartes(bs: seq<Byte>, o: nat, cs: seq<Campo>, partes: seq<seq<Byte>>, fin: nat)
    requires SeLeen(bs, cs, partes) && En(bs, o, Concatenar(partes)) && fin == o + |Concatenar(partes)|
    ensures LeeDesde(bs, o, cs, fin)
    decreases |cs|
  {
    if cs == [] {
    } else {
      var antes, c, previas, parte, medio := SinLaUltima(bs, o, cs, partes);
      LeerPartes(bs, o, antes, previas, medio);
      LeerParte(bs, o, cs, antes, medio, c, parte);
    }
  }

  /** The cursor lemma: fields written in order are read back in order, wherever they are in
      the buffer and whatever surrounds them. */
  lemma {:induction false} LeerTodosCodificados(bs: seq<Byte>, o: nat, cs: seq<Campo>)
    requires Validos(cs) && En(bs, o, CodificarTodos(cs))
    ensures LeerTodos(Tipos(cs), bs, o) == Some((cs, o + |CodificarTodos(cs)|))
  {
    var partes := Partes(cs);
    forall i | 0 <= i < |cs| ensures SeLeeComo(bs, cs[i], partes[i]) {
      ParteSeLee(bs, cs, i);
    }
    LeerPartes(bs, o, cs, partes, o + |Concatenar(partes)|);
  }

  // --- Messages ---

  datatype Mensaje =
    | ProcessCreate(pid: nat, tid: nat, archivo: seq<Byte>, tamProceso: nat, prioridad: nat)
    | ThreadCreate(pid: nat, tid: nat, archivo: seq<Byte>, prioridad: nat)
    | Mutex(pid: nat, tid: nat, recurso: seq<Byte>)
    | JoinCancel(pid: nat, tid: nat, otro: nat)
    | IO(pid: nat, tid: nat, tiempo: int)
    | DatosEsenciales(pid: nat, tid: nat)
    | Contexto(tid: nat, pc: nat, base: nat, limite: nat, pid: nat, registros: seq<nat>)
    | ObtenerInstruccion(pc: nat, tid: nat, pid: nat)
    | EnviarInstruccion(instruccion: seq<Byte>)
    | WriteMem(dirFis: nat, valor: nat, pid: nat, tid: nat)
    | ReadMem(dirFis: nat, pid: nat, tid: nat)
    | HiloReady(pid: nat, tid: nat, nivel: int, path: seq<Byte>)
    | AsignarMemoria(pid: nat, tam: int)
    | ProcesoMemoria(pid: nat, bit: nat)
    | HiloMemoria(pid: nat, tid: nat, bit: nat)

  datatype Clase = CProcessCreate | CThreadCreate | CMutex | CJoinCancel | CIO | CDatosEsenciales | CContexto
    | CObtenerInstruccion | CEnviarInstruccion | CWriteMem | CReadMem | CHiloReady | CAsignarMemoria
    | CProcesoMemoria | CHiloMemoria

  function ClaseDe(m: Mensaje): Clase {
    match m
    case ProcessCreate(_, _, _, _, _) => CProcessCreate
    case ThreadCreate(_, _, _, _) => CThreadCreate
    case Mutex(_, _, _) => CMutex
    case JoinCancel(_, _, _) => CJoinCancel
    case IO(_, _, _) => CIO
    case DatosEsenciales(_, _) => CDatosEsenciales
    case Contexto(_, _, _, _, _, _) => CContexto
    case ObtenerInstruccion(_, _, _) => CObtenerInstruccion
    case EnviarInstruccion(_) => CEnviarInstruccion
    case WriteMem(_, _, _, _) => CWriteMem
    case ReadMem(_, _, _) => CReadMem
    case HiloReady(_, _, _, _) => CHiloReady
    case AsignarMemoria(_, _) => CAsignarMemoria
    case ProcesoMemoria(_, _) => CProcesoMemoria
    case HiloMemoria(_, _, _) => CHiloMemoria
  }

  /** The fields each deserializer reads, in its order. */
  function Esperados(k: Clase): seq<Tipo> {
    match k
    case CProcessCreate => [TU32, TU32, TTexto, TU32, TU32]
    case CThreadCreate => [TU32, TU32, TTextoLargo, TU32]
    case CMutex => [TU32, TU32, TTexto]
    case CJoinCancel => [TU32, TU32, TU32]
    case CIO => [TU32, TU32, TEnt]
    case CDatosEsenciales => [TU32, TU32]
    case CContexto => [TU32, TU32, TU32, TU32, TU32, TU32, TU32, TU32, TU32, TU32, TU32, TU32, TU32]
    case CObtenerInstruccion => [TU32, TU32, TU32]
    case CEnviarInstruccion => [TTexto]
    case CWriteMem => [TU32, TU32, TU32, TU32]
    case CReadMem => [TU32, TU32, TU32]
    case CHiloReady => [TU32, TU32, TEnt, TTextoLargo]
    case CAsignarMemoria => [TU32, TEnt]
    case CProcesoMemoria => [TU32, TU32]
    case CHiloMemoria => [TU32, TU32, TU32]
  }

  /** Where each deserializer puts the fields it has read. */
  function Armar(k: Clase, c: seq<Campo>): Mensaje
    requires Tipos(c) == Esperados(k)
  {
    assert forall i :: 0 <= i < |c| ==> c[i].De() == Tipos(c)[i];
    match k
    case CProcessCreate => ProcessCreate(c[0].n, c[1].n, c[2].s, c[3].n, c[4].n)
    case CThreadCreate => ThreadCreate(c[0].n, c[1].n, c[2].s, c[3].n)
    case CMutex => Mutex(c[0].n, c[1].n, c[2].s)
    case CJoinCancel => JoinCancel(c[0].n, c[1].n, c[2].n)
    case CIO => IO(c[0].n, c[1].n, c[2].x)
    case CDatosEsenciales => DatosEsenciales(c[0].n, c[1].n)
    case CContexto =>
      Contexto(c[0].n, c[1].n, c[2].n, c[3].n, c[4].n,
               [c[5].n, c[6].n, c[7].n, c[8].n, c[9].n, c[10].n, c[11].n, c[12].n])
    case CObtenerInstruccion => ObtenerInstruccion(c[0].n, c[1].n, c[2].n)
    case CEnviarInstruccion => EnviarInstruccion(c[0].s)
    case CWriteMem => WriteMem(c[0].n, c[1].n, c[2].n, c[3].n)
    case CReadMem => ReadMem(c[0].n, c[1].n, c[2].n)
    case CHiloReady => HiloReady(c[0].n, c[1].n, c[2].x, c[3].s)
    case CAsignarMemoria => AsignarMemoria(c[0].n, c[1].x)
    case CProcesoMemoria => ProcesoMemoria(c[0].n, c[1].n)
    case CHiloMemoria => HiloMemoria(c[0].n, c[1].n, c[2].n)
  }

  function Serializar(m: Mensaje): seq<Byte>
    requires Valido(m)
  {
    CodificarTodos(Campos(m))
  }

  lemma {:induction false} TiposLeidos(ts: seq<Tipo>, bs: seq<Byte>, offset: nat)
    ensures var r := LeerTodos(ts, bs, offset); r.Some? ==> Tipos(r.value.0) == ts
  {
    if ts == [] {
    } else {
      TiposLeidos(ts[..|ts| - 1], bs, offset);
    }
  }

  function Deserializar(k: Clase, bs: seq<Byte>): Option<Mensaje> {
    match LeerTodos(Esperados(k), bs, 0)
    case None => None
    case Some((cs, _)) => TiposLeidos(Esperados(k), bs, 0); Some(Armar(k, cs))
  }

  /** Each deserializer expects the fields its serializer writes, and puts each in its place. */
  lemma {:induction false} SeCorresponden(m: Mensaje)
    requires Valido(m)
    ensures Tipos(Campos(m)) == Esperados(ClaseDe(m))
    ensures Armar(ClaseDe(m), Campos(m)) == m
  {
    match m
    case Contexto(_, _, _, _, _, r) =>
      assert r == [r[0], r[1], r[2], r[3], r[4], r[5], r[6], r[7]];
    case _ =>
  }

  /** Every message arrives as it was sent, for all field values, whatever follows it. */
  lemma {:induction false} IdaYVuelta(m: Mensaje, cola: seq<Byte>)
    requires Valido(m)
    ensures Deserializar(ClaseDe(m), Serializar(m) + cola) == Some(m)
  {
    LeerTodosCodificados(Serializar(m) + cola, 0, Campos(m));
    SeCorresponden(m);
  }

  // --- Two messages whose ends do not agree ---

  /** `serializar_finalizar_hilo` writes the pid twice; its reader takes the second for the
      tid. The thread named arrives exactly when the two are equal. */
  lemma {:induction false} FinalizarHiloSii(pid: nat, tid: nat)
    requires pid < WORD && tid < WORD
    ensures Deserializar(CDatosEsenciales, CodificarTodos([U32(pid), U32(pid)])) == Some(DatosEsenciales(pid, tid))
       <==> pid == tid
  {
    IdaYVuelta(DatosEsenciales(pid, pid), []);
    assert Serializar(DatosEsenciales(pid, pid)) + [] == CodificarTodos([U32(pid), U32(pid)]);
  }

  lemma {:induction false} PrimerTexto(bs: seq<Byte>, n: nat)
    requires n < WORD && |bs| >= 4 + n && En(bs, 0, Cuatro(n))
    ensures Leer(TTexto, bs, 0) == Some((Texto(Cadena(bs, 4, n)), 4 + n))
  {
    NumeroEn(bs, 0, n);
  }

  lemma {:induction false} NadaMas(bs: seq<Byte>, a: Campo, o: nat, b: Campo)
    requires Leer(TTexto, bs, 0) == Some((a, o)) && Leer(TTexto, bs, o) == Some((b, |bs|))
    ensures LeerTodos([TTexto, TTexto, TU32], bs, 0) == None
  {
    assert [TTexto][..0] == [] && [TTexto, TTexto][..1] == [TTexto];
    LeerPaso([TTexto], bs, 0, [], 0, a, o);
    assert [] + [a] == [a];
    LeerPaso([TTexto, TTexto], bs, 0, [a], o, b, |bs|);
    assert [TTexto, TTexto, TU32][..2] == [TTexto, TTexto];
  }

  lemma {:induction false} DumpEn(bs: seq<Byte>, n: nat, nombre: seq<Byte>)
    requires n < WORD && Texto(nombre).Valido() && |bs| == 4 + n + |Codificar(Texto(nombre))|
    requires En(bs, 0, Cuatro(n)) && En(bs, 4 + n, Codificar(Texto(nombre)))
    ensures LeerTodos([TTexto, TTexto, TU32], bs, 0) == None
  {
    hide LeerTodos;
    PrimerTexto(bs, n);
    LeerCodificado(bs, 4 + n, Texto(nombre));
    NadaMas(bs, Texto(Cadena(bs, 4, n)), 4 + n, Texto(nombre));
  }

  /** `serializar_enviar_DUMP_MEMORY` sends the contents behind their length, then the name;
      `deserializar_crear_archivo_memoria` goes on to read a size, for which there is nothing
      left. No dump is ever received whole. */
  lemma {:induction false} DumpSinTamanio(datos: seq<Byte>, nombre: seq<Byte>)
    requires |datos| < WORD && Texto(nombre).Valido()
    ensures LeerTodos([TTexto, TTexto, TU32], Cuatro(|datos|) + datos + Codificar(Texto(nombre)), 0) == None
  {
    var bs := Cuatro(|datos|) + datos + Codificar(Texto(nombre));
    Partir(bs, 0, Cuatro(|datos|) + datos, Codificar(Texto(nombre)));
    Partir(bs, 0, Cuatro(|datos|), datos);
    DumpEn(bs, |datos|, nombre);
  }

  // --- The buffer ---

  lemma {:induction false} LeerUno(ts: seq<Tipo>, bs: seq<Byte>, o: nat, i: nat, cs: seq<Campo>, o1: nat)
    requires i < |ts| && LeerTodos(ts[..i], bs, o) == Some((cs, o1))
    ensures LeerTodos(ts[..i + 1], bs, o)
         == match Leer(ts[i], bs, o1) case None => None case Some((c, o2)) => Some((cs + [c], o2))
  {
    assert ts[..i + 1][..i] == ts[..i];
  }

  lemma {:induction false} NoSigue(ts: seq<Tipo>, bs: seq<Byte>, o: nat, i: nat)
    requires i <= |ts| && LeerTodos(ts[..i], bs, o) == None
    ensures LeerTodos(ts, bs, o) == None
  {
    if i < |ts| {
      var m := |ts| - 1;
      assert ts[..m][..i] == ts[..i];
      NoSigue(ts[..m], bs, o, i);
    } else {
      assert ts[..i] == ts;
    }
  }

  /** `t_buffer`: bytes and a cursor, which writers leave at the end and readers advance. */
  class Buffer {
    var stream: seq<Byte>
    var offset: nat

    constructor ()
      ensures stream == [] && offset == 0
    {
      stream, offset := [], 0;
    }

    method AgregarUint32(n: nat)
      requires n < WORD && offset == |stream|
      modifies this
      ensures stream == old(stream) + Codificar(U32(n)) && offset == |stream|
    {
      stream := stream + Cuatro(n);
      offset := offset + 4;
    }

    method AgregarInt(x: int)
      requires EsInt(x) && offset == |stream|
      modifies this
      ensures stream == old(stream) + Codificar(Ent(x)) && offset == |stream|
    {
      stream := stream + Cuatro(ABits(x));
      offset := offset + 4;
    }

    method AgregarString(s: seq<Byte>)
      requires Texto(s).Valido() && offset == |stream|
      modifies this
      ensures stream == old(stream) + Codificar(Texto(s)) && offset == |stream|
    {
      AgregarUint32(|s| + 1);
      stream := stream + s + [0];
      offset := offset + |s| + 1;
    }

    method AgregarStringLargo(s: seq<Byte>)
      requires TextoLargo(s).Valido() && offset == |stream|
      modifies this
      ensures stream == old(stream) + Codificar(TextoLargo(s)) && offset == |stream|
    {
      stream := stream + Ocho(|s| + 1) + s + [0];
      offset := offset + 8 + |s| + 1;
    }

    method Agregar(c: Campo)
      requires c.Valido() && offset == |stream|
      modifies this
      ensures stream == old(stream) + Codificar(c) && offset == |stream|
    {
      match c
      case U32(n) => AgregarUint32(n);
      case Ent(x) => AgregarInt(x);
      case Texto(s) => AgregarString(s);
      case TextoLargo(s) => AgregarStringLargo(s);
    }

    method AgregarTodos(cs: seq<Campo>)
      requires Validos(cs) && offset == |stream|
      modifies this
      ensures stream == old(stream) + CodificarTodos(cs) && offset == |stream|
    {
      ghost var antes := stream;
      for i := 0 to |cs|
        invariant offset == |stream| && stream == antes + CodificarTodos(cs[..i])
      {
        CodificarMas(cs, i);
        Agregar(cs[i]);
        assert stream == antes + (CodificarTodos(cs[..i]) + Codificar(cs[i]));
      }
      assert cs[..|cs|] == cs;
    }

    /** A serializer: appends the fields of `m` one after another. */
    method SerializarMensaje(m: Mensaje)
      requires Valido(m) && offset == |stream|
      modifies this
      ensures stream == old(stream) + Serializar(m) && offset == |stream|
    {
      AgregarTodos(Campos(m));
    }

    /** Reads one field at the cursor; the cursor stays if there is not enough left. */
    method LeerCampo(t: Tipo) returns (c: Option<Campo>)
      modifies this`offset
      ensures match Leer(t, stream, old(offset))
        case None => c == None && offset == old(offset)
        case Some((x, o)) => c == Some(x) && offset == o
    {
      match Leer(t, stream, offset)
      case None => c := None;
      case Some((x, o)) =>
        c := Some(x);
        offset := o;
    }

    /** Reads fields of the types `ts`, one after another, from the cursor on. */
    method LeerCampos(ts: seq<Tipo>) returns (cs: Option<seq<Campo>>)
      modifies this`offset
      ensures match LeerTodos(ts, stream, old(offset))
        case None => cs == None
        case Some((xs, o)) => cs == Some(xs) && offset == o
    {
      ghost var inicio := offset;
      var leidos := [];
      for i := 0 to |ts|
        invariant LeerTodos(ts[..i], stream, inicio) == Some((leidos, offset))
      {
        ghost var o := offset;
        var c := LeerCampo(ts[i]);
        LeerUno(ts, stream, inicio, i, leidos, o);
        if c == None {
          NoSigue(ts, stream, inicio, i + 1);
          return None;
        }
        leidos := leidos + [c.value];
      }
      assert ts[..|ts|] == ts;
      cs := Some(leidos);
    }

    /** A deserializer: reads the fields in order from the start, then builds the message. */
    method DeserializarMensaje(k: Clase) returns (m: Option<Mensaje>)
      modifies this`offset
      ensures m == Deserializar(k, stream)
    {
      offset := 0;
      var cs := LeerCampos(Esperados(k));
      if cs == None {
        return None;
      }
      TiposLeidos(Esperados(k), stream, 0);
      m := Some(Armar(k, cs.value));
    }
  }

  // --- Framing ---

  /** `t_paquete`: an operation code, an `int`, and a buffer whose size is one too. */
  datatype Paquete = Paquete(op: int, carga: seq<Byte>) {
    predicate Valido() {
      EsInt(op) && |carga| < 0x8000_0000
    }
  }

  /** `serializar_paquete`. */
  function Enmarcar(p: Paquete): seq<Byte>
    requires p.Valido()
  {
    Cuatro(ABits(p.op)) + Cuatro(|p.carga|) + p.carga
  }

  /** `recibir_paquete`: the packet at the front of `bs` and what follows it. A code of -1
      reads as a broken connection. */
  function Recibir(bs: seq<Byte>): Option<(Paquete, seq<Byte>)> {
    if |bs| < 8 then None
    else
      var op, n := DeBits(Numero(bs, 0)), DeBits(Numero(bs, 4));
      if op == -1 || n < 0 || |bs| < 8 + n then None
      else Some((Paquete(op, bs[8..8 + n]), bs[8 + n..]))
  }

  function RecibirVarios(bs: seq<Byte>, k: nat): Option<(seq<Paquete>, seq<Byte>)> {
    if k == 0 then Some(([], bs))
    else
      match Recibir(bs)
      case None => None
      case Some((p, resto)) =>
        match RecibirVarios(resto, k - 1)
        case None => None
        case Some((ps, fin)) => Some(([p] + ps, fin))
  }

  lemma {:induction false} Cortes(a: seq<Byte>, b: seq<Byte>, c: seq<Byte>)
    ensures ((a + b) + c)[|a|..|a| + |b|] == b && ((a + b) + c)[|a| + |b|..] == c
  {
  }

  lemma {:induction false} Cabecera(bs: seq<Byte>, x: nat, y: nat)
    requires x < WORD && y < WORD && En(bs, 0, Cuatro(x) + Cuatro(y))
    ensures Numero(bs, 0) == x && Numero(bs, 4) == y
  {
    Partir(bs, 0, Cuatro(x), Cuatro(y));
    NumeroEn(bs, 0, x);
    NumeroEn(bs, 4, y);
  }

  /** A framed packet is received as it was sent, leaving exactly what follows it, unless its
      code is the one that stands for a broken connection. */
  lemma {:induction false} RecibirEnmarcado(p: Paquete, cola: seq<Byte>)
    requires p.Valido()
    ensures Recibir(Enmarcar(p) + cola) == Some((p, cola)) <==> p.op != -1
  {
    var cabeza := Cuatro(ABits(p.op)) + Cuatro(|p.carga|);
    var bs := (cabeza + p.carga) + cola;
    forall k | 0 <= k < 8 ensures bs[0 + k] == cabeza[k] {
    }
    Cabecera(bs, ABits(p.op), |p.carga|);
    Cortes(cabeza, p.carga, cola);
  }

  /** What is received from any stream is what was framed at its front: a packet with a code other than
      -1, whose size is that of its load and fits an `int`, and exactly what follows it. */
  lemma {:induction false} RecibirSii(bs: seq<Byte>, p: Paquete, resto: seq<Byte>)
    ensures Recibir(bs) == Some((p, resto)) <==> p.Valido() && p.op != -1 && bs == Enmarcar(p) + resto
  {
    if Recibir(bs) == Some((p, resto)) {
      CuatroDe(bs, 0);
      CuatroDe(bs, 4);
      assert bs == bs[0..4] + bs[4..8] + bs[8..8 + |p.carga|] + bs[8 + |p.carga|..];
    }
    if p.Valido() && p.op != -1 && bs == Enmarcar(p) + resto {
      RecibirEnmarcado(p, resto);
    }
  }

  /** The file system reads the operation code before it calls `recibir_paquete`, which reads
      another. */
  function RecibirTrasCodigo(bs: seq<Byte>): Option<(Paquete, seq<Byte>)> {
    if |bs| < 4 then None else Recibir(bs[4..])
  }

  /** A dump, whose load starts with its contents behind their length, is never received as it was
      sent: the contents alone are taken for the load, the size of the load for the code, and the
      rest of the message is left to be read as the next. */
  lemma {:induction false} DobleLectura(p: Paquete, datos: seq<Byte>, resto: seq<Byte>, cola: seq<Byte>)
    requires p.Valido() && |datos| < WORD && p.carga == Cuatro(|datos|) + datos + resto
    ensures RecibirTrasCodigo(Enmarcar(p) + cola) == Some((Paquete(|p.carga|, datos), resto + cola))
    ensures datos != p.carga
  {
    var bs := Enmarcar(p) + cola;
    var cabeza := Cuatro(|p.carga|) + Cuatro(|datos|);
    assert bs[4..] == cabeza + datos + (resto + cola);
    forall k | 0 <= k < 8 ensures bs[4..][0 + k] == cabeza[k] {
    }
    Cabecera(bs[4..], |p.carga|, |datos|);
    Cortes(cabeza, datos, resto + cola);
  }

  lemma {:induction false} RecibirUnoMas(bs: seq<Byte>, p: Paquete, resto: seq<Byte>, ps: seq<Paquete>, fin: seq<Byte>)
    requires Recibir(bs) == Some((p, resto)) && RecibirVarios(resto, |ps|) == Some((ps, fin))
    ensures RecibirVarios(bs, |ps| + 1) == Some(([p] + ps, fin))
  {
  }

  ghost predicate Enviables(ps: seq<Paquete>) {
    forall p :: p in ps ==> p.Valido() && p.op != -1
  }

  function EnmarcarTodos(ps: seq<Paquete>): seq<Byte>
    requires Enviables(ps)
  {
    if ps == [] then [] else Enmarcar(ps[0]) + EnmarcarTodos(ps[1..])
  }

  /** Packets sent one after another on a stream are received unchanged and in order, whatever
      bytes follow. */
  lemma {:induction false} RecibirTodos(ps: seq<Paquete>, cola: seq<Byte>)
    requires Enviables(ps)
    ensures RecibirVarios(EnmarcarTodos(ps) + cola, |ps|) == Some((ps, cola))
  {
    if ps == [] {
      assert EnmarcarTodos(ps) + cola == cola;
    } else {
      var resto := EnmarcarTodos(ps[1..]) + cola;
      Asociar(Enmarcar(ps[0]), EnmarcarTodos(ps[1..]), cola);
      RecibirEnmarcado(ps[0], resto);
      RecibirTodos(ps[1..], cola);
      RecibirUnoMas(EnmarcarTodos(ps) + cola, ps[0], resto, ps[1..], cola);
      assert ps == [ps[0]] + ps[1..];
    }
  }

  /** One direction of a connection: the bytes sent and not yet received. */
  class Canal {
    var pendiente: seq<Byte>

    constructor ()
      ensures pendiente == []
    {
      pendiente := [];
    }

    method EnviarPaquete(p: Paquete)
      requires p.Valido()
      modifies this
      ensures pendiente == old(pendiente) + Enmarcar(p)
    {
      pendiente := pendiente + Cuatro(ABits(p.op)) + Cuatro(|p.carga|) + p.carga;
    }

    /** The code first, then the size, then as many bytes as the size says. */
    method RecibirPaquete() returns (p: Option<Paquete>)
      requires |pendiente| >= 8
      requires DeBits(Numero(pendiente, 4)) >= 0 && |pendiente| >= 8 + DeBits(Numero(pendiente, 4))
      modifies this
      ensures match Recibir(old(pendiente))
        case None => p == None && pendiente == old(pendiente)[4..]
        case Some((q, resto)) => p == Some(q) && pendiente == resto
    {
      var op := DeBits(Numero(pendiente, 0));
      if op == -1 {
        pendiente := pendiente[4..];
        return None;
      }
      var n := DeBits(Numero(pendiente, 4));
      p := Some(Paquete(op, pendiente[8..8 + n]));
      pendiente := pendiente[8 + n..];
    }
  }
}
