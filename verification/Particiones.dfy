/** The partition list of the memory module: the search, split and merge rules, on values.
    `MemoryModule.dfy` carries them out on the partition records themselves. */
module Particiones {
  import opened Comun

  datatype Part = Part(base: nat, tamanio: nat, limite: nat, libre: bool, pid: nat)

  datatype Algoritmo = First | Best | Worst
  datatype Esquema = Fijas | Dinamicas

  /** What the kernel gets back: a confirmation, a refusal, nothing at all, or nothing ever
      again because the module has dereferenced NULL. */
  datatype Respuesta = Confirma | Niega | SinRespuesta | Cae

  /** `base + tamanio - 1`, on 32 bits. */
  function Limite(base: nat, tamanio: nat): nat {
    Mod32(base + tamanio - 1)
  }

  function Nueva(base: nat, tamanio: nat): Part {
    Part(base, tamanio, Limite(base, tamanio), true, 0)
  }

  // --- Search ---

  predicate Cabe(p: Part, n: nat) {
    p.libre && p.tamanio >= n
  }

  /** Whether a later candidate `p` displaces the one chosen so far. */
  predicate Desplaza(alg: Algoritmo, p: Part, elegida: Part) {
    match alg
    case First => false
    case Best => p.tamanio < elegida.tamanio
    case Worst => p.tamanio > elegida.tamanio
  }

  /** The index chosen among the first `k` partitions, or -1. */
  function Elegir(alg: Algoritmo, ps: seq<Part>, n: nat, k: nat): (e: int)
    requires k <= |ps|
    ensures -1 <= e < k
    ensures e >= 0 ==> Cabe(ps[e], n)
    ensures e < 0 ==> forall j :: 0 <= j < k ==> !Cabe(ps[j], n)
  {
    if k == 0 then -1
    else
      var e := Elegir(alg, ps, n, k - 1);
      if Cabe(ps[k - 1], n) && (e < 0 || Desplaza(alg, ps[k - 1], ps[e])) then k - 1 else e
  }

  // --- Assignment ---

  /** Cuts partition `i` down to `n`. As written the free remainder goes to the end of the
      list; repaired, it goes right after the partition it was cut from. */
  function Dividir(v: Variante, ps: seq<Part>, i: nat, n: nat): seq<Part>
    requires i < |ps| && n < ps[i].tamanio
  {
    var p := ps[i].(tamanio := n, limite := Limite(ps[i].base, n), libre := false);
    var resto := Nueva(ps[i].base + n, ps[i].tamanio - n);
    if v.Reparada? then ps[..i] + [p, resto] + ps[i + 1..] else ps[i := p] + [resto]
  }

  function Ocupar(ps: seq<Part>, i: nat, pid: nat): seq<Part>
    requires i < |ps|
  {
    ps[i := ps[i].(libre := false, pid := pid)]
  }

  /** `asignar_particiones_fijas` and `asignar_particiones_dinamicas`. */
  function Asignar(v: Variante, esq: Esquema, alg: Algoritmo, ps: seq<Part>, pid: nat, n: nat): (seq<Part>, Respuesta) {
    var e := Elegir(alg, ps, n, |ps|);
    if e < 0 then
      (ps, if v.Reparada? then Niega else if esq.Fijas? then Cae else SinRespuesta)
    else if esq.Fijas? then
      (Ocupar(ps, e, pid), Confirma)
    else if ps[e].tamanio > n then
      (Dividir(v, Ocupar(ps, e, pid), e, n), Confirma)
    else
      (Ocupar(ps, e, pid), if v.Reparada? then Confirma else Niega)
  }

  // --- Release ---

  /** `a` takes over the space of `b`. As written its limit is left behind. */
  function Unir(v: Variante, a: Part, b: Part): Part {
    a.(tamanio := a.tamanio + b.tamanio,
       limite := if v.Reparada? then Limite(a.base, a.tamanio + b.tamanio) else a.limite)
  }

  function UnirEn(v: Variante, ps: seq<Part>, i: nat): seq<Part>
    requires i + 1 < |ps|
  {
    ps[..i] + [Unir(v, ps[i], ps[i + 1])] + ps[i + 2..]
  }

  function UnirSiguiente(v: Variante, ps: seq<Part>, i: nat): (r: seq<Part>)
    requires i < |ps|
    ensures i < |r|
  {
    if i + 1 < |ps| && ps[i + 1].libre then UnirEn(v, ps, i) else ps
  }

  function UnirAnterior(v: Variante, ps: seq<Part>, i: nat): seq<Part>
    requires i < |ps|
  {
    if i > 0 && ps[i - 1].libre then UnirEn(v, ps, i - 1) else ps
  }

  /** `consolidar_particiones_libres`: first the next partition, then the previous one. */
  function Consolidar(v: Variante, ps: seq<Part>, i: nat): seq<Part>
    requires i < |ps|
  {
    UnirAnterior(v, UnirSiguiente(v, ps, i), i)
  }

  /** The first partition that carries `pid`, from `k` on; the length if there is none. */
  function BuscarPid(ps: seq<Part>, pid: nat, k: nat): (i: nat)
    requires k <= |ps|
    ensures k <= i <= |ps|
    ensures i < |ps| ==> ps[i].pid == pid
    ensures forall j :: k <= j < i ==> ps[j].pid != pid
    decreases |ps| - k
  {
    if k == |ps| || ps[k].pid == pid then k else BuscarPid(ps, pid, k + 1)
  }

  function Liberar(ps: seq<Part>, i: nat): seq<Part>
    requires i < |ps|
  {
    ps[i := ps[i].(libre := true, pid := 0)]
  }

  /** `finalizar_proceso`. */
  function Finalizar(v: Variante, esq: Esquema, ps: seq<Part>, pid: nat): seq<Part> {
    var i := BuscarPid(ps, pid, 0);
    if i == |ps| then ps
    else if esq.Dinamicas? then Consolidar(v, Liberar(ps, i), i)
    else Liberar(ps, i)
  }

  // --- Runs ---

  datatype Evento = Pide(alg: Algoritmo, pid: nat, n: nat) | Termina(pid: nat)

  function Paso(v: Variante, esq: Esquema, ps: seq<Part>, e: Evento): seq<Part> {
    match e
    case Pide(alg, pid, n) => Asignar(v, esq, alg, ps, pid, n).0
    case Termina(pid) => Finalizar(v, esq, ps, pid)
  }

  function Ejecutar(v: Variante, esq: Esquema, ps: seq<Part>, es: seq<Evento>): seq<Part> {
    if es == [] then ps else Paso(v, esq, Ejecutar(v, esq, ps, es[..|es| - 1]), es[|es| - 1])
  }

  // --- The invariant of the dynamic scheme ---

  /** In list order the partitions cover [0, total) with no gap and no overlap. */
  ghost predicate Tesela(ps: seq<Part>, total: nat) {
    && |ps| > 0
    && ps[0].base == 0
    && ps[|ps| - 1].base + ps[|ps| - 1].tamanio == total
    && forall i, j :: 0 <= i && j == i + 1 && j < |ps| ==> ps[j].base == ps[i].base + ps[i].tamanio
  }

  ghost predicate Limitadas(ps: seq<Part>) {
    forall i :: 0 <= i < |ps| ==> ps[i].limite == Limite(ps[i].base, ps[i].tamanio)
  }

  /** Free partitions carry no process, and no two neighbours are both free, except perhaps a
      pair whose first is at `desde` or later and before `hasta`. */
  ghost predicate Separadas(ps: seq<Part>, desde: int, hasta: int) {
    && (forall i, j :: 0 <= i && j == i + 1 && j < |ps| && !(desde <= i < hasta) ==> !(ps[i].libre && ps[j].libre))
    && (forall i :: 0 <= i < |ps| ==> (ps[i].libre ==> ps[i].pid == 0))
  }

  ghost predicate Inv(ps: seq<Part>, total: nat) {
    Tesela(ps, total) && Limitadas(ps) && Separadas(ps, 0, 0)
  }

  lemma {:induction false} DividirTesela(ps: seq<Part>, i: nat, n: nat, total: nat)
    requires Tesela(ps, total) && i < |ps| && n < ps[i].tamanio
    ensures Tesela(Dividir(Reparada, ps, i, n), total)
  {
  }

  lemma {:induction false} DividirConserva(ps: seq<Part>, i: nat, n: nat, total: nat)
    requires Inv(ps, total) && i < |ps| && n < ps[i].tamanio && !ps[i].libre
    requires i + 1 < |ps| ==> !ps[i + 1].libre
    ensures Inv(Dividir(Reparada, ps, i, n), total)
  {
    DividirTesela(ps, i, n, total);
    var r := Dividir(Reparada, ps, i, n);
    assert Limitadas(r);
    assert Separadas(r, 0, 0);
  }

  lemma {:induction false} AsignarConserva(alg: Algoritmo, ps: seq<Part>, pid: nat, n: nat, total: nat)
    requires Inv(ps, total)
    ensures Inv(Asignar(Reparada, Dinamicas, alg, ps, pid, n).0, total)
  {
    var e := Elegir(alg, ps, n, |ps|);
    if e >= 0 {
      assert Inv(Ocupar(ps, e, pid), total);
      if ps[e].tamanio > n {
        DividirConserva(Ocupar(ps, e, pid), e, n, total);
      }
    }
  }

  /** Merging the pair at `i`, one of the pairs still to merge, leaves one fewer. */
  lemma {:induction false} UnirConserva(ps: seq<Part>, i: nat, total: nat, desde: int, hasta: nat)
    requires Tesela(ps, total) && Limitadas(ps) && Separadas(ps, desde, hasta)
    requires i + 1 < |ps| && ps[i].libre && ps[i + 1].libre && desde <= i < hasta <= i + 1
    ensures var r := UnirEn(Reparada, ps, i);
      Tesela(r, total) && Limitadas(r) && Separadas(r, desde, i) && r[i].libre
  {
  }

  lemma {:induction false} SiguienteConserva(ps: seq<Part>, i: nat, total: nat)
    requires Tesela(ps, total) && Limitadas(ps) && i < |ps| && ps[i].libre && Separadas(ps, i - 1, i + 1)
    ensures var r := UnirSiguiente(Reparada, ps, i);
      Tesela(r, total) && Limitadas(r) && r[i].libre && Separadas(r, i - 1, i)
  {
    if i + 1 < |ps| && ps[i + 1].libre {
      UnirConserva(ps, i, total, i - 1, i + 1);
    }
  }

  lemma {:induction false} AnteriorConserva(ps: seq<Part>, i: nat, total: nat)
    requires Tesela(ps, total) && Limitadas(ps) && i < |ps| && ps[i].libre && Separadas(ps, i - 1, i)
    ensures Inv(UnirAnterior(Reparada, ps, i), total)
  {
    if i > 0 && ps[i - 1].libre {
      UnirConserva(ps, i - 1, total, i - 1, i);
    }
  }

  lemma {:induction false} ConsolidarConserva(ps: seq<Part>, i: nat, total: nat)
    requires Tesela(ps, total) && Limitadas(ps) && i < |ps| && ps[i].libre && Separadas(ps, i - 1, i + 1)
    ensures Inv(Consolidar(Reparada, ps, i), total)
  {
    SiguienteConserva(ps, i, total);
    AnteriorConserva(UnirSiguiente(Reparada, ps, i), i, total);
  }

  lemma {:induction false} FinalizarConserva(ps: seq<Part>, pid: nat, total: nat)
    requires Inv(ps, total)
    ensures Inv(Finalizar(Reparada, Dinamicas, ps, pid), total)
  {
    var i := BuscarPid(ps, pid, 0);
    if i < |ps| {
      ConsolidarConserva(Liberar(ps, i), i, total);
    }
  }

  function Inicial(total: nat): seq<Part> {
    [Nueva(0, total)]
  }

  /** Over every run from the single initial partition, the list tiles the memory, its limits
      are right and free space is fully merged. */
  lemma {:induction false} EjecutarConserva(total: nat, es: seq<Evento>)
    ensures Inv(Ejecutar(Reparada, Dinamicas, Inicial(total), es), total)
  {
    if es == [] {
    } else {
      var antes := es[..|es| - 1];
      EjecutarConserva(total, antes);
      var ps := Ejecutar(Reparada, Dinamicas, Inicial(total), antes);
      match es[|es| - 1]
      case Pide(alg, pid, n) => AsignarConserva(alg, ps, pid, n, total);
      case Termina(pid) => FinalizarConserva(ps, pid, total);
    }
  }

  // --- Who owns what ---

  lemma {:induction false} Cortar(ps: seq<Part>, i: nat, k: nat)
    requires i + k <= |ps|
    ensures ps == ps[..i] + ps[i..i + k] + ps[i + k..]
  {
    var r := ps[..i] + ps[i..i + k] + ps[i + k..];
    assert |r| == |ps|;
    forall j | 0 <= j < |ps| ensures ps[j] == r[j] {
    }
  }

  lemma {:induction false} CortarMultiset(ps: seq<Part>, i: nat, k: nat)
    requires i + k <= |ps|
    ensures multiset(ps) == multiset(ps[..i]) + multiset(ps[i..i + k]) + multiset(ps[i + k..])
  {
    Cortar(ps, i, k);
  }

  /** How often `q` is listed once the `i`-th partition is replaced. */
  lemma {:induction false} CambiarVeces(ps: seq<Part>, i: nat, p: Part, q: Part)
    requires i < |ps|
    ensures multiset(ps[i := p])[q] == multiset(ps)[q] - (if ps[i] == q then 1 else 0) + if p == q then 1 else 0
  {
  }

  lemma {:induction false} UnirNoToca(v: Variante, ps: seq<Part>, i: nat, q: Part)
    requires i + 1 < |ps| && ps[i].libre && ps[i + 1].libre && !q.libre
    ensures multiset(UnirEn(v, ps, i))[q] == multiset(ps)[q]
  {
    CortarMultiset(ps, i, 2);
    assert ps[i..i + 2] == [ps[i], ps[i + 1]];
  }

  lemma {:induction false} SiguienteNoToca(v: Variante, ps: seq<Part>, i: nat, q: Part)
    requires i < |ps| && ps[i].libre && !q.libre
    ensures multiset(UnirSiguiente(v, ps, i))[q] == multiset(ps)[q]
    ensures UnirSiguiente(v, ps, i)[i].libre
  {
    if i + 1 < |ps| && ps[i + 1].libre {
      UnirNoToca(v, ps, i, q);
    }
  }

  lemma {:induction false} AnteriorNoToca(v: Variante, ps: seq<Part>, i: nat, q: Part)
    requires i < |ps| && ps[i].libre && !q.libre
    ensures multiset(UnirAnterior(v, ps, i))[q] == multiset(ps)[q]
  {
    if i > 0 && ps[i - 1].libre {
      UnirNoToca(v, ps, i - 1, q);
    }
  }

  /** A process that ends gives back one partition of its own; in either variant every other
      partition in use is left exactly as it was. */
  lemma {:induction false} FinalizarDevuelve(v: Variante, esq: Esquema, ps: seq<Part>, pid: nat, q: Part)
    requires !q.libre
    ensures var i := BuscarPid(ps, pid, 0);
      multiset(Finalizar(v, esq, ps, pid))[q] == multiset(ps)[q] - if i < |ps| && ps[i] == q then 1 else 0
  {
    var i := BuscarPid(ps, pid, 0);
    if i < |ps| {
      CambiarVeces(ps, i, ps[i].(libre := true, pid := 0), q);
      if esq.Dinamicas? {
        SiguienteNoToca(v, Liberar(ps, i), i, q);
        AnteriorNoToca(v, UnirSiguiente(v, Liberar(ps, i), i), i, q);
      }
    }
  }

  /** The partition handed out for a request that finds room at `e`. */
  function Entregada(esq: Esquema, p: Part, pid: nat, n: nat): Part {
    var q := p.(libre := false, pid := pid);
    if esq.Dinamicas? && p.tamanio > n then q.(tamanio := n, limite := Limite(p.base, n)) else q
  }

  lemma {:induction false} TresPartes(a: seq<Part>, b: seq<Part>, c: seq<Part>, q: Part)
    ensures multiset(a + b + c)[q] == multiset(a)[q] + multiset(b)[q] + multiset(c)[q]
  {
  }

  lemma {:induction false} DosMultiset(x: Part, y: Part, q: Part)
    ensures multiset([x, y])[q] == (if x == q then 1 else 0) + if y == q then 1 else 0
  {
  }

  lemma {:induction false} PonerDos(ps: seq<Part>, i: nat, p: Part, resto: Part, q: Part)
    requires i < |ps| && resto != q
    ensures multiset(ps[..i] + [p, resto] + ps[i + 1..])[q]
         == multiset(ps)[q] - (if ps[i] == q then 1 else 0) + if p == q then 1 else 0
  {
    var a, c := ps[..i], ps[i + 1..];
    TresPartes(a, [p, resto], c, q);
    TresPartes(a, [ps[i]], c, q);
    DosMultiset(p, resto, q);
    assert ps == a + [ps[i]] + c;
  }

  lemma {:induction false} DividirEntrega(v: Variante, ps: seq<Part>, i: nat, n: nat, q: Part)
    requires i < |ps| && n < ps[i].tamanio && !ps[i].libre && !q.libre
    ensures multiset(Dividir(v, ps, i, n))[q]
         == multiset(ps)[q] - (if ps[i] == q then 1 else 0)
          + if ps[i].(tamanio := n, limite := Limite(ps[i].base, n)) == q then 1 else 0
  {
    var p := ps[i].(tamanio := n, limite := Limite(ps[i].base, n));
    var resto := Nueva(ps[i].base + n, ps[i].tamanio - n);
    if v.ComoEsta? {
      CambiarVeces(ps, i, p, q);
    } else {
      PonerDos(ps, i, p, resto, q);
    }
  }

  /** A request that finds room puts exactly one more partition in use, and one that does not
      changes nothing, in either variant. */
  lemma {:induction false} AsignarEntrega(v: Variante, esq: Esquema, alg: Algoritmo, ps: seq<Part>, pid: nat, n: nat,
        q: Part)
    requires !q.libre
    ensures var e := Elegir(alg, ps, n, |ps|);
      multiset(Asignar(v, esq, alg, ps, pid, n).0)[q]
      == multiset(ps)[q] + if e >= 0 && Entregada(esq, ps[e], pid, n) == q then 1 else 0
  {
    var e := Elegir(alg, ps, n, |ps|);
    if e >= 0 {
      var r := Ocupar(ps, e, pid);
      CambiarVeces(ps, e, r[e], q);
      if esq.Dinamicas? && ps[e].tamanio > n {
        DividirEntrega(v, r, e, n, q);
      }
    }
  }

  /** The processes that hold a partition. */
  function Vivos(ps: seq<Part>): set<nat> {
    set p | p in ps && !p.libre :: p.pid
  }

  /** Every live process holds exactly one partition, and none has pid 0. */
  ghost predicate UnaPorProceso(ps: seq<Part>) {
    && (forall q :: q in ps && !q.libre ==> q.pid != 0 && multiset(ps)[q] == 1)
    && (forall q, q' :: q in ps && q' in ps && !q.libre && !q'.libre && q.pid == q'.pid ==> q == q')
  }

  ghost predicate LibresSinPid(ps: seq<Part>) {
    forall q :: q in ps && q.libre ==> q.pid == 0
  }

  lemma {:induction false} FinalizarVivos(v: Variante, esq: Esquema, ps: seq<Part>, pid: nat)
    requires UnaPorProceso(ps) && LibresSinPid(ps) && pid != 0
    ensures var r := Finalizar(v, esq, ps, pid);
      && UnaPorProceso(r)
      && Vivos(r) == Vivos(ps) - {pid}
      && forall q: Part :: !q.libre ==> (q in r <==> q in ps && q.pid != pid)
  {
    var r, i := Finalizar(v, esq, ps, pid), BuscarPid(ps, pid, 0);
    forall q: Part | !q.libre
      ensures q in r <==> q in ps && q.pid != pid
      ensures q in r ==> multiset(r)[q] == 1
    {
      FinalizarDevuelve(v, esq, ps, pid, q);
      assert i < |ps| ==> ps[i] in ps && !ps[i].libre;
      assert q in r <==> multiset(r)[q] > 0;
      assert q in ps <==> multiset(ps)[q] > 0;
    }
  }

  lemma {:induction false} AsignarVivo(v: Variante, esq: Esquema, alg: Algoritmo, ps: seq<Part>, pid: nat, n: nat,
        q: Part)
    requires UnaPorProceso(ps) && pid !in Vivos(ps) && !q.libre
    ensures var r, e := Asignar(v, esq, alg, ps, pid, n).0, Elegir(alg, ps, n, |ps|);
      && (q in r <==> q in ps || (e >= 0 && q == Entregada(esq, ps[e], pid, n)))
      && (q in r ==> multiset(r)[q] == 1)
  {
    var r := Asignar(v, esq, alg, ps, pid, n).0;
    AsignarEntrega(v, esq, alg, ps, pid, n, q);
    assert q in r <==> multiset(r)[q] > 0;
    assert q in ps <==> multiset(ps)[q] > 0;
    assert q in ps ==> q.pid in Vivos(ps);
  }

  /** `r` has the used partitions of `ps` and, if `hay`, that of the new process, once each. */
  lemma {:induction false} VivosConUno(ps: seq<Part>, r: seq<Part>, hay: bool, nueva: Part)
    requires UnaPorProceso(ps) && (hay ==> !nueva.libre && nueva.pid != 0 && nueva.pid !in Vivos(ps))
    requires forall q: Part :: !q.libre ==> (q in r <==> q in ps || (hay && q == nueva))
    requires forall q: Part :: !q.libre && q in r ==> multiset(r)[q] == 1
    ensures UnaPorProceso(r) && Vivos(r) == Vivos(ps) + (if hay then {nueva.pid} else {})
  {
    forall q, q' | q in r && q' in r && !q.libre && !q'.libre && q.pid == q'.pid ensures q == q' {
      assert q in ps ==> q.pid in Vivos(ps);
      assert q' in ps ==> q'.pid in Vivos(ps);
    }
    assert forall q :: q in ps && !q.libre ==> q in r;
    assert hay ==> nueva in r;
  }

  lemma {:induction false} AsignarVivos(v: Variante, esq: Esquema, alg: Algoritmo, ps: seq<Part>, pid: nat, n: nat)
    requires UnaPorProceso(ps) && pid != 0 && pid !in Vivos(ps)
    ensures var r := Asignar(v, esq, alg, ps, pid, n).0;
      var e := Elegir(alg, ps, n, |ps|);
      && UnaPorProceso(r)
      && Vivos(r) == Vivos(ps) + (if e >= 0 then {pid} else {})
      && forall q: Part :: !q.libre ==> (q in r <==> q in ps || (e >= 0 && q == Entregada(esq, ps[e], pid, n)))
  {
    var r, e := Asignar(v, esq, alg, ps, pid, n).0, Elegir(alg, ps, n, |ps|);
    var nueva := if e >= 0 then Entregada(esq, ps[e], pid, n) else Part(0, 0, 0, false, pid);
    forall q: Part | !q.libre
      ensures q in r <==> q in ps || (e >= 0 && q == nueva)
      ensures q in r ==> multiset(r)[q] == 1
    {
      AsignarVivo(v, esq, alg, ps, pid, n, q);
    }
    VivosConUno(ps, r, e >= 0, nueva);
  }

  lemma {:induction false} DividirLibres(v: Variante, ps: seq<Part>, i: nat, n: nat)
    requires LibresSinPid(ps) && i < |ps| && n < ps[i].tamanio
    ensures LibresSinPid(Dividir(v, ps, i, n))
  {
    var resto := Nueva(ps[i].base + n, ps[i].tamanio - n);
    forall q | q in Dividir(v, ps, i, n) && q.libre ensures q.pid == 0 {
      assert q in ps || q == resto;
    }
  }

  lemma {:induction false} AsignarLibres(v: Variante, esq: Esquema, alg: Algoritmo, ps: seq<Part>, pid: nat, n: nat)
    requires LibresSinPid(ps)
    ensures LibresSinPid(Asignar(v, esq, alg, ps, pid, n).0)
  {
    var e := Elegir(alg, ps, n, |ps|);
    if e >= 0 {
      var r := Ocupar(ps, e, pid);
      assert forall q :: q in r && q.libre ==> q in ps;
      if esq.Dinamicas? && ps[e].tamanio > n {
        DividirLibres(v, r, e, n);
      }
    }
  }

  lemma {:induction false} UnirLibres(v: Variante, ps: seq<Part>, i: nat)
    requires LibresSinPid(ps) && i + 1 < |ps| && ps[i].libre
    ensures LibresSinPid(UnirEn(v, ps, i)) && UnirEn(v, ps, i)[i].libre
  {
    assert ps[i] in ps;
    forall q | q in UnirEn(v, ps, i) && q.libre ensures q.pid == 0 {
      assert q in ps || q == Unir(v, ps[i], ps[i + 1]);
    }
  }

  lemma {:induction false} FinalizarLibres(v: Variante, esq: Esquema, ps: seq<Part>, pid: nat)
    requires LibresSinPid(ps)
    ensures LibresSinPid(Finalizar(v, esq, ps, pid))
  {
    var i := BuscarPid(ps, pid, 0);
    if i < |ps| {
      var l := Liberar(ps, i);
      assert forall q :: q in l ==> q in ps || q == l[i];
      if esq.Dinamicas? {
        var m := UnirSiguiente(v, l, i);
        if i + 1 < |l| && l[i + 1].libre {
          UnirLibres(v, l, i);
        }
        if i > 0 && m[i - 1].libre {
          UnirLibres(v, m, i - 1);
        }
      }
    }
  }

  /** No partition is in use exactly when the list is back to the single initial one. */
  lemma {:induction false} NadieSiiInicial(ps: seq<Part>, total: nat)
    requires Inv(ps, total)
    ensures Vivos(ps) == {} <==> ps == Inicial(total)
  {
    forall i | 0 <= i < |ps| ensures ps[i].libre || ps[i].pid in Vivos(ps) {
      var p := ps[i];
      assert p in ps;
    }
    assert |ps| > 1 ==> !(ps[0].libre && ps[1].libre);
  }

  function Terminan(pids: seq<nat>): seq<Evento> {
    seq(|pids|, i requires 0 <= i < |pids| => Termina(pids[i]))
  }

  lemma {:induction false} TerminarUno(ps: seq<Part>, total: nat, pid: nat)
    requires Inv(ps, total) && UnaPorProceso(ps) && pid != 0
    ensures var r := Finalizar(Reparada, Dinamicas, ps, pid);
      Inv(r, total) && UnaPorProceso(r) && Vivos(r) == Vivos(ps) - {pid}
  {
    FinalizarConserva(ps, pid, total);
    assert LibresSinPid(ps);
    FinalizarVivos(Reparada, Dinamicas, ps, pid);
  }

  lemma {:induction false} TerminanMas(ps: seq<Part>, pids: seq<nat>)
    requires pids != []
    ensures Ejecutar(Reparada, Dinamicas, ps, Terminan(pids))
         == Finalizar(Reparada, Dinamicas, Ejecutar(Reparada, Dinamicas, ps, Terminan(pids[..|pids| - 1])),
             pids[|pids| - 1])
  {
    assert Terminan(pids)[..|pids| - 1] == Terminan(pids[..|pids| - 1]);
  }

  /** Ending processes in any order, whether or not they hold a partition, removes exactly
      those from the live ones. */
  lemma {:induction false} TerminarVarios(ps: seq<Part>, total: nat, pids: seq<nat>)
    requires Inv(ps, total) && UnaPorProceso(ps) && 0 !in pids
    ensures var r := Ejecutar(Reparada, Dinamicas, ps, Terminan(pids));
      Inv(r, total) && UnaPorProceso(r) && forall pid :: pid in Vivos(r) <==> pid in Vivos(ps) && pid !in pids
  {
    if pids == [] {
    } else {
      var m := |pids| - 1;
      TerminarVarios(ps, total, pids[..m]);
      TerminanMas(ps, pids);
      TerminarUno(Ejecutar(Reparada, Dinamicas, ps, Terminan(pids[..m])), total, pids[m]);
      assert forall pid :: pid in pids <==> pid in pids[..m] || pid == pids[m];
    }
  }

  /** Once every process that holds a partition has ended, and only then, the memory is the
      single initial partition again. */
  lemma {:induction false} AlTerminarTodos(ps: seq<Part>, total: nat, pids: seq<nat>)
    requires Inv(ps, total) && UnaPorProceso(ps) && 0 !in pids
    ensures Ejecutar(Reparada, Dinamicas, ps, Terminan(pids)) == Inicial(total)
       <==> forall pid :: pid in Vivos(ps) ==> pid in pids
  {
    TerminarVarios(ps, total, pids);
    NadieSiiInicial(Ejecutar(Reparada, Dinamicas, ps, Terminan(pids)), total);
  }

  // --- The fixed scheme ---

  /** The partitions configured one after another from `inicio`. */
  function Fijar(tamanios: seq<nat>, inicio: nat): (ps: seq<Part>)
    ensures |ps| == |tamanios|
  {
    if tamanios == [] then []
    else [Nueva(inicio, tamanios[0])] + Fijar(tamanios[1..], inicio + tamanios[0])
  }

  function Total(tamanios: seq<nat>): nat {
    if tamanios == [] then 0 else tamanios[0] + Total(tamanios[1..])
  }

  lemma {:induction false} FijarEs(tamanios: seq<nat>, inicio: nat)
    requires tamanios != []
    ensures var ps := Fijar(tamanios, inicio);
      && Limitadas(ps) && ps[0].base == inicio
      && ps[|ps| - 1].base + ps[|ps| - 1].tamanio == inicio + Total(tamanios)
      && forall i, j :: 0 <= i && j == i + 1 && j < |ps| ==> ps[j].base == ps[i].base + ps[i].tamanio
  {
    if |tamanios| <= 1 {
    } else {
      FijarEs(tamanios[1..], inicio + tamanios[0]);
    }
  }

  /** Same places, same sizes. */
  ghost predicate MismaForma(a: seq<Part>, b: seq<Part>) {
    && |a| == |b|
    && forall i :: 0 <= i < |a| ==> a[i].base == b[i].base && a[i].tamanio == b[i].tamanio && a[i].limite == b[i].limite
  }

  lemma {:induction false} FijasPaso(v: Variante, ps: seq<Part>, e: Evento)
    ensures MismaForma(Paso(v, Fijas, ps, e), ps)
  {
  }

  /** With fixed partitions no run moves or resizes any of them: they cover the configured
      memory from first to last for ever. */
  lemma {:induction false} FijasPermanecen(v: Variante, tamanios: seq<nat>, es: seq<Evento>)
    requires tamanios != []
    ensures var r := Ejecutar(v, Fijas, Fijar(tamanios, 0), es);
      MismaForma(r, Fijar(tamanios, 0)) && Tesela(r, Total(tamanios)) && Limitadas(r)
  {
    FijarEs(tamanios, 0);
    if es == [] {
    } else {
      FijasPermanecen(v, tamanios, es[..|es| - 1]);
      FijasPaso(v, Ejecutar(v, Fijas, Fijar(tamanios, 0), es[..|es| - 1]), es[|es| - 1]);
    }
  }

  // --- The three searches ---

  /** What each search picks: the first that fits, or the earliest of the smallest, or the
      earliest of the largest. */
  lemma {:induction false} ElegirEs(alg: Algoritmo, ps: seq<Part>, n: nat, k: nat)
    requires k <= |ps|
    ensures var e := Elegir(alg, ps, n, k);
      e >= 0 ==> forall j :: 0 <= j < k && j != e && Cabe(ps[j], n) ==>
        match alg
        case First => e < j
        case Best => ps[e].tamanio < ps[j].tamanio || (ps[e].tamanio == ps[j].tamanio && e < j)
        case Worst => ps[e].tamanio > ps[j].tamanio || (ps[e].tamanio == ps[j].tamanio && e < j)
  {
    if k == 0 {
    } else {
      ElegirEs(alg, ps, n, k - 1);
    }
  }

  /** On the same list the three searches all fail, exactly when nothing fits, or all succeed,
      and best fit leaves no more over than first fit, nor first fit than worst fit. */
  lemma {:induction false} SobranteOrdenado(ps: seq<Part>, n: nat)
    ensures var f, b, w := Elegir(First, ps, n, |ps|), Elegir(Best, ps, n, |ps|), Elegir(Worst, ps, n, |ps|);
      if exists i :: 0 <= i < |ps| && Cabe(ps[i], n) then
        f >= 0 && b >= 0 && w >= 0
        && ps[b].tamanio - n <= ps[f].tamanio - n <= ps[w].tamanio - n
      else
        f == b == w == -1
  {
    ElegirEs(First, ps, n, |ps|);
    ElegirEs(Best, ps, n, |ps|);
    ElegirEs(Worst, ps, n, |ps|);
  }

  // --- Conservation, in either variant ---

  function Suma(ps: seq<Part>): nat {
    if ps == [] then 0 else ps[0].tamanio + Suma(ps[1..])
  }

  lemma {:induction false} SumaConcat(a: seq<Part>, b: seq<Part>)
    ensures Suma(a + b) == Suma(a) + Suma(b)
  {
    if a == [] {
      assert a + b == b;
    } else {
      assert (a + b)[1..] == a[1..] + b;
      SumaConcat(a[1..], b);
    }
  }

  lemma {:induction false} SumaDeUna(p: Part)
    ensures Suma([p]) == p.tamanio
  {
    assert [p][1..] == [];
  }

  lemma {:induction false} SumaEn(ps: seq<Part>, i: nat, medio: seq<Part>, k: nat)
    requires i + k <= |ps|
    ensures Suma(ps[..i] + medio + ps[i + k..]) == Suma(ps) - Suma(ps[i..i + k]) + Suma(medio)
  {
    SumaConcat(ps[..i] + medio, ps[i + k..]);
    SumaConcat(ps[..i], medio);
    SumaConcat(ps[..i] + ps[i..i + k], ps[i + k..]);
    SumaConcat(ps[..i], ps[i..i + k]);
    Cortar(ps, i, k);
  }

  lemma {:induction false} SumaCambiar(ps: seq<Part>, i: nat, p: Part)
    requires i < |ps|
    ensures Suma(ps[i := p]) == Suma(ps) - ps[i].tamanio + p.tamanio
  {
    SumaEn(ps, i, [p], 1);
    assert ps[i := p] == ps[..i] + [p] + ps[i + 1..];
    assert ps[i..i + 1] == [ps[i]];
    SumaDeUna(ps[i]);
    SumaDeUna(p);
  }

  lemma {:induction false} SumaDividir(v: Variante, ps: seq<Part>, i: nat, n: nat)
    requires i < |ps| && n < ps[i].tamanio
    ensures Suma(Dividir(v, ps, i, n)) == Suma(ps)
  {
    var p := ps[i].(tamanio := n, limite := Limite(ps[i].base, n), libre := false);
    var resto := Nueva(ps[i].base + n, ps[i].tamanio - n);
    SumaCambiar(ps, i, p);
    SumaDeUna(resto);
    if v.ComoEsta? {
      SumaConcat(ps[i := p], [resto]);
    } else {
      SumaEn(ps[i := p], i + 1, [resto], 0);
      assert Dividir(v, ps, i, n) == ps[i := p][..i + 1] + [resto] + ps[i := p][i + 1..];
    }
  }

  lemma {:induction false} SumaUnir(v: Variante, ps: seq<Part>, i: nat)
    requires i + 1 < |ps|
    ensures Suma(UnirEn(v, ps, i)) == Suma(ps)
  {
    var u := Unir(v, ps[i], ps[i + 1]);
    SumaEn(ps, i, [u], 2);
    assert ps[i..i + 2] == [ps[i]] + [ps[i + 1]];
    SumaConcat([ps[i]], [ps[i + 1]]);
    SumaDeUna(ps[i]);
    SumaDeUna(ps[i + 1]);
    SumaDeUna(u);
  }

  lemma {:induction false} SumaConsolidar(v: Variante, ps: seq<Part>, i: nat)
    requires i < |ps|
    ensures Suma(Consolidar(v, ps, i)) == Suma(ps)
  {
    var ps1 := UnirSiguiente(v, ps, i);
    if i + 1 < |ps| {
      SumaUnir(v, ps, i);
    }
    if i > 0 {
      SumaUnir(v, ps1, i - 1);
    }
  }

  lemma {:induction false} SumaPaso(v: Variante, esq: Esquema, ps: seq<Part>, e: Evento)
    ensures Suma(Paso(v, esq, ps, e)) == Suma(ps)
  {
    match e
    case Pide(alg, pid, n) =>
      var i := Elegir(alg, ps, n, |ps|);
      if i >= 0 {
        SumaCambiar(ps, i, Ocupar(ps, i, pid)[i]);
        if ps[i].tamanio > n {
          SumaDividir(v, Ocupar(ps, i, pid), i, n);
        }
      }
    case Termina(pid) =>
      var i := BuscarPid(ps, pid, 0);
      if i < |ps| {
        var l := Liberar(ps, i);
        SumaCambiar(ps, i, l[i]);
        SumaConsolidar(v, l, i);
      }
  }

  /** No run loses or invents memory, even where the remainder of a split goes to the end of
      the list. */
  lemma {:induction false} SumaConstante(v: Variante, esq: Esquema, ps: seq<Part>, es: seq<Evento>)
    ensures Suma(Ejecutar(v, esq, ps, es)) == Suma(ps)
  {
    if es == [] {
    } else {
      SumaConstante(v, esq, ps, es[..|es| - 1]);
      SumaPaso(v, esq, Ejecutar(v, esq, ps, es[..|es| - 1]), es[|es| - 1]);
    }
  }

  // --- The code as it stands ---

  /** As written, a split keeps the list in memory order exactly when it cuts the last one. */
  lemma {:induction false} DividirComoEstaSii(ps: seq<Part>, i: nat, n: nat, total: nat)
    requires Tesela(ps, total) && i < |ps| && n < ps[i].tamanio
    ensures Tesela(Dividir(ComoEsta, ps, i, n), total) <==> i == |ps| - 1
  {
    var r := Dividir(ComoEsta, ps, i, n);
    if i < |ps| - 1 {
      assert r[i + 1].base == ps[i + 1].base == ps[i].base + ps[i].tamanio;
      assert r[i].base + r[i].tamanio == ps[i].base + n;
    }
  }

  /** As written, a merge leaves a right limit exactly when it adds no space. */
  lemma {:induction false} UnirComoEstaSii(a: Part, b: Part)
    requires a.limite == Limite(a.base, a.tamanio)
    requires a.base + a.tamanio + b.tamanio <= WORD
    ensures var u := Unir(ComoEsta, a, b);
      u.limite == Limite(u.base, u.tamanio) <==> b.tamanio == 0 || (a.base + a.tamanio == 0 && b.tamanio == WORD)
  {
  }

  /** As written, the answer tells what happened (a partition was handed out, or not) exactly
      when the one found is larger than asked for. */
  lemma {:induction false} RespuestaVerazSii(alg: Algoritmo, ps: seq<Part>, pid: nat, n: nat)
    ensures var e, resp := Elegir(alg, ps, n, |ps|), Asignar(ComoEsta, Dinamicas, alg, ps, pid, n).1;
      (resp == (if e >= 0 then Confirma else Niega)) <==> e >= 0 && ps[e].tamanio > n
  {
  }

  predicate HayLugar(ps: seq<Part>, n: nat) {
    exists i :: 0 <= i < |ps| && Cabe(ps[i], n)
  }

  /** Every answer, in both schemes and variants. The module dereferences NULL exactly when the scheme is
      fixed, the code as written and no free partition large enough; it then answers nothing in the
      dynamic scheme, and no with the repair. */
  lemma {:induction false} RespuestaSii(v: Variante, esq: Esquema, alg: Algoritmo, ps: seq<Part>, pid: nat, n: nat)
    ensures var e, resp := Elegir(alg, ps, n, |ps|), Asignar(v, esq, alg, ps, pid, n).1;
      && (e >= 0 <==> HayLugar(ps, n))
      && (resp == Cae <==> v.ComoEsta? && esq.Fijas? && !HayLugar(ps, n))
      && (resp == SinRespuesta <==> v.ComoEsta? && esq.Dinamicas? && !HayLugar(ps, n))
      && (resp == Confirma <==>
            HayLugar(ps, n) && e >= 0 && (v.ComoEsta? && esq.Dinamicas? ==> ps[e].tamanio > n))
  {
    var e := Elegir(alg, ps, n, |ps|);
    if e >= 0 {
      assert Cabe(ps[e], n);
    }
  }

  lemma {:induction false} ElegirFirst(ps: seq<Part>, n: nat, i: nat)
    requires i < |ps| && Cabe(ps[i], n) && forall j :: 0 <= j < i ==> !Cabe(ps[j], n)
    ensures Elegir(First, ps, n, |ps|) == i
  {
    ElegirEs(First, ps, n, |ps|);
  }

  lemma {:induction false} EjecutarMas(v: Variante, esq: Esquema, ps: seq<Part>, es: seq<Evento>, e: Evento)
    ensures Ejecutar(v, esq, ps, es + [e]) == Paso(v, esq, Ejecutar(v, esq, ps, es), e)
  {
    assert (es + [e])[..|es|] == es;
  }

  /** `es` leads from the initial list of 1024 bytes to `ps`, in the code as it stands. */
  ghost predicate Lleva(es: seq<Evento>, ps: seq<Part>) {
    Ejecutar(ComoEsta, Dinamicas, Inicial(1024), es) == ps
  }

  lemma {:induction false} Pedir(es: seq<Evento>, ps: seq<Part>, pid: nat, n: nat, i: nat, r: seq<Part>)
    requires Lleva(es, ps) && i < |ps| && Cabe(ps[i], n) && forall j :: 0 <= j < i ==> !Cabe(ps[j], n)
    requires ps[i].tamanio > n && r == Dividir(ComoEsta, Ocupar(ps, i, pid), i, n)
    ensures Lleva(es + [Pide(First, pid, n)], r)
  {
    ElegirFirst(ps, n, i);
    EjecutarMas(ComoEsta, Dinamicas, Inicial(1024), es, Pide(First, pid, n));
  }

  lemma {:induction false} Terminar(es: seq<Evento>, ps: seq<Part>, pid: nat, i: nat, r: seq<Part>)
    requires Lleva(es, ps) && i < |ps| && ps[i].pid == pid && forall j :: 0 <= j < i ==> ps[j].pid != pid
    requires r == Consolidar(ComoEsta, Liberar(ps, i), i)
    ensures Lleva(es + [Termina(pid)], r)
  {
    EjecutarMas(ComoEsta, Dinamicas, Inicial(1024), es, Termina(pid));
  }

  /** Three processes come and go, and a remainder is left out of place in the list. */
  lemma {:induction false} FueraDeLugar() returns (es: seq<Evento>)
    ensures Lleva(es, [Part(0, 992, 31, true, 0), Part(32, 32, 63, true, 0)])
  {
    var libre, dos := Part(128, 896, 1023, true, 0), Part(64, 64, 127, false, 2);
    var resto, tres := Part(32, 32, 63, true, 0), Part(0, 32, 31, false, 3);
    var s1 := [Part(0, 64, 63, false, 1), Part(64, 960, 1023, true, 0)];
    var s4 := [tres, dos, libre, resto];
    var s5 := [tres, Part(64, 960, 127, true, 0), resto];
    Pedir([], Inicial(1024), 1, 64, 0, s1);
    es := [] + [Pide(First, 1, 64)];
    Pedir(es, s1, 2, 64, 1, [Part(0, 64, 63, false, 1), dos, libre]);
    es := es + [Pide(First, 2, 64)];
    Terminar(es, [Part(0, 64, 63, false, 1), dos, libre], 1, 0, [Part(0, 64, 63, true, 0), dos, libre]);
    es := es + [Termina(1)];
    Pedir(es, [Part(0, 64, 63, true, 0), dos, libre], 3, 32, 0, s4);
    es := es + [Pide(First, 3, 32)];
    Terminar(es, s4, 2, 1, s5);
    es := es + [Termina(2)];
    Terminar(es, s5, 3, 0, [Part(0, 992, 31, true, 0), resto]);
    es := es + [Termina(3)];
  }

  lemma {:induction false} CuatroEncima(ps: seq<Part>)
    requires ps == [Part(0, 992, 31, true, 0), Part(32, 32, 63, true, 0)]
    ensures Asignar(ComoEsta, Dinamicas, First, ps, 4, 512)
         == ([Part(0, 512, 511, false, 4), Part(32, 32, 63, true, 0), Part(512, 480, 991, true, 0)], Confirma)
  {
    ElegirFirst(ps, 512, 0);
    assert Dividir(ComoEsta, Ocupar(ps, 0, 4), 0, 512)
        == [Part(0, 512, 511, false, 4), Part(32, 32, 63, true, 0), Part(512, 480, 991, true, 0)];
  }

  lemma {:induction false} CincoDebajo(ps: seq<Part>)
    requires |ps| == 3 && ps[0] == Part(0, 512, 511, false, 4) && ps[1] == Part(32, 32, 63, true, 0)
    ensures var (qs, resp) := Asignar(ComoEsta, Dinamicas, First, ps, 5, 16);
      && resp == Confirma && |qs| == 4 && qs[0] == ps[0] && qs[1] == Part(32, 16, 47, false, 5)
  {
    ElegirFirst(ps, 16, 1);
  }

  /** As written, two live processes can be given the same bytes: a remainder listed out of
      place is covered again by a merge of list neighbours. Both requests are confirmed. */
  lemma {:induction false} ComoEstaSolapa() returns (es: seq<Evento>)
    ensures var ps := Ejecutar(ComoEsta, Dinamicas, Inicial(1024), es);
      var (ps4, resp4) := Asignar(ComoEsta, Dinamicas, First, ps, 4, 512);
      var (ps5, resp5) := Asignar(ComoEsta, Dinamicas, First, ps4, 5, 16);
      && resp4 == resp5 == Confirma
      && ps5[0] == Part(0, 512, 511, false, 4)
      && ps5[1] == Part(32, 16, 47, false, 5)
  {
    es := FueraDeLugar();
    CuatroEncima(Ejecutar(ComoEsta, Dinamicas, Inicial(1024), es));
    CincoDebajo([Part(0, 512, 511, false, 4), Part(32, 32, 63, true, 0), Part(512, 480, 991, true, 0)]);
  }
}
