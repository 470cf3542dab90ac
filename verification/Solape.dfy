/** When the partitions of the code as it stands come to share bytes: its merges join list
    neighbours, wherever in memory they lie. */
module Solape {
  import opened Comun
  import opened Particiones

  /** Byte `x` belongs to partition `p`. */
  predicate Tiene(p: Part, x: int) {
    p.base <= x < p.base + p.tamanio
  }

  /** No byte belongs to both. */
  predicate Ajenas(p: Part, q: Part) {
    p.tamanio == 0 || q.tamanio == 0 || p.base + p.tamanio <= q.base || q.base + q.tamanio <= p.base
  }

  ghost predicate Disjuntas(ps: seq<Part>) {
    forall i, j :: 0 <= i < j < |ps| ==> Ajenas(ps[i], ps[j])
  }

  ghost predicate Dentro(ps: seq<Part>, total: nat) {
    forall i :: 0 <= i < |ps| ==> ps[i].base + ps[i].tamanio <= total
  }

  ghost predicate Tapado(ps: seq<Part>, x: int) {
    exists i :: 0 <= i < |ps| && Tiene(ps[i], x)
  }

  ghost predicate Cubre(ps: seq<Part>, total: nat) {
    forall x :: 0 <= x < total ==> Tapado(ps, x)
  }

  /** In whatever order they are listed, the partitions share no byte, lie inside the memory and
      cover it. */
  ghost predicate Reparto(ps: seq<Part>, total: nat) {
    Disjuntas(ps) && Dentro(ps, total) && Cubre(ps, total)
  }

  /** The second partition begins where the first one ends, or is empty. */
  predicate Contiguas(p: Part, q: Part) {
    q.base == p.base + p.tamanio || q.tamanio == 0
  }

  lemma {:induction false} AjenasEs(p: Part, q: Part, x: int)
    requires Tiene(p, x) && Tiene(q, x)
    ensures !Ajenas(p, q)
  {
  }

  lemma {:induction false} Distinta(ps: seq<Part>, i: nat, j: nat)
    requires Disjuntas(ps) && i < |ps| && j < |ps| && i != j
    ensures Ajenas(ps[i], ps[j])
  {
  }

  /** The list after a merge, position by position. */
  lemma {:induction false} UnirLista(ps: seq<Part>, i: nat)
    requires i + 1 < |ps|
    ensures var r := UnirEn(ComoEsta, ps, i);
      && |r| == |ps| - 1 && r[i] == Unir(ComoEsta, ps[i], ps[i + 1])
      && (forall k :: 0 <= k < i ==> r[k] == ps[k])
      && (forall k, m :: i + 1 < k < |ps| && m == k - 1 ==> r[m] == ps[k])
  {
  }

  /** A merge of contiguous partitions takes over exactly the bytes it should. */
  lemma {:induction false} UnirContiguas(ps: seq<Part>, total: nat, i: nat)
    requires Reparto(ps, total) && i + 1 < |ps| && Contiguas(ps[i], ps[i + 1])
    ensures Reparto(UnirEn(ComoEsta, ps, i), total)
  {
    var r := UnirEn(ComoEsta, ps, i);
    UnirLista(ps, i);
    forall j, k | 0 <= j < k < |r| ensures Ajenas(r[j], r[k]) {
      var j' := if j <= i then j else j + 1;
      var k' := if k <= i then k else k + 1;
      assert r[j] == ps[j'] || j == i;
      assert r[k] == ps[k'] || k == i;
      Distinta(ps, j', k');
      if j == i {
        Distinta(ps, i + 1, k');
      }
      if k == i {
        Distinta(ps, i + 1, j');
      }
    }
    forall k | 0 <= k < |r| ensures r[k].base + r[k].tamanio <= total {
      assert k != i ==> r[k] == ps[if k < i then k else k + 1];
    }
    forall x | 0 <= x < total ensures Tapado(r, x) {
      assert Tapado(ps, x);
      var k :| 0 <= k < |ps| && Tiene(ps[k], x);
      assert Tiene(r[if k <= i then k else k - 1], x);
    }
  }

  /** A merge of partitions that are not contiguous reaches past the memory, or over a byte that
      another partition has. */
  lemma {:induction false} UnirSeparadas(ps: seq<Part>, total: nat, i: nat)
    requires Reparto(ps, total) && i + 1 < |ps| && !Contiguas(ps[i], ps[i + 1])
    ensures !Disjuntas(UnirEn(ComoEsta, ps, i)) || !Dentro(UnirEn(ComoEsta, ps, i), total)
  {
    var r := UnirEn(ComoEsta, ps, i);
    UnirLista(ps, i);
    if Dentro(r, total) {
      assert r[i].base + r[i].tamanio <= total;
      Distinta(ps, i, i + 1);
      var x := ps[i].base + ps[i].tamanio;
      if Tiene(ps[i + 1], x) {
        x := ps[i + 1].base + ps[i + 1].tamanio;
      }
      assert Tiene(r[i], x) && !Tiene(ps[i], x) && !Tiene(ps[i + 1], x);
      assert Tapado(ps, x);
      var k :| 0 <= k < |ps| && Tiene(ps[k], x);
      var m := if k < i then k else k - 1;
      assert r[m] == ps[k];
      AjenasEs(r[i], r[m], x);
    }
  }

  /** As written, merging two list neighbours leaves partitions that share no byte and stay
      inside the memory exactly when the second begins where the first one ends, or is empty. */
  lemma {:induction false} UnirSii(ps: seq<Part>, total: nat, i: nat)
    requires Reparto(ps, total) && i + 1 < |ps|
    ensures Disjuntas(UnirEn(ComoEsta, ps, i)) && Dentro(UnirEn(ComoEsta, ps, i), total)
       <==> ps[i + 1].base == ps[i].base + ps[i].tamanio || ps[i + 1].tamanio == 0
  {
    if Contiguas(ps[i], ps[i + 1]) {
      UnirContiguas(ps, total, i);
    } else {
      UnirSeparadas(ps, total, i);
    }
  }

  // --- The other operations ---

  /** Marking a partition as held or free moves no byte. */
  lemma {:induction false} MarcarReparto(ps: seq<Part>, total: nat, i: nat, libre: bool, pid: nat)
    requires Reparto(ps, total) && i < |ps|
    ensures Reparto(ps[i := ps[i].(libre := libre, pid := pid)], total)
  {
    var r := ps[i := ps[i].(libre := libre, pid := pid)];
    forall j, k | 0 <= j < k < |r| ensures Ajenas(r[j], r[k]) {
      Distinta(ps, j, k);
    }
    forall x | 0 <= x < total ensures Tapado(r, x) {
      assert Tapado(ps, x);
      var k :| 0 <= k < |ps| && Tiene(ps[k], x);
      assert Tiene(r[k], x);
    }
  }

  /** A split keeps the bytes apart, wherever the remainder is listed. */
  lemma {:induction false} DividirReparto(ps: seq<Part>, total: nat, i: nat, n: nat)
    requires Reparto(ps, total) && i < |ps| && n < ps[i].tamanio
    ensures Reparto(Dividir(ComoEsta, ps, i, n), total)
  {
    var r := Dividir(ComoEsta, ps, i, n);
    forall j, k | 0 <= j < k < |r| ensures Ajenas(r[j], r[k]) {
      if k < |ps| {
        Distinta(ps, j, k);
      } else if j != i {
        Distinta(ps, i, j);
      }
    }
    forall x | 0 <= x < total ensures Tapado(r, x) {
      assert Tapado(ps, x);
      var k :| 0 <= k < |ps| && Tiene(ps[k], x);
      assert Tiene(r[k], x) || (k == i && Tiene(r[|ps|], x));
    }
  }

  lemma {:induction false} AsignarReparto(alg: Algoritmo, ps: seq<Part>, total: nat, pid: nat, n: nat)
    requires Reparto(ps, total)
    ensures Reparto(Asignar(ComoEsta, Dinamicas, alg, ps, pid, n).0, total)
  {
    var e := Elegir(alg, ps, n, |ps|);
    if e >= 0 {
      MarcarReparto(ps, total, e, false, pid);
      if ps[e].tamanio > n {
        DividirReparto(Ocupar(ps, e, pid), total, e, n);
      }
    }
  }

  // --- The end of a process ---

  /** Bytes `p` and then bytes `q`, empty partitions aside, go on from byte `b`. */
  predicate EnCadena(b: int, p: Part, q: Part) {
    (p.tamanio == 0 || p.base == b) && (q.tamanio == 0 || q.base == b + p.tamanio)
  }

  /** The freed partition and its two neighbours follow one another, or the next one lies between
      the previous one and the freed one. */
  predicate TresSeguidas(p: Part, f: Part, n: Part) {
    EnCadena(p.base + p.tamanio, f, n) || EnCadena(p.base + p.tamanio, n, f)
  }

  /** What the end of a process joins around partition `i` is one stretch of bytes, starting where
      the first of the partitions joined starts. */
  predicate UneEntero(ps: seq<Part>, i: nat)
    requires i < |ps|
  {
    var antes, despues := i > 0 && ps[i - 1].libre, i + 1 < |ps| && ps[i + 1].libre;
    if antes && despues then TresSeguidas(ps[i - 1], ps[i], ps[i + 1])
    else if despues then Contiguas(ps[i], ps[i + 1])
    else antes ==> Contiguas(ps[i - 1], ps[i])
  }

  /** No byte is shared, and none is outside. */
  ghost predicate SinRoce(ps: seq<Part>, total: nat) {
    Disjuntas(ps) && Dentro(ps, total)
  }

  /** `m` starts where `p` does and is as large as the three. */
  predicate Suma(m: Part, p: Part, f: Part, n: Part) {
    m.base == p.base && m.tamanio == p.tamanio + f.tamanio + n.tamanio
  }

  lemma {:induction false} SumaAjena(m: Part, p: Part, f: Part, n: Part, q: Part)
    requires Suma(m, p, f, n) && TresSeguidas(p, f, n) && Ajenas(p, q) && Ajenas(f, q) && Ajenas(n, q)
    ensures Ajenas(m, q)
  {
  }

  lemma {:induction false} SumaTiene(m: Part, p: Part, f: Part, n: Part, x: int)
    requires Suma(m, p, f, n) && TresSeguidas(p, f, n)
    ensures Tiene(m, x) <==> Tiene(p, x) || Tiene(f, x) || Tiene(n, x)
  {
  }

  /** A stretch that starts where `p` does, as large as the three and made of their bytes alone,
      has them one after another. */
  lemma {:induction false} SumaSeguida(m: Part, p: Part, f: Part, n: Part)
    requires Suma(m, p, f, n) && Ajenas(p, f) && Ajenas(p, n) && Ajenas(f, n)
    requires forall x :: Tiene(m, x) ==> Tiene(p, x) || Tiene(f, x) || Tiene(n, x)
    ensures TresSeguidas(p, f, n)
  {
    var fin, finF, finN := p.base + p.tamanio, f.base + f.tamanio, n.base + n.tamanio;
    assert f.tamanio + n.tamanio > 0 ==> Tiene(m, fin);
    assert p.base <= finF < p.base + m.tamanio ==> Tiene(m, finF);
    assert p.base <= finN < p.base + m.tamanio ==> Tiene(m, finN);
  }

  /** The list after both merges, position by position. */
  lemma {:induction false} ConsolidarLista(ps: seq<Part>, i: nat)
    requires 0 < i && i + 1 < |ps| && ps[i - 1].libre && ps[i + 1].libre
    ensures var r := Consolidar(ComoEsta, ps, i);
      && |r| == |ps| - 2 && Suma(r[i - 1], ps[i - 1], ps[i], ps[i + 1])
      && (forall k :: 0 <= k < i - 1 ==> r[k] == ps[k])
      && (forall k, m :: i + 1 < k < |ps| && m == k - 2 ==> r[m] == ps[k])
  {
    var r := UnirSiguiente(ComoEsta, ps, i);
    UnirLista(ps, i);
    UnirLista(r, i - 1);
    forall k, m | i + 1 < k < |ps| && m == k - 2 ensures Consolidar(ComoEsta, ps, i)[m] == ps[k] {
      assert r[k - 1] == ps[k];
    }
  }

  /** Where a partition that no merge touches comes to be listed. */
  function Lugar(i: nat, k: nat): nat
    requires 0 < i
  {
    if k < i then k else if k <= i + 1 then i - 1 else k - 2
  }

  lemma {:induction false} TresAjenas(ps: seq<Part>, i: nat, k: nat)
    requires Disjuntas(ps) && 0 < i && i + 1 < |ps| && k < |ps| && !(i - 1 <= k <= i + 1)
    ensures Ajenas(ps[i - 1], ps[k]) && Ajenas(ps[i], ps[k]) && Ajenas(ps[i + 1], ps[k])
  {
    Distinta(ps, i - 1, k);
    Distinta(ps, i, k);
    Distinta(ps, i + 1, k);
  }

  lemma {:induction false} TresDisjuntas(ps: seq<Part>, i: nat, j: nat, k: nat)
    requires Disjuntas(ps) && 0 < i && i + 1 < |ps| && ps[i - 1].libre && ps[i + 1].libre
    requires TresSeguidas(ps[i - 1], ps[i], ps[i + 1]) && j < k < |ps| - 2
    ensures Ajenas(Consolidar(ComoEsta, ps, i)[j], Consolidar(ComoEsta, ps, i)[k])
  {
    var r := Consolidar(ComoEsta, ps, i);
    var j', k' := if j < i then j else j + 2, if k < i then k else k + 2;
    ConsolidarLista(ps, i);
    if j == i - 1 {
      TresAjenas(ps, i, k');
      SumaAjena(r[j], ps[i - 1], ps[i], ps[i + 1], ps[k']);
    } else if k == i - 1 {
      TresAjenas(ps, i, j');
      SumaAjena(r[k], ps[i - 1], ps[i], ps[i + 1], ps[j']);
    } else {
      Distinta(ps, j', k');
    }
  }

  lemma {:induction false} TresDentro(ps: seq<Part>, total: nat, i: nat, k: nat)
    requires Dentro(ps, total) && 0 < i && i + 1 < |ps| && ps[i - 1].libre && ps[i + 1].libre
    requires TresSeguidas(ps[i - 1], ps[i], ps[i + 1]) && k < |ps| - 2
    ensures var q := Consolidar(ComoEsta, ps, i)[k]; q.base + q.tamanio <= total
  {
    ConsolidarLista(ps, i);
    if k != i - 1 {
      assert Consolidar(ComoEsta, ps, i)[k] == ps[if k < i then k else k + 2];
    }
  }

  lemma {:induction false} TresTapan(ps: seq<Part>, i: nat, x: int)
    requires Tapado(ps, x) && 0 < i && i + 1 < |ps| && ps[i - 1].libre && ps[i + 1].libre
    requires TresSeguidas(ps[i - 1], ps[i], ps[i + 1])
    ensures Tapado(Consolidar(ComoEsta, ps, i), x)
  {
    var r := Consolidar(ComoEsta, ps, i);
    var k :| 0 <= k < |ps| && Tiene(ps[k], x);
    ConsolidarLista(ps, i);
    SumaTiene(r[i - 1], ps[i - 1], ps[i], ps[i + 1], x);
    assert Tiene(r[Lugar(i, k)], x);
  }

  lemma {:induction false} TresReparto(ps: seq<Part>, total: nat, i: nat)
    requires Reparto(ps, total) && 0 < i && i + 1 < |ps| && ps[i - 1].libre && ps[i + 1].libre
    requires TresSeguidas(ps[i - 1], ps[i], ps[i + 1])
    ensures Reparto(Consolidar(ComoEsta, ps, i), total)
  {
    var r := Consolidar(ComoEsta, ps, i);
    ConsolidarLista(ps, i);
    forall j, k | 0 <= j < k < |r| ensures Ajenas(r[j], r[k]) {
      TresDisjuntas(ps, i, j, k);
    }
    forall k | 0 <= k < |r| ensures r[k].base + r[k].tamanio <= total {
      TresDentro(ps, total, i, k);
    }
    forall x | 0 <= x < total ensures Tapado(r, x) {
      assert Tapado(ps, x);
      TresTapan(ps, i, x);
    }
  }

  lemma {:induction false} TresSinRoce(ps: seq<Part>, total: nat, i: nat)
    requires Reparto(ps, total) && 0 < i && i + 1 < |ps| && ps[i - 1].libre && ps[i + 1].libre
    requires SinRoce(Consolidar(ComoEsta, ps, i), total)
    ensures TresSeguidas(ps[i - 1], ps[i], ps[i + 1])
  {
    var r := Consolidar(ComoEsta, ps, i);
    var p, f, n := ps[i - 1], ps[i], ps[i + 1];
    ConsolidarLista(ps, i);
    forall x | Tiene(r[i - 1], x) ensures Tiene(p, x) || Tiene(f, x) || Tiene(n, x) {
      assert Tapado(ps, x);
      var k :| 0 <= k < |ps| && Tiene(ps[k], x);
      if !(i - 1 <= k <= i + 1) {
        assert r[Lugar(i, k)] == ps[k];
        Distinta(r, i - 1, Lugar(i, k));
        AjenasEs(r[i - 1], r[Lugar(i, k)], x);
      }
    }
    Distinta(ps, i - 1, i);
    Distinta(ps, i - 1, i + 1);
    Distinta(ps, i, i + 1);
    SumaSeguida(r[i - 1], p, f, n);
  }

  lemma {:induction false} UnaSola(ps: seq<Part>, total: nat, i: nat)
    requires Reparto(ps, total) && i + 1 < |ps|
    ensures SinRoce(UnirEn(ComoEsta, ps, i), total) <==> Contiguas(ps[i], ps[i + 1])
    ensures Reparto(UnirEn(ComoEsta, ps, i), total) <==> Contiguas(ps[i], ps[i + 1])
  {
    UnirSii(ps, total, i);
    if Contiguas(ps[i], ps[i + 1]) {
      UnirContiguas(ps, total, i);
    }
  }

  /** As written, the merges made at the end of a process leave partitions that share no byte and
      stay inside the memory, for any list in any order, exactly when what they join is one stretch
      of bytes; and then the memory is shared out again. */
  lemma {:induction false} ConsolidarSii(ps: seq<Part>, total: nat, i: nat)
    requires Reparto(ps, total) && i < |ps|
    ensures SinRoce(Consolidar(ComoEsta, ps, i), total) <==> UneEntero(ps, i)
    ensures Reparto(Consolidar(ComoEsta, ps, i), total) <==> UneEntero(ps, i)
  {
    if i > 0 && ps[i - 1].libre && i + 1 < |ps| && ps[i + 1].libre {
      if TresSeguidas(ps[i - 1], ps[i], ps[i + 1]) {
        TresReparto(ps, total, i);
      } else if SinRoce(Consolidar(ComoEsta, ps, i), total) {
        TresSinRoce(ps, total, i);
      }
    } else if i + 1 < |ps| && ps[i + 1].libre {
      UnaSola(ps, total, i);
    } else if i > 0 && ps[i - 1].libre {
      UnaSola(ps, total, i - 1);
    }
  }

  // --- Runs ---

  /** Whatever the step joins is one stretch of bytes. */
  predicate PasoEntero(ps: seq<Part>, e: Evento) {
    e.Termina? ==>
      var i := BuscarPid(ps, e.pid, 0);
      i < |ps| ==> UneEntero(Liberar(ps, i), i)
  }

  predicate TodoEntero(total: nat, es: seq<Evento>) {
    es == []
    || (TodoEntero(total, es[..|es| - 1])
        && PasoEntero(Ejecutar(ComoEsta, Dinamicas, Inicial(total), es[..|es| - 1]), es[|es| - 1]))
  }

  /** After no step of the run is a byte shared, or outside. */
  ghost predicate NuncaRoza(total: nat, es: seq<Evento>) {
    && SinRoce(Ejecutar(ComoEsta, Dinamicas, Inicial(total), es), total)
    && (es != [] ==> NuncaRoza(total, es[..|es| - 1]))
  }

  lemma {:induction false} PasoEnteroSii(ps: seq<Part>, e: Evento, total: nat)
    requires Reparto(ps, total)
    ensures SinRoce(Paso(ComoEsta, Dinamicas, ps, e), total) <==> PasoEntero(ps, e)
    ensures PasoEntero(ps, e) ==> Reparto(Paso(ComoEsta, Dinamicas, ps, e), total)
  {
    match e
    case Pide(alg, pid, n) => AsignarReparto(alg, ps, total, pid, n);
    case Termina(pid) =>
      var i := BuscarPid(ps, pid, 0);
      if i < |ps| {
        MarcarReparto(ps, total, i, true, 0);
        ConsolidarSii(Liberar(ps, i), total, i);
      }
  }

  lemma {:induction false} InicialReparto(total: nat)
    ensures Reparto(Inicial(total), total)
  {
    forall x | 0 <= x < total ensures Tapado(Inicial(total), x) {
      assert Tiene(Inicial(total)[0], x);
    }
  }

  /** As written, in none of the states between the handlers of a run of the dynamic scheme do two
      partitions share a byte, or one reach past the memory, exactly when whatever each end of a
      process joins is one stretch of bytes. */
  lemma {:induction false} NuncaRozaSii(total: nat, es: seq<Evento>)
    ensures NuncaRoza(total, es) <==> TodoEntero(total, es)
    ensures TodoEntero(total, es) ==> Reparto(Ejecutar(ComoEsta, Dinamicas, Inicial(total), es), total)
  {
    if es == [] {
      InicialReparto(total);
    } else {
      var antes := es[..|es| - 1];
      NuncaRozaSii(total, antes);
      if TodoEntero(total, antes) {
        PasoEnteroSii(Ejecutar(ComoEsta, Dinamicas, Inicial(total), antes), es[|es| - 1], total);
      }
    }
  }

  /** So, over every such run, no byte belongs to two partitions. */
  lemma {:induction false} VivosNoSeSolapan(total: nat, es: seq<Evento>, p: Part, q: Part, x: int)
    requires TodoEntero(total, es)
    requires var ps := Ejecutar(ComoEsta, Dinamicas, Inicial(total), es);
      p in ps && q in ps && p != q && Tiene(p, x)
    ensures !Tiene(q, x) && 0 <= x < total
  {
    var ps := Ejecutar(ComoEsta, Dinamicas, Inicial(total), es);
    NuncaRozaSii(total, es);
    var i :| 0 <= i < |ps| && ps[i] == p;
    var j :| 0 <= j < |ps| && ps[j] == q;
    Distinta(ps, i, j);
  }
}
