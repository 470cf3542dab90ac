/** Choosing the next ready thread by priority. */
module Planificador {
  import opened Comun

  /** `buscar_hilo_menorNro_prioridad`: the position, among the first `k`, of the lowest
      priority number; the earliest of them. */
  function Menor(ps: seq<int>, k: nat): (i: nat)
    requires 1 <= k <= |ps|
    ensures i < k
    ensures forall j :: 0 <= j < k ==> ps[i] <= ps[j]
    ensures forall j :: 0 <= j < i ==> ps[i] < ps[j]
  {
    if k == 1 then 0
    else
      var i := Menor(ps, k - 1);
      if ps[k - 1] < ps[i] then k - 1 else i
  }

  /** A ready thread, whoever it is, with its priority. */
  datatype Listo<T> = Listo(quien: T, prioridad: int)

  function Prioridades<T>(ls: seq<Listo<T>>): (ps: seq<int>)
    ensures |ps| == |ls|
  {
    seq(|ls|, i requires 0 <= i < |ls| => ls[i].prioridad)
  }

  /** The order in which the ready list empties when the chosen thread is removed each time. */
  function Vaciar<T>(ls: seq<Listo<T>>): seq<Listo<T>>
    decreases |ls|
  {
    if ls == [] then []
    else
      var i := Menor(Prioridades(ls), |ls|);
      [ls[i]] + Vaciar(ls[..i] + ls[i + 1..])
  }

  /** The threads of priority `p`, in order. */
  function DePrioridad<T>(ls: seq<Listo<T>>, p: int): seq<Listo<T>> {
    if ls == [] then []
    else (if ls[0].prioridad == p then [ls[0]] else []) + DePrioridad(ls[1..], p)
  }

  ghost predicate Ordenada<T>(ls: seq<Listo<T>>) {
    forall i, j :: 0 <= i < j < |ls| ==> ls[i].prioridad <= ls[j].prioridad
  }

  lemma {:induction false} DePrioridadConcat<T>(a: seq<Listo<T>>, b: seq<Listo<T>>, p: int)
    ensures DePrioridad(a + b, p) == DePrioridad(a, p) + DePrioridad(b, p)
  {
    if a == [] {
      assert a + b == b;
    } else {
      var x := if a[0].prioridad == p then [a[0]] else [];
      assert (a + b)[0] == a[0] && (a + b)[1..] == a[1..] + b;
      DePrioridadConcat(a[1..], b, p);
      Asociar(x, DePrioridad(a[1..], p), DePrioridad(b, p));
    }
  }

  lemma {:induction false} NingunoDe<T>(ls: seq<Listo<T>>, p: int)
    requires forall i :: 0 <= i < |ls| ==> ls[i].prioridad != p
    ensures DePrioridad(ls, p) == []
  {
    if ls == [] {
    } else {
      NingunoDe(ls[1..], p);
    }
  }

  /** Taking the chosen thread out of the list takes the first of its priority and no other. */
  lemma {:induction false} SacarElegido<T>(ls: seq<Listo<T>>, p: int)
    requires ls != []
    ensures var i := Menor(Prioridades(ls), |ls|);
      DePrioridad(ls, p) == (if ls[i].prioridad == p then [ls[i]] else []) + DePrioridad(ls[..i] + ls[i + 1..], p)
  {
    var i := Menor(Prioridades(ls), |ls|);
    var a, x, b := ls[..i], ls[i], ls[i + 1..];
    assert ls == a + ([x] + b);
    DePrioridadConcat(a, [x] + b, p);
    DePrioridadConcat(a, b, p);
    assert ([x] + b)[1..] == b;
    if x.prioridad == p {
      forall j | 0 <= j < |a| ensures a[j].prioridad != p {
        assert Prioridades(ls)[i] < Prioridades(ls)[j];
      }
      NingunoDe(a, p);
    }
  }

  lemma {:induction false} VaciarPermuta<T>(ls: seq<Listo<T>>)
    ensures multiset(Vaciar(ls)) == multiset(ls)
    decreases |ls|
  {
    if ls == [] {
    } else {
      var i := Menor(Prioridades(ls), |ls|);
      VaciarPermuta(ls[..i] + ls[i + 1..]);
      assert ls == ls[..i] + [ls[i]] + ls[i + 1..];
    }
  }

  lemma {:induction false} EstaEn<T>(ls: seq<Listo<T>>, x: Listo<T>) returns (j: nat)
    requires x in multiset(ls)
    ensures j < |ls| && ls[j] == x
  {
    j :| 0 <= j < |ls| && ls[j] == x;
  }

  /** The chosen one goes before all that is left. */
  lemma {:induction false} ElegidoDelante<T>(ls: seq<Listo<T>>, i: nat, k: nat)
    requires ls != [] && i == Menor(Prioridades(ls), |ls|) && k < |Vaciar(ls[..i] + ls[i + 1..])|
    ensures ls[i].prioridad <= Vaciar(ls[..i] + ls[i + 1..])[k].prioridad
  {
    var resto := ls[..i] + ls[i + 1..];
    var x := Vaciar(resto)[k];
    VaciarPermuta(resto);
    assert x in multiset(Vaciar(resto));
    var j := EstaEn(resto, x);
    var m := if j < i then j else j + 1;
    assert resto[j] == ls[m];
    assert Prioridades(ls)[i] <= Prioridades(ls)[m];
  }

  lemma {:induction false} PonerDelante<T>(x: Listo<T>, ls: seq<Listo<T>>)
    requires Ordenada(ls) && forall k :: 0 <= k < |ls| ==> x.prioridad <= ls[k].prioridad
    ensures Ordenada([x] + ls)
  {
  }

  lemma {:induction false} VaciarAscendente<T>(ls: seq<Listo<T>>)
    ensures Ordenada(Vaciar(ls))
    decreases |ls|
  {
    if ls == [] {
    } else {
      var i := Menor(Prioridades(ls), |ls|);
      var resto := ls[..i] + ls[i + 1..];
      VaciarAscendente(resto);
      forall k | 0 <= k < |Vaciar(resto)| ensures ls[i].prioridad <= Vaciar(resto)[k].prioridad {
        ElegidoDelante(ls, i, k);
      }
      PonerDelante(ls[i], Vaciar(resto));
    }
  }

  lemma {:induction false} VaciarEstable<T>(ls: seq<Listo<T>>, p: int)
    ensures DePrioridad(Vaciar(ls), p) == DePrioridad(ls, p)
    decreases |ls|
  {
    if ls == [] {
    } else {
      var i := Menor(Prioridades(ls), |ls|);
      VaciarEstable(ls[..i] + ls[i + 1..], p);
      SacarElegido(ls, p);
      assert Vaciar(ls)[1..] == Vaciar(ls[..i] + ls[i + 1..]);
    }
  }

  /** Emptying the ready list by priority is a stable sort: a permutation, in order of
      priority, with the threads of each priority in the order they arrived. */
  lemma {:induction false} VaciarOrdena<T>(ls: seq<Listo<T>>)
    ensures multiset(Vaciar(ls)) == multiset(ls)
    ensures Ordenada(Vaciar(ls))
    ensures forall p :: DePrioridad(Vaciar(ls), p) == DePrioridad(ls, p)
  {
    VaciarPermuta(ls);
    VaciarAscendente(ls);
    forall p {
      VaciarEstable(ls, p);
    }
  }

  lemma {:induction false} NoVacia<T>(a: seq<Listo<T>>)
    requires a != []
    ensures DePrioridad(a, a[0].prioridad) != []
  {
  }

  lemma {:induction false} PrimeraIgual<T>(a: seq<Listo<T>>, b: seq<Listo<T>>)
    requires a != [] && b != [] && Ordenada(b)
    requires DePrioridad(a, a[0].prioridad) == DePrioridad(b, a[0].prioridad)
    ensures b[0].prioridad <= a[0].prioridad
  {
    if b[0].prioridad > a[0].prioridad {
      NingunoDe(b, a[0].prioridad);
    }
  }

  /** There is only one stable sort: any list in priority order that agrees with another,
      priority by priority, is that other's emptying order. */
  lemma {:induction false} OrdenEstableUnico<T>(a: seq<Listo<T>>, b: seq<Listo<T>>)
    requires Ordenada(a) && Ordenada(b)
    requires forall p :: DePrioridad(a, p) == DePrioridad(b, p)
    ensures a == b
  {
    if a == [] {
      if b != [] {
        NoVacia(b);
      }
    } else if b == [] {
      NoVacia(a);
    } else {
      PrimeraIgual(a, b);
      PrimeraIgual(b, a);
      var x := a[0];
      assert DePrioridad(a, x.prioridad)[0] == x && DePrioridad(b, x.prioridad)[0] == b[0];
      forall p ensures DePrioridad(a[1..], p) == DePrioridad(b[1..], p) {
        assert DePrioridad(a, p) == (if x.prioridad == p then [x] else []) + DePrioridad(a[1..], p);
        assert DePrioridad(b, p) == (if x.prioridad == p then [x] else []) + DePrioridad(b[1..], p);
        assert DePrioridad(a[1..], p) == DePrioridad(a, p)[if x.prioridad == p then 1 else 0..];
        assert DePrioridad(b[1..], p) == DePrioridad(b, p)[if x.prioridad == p then 1 else 0..];
      }
      OrdenEstableUnico(a[1..], b[1..]);
      assert a == [x] + a[1..] && b == [x] + b[1..];
    }
  }
}
