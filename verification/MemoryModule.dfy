/** The memory module's partition list, with the partition records updated in place. Every
    operation is proved to do what `Particiones` says of the list's values. */
module MemoryModule {
  import opened Comun
  import opened Particiones

  class Particion {
    var base: nat
    var limite: nat
    var tamanio: nat
    var libre: bool
    var pid: nat

    ghost function Valor(): Part
      reads this
    {
      Part(base, tamanio, limite, libre, pid)
    }

    constructor (base: nat, tamanio: nat)
      ensures Valor() == Nueva(base, tamanio)
    {
      this.base, this.tamanio := base, tamanio;
      limite := Limite(base, tamanio);
      libre, pid := true, 0;
    }
  }

  /** The configured partitions from the `i`-th on, one at a time. */
  lemma {:induction false} FijarDesde(tamanios: seq<nat>, i: nat, inicio: nat, antes: seq<Part>)
    requires i < |tamanios|
    ensures antes + Fijar(tamanios[i..], inicio)
         == antes + [Nueva(inicio, tamanios[i])] + Fijar(tamanios[i + 1..], inicio + tamanios[i])
  {
    assert tamanios[i..][1..] == tamanios[i + 1..];
  }

  lemma {:induction false} FirstQueda(ps: seq<Part>, n: nat, j: nat, k: nat)
    requires j <= k <= |ps| && Elegir(First, ps, n, j) >= 0
    ensures Elegir(First, ps, n, k) == Elegir(First, ps, n, j)
    decreases k
  {
    if j >= k {
    } else {
      FirstQueda(ps, n, j, k - 1);
    }
  }

  lemma {:induction false} BuscarPidEs(ps: seq<Part>, pid: nat, i: nat)
    requires i <= |ps| && forall j :: 0 <= j < i ==> ps[j].pid != pid
    requires i < |ps| ==> ps[i].pid == pid
    ensures BuscarPid(ps, pid, 0) == i
  {
  }

  class Memoria {
    const variante: Variante
    const esquema: Esquema
    const algoritmo: Algoritmo
    var particiones: seq<Particion>

    /** Each record is listed once. */
    ghost predicate Valid()
      reads this
    {
      forall i, j :: 0 <= i < j < |particiones| ==> particiones[i] != particiones[j]
    }

    /** The list by value. */
    ghost function Vista(): (ps: seq<Part>)
      reads this, particiones
      ensures |ps| == |particiones|
      ensures forall i :: 0 <= i < |ps| ==> ps[i] == particiones[i].Valor()
    {
      seq(|particiones|, i requires 0 <= i < |particiones| reads this, particiones => particiones[i].Valor())
    }

    constructor Dinamica(variante: Variante, algoritmo: Algoritmo, tamanio: nat)
      ensures Valid() && this.variante == variante && this.algoritmo == algoritmo && esquema == Dinamicas
      ensures fresh(particiones) && Vista() == Inicial(tamanio)
    {
      var unica := new Particion(0, tamanio);
      this.variante, esquema, this.algoritmo := variante, Dinamicas, algoritmo;
      particiones := [unica];
    }

    method AgregarFija(base: nat, tamanio: nat)
      requires Valid()
      modifies this`particiones
      ensures Valid() && Vista() == old(Vista()) + [Nueva(base, tamanio)]
      ensures |particiones| == |old(particiones)| + 1 && particiones[..|old(particiones)|] == old(particiones)
      ensures fresh(particiones[|old(particiones)|])
    {
      var p := new Particion(base, tamanio);
      particiones := particiones + [p];
    }

    constructor Fija(variante: Variante, algoritmo: Algoritmo, tamanios: seq<nat>)
      ensures Valid() && this.variante == variante && this.algoritmo == algoritmo && esquema == Fijas
      ensures fresh(particiones) && Vista() == Fijar(tamanios, 0)
    {
      this.variante, esquema, this.algoritmo := variante, Fijas, algoritmo;
      particiones := [];
      new;
      var inicio := 0;
      assert tamanios[0..] == tamanios;
      for i := 0 to |tamanios|
        invariant Valid() && fresh(particiones)
        invariant |particiones| == i && Vista() + Fijar(tamanios[i..], inicio) == Fijar(tamanios, 0)
      {
        FijarDesde(tamanios, i, inicio, Vista());
        AgregarFija(inicio, tamanios[i]);
        inicio := inicio + tamanios[i];
      }
    }

    method AlgoritmoFirstFit(n: nat) returns (e: int)
      ensures e == Elegir(First, Vista(), n, |particiones|)
    {
      for i := 0 to |particiones|
        invariant Elegir(First, Vista(), n, i) == -1
      {
        if particiones[i].libre && particiones[i].tamanio >= n {
          FirstQueda(Vista(), n, i + 1, |particiones|);
          return i;
        }
      }
      return -1;
    }

    method AlgoritmoBestFit(n: nat) returns (e: int)
      ensures e == Elegir(Best, Vista(), n, |particiones|)
    {
      e := -1;
      for i := 0 to |particiones|
        invariant e == Elegir(Best, Vista(), n, i)
      {
        if particiones[i].libre && particiones[i].tamanio >= n {
          if e == -1 || particiones[i].tamanio < particiones[e].tamanio {
            e := i;
          }
        }
      }
    }

    method AlgoritmoWorstFit(n: nat) returns (e: int)
      ensures e == Elegir(Worst, Vista(), n, |particiones|)
    {
      e := -1;
      for i := 0 to |particiones|
        invariant e == Elegir(Worst, Vista(), n, i)
      {
        if particiones[i].libre && particiones[i].tamanio >= n {
          if e == -1 || particiones[i].tamanio > particiones[e].tamanio {
            e := i;
          }
        }
      }
    }

    method EvaluarParticion(n: nat) returns (e: int)
      ensures e == Elegir(algoritmo, Vista(), n, |particiones|)
    {
      match algoritmo
      case First => e := AlgoritmoFirstFit(n);
      case Best => e := AlgoritmoBestFit(n);
      case Worst => e := AlgoritmoWorstFit(n);
    }

    /** Marks partition `i` as held by `pid`, or as free. */
    method Marcar(i: nat, libre: bool, pid: nat)
      requires Valid() && i < |particiones|
      modifies particiones[i]
      ensures Vista() == old(Vista())[i := old(Vista())[i].(libre := libre, pid := pid)]
    {
      particiones[i].libre := libre;
      particiones[i].pid := pid;
    }

    /** The record itself shrinks to its first `n` bytes. */
    method Recortar(i: nat, n: nat)
      requires Valid() && i < |particiones|
      modifies particiones[i]
      ensures Valid()
      ensures Vista() == old(Vista())[i := old(Vista())[i].(tamanio := n, limite := Limite(particiones[i].base, n),
          libre := false)]
    {
      var p := particiones[i];
      p.tamanio := n;
      p.libre := false;
      p.limite := Limite(p.base, n);
    }

    method DividirParticion(i: nat, n: nat)
      requires Valid() && i < |particiones| && n < particiones[i].tamanio
      modifies this, particiones[i]
      ensures Valid() && Vista() == Dividir(variante, old(Vista()), i, n)
      ensures forall p :: p in particiones ==> p in old(particiones) || fresh(p)
    {
      var p := particiones[i];
      var resto := new Particion(p.base + n, p.tamanio - n);
      assert Vista() == old(Vista());
      Recortar(i, n);
      Listar(resto, i);
    }

    /** The remainder is listed: at the end as written, after the `i`-th partition repaired. */
    method Listar(resto: Particion, i: nat)
      requires Valid() && i < |particiones| && resto !in particiones
      modifies this`particiones
      ensures Valid() && forall p :: p in particiones ==> p in old(particiones) || p == resto
      ensures Vista() == if variante.ComoEsta? then old(Vista()) + [resto.Valor()]
                         else old(Vista())[..i + 1] + [resto.Valor()] + old(Vista())[i + 1..]
    {
      if variante.ComoEsta? {
        particiones := particiones + [resto];
      } else {
        particiones := particiones[..i + 1] + [resto] + particiones[i + 1..];
      }
    }

    /** `asignar_particiones_fijas` and `asignar_particiones_dinamicas`. */
    method AsignarMemoria(pid: nat, n: nat) returns (resp: Respuesta)
      requires Valid()
      modifies this, particiones
      ensures Valid() && (Vista(), resp) == Asignar(variante, esquema, algoritmo, old(Vista()), pid, n)
      ensures forall p :: p in particiones ==> p in old(particiones) || fresh(p)
    {
      var e := EvaluarParticion(n);
      if e == -1 {
        resp := if variante.Reparada? then Niega else if esquema.Fijas? then Cae else SinRespuesta;
        return;
      }
      Marcar(e, false, pid);
      resp := if variante.Reparada? || esquema.Fijas? then Confirma else Niega;
      if esquema.Dinamicas? && particiones[e].tamanio > n {
        DividirParticion(e, n);
        resp := Confirma;
      }
    }

    /** Takes partition `i + 1` into partition `i`. */
    method Absorber(i: nat)
      requires Valid() && i + 1 < |particiones|
      modifies this, particiones[i]
      ensures Valid() && Vista() == UnirEn(variante, old(Vista()), i)
      ensures |particiones| == old(|particiones|) - 1 && forall p :: p in particiones ==> p in old(particiones)
    {
      var actual, siguiente := particiones[i], particiones[i + 1];
      actual.tamanio := actual.tamanio + siguiente.tamanio;
      if variante.Reparada? {
        actual.limite := Limite(actual.base, actual.tamanio);
      }
      particiones := particiones[..i + 1] + particiones[i + 2..];
    }

    method ConsolidarParticionesLibres(indice: nat)
      requires Valid() && indice < |particiones|
      modifies this, particiones
      ensures Valid() && Vista() == Consolidar(variante, old(Vista()), indice)
      ensures forall p :: p in particiones ==> p in old(particiones)
    {
      if indice + 1 < |particiones| && particiones[indice + 1].libre {
        Absorber(indice);
      }
      if indice > 0 && particiones[indice - 1].libre {
        assert particiones[indice - 1] in particiones;
        Absorber(indice - 1);
      }
    }

    /** `finalizar_proceso`: frees the first partition that carries `pid`. */
    method FinalizarProceso(pid: nat) returns (encontrado: bool)
      requires Valid()
      modifies this, particiones
      ensures Valid() && Vista() == Finalizar(variante, esquema, old(Vista()), pid)
      ensures encontrado == exists p :: p in old(Vista()) && p.pid == pid
      ensures forall p :: p in particiones ==> p in old(particiones)
    {
      for i := 0 to |particiones|
        invariant unchanged(this) && unchanged(particiones)
        invariant forall j :: 0 <= j < i ==> particiones[j].pid != pid
      {
        if particiones[i].pid == pid {
          BuscarPidEs(Vista(), pid, i);
          assert Vista()[i] in Vista();
          Marcar(i, true, 0);
          if esquema.Dinamicas? {
            ConsolidarParticionesLibres(i);
          }
          return true;
        }
      }
      BuscarPidEs(Vista(), pid, |particiones|);
      return false;
    }

    /** `buscar_particion_por_pid`: NULL when the process has none. */
    method BuscarParticionPorPid(pid: nat) returns (p: Particion?)
      ensures var i := BuscarPid(Vista(), pid, 0);
        if i < |particiones| then p == particiones[i] else p == null
    {
      for i := 0 to |particiones|
        invariant forall j :: 0 <= j < i ==> particiones[j].pid != pid
      {
        if particiones[i].pid == pid {
          BuscarPidEs(Vista(), pid, i);
          return particiones[i];
        }
      }
      BuscarPidEs(Vista(), pid, |particiones|);
      return null;
    }
  }
}
