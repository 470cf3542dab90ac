/** What each event of the memory that processes share does. */
module EventosMemoria {
  import opened Aislamiento
  import opened Comun
  import C = Cpu
  import P = Particiones
  import T = Threads
  import W = Wire

  /** Word `x` is written at `d`, and no other byte changes. */
  ghost predicate PalabraEn(a: seq<Byte>, b: seq<Byte>, d: nat, x: nat) {
    && d + 4 <= |a| && |b| == |a| && W.Numero(b, d) == x
    && forall k :: 0 <= k < |a| && !(d <= k < d + 4) ==> b[k] == a[k]
  }

  /** Process `pid` is handed partition `q`, of the size asked for, or at least that size in the fixed
      scheme; its private memory is what the partition holds. Every other partition in use stays. */
  ghost predicate Entrega(s: Sistema, t: Sistema, pid: nat, n: nat, q: P.Part) {
    && !q.libre && q.pid == pid && q.base + q.tamanio <= |s.mem|
    && (if s.esquema.Dinamicas? then q.tamanio == n else n <= q.tamanio)
    && (forall p: P.Part :: !p.libre ==> (p in t.particiones <==> p in s.particiones || p == q))
    && t == s.(particiones := t.particiones, privadas := s.privadas[pid := s.mem[q.base..q.base + q.tamanio]])
  }

  /** The process holds nothing more, has no threads, and none of it runs; nothing else changes. */
  ghost predicate Fin(s: Sistema, t: Sistema, pid: nat) {
    && (forall p: P.Part :: !p.libre ==> (p in t.particiones <==> p in s.particiones && p.pid != pid))
    && (forall id :: id in t.contextos <==> id in s.contextos && id.pid != pid)
    && (forall id :: id in t.contextos ==> t.contextos[id] == s.contextos[id])
    && t.corre == (if s.corre.Some? && s.corre.value.pid == pid then None else s.corre)
    && t == s.(particiones := t.particiones, contextos := t.contextos, corre := t.corre, privadas := s.privadas - {pid})
  }

  /** A write beyond the running thread's partition stops it. One inside changes that word alone, in the
      memory and in the private memory of its process, unless it would end the memory. */
  ghost predicate Escrita(s: Sistema, t: Sistema, x: nat, valor: nat)
    requires Puede(s, Escribe(x, valor))
  {
    var l, pid := s.contextos[s.corre.value], s.corre.value.pid;
    if x + 4 > l.limite then t == s.(corre := None)
    else if l.base + x + 4 >= |s.mem| then t == s
    else
      && pid in s.privadas && pid in t.privadas
      && t == s.(mem := t.mem, privadas := s.privadas[pid := t.privadas[pid]])
      && PalabraEn(s.mem, t.mem, l.base + x, valor) && PalabraEn(s.privadas[pid], t.privadas[pid], x, valor)
  }

  /** What each event leaves. */
  ghost predicate Hecho(s: Sistema, t: Sistema, e: Evento)
    requires Puede(s, e)
  {
    match e
    case Pide(_, pid, n) => if P.HayLugar(s.particiones, n) then exists q :: Entrega(s, t, pid, n, q) else t == s
    case Termina(pid) => Fin(s, t, pid)
    case CreaHilo(id) =>
      && id in t.contextos && t == s.(contextos := s.contextos[id := t.contextos[id]])
      && exists q :: EsDe(s.particiones, id.pid, t.contextos[id], q)
    case Cambia(id) => t == s.(corre := t.corre) && t.corre == Some(id)
    case Escribe(x, valor) => Escrita(s, t, x, valor)
    case Lee(x) => t == if x + 4 > s.contextos[s.corre.value].limite then s.(corre := None) else s
  }

  lemma {:induction false} TramoEs(mem: seq<Byte>, base: nat, tam: nat)
    requires base + tam <= |mem|
    ensures Tramo(mem, base, tam) == mem[base..base + tam]
  {
  }

  lemma {:induction false} SinLugar(esq: P.Esquema, alg: P.Algoritmo, ps: seq<P.Part>, pid: nat, n: nat)
    requires P.Elegir(alg, ps, n, |ps|) < 0
    ensures P.Asignar(Reparada, esq, alg, ps, pid, n).0 == ps
  {
  }

  lemma {:induction false} PedirEs(s: Sistema, alg: P.Algoritmo, pid: nat, n: nat)
    requires Orden(s) && Puede(s, Pide(alg, pid, n))
    ensures Hecho(s, Pedir(s, alg, pid, n), Pide(alg, pid, n))
  {
    hide P.Asignar, P.Elegir, P.Vivos, Tramo;
    P.RespuestaSii(Reparada, s.esquema, alg, s.particiones, pid, n);
    P.AsignarVivos(Reparada, s.esquema, alg, s.particiones, pid, n);
    var e := P.Elegir(alg, s.particiones, n, |s.particiones|);
    if e >= 0 {
      var q := P.Entregada(s.esquema, s.particiones[e], pid, n);
      assert P.Cabe(s.particiones[e], n);
      Dentro(s.particiones, |s.mem|, e);
      TramoEs(s.mem, q.base, q.tamanio);
      assert Entrega(s, Pedir(s, alg, pid, n), pid, n, q);
    } else {
      SinLugar(s.esquema, alg, s.particiones, pid, n);
    }
  }

  lemma {:induction false} TerminarEs(s: Sistema, pid: nat)
    requires Orden(s) && pid != 0
    ensures Fin(s, Terminar(s, pid), pid)
  {
    hide P.Finalizar;
    P.FinalizarVivos(Reparada, s.esquema, s.particiones, pid);
  }

  lemma {:induction false} CreaHiloEs(s: Sistema, id: T.Id)
    requires Orden(s) && Puede(s, CreaHilo(id))
    ensures Hecho(s, Paso(s, CreaHilo(id)), CreaHilo(id))
  {
    var q := s.particiones[P.BuscarPid(s.particiones, id.pid, 0)];
    assert q in s.particiones;
    assert EsDe(s.particiones, id.pid, Paso(s, CreaHilo(id)).contextos[id], q);
  }

  lemma {:induction false} MezclaEs(a: seq<Byte>, b: seq<Byte>, d: nat, x: nat)
    requires d + 4 <= |a| && |b| == |a| && x < WORD
    requires forall i :: 0 <= i < |a| ==> b[i] == C.Mezcla(a, d, x, i)
    ensures PalabraEn(a, b, d, x)
  {
    assert b[d + 0] == W.Octeto(x, 0) && b[d + 1] == W.Octeto(x, 1)
        && b[d + 2] == W.Octeto(x, 2) && b[d + 3] == W.Octeto(x, 3);
    W.SumaDeOctetos(x);
  }

  lemma {:induction false} EscribeEs(s: Sistema, x: nat, valor: nat)
    requires Orden(s) && Aislado(s) && Puede(s, Escribe(x, valor))
    ensures Escrita(s, Escribir(s, x, valor), x, valor)
  {
    hide Orden, Aislado;
    var q := SuParticion(s);
    EscribirEs(s, x, valor, q);
    var privada, t := s.privadas[q.pid], Escribir(s, x, valor);
    assert s.privadas[q.pid := privada] == s.privadas;
    if x + 4 <= q.tamanio && q.base + x + 4 < |s.mem| {
      MezclaEs(s.mem, t.mem, q.base + x, valor);
      MezclaEs(privada, t.privadas[q.pid], x, valor);
    }
  }

  lemma {:induction false} LeeEs(s: Sistema, x: nat)
    requires Puede(s, Lee(x))
    ensures Hecho(s, Paso(s, Lee(x)), Lee(x))
  {
  }

  lemma {:induction false} PasoEs(s: Sistema, e: Evento)
    requires Orden(s) && Aislado(s) && Puede(s, e)
    ensures Hecho(s, Paso(s, e), e)
  {
    match e
    case Pide(alg, pid, n) => PedirEs(s, alg, pid, n);
    case Termina(pid) => TerminarEs(s, pid);
    case CreaHilo(id) => CreaHiloEs(s, id);
    case Cambia(_) =>
    case Escribe(x, valor) => EscribeEs(s, x, valor);
    case Lee(x) => LeeEs(s, x);
  }

  /** The state that a run reaches from `s`, told by its events alone. */
  ghost predicate Alcanza(s: Sistema, es: seq<Evento>, t: Sistema)
    decreases |es|
  {
    if es == [] then t == s
    else exists u :: (if Puede(s, es[0]) then Hecho(s, u, es[0]) else u == s) && Alcanza(u, es[1..], t)
  }

  /** Every run does what its events say, one after the other. */
  lemma {:induction false} CorrerEs(s: Sistema, es: seq<Evento>)
    requires Orden(s) && Aislado(s)
    ensures Alcanza(s, es, Correr(s, es))
    decreases |es|
  {
    hide Orden, Aislado, Paso, Puede, Hecho;
    if es == [] {
    } else {
      var u := if Puede(s, es[0]) then Paso(s, es[0]) else s;
      if Puede(s, es[0]) {
        PasoConserva(s, es[0]);
        PasoEs(s, es[0]);
      }
      CorrerEs(u, es[1..]);
    }
  }
}
