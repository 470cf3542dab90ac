/** The block bitmap of the file system: one bit per block, packed eight to a byte,
    lowest bit first. */
module Bitmap {
  /** What `reservar_bloques` answers when it runs out of bitmap: (uint32_t)-1. */
  const NINGUN_BLOQUE: nat := 0xFFFF_FFFF

  /** The test `byte & (1 << i)`, taken as the lowest bit of `byte >> i`. */
  predicate Ocupado(b: bv8, i: nat)
    requires i < 8
  {
    if i == 0 then b & 1 == 1 else Ocupado(b >> 1, i - 1)
  }

  /** The assignment `byte |= (1 << i)`. */
  function Marcar(b: bv8, i: nat): bv8
    requires i < 8
  {
    b | (1 << i)
  }

  function BitsDe(b: bv8): seq<bool> {
    seq(8, i requires 0 <= i < 8 => Ocupado(b, i))
  }

  function BitsHasta(bytes: seq<bv8>, n: nat): (bits: seq<bool>)
    requires n <= |bytes|
    ensures |bits| == 8 * n
  {
    if n == 0 then [] else BitsHasta(bytes, n - 1) + BitsDe(bytes[n - 1])
  }

  /** The bitmap as one flag per block, true when the block is in use. */
  function Bits(bytes: seq<bv8>): (bits: seq<bool>)
    ensures |bits| == 8 * |bytes|
  {
    BitsHasta(bytes, |bytes|)
  }

  /** How many of the first `k` blocks are free. */
  function LibresHasta(bits: seq<bool>, k: nat): (n: nat)
    requires k <= |bits|
    ensures n <= k
  {
    if k == 0 then 0 else LibresHasta(bits, k - 1) + if bits[k - 1] then 0 else 1
  }

  function Libres(bits: seq<bool>): nat {
    LibresHasta(bits, |bits|)
  }

  /** The bitmap after asking for `n` blocks. When there are that many, its `n` lowest free
      blocks are taken: a block is in use if it was before, or if fewer than `n` free blocks
      precede it. Asked for none, or for more than there are, every block is taken. */
  function Reservar(bits: seq<bool>, n: nat): (r: seq<bool>)
    ensures |r| == |bits|
  {
    seq(|bits|, k requires 0 <= k < |bits| =>
      bits[k] || !(1 <= n <= Libres(bits)) || LibresHasta(bits, k) < n)
  }

  ghost predicate PrimerLibre(bits: seq<bool>, k: nat) {
    k < |bits| && !bits[k] && forall j :: 0 <= j < k ==> bits[j]
  }

  /** The first free block from `k` on, or one past the end. */
  function PrimeroDesde(bits: seq<bool>, k: nat): (r: nat)
    requires k <= |bits|
    ensures k <= r <= |bits| && (r < |bits| ==> !bits[r])
    ensures forall j :: k <= j < r ==> bits[j]
    decreases |bits| - k
  {
    if k == |bits| || !bits[k] then k else PrimeroDesde(bits, k + 1)
  }

  /** The outcome of a reservation: the new bitmap and the block number answered. */
  ghost predicate Reservado(antes: seq<bool>, despues: seq<bool>, n: nat, primer: nat) {
    && despues == Reservar(antes, n)
    && primer == if 1 <= n <= Libres(antes) then PrimeroDesde(antes, 0) else NINGUN_BLOQUE
  }

  lemma {:induction false} LibresMonotona(bits: seq<bool>, j: nat, k: nat)
    requires j <= k <= |bits|
    ensures LibresHasta(bits, j) <= LibresHasta(bits, k)
    ensures LibresHasta(bits, k) - LibresHasta(bits, j) <= k - j
    decreases k - j
  {
    if j >= k {
    } else {
      LibresMonotona(bits, j, k - 1);
    }
  }

  lemma {:induction false} LibresCero(bits: seq<bool>, k: nat)
    requires k <= |bits|
    ensures LibresHasta(bits, k) == 0 <==> forall j :: 0 <= j < k ==> bits[j]
  {
    if k == 0 {
    } else {
      LibresCero(bits, k - 1);
    }
  }

  lemma {:induction false} Corrimiento(b: bv8, i: nat)
    requires 0 < i < 8
    ensures ((b >> 1) & (1 << (i - 1)) != 0) == (b & (1 << i) != 0)
  {
  }

  lemma {:induction false} OcupadoEs(b: bv8, i: nat)
    requires i < 8
    ensures Ocupado(b, i) == (b & (1 << i) != 0)
  {
    if i == 0 {
    } else {
      OcupadoEs(b >> 1, i - 1);
      Corrimiento(b, i);
    }
  }

  lemma {:induction false} MascaraDisjunta(b: bv8, i: nat, j: nat)
    requires i < 8 && j < 8
    ensures ((b | (1 << i)) & (1 << j) != 0) == (i == j || b & (1 << j) != 0)
  {
  }

  lemma {:induction false} MarcarBit(b: bv8, i: nat, j: nat)
    requires i < 8 && j < 8
    ensures Ocupado(Marcar(b, i), j) == (i == j || Ocupado(b, j))
  {
    OcupadoEs(b, j);
    OcupadoEs(Marcar(b, i), j);
    MascaraDisjunta(b, i, j);
  }

  /** Bit `i` of byte `o` is block `8 * o + i`. */
  lemma {:induction false} BloqueEnByte(bytes: seq<bv8>, o: nat, i: nat, n: nat)
    requires o < n <= |bytes| && i < 8
    ensures BitsHasta(bytes, n)[8 * o + i] == Ocupado(bytes[o], i)
  {
    if o >= n - 1 {
    } else {
      BloqueEnByte(bytes, o, i, n - 1);
    }
  }

  lemma {:induction false} MarcarByte(bytes: seq<bv8>, o: nat, i: nat, n: nat)
    requires o < |bytes| && i < 8 && n <= |bytes|
    ensures BitsHasta(bytes[o := Marcar(bytes[o], i)], n)
         == if o < n then BitsHasta(bytes, n)[8 * o + i := true] else BitsHasta(bytes, n)
  {
    if n == 0 {
    } else {
      MarcarByte(bytes, o, i, n - 1);
      forall j | 0 <= j < 8 ensures BitsDe(Marcar(bytes[o], i))[j] == BitsDe(bytes[o])[i := true][j] {
        MarcarBit(bytes[o], i, j);
      }
    }
  }

  /** Counts the free blocks, byte by byte and bit by bit. */
  method CantidadBloquesLibres(bitmap: array<bv8>) returns (libres: nat)
    ensures libres == Libres(Bits(bitmap[..]))
  {
    ghost var bits := Bits(bitmap[..]);
    libres := 0;
    var offset := 0;
    while offset < bitmap.Length
      invariant offset <= bitmap.Length
      invariant libres == LibresHasta(bits, 8 * offset)
    {
      var byte := bitmap[offset];
      for i := 0 to 8
        invariant libres == LibresHasta(bits, 8 * offset + i)
      {
        BloqueEnByte(bitmap[..], offset, i, bitmap.Length);
        if !Ocupado(byte, i) {
          libres := libres + 1;
        }
      }
      offset := offset + 1;
    }
  }

  /** Takes block `i` of byte `o` if it is free: sets its bit and writes the byte back. */
  method MarcarOcupado(bitmap: array<bv8>, o: nat, byte: bv8, i: nat) returns (tomado: bool, nuevo: bv8)
    requires o < bitmap.Length && i < 8 && byte == bitmap[o]
    modifies bitmap
    ensures nuevo == bitmap[o]
    ensures tomado == !Bits(old(bitmap[..]))[8 * o + i]
    ensures Bits(bitmap[..]) == Bits(old(bitmap[..]))[8 * o + i := true]
  {
    BloqueEnByte(bitmap[..], o, i, bitmap.Length);
    tomado, nuevo := !Ocupado(byte, i), byte;
    if tomado {
      MarcarByte(bitmap[..], o, i, bitmap.Length);
      nuevo := Marcar(byte, i);
      bitmap[o] := nuevo;
      assert bitmap[..] == old(bitmap[..])[o := nuevo];
    }
  }

  /** The scan has passed `p` blocks: all of them are taken, the rest untouched. */
  ghost predicate Avance(antes: seq<bool>, ahora: seq<bool>, p: nat, asignados: nat, primer: nat) {
    && p <= |antes| == |ahora|
    && asignados == LibresHasta(antes, p)
    && (forall k :: 0 <= k < |antes| ==> ahora[k] == (k < p || antes[k]))
    && (if asignados == 0 then primer == NINGUN_BLOQUE else PrimerLibre(antes, primer))
  }

  /** Looking at one more block moves the scan on, whether it is found taken or is taken now. */
  lemma {:induction false} PasoDeReserva(antes: seq<bool>, ahora: seq<bool>, p: nat, asignados: nat, primer: nat)
    requires Avance(antes, ahora, p, asignados, primer) && p < |antes| <= NINGUN_BLOQUE
    ensures ahora[p] == antes[p]
    ensures if ahora[p] then Avance(antes, ahora[p := true], p + 1, asignados, primer)
            else Avance(antes, ahora[p := true], p + 1, asignados + 1,
                        if primer == NINGUN_BLOQUE then p else primer)
  {
    LibresCero(antes, p);
  }

  lemma {:induction false} Termina(antes: seq<bool>, ahora: seq<bool>, p: nat, n: nat, primer: nat)
    requires p < |antes| && !antes[p] && n > 0
    requires Avance(antes, ahora, p + 1, n, primer)
    ensures Reservado(antes, ahora, n, primer)
  {
    LibresMonotona(antes, p + 1, |antes|);
    forall k | 0 <= k < |antes| ensures ahora[k] == Reservar(antes, n)[k] {
      if k <= p {
        LibresMonotona(antes, k, p);
      } else {
        LibresMonotona(antes, p + 1, k);
      }
    }
  }

  lemma {:induction false} Agota(antes: seq<bool>, ahora: seq<bool>, n: nat, asignados: nat, primer: nat)
    requires Avance(antes, ahora, |antes|, asignados, primer)
    requires n == 0 || asignados < n
    ensures Reservado(antes, ahora, n, NINGUN_BLOQUE)
  {
  }

  /** Takes free blocks from the lowest up, writing each changed byte back, until `n` are
      taken. Asked for none, or for more than there are, it takes every block there is. */
  method ReservarBloques(bitmap: array<bv8>, n: nat) returns (primer: nat)
    requires 8 * bitmap.Length <= NINGUN_BLOQUE
    modifies bitmap
    ensures Reservado(Bits(old(bitmap[..])), Bits(bitmap[..]), n, primer)
  {
    ghost var antes, p := Bits(bitmap[..]), 0;
    ghost var ahora := antes;
    var asignados := 0;
    primer := NINGUN_BLOQUE;
    var offset := 0;
    while offset < bitmap.Length
      invariant offset <= bitmap.Length && p == 8 * offset && ahora == Bits(bitmap[..])
      invariant Avance(antes, ahora, p, asignados, primer)
      invariant n == 0 || asignados < n
    {
      var byte := bitmap[offset];
      for i := 0 to 8
        invariant byte == bitmap[offset] && p == 8 * offset + i && ahora == Bits(bitmap[..])
        invariant Avance(antes, ahora, p, asignados, primer)
        invariant n == 0 || asignados < n
      {
        PasoDeReserva(antes, ahora, p, asignados, primer);
        ahora, p := ahora[p := true], p + 1;
        var tomado;
        tomado, byte := MarcarOcupado(bitmap, offset, byte, i);
        if tomado {
          if primer == NINGUN_BLOQUE {
            primer := 8 * offset + i;
          }
          asignados := asignados + 1;
          if asignados == n {
            Termina(antes, ahora, p - 1, n, primer);
            return;
          }
        }
      }
      offset := offset + 1;
    }
    Agota(antes, ahora, n, asignados, primer);
    primer := NINGUN_BLOQUE;
  }

  // --- What a reservation means ---

  lemma {:induction false} DescuentaHasta(bits: seq<bool>, n: nat, k: nat)
    requires 1 <= n <= Libres(bits) && k <= |bits|
    ensures LibresHasta(Reservar(bits, n), k)
         == if LibresHasta(bits, k) <= n then 0 else LibresHasta(bits, k) - n
  {
    if k == 0 {
    } else {
      DescuentaHasta(bits, n, k - 1);
    }
  }

  /** Reserving `n` of the free blocks leaves exactly `n` fewer of them. */
  lemma {:induction false} ReservarDescuenta(bits: seq<bool>, n: nat)
    requires 1 <= n <= Libres(bits)
    ensures Libres(Reservar(bits, n)) == Libres(bits) - n
  {
    DescuentaHasta(bits, n, |bits|);
  }

  /** The blocks a reservation takes, none of which was in use. */
  ghost predicate Tomado(bits: seq<bool>, n: nat, k: nat)
    requires k < |bits|
  {
    Reservar(bits, n)[k] && !bits[k]
  }

  /** From the first free block on there are at least as many blocks as free blocks. */
  lemma {:induction false} CabenDesdeElPrimero(bits: seq<bool>, primer: nat)
    requires PrimerLibre(bits, primer)
    ensures primer + Libres(bits) <= |bits|
  {
    LibresCero(bits, primer);
    LibresMonotona(bits, primer, |bits|);
  }

  lemma {:induction false} TramoLibre(bits: seq<bool>, primer: nat, k: nat)
    requires primer <= k <= |bits| && LibresHasta(bits, primer) == 0
    requires forall j :: primer <= j < k ==> !bits[j]
    ensures LibresHasta(bits, k) == k - primer
    decreases k
  {
    if k <= primer {
    } else {
      TramoLibre(bits, primer, k - 1);
    }
  }

  /** The blocks taken are the `n` consecutive ones from the first exactly when all of those
      were free. Only then does writing `n` blocks in a row use the blocks reserved. */
  lemma {:induction false} ReservaContigua(bits: seq<bool>, n: nat, primer: nat)
    requires 1 <= n <= Libres(bits) && PrimerLibre(bits, primer)
    ensures primer + n <= |bits|
    ensures (forall k :: 0 <= k < |bits| ==> Tomado(bits, n, k) == (primer <= k < primer + n))
       <==> (forall k :: primer <= k < primer + n ==> !bits[k])
  {
    CabenDesdeElPrimero(bits, primer);
    LibresCero(bits, primer);
    if forall k :: primer <= k < primer + n ==> !bits[k] {
      forall k | 0 <= k < |bits| ensures Tomado(bits, n, k) == (primer <= k < primer + n) {
        if primer <= k {
          TramoLibre(bits, primer, if k < primer + n then k else primer + n);
          if k >= primer + n {
            LibresMonotona(bits, primer + n, k);
          }
        }
      }
    }
    if forall k :: 0 <= k < |bits| ==> Tomado(bits, n, k) == (primer <= k < primer + n) {
      forall k | primer <= k < primer + n ensures !bits[k] {
        assert Tomado(bits, n, k);
      }
    }
  }
}
