/** The file system: a block bitmap, the flat file of blocks, and file creation. Files are
    never deleted. */
module FileSystem {
  import opened Bitmap
  import opened Comun

  datatype Config = Config(blockSize: nat, blockCount: nat) {
    /** Blocks the bitmap has bits for: whole bytes, so possibly a few more than `blockCount`. */
    function Bloques(): nat {
      8 * ((blockCount + 7) / 8)
    }

    /** The configuration is usable: 32-bit offsets reach every block. */
    predicate Valida() {
      blockSize >= 1 && blockCount >= 1 && Bytes(Bloques()) <= WORD && Bloques() <= NINGUN_BLOQUE
    }

    /** The size of `n` blocks, `n * blockSize` (see `BytesEs`). */
    function Bytes(n: nat): nat {
      if n == 0 then 0 else Bytes(n - 1) + blockSize
    }
  }

  /** A file on record: its first block and what was put in it. */
  datatype Archivo = Archivo(primero: nat, contenido: seq<Byte>)

  /** The state of the module; `archivos` is the history of the files created. */
  datatype Fs = Fs(bits: seq<bool>, disco: seq<Byte>, archivos: seq<Archivo>)

  /** A request to create a file of `tamanio` bytes, taken from `contenido`. */
  datatype Pedido = Pedido(contenido: seq<Byte>, tamanio: nat) {
    predicate Valido() {
      tamanio < WORD && tamanio <= |contenido|
    }
  }

  /** The integer quotient `a / b` (see `CocienteEs`). */
  function Cociente(a: nat, b: nat): nat
    requires b >= 1
  {
    if a < b then 0 else 1 + Cociente(a - b, b)
  }

  /** `(tamanio + block_size - 1) / block_size`, on 32 bits. */
  function BloquesNecesarios(cfg: Config, tamanio: nat): nat
    requires cfg.Valida()
  {
    Cociente(Mod32(tamanio + cfg.blockSize - 1), cfg.blockSize)
  }

  /** The true number of blocks of a file. */
  function Techo(tamanio: nat, blockSize: nat): nat
    requires blockSize >= 1
  {
    if tamanio <= blockSize then (if tamanio == 0 then 0 else 1) else 1 + Techo(tamanio - blockSize, blockSize)
  }

  /** `fseek` to `offset` and `fwrite` of `datos`: overwrites, and extends the file when it has
      to, with zeros up to `offset` if it starts past the end. */
  function Escribir(disco: seq<Byte>, offset: nat, datos: seq<Byte>): (r: seq<Byte>)
    ensures |r| == if datos == [] || offset + |datos| <= |disco| then |disco| else offset + |datos|
  {
    var n := if datos == [] || offset + |datos| <= |disco| then |disco| else offset + |datos|;
    seq(n, k requires 0 <= k < n =>
      if offset <= k < offset + |datos| then datos[k - offset] else if k < |disco| then disco[k] else 0)
  }

  /** The bytes from `offset` on are `datos`. */
  ghost predicate Contiene(disco: seq<Byte>, offset: nat, datos: seq<Byte>) {
    && offset + |datos| <= |disco|
    && forall k :: 0 <= k < |datos| ==> disco[offset + k] == datos[k]
  }

  /** Stores `datos` in `n` blocks. */
  function Guardar(cfg: Config, s: Fs, datos: seq<Byte>, n: nat): Fs {
    var primero := PrimeroDesde(s.bits, 0);
    Fs(Reservar(s.bits, n), Escribir(s.disco, cfg.Bytes(primero), datos), s.archivos + [Archivo(primero, datos)])
  }

  /** `crear_archivo`: a file with enough room gets the lowest free blocks and is written in
      one run from the first of them. A request that rounds to no block at all is let through
      by the space check, takes every block and stores nothing. */
  function Crear(cfg: Config, s: Fs, p: Pedido): Fs
    requires cfg.Valida() && p.Valido()
  {
    var n := BloquesNecesarios(cfg, p.tamanio);
    if Libres(s.bits) < n then s
    else if n == 0 then s.(bits := Reservar(s.bits, 0))
    else Guardar(cfg, s, p.contenido[..p.tamanio], n)
  }

  function Inicial(cfg: Config): Fs
    requires cfg.Valida()
  {
    Fs(seq(cfg.Bloques(), _ => false), seq(cfg.Bytes(cfg.blockCount), _ => 0), [])
  }

  /** The state after serving `pedidos` in order from the freshly formatted disk. */
  function Ejecutar(cfg: Config, pedidos: seq<Pedido>): Fs
    requires cfg.Valida() && forall p :: p in pedidos ==> p.Valido()
  {
    if pedidos == [] then Inicial(cfg)
    else Crear(cfg, Ejecutar(cfg, pedidos[..|pedidos| - 1]), pedidos[|pedidos| - 1])
  }

  // --- The invariant ---

  function Usados(bits: seq<bool>): int {
    |bits| - Libres(bits)
  }

  /** The blocks of the first `k` files. */
  function Total(archivos: seq<Archivo>, blockSize: nat, k: nat): nat
    requires k <= |archivos| && blockSize >= 1
  {
    if k == 0 then 0
    else Total(archivos, blockSize, k - 1) + Techo(|archivos[k - 1].contenido|, blockSize)
  }

  /** Reading back from its first block gives what file `a` was created with. */
  ghost predicate SeLee(cfg: Config, disco: seq<Byte>, a: Archivo) {
    Contiene(disco, cfg.Bytes(a.primero), a.contenido)
  }

  /** Block `k` belongs to file `a`. */
  ghost predicate EsDe(cfg: Config, a: Archivo, k: nat)
    requires cfg.blockSize >= 1
  {
    a.primero <= k < a.primero + Techo(|a.contenido|, cfg.blockSize)
  }

  /** The blocks in use come first. */
  ghost predicate Prefijo(bits: seq<bool>) {
    forall k :: 0 <= k < |bits| ==> (bits[k] <==> k < Usados(bits))
  }

  ghost predicate Archivado(cfg: Config, archivos: seq<Archivo>, disco: seq<Byte>, i: nat)
    requires cfg.blockSize >= 1 && i < |archivos|
  {
    && archivos[i].contenido != []
    && archivos[i].primero == Total(archivos, cfg.blockSize, i)
    && SeLee(cfg, disco, archivos[i])
  }

  /** The files lie one after another from block 0, and all of them read back. */
  ghost predicate Archivados(cfg: Config, archivos: seq<Archivo>, disco: seq<Byte>)
    requires cfg.blockSize >= 1
  {
    forall i :: 0 <= i < |archivos| ==> Archivado(cfg, archivos, disco, i)
  }

  ghost predicate Inv(cfg: Config, s: Fs)
    requires cfg.blockSize >= 1
  {
    && Prefijo(s.bits)
    && |s.disco| <= cfg.Bytes(|s.bits|)
    && Total(s.archivos, cfg.blockSize, |s.archivos|) <= Usados(s.bits)
    && (Libres(s.bits) > 0 ==> Total(s.archivos, cfg.blockSize, |s.archivos|) == Usados(s.bits))
    && Archivados(cfg, s.archivos, s.disco)
  }

  // --- Arithmetic of blocks ---

  lemma {:induction false} BytesEs(cfg: Config, n: nat)
    ensures cfg.Bytes(n) == n * cfg.blockSize
  {
    if n == 0 {
    } else {
      BytesEs(cfg, n - 1);
    }
  }

  lemma {:induction false} BytesSuma(cfg: Config, a: nat, b: nat)
    ensures cfg.Bytes(a + b) == cfg.Bytes(a) + cfg.Bytes(b)
  {
    if b == 0 {
    } else {
      BytesSuma(cfg, a, b - 1);
    }
  }

  lemma {:induction false} BytesMono(cfg: Config, a: nat, b: nat)
    requires a <= b
    ensures cfg.Bytes(a) <= cfg.Bytes(b)
  {
    BytesSuma(cfg, a, b - a);
  }

  /** A file fits in its blocks and needs the last of them. */
  lemma {:induction false} TechoEs(cfg: Config, t: nat)
    requires cfg.blockSize >= 1
    ensures t <= cfg.Bytes(Techo(t, cfg.blockSize)) < t + cfg.blockSize
    ensures t > 0 ==> Techo(t, cfg.blockSize) >= 1
  {
    if t > cfg.blockSize {
      TechoEs(cfg, t - cfg.blockSize);
    } else {
      assert cfg.Bytes(1) == cfg.blockSize;
    }
  }

  lemma {:induction false} MulMono(a: nat, b: nat, c: nat)
    requires a <= b
    ensures a * c <= b * c
  {
  }

  lemma {:induction false} CocienteUnico(a: nat, b: nat, q: nat, r: nat)
    requires b >= 1 && a == q * b + r && r < b
    ensures a / b == q
  {
    var q' := a / b;
    assert a == q' * b + a % b;
    if q' > q {
      MulMono(q + 1, q', b);
    } else if q' < q {
      MulMono(q' + 1, q, b);
    }
  }

  lemma {:induction false} CocienteEs(a: nat, b: nat)
    requires b >= 1
    ensures Cociente(a, b) == a / b
  {
    if a >= b {
      CocienteEs(a - b, b);
      assert a == (a - b) / b * b + (a - b) % b + b;
      CocienteUnico(a, b, (a - b) / b + 1, (a - b) % b);
    } else {
      CocienteUnico(a, b, 0, a);
    }
  }

  lemma {:induction false} TechoEsCociente(t: nat, bs: nat)
    requires bs >= 1
    ensures Cociente(t + bs - 1, bs) == Techo(t, bs)
  {
    if t <= bs {
    } else {
      TechoEsCociente(t - bs, bs);
    }
  }

  lemma {:induction false} FormulaEs(t: nat, bs: nat)
    requires 1 <= bs <= WORD && t < WORD
    ensures Cociente(Mod32(t + bs - 1), bs) == if t + bs <= WORD then Techo(t, bs) else 0
    ensures Cociente(Mod32(t + bs - 1), bs) == 0 <==> t == 0 || t + bs > WORD
  {
    TechoEsCociente(t, bs);
    if t + bs - 1 >= WORD {
      assert Mod32(t + bs - 1) == t + bs - 1 - WORD;
    }
  }

  lemma {:induction false} BloqueCabe(cfg: Config)
    requires cfg.Valida()
    ensures 1 <= cfg.blockSize <= WORD
  {
    BytesMono(cfg, 1, cfg.Bloques());
    assert cfg.Bytes(1) == cfg.blockSize;
  }

  /** The 32-bit formula counts blocks correctly up to 2^32 - block_size; past that it wraps
      round and gives none. */
  lemma {:induction false} BloquesNecesariosEs(cfg: Config, tamanio: nat)
    requires cfg.Valida() && tamanio < WORD
    ensures BloquesNecesarios(cfg, tamanio)
         == if tamanio + cfg.blockSize <= WORD then Techo(tamanio, cfg.blockSize) else 0
    ensures BloquesNecesarios(cfg, tamanio) == 0 <==> tamanio == 0 || tamanio + cfg.blockSize > WORD
  {
    BloqueCabe(cfg);
    TechoEs(cfg, tamanio);
    FormulaEs(tamanio, cfg.blockSize);
  }

  lemma {:induction false} TotalMono(archivos: seq<Archivo>, bs: nat, j: nat, k: nat)
    requires j <= k <= |archivos| && bs >= 1
    ensures Total(archivos, bs, j) <= Total(archivos, bs, k)
    decreases k - j
  {
    if j >= k {
    } else {
      TotalMono(archivos, bs, j, k - 1);
    }
  }

  lemma {:induction false} TotalPrefijo(archivos: seq<Archivo>, mas: seq<Archivo>, bs: nat, k: nat)
    requires k <= |archivos| && bs >= 1
    ensures Total(archivos + mas, bs, k) == Total(archivos, bs, k)
  {
    if k == 0 {
    } else {
      TotalPrefijo(archivos, mas, bs, k - 1);
    }
  }

  // --- Preservation ---

  /** While the blocks in use form a prefix, a reservation extends that prefix. */
  lemma {:induction false} ReservarPrefijo(bits: seq<bool>, n: nat)
    requires Prefijo(bits) && 1 <= n <= Libres(bits)
    ensures PrimeroDesde(bits, 0) == Usados(bits)
    ensures Usados(Reservar(bits, n)) == Usados(bits) + n && Prefijo(Reservar(bits, n))
  {
    var u := Usados(bits);
    LibresMonotona(bits, 0, |bits|);
    assert u < |bits| && !bits[u];
    LibresCero(bits, u);
    ReservarDescuenta(bits, n);
    forall k | u <= k < |bits| ensures LibresHasta(bits, k) == k - u {
      TramoLibre(bits, u, k);
    }
  }

  lemma {:induction false} FinDeArchivo(cfg: Config, primero: nat, t: nat, u: nat)
    requires cfg.blockSize >= 1 && primero + Techo(t, cfg.blockSize) <= u
    ensures cfg.Bytes(primero) + t <= cfg.Bytes(u)
  {
    TechoEs(cfg, t);
    BytesSuma(cfg, primero, Techo(t, cfg.blockSize));
    BytesMono(cfg, primero + Techo(t, cfg.blockSize), u);
  }

  /** Every file on record ends before the first block past those in use. */
  lemma {:induction false} ArchivoAntesDe(cfg: Config, s: Fs, i: nat)
    requires cfg.blockSize >= 1 && Inv(cfg, s) && i < |s.archivos|
    ensures s.archivos[i].primero + Techo(|s.archivos[i].contenido|, cfg.blockSize) <= Usados(s.bits)
    ensures cfg.Bytes(s.archivos[i].primero) + |s.archivos[i].contenido| <= cfg.Bytes(Usados(s.bits))
  {
    assert Archivado(cfg, s.archivos, s.disco, i);
    TotalMono(s.archivos, cfg.blockSize, i + 1, |s.archivos|);
    FinDeArchivo(cfg, s.archivos[i].primero, |s.archivos[i].contenido|, Usados(s.bits));
  }

  /** Storing a file keeps the earlier ones where and as they are. */
  lemma {:induction false} GuardarRespeta(cfg: Config, s: Fs, datos: seq<Byte>, n: nat, i: nat)
    requires cfg.blockSize >= 1 && Inv(cfg, s) && i < |s.archivos|
    requires 1 <= n <= Libres(s.bits)
    ensures SeLee(cfg, Guardar(cfg, s, datos, n).disco, s.archivos[i])
  {
    var a, s' := s.archivos[i], Guardar(cfg, s, datos, n);
    assert Archivado(cfg, s.archivos, s.disco, i);
    ReservarPrefijo(s.bits, n);
    ArchivoAntesDe(cfg, s, i);
  }

  /** Storing a file puts it right after the others. */
  lemma {:induction false} GuardarArchiva(cfg: Config, s: Fs, datos: seq<Byte>, n: nat)
    requires cfg.blockSize >= 1 && Inv(cfg, s) && datos != []
    requires 1 <= n == Techo(|datos|, cfg.blockSize) <= Libres(s.bits)
    ensures Archivados(cfg, Guardar(cfg, s, datos, n).archivos, Guardar(cfg, s, datos, n).disco)
  {
    var s' := Guardar(cfg, s, datos, n);
    ReservarPrefijo(s.bits, n);
    forall i | 0 <= i < |s'.archivos|
      ensures Archivado(cfg, s'.archivos, s'.disco, i)
    {
      TotalPrefijo(s.archivos, [Archivo(Usados(s.bits), datos)], cfg.blockSize, i);
      if i < |s.archivos| {
        assert Archivado(cfg, s.archivos, s.disco, i);
        GuardarRespeta(cfg, s, datos, n, i);
      }
    }
  }

  lemma {:induction false} GuardarConserva(cfg: Config, s: Fs, datos: seq<Byte>, n: nat)
    requires cfg.blockSize >= 1 && Inv(cfg, s) && datos != []
    requires 1 <= n == Techo(|datos|, cfg.blockSize) <= Libres(s.bits)
    ensures Inv(cfg, Guardar(cfg, s, datos, n))
  {
    var u := Usados(s.bits);
    ReservarPrefijo(s.bits, n);
    GuardarArchiva(cfg, s, datos, n);
    TotalPrefijo(s.archivos, [Archivo(u, datos)], cfg.blockSize, |s.archivos|);
    TechoEs(cfg, |datos|);
    BytesSuma(cfg, u, n);
    BytesMono(cfg, u + n, |s.bits|);
  }

  lemma {:induction false} CrearConserva(cfg: Config, s: Fs, p: Pedido)
    requires cfg.Valida() && p.Valido() && Inv(cfg, s)
    ensures Inv(cfg, Crear(cfg, s, p))
  {
    var n, s' := BloquesNecesarios(cfg, p.tamanio), Crear(cfg, s, p);
    BloquesNecesariosEs(cfg, p.tamanio);
    if n == 0 {
      LibresCero(s'.bits, |s'.bits|);
    } else if n <= Libres(s.bits) {
      GuardarConserva(cfg, s, p.contenido[..p.tamanio], n);
    }
  }

  ghost predicate Validos(pedidos: seq<Pedido>) {
    forall p :: p in pedidos ==> p.Valido()
  }

  lemma {:induction false} LibresTodo(bits: seq<bool>, k: nat)
    requires k <= |bits| && forall j :: 0 <= j < |bits| ==> !bits[j]
    ensures LibresHasta(bits, k) == k
  {
    if k == 0 {
    } else {
      LibresTodo(bits, k - 1);
    }
  }

  lemma {:induction false} EjecutarConserva(cfg: Config, pedidos: seq<Pedido>)
    requires cfg.Valida() && Validos(pedidos)
    ensures Inv(cfg, Ejecutar(cfg, pedidos))
    ensures |Ejecutar(cfg, pedidos).bits| == cfg.Bloques()
    ensures |Ejecutar(cfg, pedidos).disco| >= cfg.Bytes(cfg.blockCount)
  {
    if pedidos == [] {
      var s := Inicial(cfg);
      LibresTodo(s.bits, |s.bits|);
      BytesMono(cfg, cfg.blockCount, cfg.Bloques());
    } else {
      var antes, p := pedidos[..|pedidos| - 1], pedidos[|pedidos| - 1];
      EjecutarConserva(cfg, antes);
      CrearConserva(cfg, Ejecutar(cfg, antes), p);
    }
  }

  // --- Main results, for every sequence of requests from a freshly formatted disk ---

  lemma {:induction false} ArchivosQuedan(cfg: Config, pedidos: seq<Pedido>, mas: seq<Pedido>)
    requires cfg.Valida() && Validos(pedidos) && Validos(mas)
    ensures Validos(pedidos + mas) && Ejecutar(cfg, pedidos).archivos <= Ejecutar(cfg, pedidos + mas).archivos
    decreases |mas|
  {
    if mas == [] {
      assert pedidos + mas == pedidos;
    } else {
      var m := |mas| - 1;
      assert (pedidos + mas)[..|pedidos + mas| - 1] == pedidos + mas[..m];
      ArchivosQuedan(cfg, pedidos, mas[..m]);
    }
  }

  lemma {:induction false} TodosSeLeen(cfg: Config, antes: seq<Archivo>, s: Fs)
    requires cfg.blockSize >= 1 && Inv(cfg, s) && antes <= s.archivos
    ensures forall a :: a in antes ==> SeLee(cfg, s.disco, a)
  {
    forall a | a in antes ensures SeLee(cfg, s.disco, a) {
      var i :| 0 <= i < |antes| && antes[i] == a;
      assert Archivado(cfg, s.archivos, s.disco, i);
    }
  }

  /** Whatever is created afterwards, every file created keeps its place on record and still
      reads back from its first block exactly as it was written. */
  lemma {:induction false} ArchivosPerduran(cfg: Config, pedidos: seq<Pedido>, mas: seq<Pedido>)
    requires cfg.Valida() && Validos(pedidos) && Validos(mas)
    ensures Validos(pedidos + mas)
    ensures Ejecutar(cfg, pedidos).archivos <= Ejecutar(cfg, pedidos + mas).archivos
    ensures forall a :: a in Ejecutar(cfg, pedidos).archivos ==> SeLee(cfg, Ejecutar(cfg, pedidos + mas).disco, a)
  {
    ArchivosQuedan(cfg, pedidos, mas);
    EjecutarConserva(cfg, pedidos + mas);
    TodosSeLeen(cfg, Ejecutar(cfg, pedidos).archivos, Ejecutar(cfg, pedidos + mas));
  }

  lemma {:induction false} Disjuntos(cfg: Config, s: Fs, i: nat, j: nat, k: nat)
    requires cfg.blockSize >= 1 && Inv(cfg, s)
    requires i < |s.archivos| && EsDe(cfg, s.archivos[i], k) && j < |s.archivos| && EsDe(cfg, s.archivos[j], k)
    ensures i == j && k < |s.bits| && s.bits[k]
  {
    ArchivoAntesDe(cfg, s, i);
    assert Archivado(cfg, s.archivos, s.disco, i) && Archivado(cfg, s.archivos, s.disco, j);
    if i < j {
      TotalMono(s.archivos, cfg.blockSize, i + 1, j);
    } else if j < i {
      TotalMono(s.archivos, cfg.blockSize, j + 1, i);
    }
  }

  /** No two files share a block, each lies on blocks marked in use, and the blocks in use
      come first. */
  lemma {:induction false} ArchivosDisjuntos(cfg: Config, pedidos: seq<Pedido>, i: nat, j: nat, k: nat)
    requires cfg.Valida() && Validos(pedidos)
    requires i < |Ejecutar(cfg, pedidos).archivos| && EsDe(cfg, Ejecutar(cfg, pedidos).archivos[i], k)
    requires j < |Ejecutar(cfg, pedidos).archivos| && EsDe(cfg, Ejecutar(cfg, pedidos).archivos[j], k)
    ensures i == j
    ensures Prefijo(Ejecutar(cfg, pedidos).bits)
    ensures k < |Ejecutar(cfg, pedidos).bits| == cfg.Bloques() && Ejecutar(cfg, pedidos).bits[k]
  {
    EjecutarConserva(cfg, pedidos);
    Disjuntos(cfg, Ejecutar(cfg, pedidos), i, j, k);
  }

  lemma {:induction false} CrearGuarda(cfg: Config, s: Fs, p: Pedido)
    requires cfg.Valida() && p.Valido() && Inv(cfg, s)
    ensures var s', u, n := Crear(cfg, s, p), PrimeroDesde(s.bits, 0), Techo(p.tamanio, cfg.blockSize);
      if 1 <= p.tamanio <= WORD - cfg.blockSize && n <= Libres(s.bits) then
        && s'.archivos == s.archivos + [Archivo(u, p.contenido[..p.tamanio])]
        && SeLee(cfg, s'.disco, Archivo(u, p.contenido[..p.tamanio]))
        && forall k :: 0 <= k < |s.bits| ==> (s'.bits[k] && !s.bits[k] <==> u <= k < u + n)
      else
        s'.archivos == s.archivos && s'.disco == s.disco
  {
    BloquesNecesariosEs(cfg, p.tamanio);
    TechoEs(cfg, p.tamanio);
    var n := BloquesNecesarios(cfg, p.tamanio);
    if 1 <= n <= Libres(s.bits) {
      ReservarPrefijo(s.bits, n);
    }
  }

  /** A request is stored exactly when it has at least one byte, does not overflow the 32-bit
      rounding, and its blocks are free; the blocks it then takes are exactly those it is
      written on. A request that is not stored leaves the disk and the files alone. */
  lemma {:induction false} CrearGuardaSi(cfg: Config, pedidos: seq<Pedido>, p: Pedido)
    requires cfg.Valida() && Validos(pedidos) && p.Valido()
    ensures var s, n := Ejecutar(cfg, pedidos), Techo(p.tamanio, cfg.blockSize);
      var s', u := Crear(cfg, s, p), PrimeroDesde(s.bits, 0);
      if 1 <= p.tamanio <= WORD - cfg.blockSize && n <= Libres(s.bits) then
        && s'.archivos == s.archivos + [Archivo(u, p.contenido[..p.tamanio])]
        && SeLee(cfg, s'.disco, Archivo(u, p.contenido[..p.tamanio]))
        && forall k :: 0 <= k < |s.bits| ==> (s'.bits[k] && !s.bits[k] <==> u <= k < u + n)
      else
        s'.archivos == s.archivos && s'.disco == s.disco
  {
    EjecutarConserva(cfg, pedidos);
    CrearGuarda(cfg, Ejecutar(cfg, pedidos), p);
  }

  /** No request rounds to zero blocks. */
  ghost predicate SinVacios(cfg: Config, pedidos: seq<Pedido>)
    requires cfg.Valida()
  {
    forall p :: p in pedidos ==> BloquesNecesarios(cfg, p.tamanio) != 0
  }

  /** A file stored takes as many blocks more as it counts. */
  lemma {:induction false} CuentaGuarda(cfg: Config, s: Fs, p: Pedido, n: nat)
    requires cfg.blockSize >= 1 && p.tamanio <= |p.contenido| && Inv(cfg, s)
    requires 1 <= n <= Libres(s.bits) && n == Techo(p.tamanio, cfg.blockSize)
    ensures var s' := Guardar(cfg, s, p.contenido[..p.tamanio], n);
      Usados(s'.bits) - Total(s'.archivos, cfg.blockSize, |s'.archivos|)
      == Usados(s.bits) - Total(s.archivos, cfg.blockSize, |s.archivos|)
  {
    ReservarPrefijo(s.bits, n);
    TotalPrefijo(s.archivos, [Archivo(Usados(s.bits), p.contenido[..p.tamanio])], cfg.blockSize, |s.archivos|);
  }

  lemma {:induction false} CuentaPaso(cfg: Config, s: Fs, p: Pedido)
    requires cfg.Valida() && p.Valido() && Inv(cfg, s)
    ensures var s' := Crear(cfg, s, p);
      if BloquesNecesarios(cfg, p.tamanio) == 0 then Libres(s'.bits) == 0
      else
        && (Libres(s.bits) == 0 ==> s' == s)
        && Usados(s'.bits) - Total(s'.archivos, cfg.blockSize, |s'.archivos|)
        == Usados(s.bits) - Total(s.archivos, cfg.blockSize, |s.archivos|)
  {
    var n, s' := BloquesNecesarios(cfg, p.tamanio), Crear(cfg, s, p);
    BloquesNecesariosEs(cfg, p.tamanio);
    if n == 0 {
      LibresCero(s'.bits, |s'.bits|);
    } else if n <= Libres(s.bits) {
      CuentaGuarda(cfg, s, p, n);
    }
  }

  lemma {:induction false} CuentaSegunVacios(cfg: Config, pedidos: seq<Pedido>)
    requires cfg.Valida() && Validos(pedidos)
    ensures var s := Ejecutar(cfg, pedidos);
      if SinVacios(cfg, pedidos) then Usados(s.bits) == Total(s.archivos, cfg.blockSize, |s.archivos|)
      else Libres(s.bits) == 0
  {
    if pedidos == [] {
      LibresTodo(Inicial(cfg).bits, cfg.Bloques());
    } else {
      var antes, p := pedidos[..|pedidos| - 1], pedidos[|pedidos| - 1];
      assert pedidos == antes + [p];
      CuentaSegunVacios(cfg, antes);
      EjecutarConserva(cfg, antes);
      CuentaPaso(cfg, Ejecutar(cfg, antes), p);
    }
  }

  /** The bitmap accounts for exactly the blocks of the files, unless a request that rounds to
      no block was let through: then the whole bitmap is taken, and the accounts only agree
      if the files fill it. */
  lemma {:induction false} CuentaExacta(cfg: Config, pedidos: seq<Pedido>)
    requires cfg.Valida() && Validos(pedidos)
    ensures var s := Ejecutar(cfg, pedidos);
      var total := Total(s.archivos, cfg.blockSize, |s.archivos|);
      (Usados(s.bits) == total) <==> (SinVacios(cfg, pedidos) || total == cfg.Bloques())
  {
    EjecutarConserva(cfg, pedidos);
    CuentaSegunVacios(cfg, pedidos);
  }

  /** Every file lies on blocks the disk has. */
  ghost predicate EnDisco(cfg: Config, s: Fs)
    requires cfg.blockSize >= 1
  {
    forall i :: 0 <= i < |s.archivos| ==>
      s.archivos[i].primero + Techo(|s.archivos[i].contenido|, cfg.blockSize) <= cfg.blockCount
  }

  lemma {:induction false} SinSobra(cfg: Config)
    ensures cfg.blockCount % 8 == 0 ==> cfg.Bloques() == cfg.blockCount
  {
  }

  lemma {:induction false} EnDiscoEntero(cfg: Config, pedidos: seq<Pedido>)
    requires cfg.Valida() && Validos(pedidos) && cfg.Bloques() == cfg.blockCount
    ensures EnDisco(cfg, Ejecutar(cfg, pedidos))
  {
    EjecutarConserva(cfg, pedidos);
    var s := Ejecutar(cfg, pedidos);
    forall i | 0 <= i < |s.archivos|
      ensures s.archivos[i].primero + Techo(|s.archivos[i].contenido|, cfg.blockSize) <= cfg.blockCount
    {
      ArchivoAntesDe(cfg, s, i);
    }
  }

  lemma {:induction false} EnDiscoConOcho(cfg: Config, pedidos: seq<Pedido>)
    requires cfg.Valida() && Validos(pedidos) && cfg.blockCount % 8 == 0
    ensures EnDisco(cfg, Ejecutar(cfg, pedidos))
  {
    SinSobra(cfg);
    EnDiscoEntero(cfg, pedidos);
  }

  /** A request with room left is stored right after the files before it. */
  lemma {:induction false} GuardaAlFinal(cfg: Config, pedidos: seq<Pedido>, p: Pedido)
    requires cfg.Valida() && Validos(pedidos) && p.Valido() && 1 <= p.tamanio <= WORD - cfg.blockSize
    requires Techo(p.tamanio, cfg.blockSize) <= Libres(Ejecutar(cfg, pedidos).bits)
    ensures var s, s' := Ejecutar(cfg, pedidos), Ejecutar(cfg, pedidos + [p]);
      && Validos(pedidos + [p])
      && s'.archivos == s.archivos + [Archivo(Usados(s.bits), p.contenido[..p.tamanio])]
      && Usados(s'.bits) == Usados(s.bits) + Techo(p.tamanio, cfg.blockSize)
  {
    assert (pedidos + [p])[..|pedidos|] == pedidos;
    EjecutarConserva(cfg, pedidos);
    BloquesNecesariosEs(cfg, p.tamanio);
    ReservarPrefijo(Ejecutar(cfg, pedidos).bits, Techo(p.tamanio, cfg.blockSize));
  }

  /** A file of `n` blocks on the formatted disk, and one of one byte right after it. */
  lemma {:induction false} DosPedidos(cfg: Config, grande: Pedido, n: nat)
    requires cfg.Valida() && grande.Valido() && 1 <= grande.tamanio <= WORD - cfg.blockSize
    requires Techo(grande.tamanio, cfg.blockSize) == n < Libres(Inicial(cfg).bits) && Techo(1, cfg.blockSize) == 1
    ensures var pedidos := [grande] + [Pedido([0], 1)];
      && Validos(pedidos) && |Ejecutar(cfg, pedidos).archivos| == 2
      && Ejecutar(cfg, pedidos).archivos[1] == Archivo(n, [0])
  {
    assert [] + [grande] == [grande];
    GuardaAlFinal(cfg, [], grande);
    EjecutarConserva(cfg, [grande]);
    GuardaAlFinal(cfg, [grande], Pedido([0], 1));
  }

  lemma {:induction false} TechoDeBloques(cfg: Config, n: nat)
    requires cfg.blockSize >= 1
    ensures Techo(cfg.Bytes(n), cfg.blockSize) == n
  {
    if n <= 1 {
    } else {
      TechoDeBloques(cfg, n - 1);
      BytesMono(cfg, 1, n - 1);
    }
    assert cfg.Bytes(1) == cfg.blockSize;
  }

  lemma {:induction false} HayFantasma(cfg: Config)
    requires cfg.Valida() && cfg.blockCount % 8 != 0
    ensures cfg.blockCount < cfg.Bloques() && Techo(1, cfg.blockSize) == 1
    ensures 1 <= cfg.Bytes(cfg.blockCount) <= WORD - cfg.blockSize
    ensures Techo(cfg.Bytes(cfg.blockCount), cfg.blockSize) == cfg.blockCount
  {
    BytesMono(cfg, cfg.blockCount + 1, cfg.Bloques());
    BytesMono(cfg, 1, cfg.blockCount);
    assert cfg.Bytes(1) == cfg.blockSize;
    TechoDeBloques(cfg, cfg.blockCount);
  }

  /** With a block count that is not a multiple of eight: fill the disk, then ask for one more byte. */
  lemma {:induction false} BloqueFantasma(cfg: Config) returns (pedidos: seq<Pedido>)
    requires cfg.Valida() && cfg.blockCount % 8 != 0
    ensures Validos(pedidos) && !EnDisco(cfg, Ejecutar(cfg, pedidos))
  {
    var lleno := Pedido(seq(cfg.Bytes(cfg.blockCount), _ => 0), cfg.Bytes(cfg.blockCount));
    HayFantasma(cfg);
    LibresTodo(Inicial(cfg).bits, cfg.Bloques());
    DosPedidos(cfg, lleno, cfg.blockCount);
    pedidos := [lleno] + [Pedido([0], 1)];
  }

  /** Files never spill past the configured disk exactly when its block count is a multiple of
      eight; otherwise the bitmap's last byte has bits for blocks that do not exist, and some
      run hands them out. */
  lemma {:induction false} EnDiscoSi(cfg: Config)
    requires cfg.Valida()
    ensures (forall pedidos :: Validos(pedidos) ==> EnDisco(cfg, Ejecutar(cfg, pedidos)))
       <==> cfg.blockCount % 8 == 0
  {
    if cfg.blockCount % 8 == 0 {
      forall pedidos | Validos(pedidos) ensures EnDisco(cfg, Ejecutar(cfg, pedidos)) {
        EnDiscoConOcho(cfg, pedidos);
      }
    } else {
      var pedidos := BloqueFantasma(cfg);
      assert Validos(pedidos);
    }
  }

  /** Eight one-byte blocks, of which the second is in use. */
  const HUECO := [false, true, false, false, false, false, false, false]

  lemma {:induction false} HuecoBits()
    ensures Libres(HUECO) >= 2 && PrimeroDesde(HUECO, 0) == 0
  {
    assert LibresHasta(HUECO, 1) == 1;
    assert LibresHasta(HUECO, 3) == LibresHasta(HUECO, 2) + 1 == LibresHasta(HUECO, 1) + 1;
    LibresMonotona(HUECO, 3, 8);
  }

  lemma {:induction false} HuecoConfig(cfg: Config)
    requires cfg == Config(1, 8)
    ensures cfg.Valida() && cfg.Bytes(0) == 0 && cfg.Bytes(1) == 1 && BloquesNecesarios(cfg, 2) == 2
  {
    BytesEs(cfg, 8);
    TechoEsCociente(2, 1);
    assert Techo(2, 1) == 1 + Techo(1, 1);
  }

  /** The reliance on the prefix, made concrete: on a bitmap with a hole, a new two-block file
      is written over the file that lies between its two reserved blocks. */
  lemma {:induction false} HuecoRompe(s: Fs)
    requires s == Fs(HUECO, [0, 7, 0, 0, 0, 0, 0, 0], [Archivo(1, [7])])
    ensures Config(1, 8).Valida()
    ensures SeLee(Config(1, 8), s.disco, s.archivos[0])
    ensures !SeLee(Config(1, 8), Crear(Config(1, 8), s, Pedido([5, 5], 2)).disco, s.archivos[0])
  {
    var cfg := Config(1, 8);
    HuecoBits();
    HuecoConfig(cfg);
    var s' := Guardar(cfg, s, [5, 5][..2], 2);
    assert Crear(cfg, s, Pedido([5, 5], 2)) == s';
    assert s'.disco == Escribir(s.disco, 0, [5, 5][..2]) && s'.disco[cfg.Bytes(1) + 0] == 5;
    assert s.archivos[0].contenido[0] == 7;
  }

  // --- The module itself ---

  lemma {:induction false} BitsCero(bytes: seq<bv8>, n: nat)
    requires n <= |bytes| && forall j :: 0 <= j < |bytes| ==> bytes[j] == 0
    ensures BitsHasta(bytes, n) == seq(8 * n, _ => false)
  {
    if n == 0 {
    } else {
      BitsCero(bytes, n - 1);
      forall i | 0 <= i < 8 ensures !Ocupado(0, i) {
        OcupadoEs(0, i);
      }
    }
  }

  function Suma(xs: seq<nat>): nat {
    if xs == [] then 0 else Suma(xs[..|xs| - 1]) + xs[|xs| - 1]
  }

  /** Offsets of blocks the bitmap covers do not overflow 32 bits. */
  lemma {:induction false} SinDesborde(cfg: Config, primero: nat, i: nat)
    requires cfg.Valida() && primero + i < cfg.Bloques()
    ensures Mod32(cfg.Bytes(primero) + cfg.Bytes(i)) == cfg.Bytes(primero) + cfg.Bytes(i)
  {
    BytesSuma(cfg, primero, i);
    BytesMono(cfg, primero + i + 1, cfg.Bloques());
    assert cfg.Bytes(primero + i + 1) == cfg.Bytes(primero + i) + cfg.blockSize;
  }

  /** `disco` is `antes` with the first `e` bytes of `contenido` written from `base` on. */
  ghost predicate Escrito(antes: seq<Byte>, base: nat, contenido: seq<Byte>, e: nat, disco: seq<Byte>)
    requires e <= |contenido|
  {
    && |disco| == (if e == 0 || base + e <= |antes| then |antes| else base + e)
    && forall k :: 0 <= k < |disco| ==>
      disco[k] == if base <= k < base + e then contenido[k - base] else if k < |antes| then antes[k] else 0
  }

  lemma {:induction false} EscritoEs(antes: seq<Byte>, base: nat, contenido: seq<Byte>, e: nat, disco: seq<Byte>)
    requires e <= |contenido|
    ensures Escrito(antes, base, contenido, e, disco) <==> disco == Escribir(antes, base, contenido[..e])
  {
    if disco == Escribir(antes, base, contenido[..e]) {
    } else if |disco| == |Escribir(antes, base, contenido[..e])| {
      var k :| 0 <= k < |disco| && disco[k] != Escribir(antes, base, contenido[..e])[k];
    }
  }

  /** Writing the next `k` bytes of `contenido` after its first `e`. */
  lemma {:induction false} EscribirTrozo(antes: seq<Byte>, base: nat, contenido: seq<Byte>, e: nat, k: nat,
        disco: seq<Byte>)
    requires e + k <= |contenido| && Escrito(antes, base, contenido, e, disco)
    ensures Escrito(antes, base, contenido, e + k, Escribir(disco, base + e, contenido[e..e + k]))
  {
  }

  /** Before the `i`-th turn of the copy `escritos` bytes are written, and the turns left are those the
      rest needs; `offset` is where the next block starts. */
  ghost predicate EnTurno(cfg: Config, primero: nat, i: nat, necesarios: nat, tamanio: nat, escritos: nat, offset: nat)
    requires cfg.Valida()
  {
    && i <= necesarios && escritos <= tamanio
    && (necesarios > 0 ==> necesarios - i == Techo(tamanio - escritos, cfg.blockSize))
    && (i < necesarios ==> escritos == cfg.Bytes(i) && offset == cfg.Bytes(primero) + escritos)
  }

  lemma {:induction false} TurnoInicial(cfg: Config, primero: nat, necesarios: nat, tamanio: nat)
    requires cfg.Valida() && tamanio < WORD && necesarios == BloquesNecesarios(cfg, tamanio)
    requires necesarios > 0 ==> primero + necesarios <= cfg.Bloques()
    ensures EnTurno(cfg, primero, 0, necesarios, tamanio, 0, Mod32(cfg.Bytes(primero)))
  {
    if necesarios > 0 {
      BloquesNecesariosEs(cfg, tamanio);
      SinDesborde(cfg, primero, 0);
    }
  }

  /** What a turn writes: the rest of the file, or a whole block of it. */
  function ParaEscribir(cfg: Config, resto: nat): nat {
    if resto > cfg.blockSize then cfg.blockSize else resto
  }

  lemma {:induction false} TurnoSigue(cfg: Config, primero: nat, i: nat, necesarios: nat, tamanio: nat,
        escritos: nat, offset: nat)
    requires cfg.Valida() && i < necesarios && primero + necesarios <= cfg.Bloques()
    requires EnTurno(cfg, primero, i, necesarios, tamanio, escritos, offset)
    ensures escritos < tamanio && offset == cfg.Bytes(primero) + escritos
    ensures 1 <= ParaEscribir(cfg, tamanio - escritos) <= cfg.blockSize
    ensures EnTurno(cfg, primero, i + 1, necesarios, tamanio, escritos + ParaEscribir(cfg, tamanio - escritos),
                    Mod32(offset + cfg.blockSize))
  {
    if i + 1 < necesarios {
      SinDesborde(cfg, primero, i + 1);
    }
  }

  lemma {:induction false} TurnoFinal(cfg: Config, primero: nat, necesarios: nat, tamanio: nat, escritos: nat,
        offset: nat)
    requires cfg.Valida() && EnTurno(cfg, primero, necesarios, necesarios, tamanio, escritos, offset)
    ensures necesarios > 0 ==> escritos == tamanio
  {
  }

  /** The turns taken so far: their sizes, none empty and none longer than a block. */
  ghost predicate Trozos(trozos: seq<nat>, n: nat, total: nat, blockSize: nat) {
    |trozos| == n && Suma(trozos) == total && forall i :: 0 <= i < |trozos| ==> 1 <= trozos[i] <= blockSize
  }

  lemma {:induction false} TrozosMas(trozos: seq<nat>, n: nat, total: nat, blockSize: nat, k: nat)
    requires Trozos(trozos, n, total, blockSize) && 1 <= k <= blockSize
    ensures Trozos(trozos + [k], n + 1, total + k, blockSize)
  {
    assert (trozos + [k])[..n] == trozos;
  }

  /** The file system module: the bitmap file, the block file, and the files created so far. */
  class ModuloFS {
    const cfg: Config
    const bitmap: array<bv8>
    var disco: seq<Byte>
    ghost var archivos: seq<Archivo>

    ghost predicate Valid()
      reads this
    {
      cfg.Valida() && 8 * bitmap.Length == cfg.Bloques()
    }

    ghost function Estado(): Fs
      reads this, bitmap
    {
      Fs(Bits(bitmap[..]), disco, archivos)
    }

    /** Formats the disk: a bitmap of zero bytes, and a block file extended to its full size by
        writing its last byte. */
    constructor (cfg: Config)
      requires cfg.Valida()
      ensures Valid() && this.cfg == cfg && fresh(bitmap)
      ensures Estado() == Inicial(cfg)
    {
      this.cfg := cfg;
      var bytes := new bv8[(cfg.blockCount + 7) / 8];
      for i := 0 to bytes.Length
        invariant forall j :: 0 <= j < i ==> bytes[j] == 0
      {
        bytes[i] := 0;
      }
      BitsCero(bytes[..], bytes.Length);
      BytesMono(cfg, 1, cfg.blockCount);
      BytesEs(cfg, cfg.blockCount);
      bitmap := bytes;
      disco := Escribir([], cfg.blockCount * cfg.blockSize - 1, [0]);
      archivos := [];
    }

    /** Whether `necesarios` blocks are free. */
    method EspacioDisponible(necesarios: nat) returns (hay: bool)
      ensures hay == (Libres(Bits(bitmap[..])) >= necesarios)
    {
      var libres := CantidadBloquesLibres(bitmap);
      hay := libres >= necesarios;
    }

    /** One turn of the copy: the rest of the file, or a whole block of it. */
    method EscribirTurno(ghost primero: nat, contenido: seq<Byte>, ghost i: nat, ghost necesarios: nat, tamanio: nat,
                         escritos: nat, offset: nat, ghost disco0: seq<Byte>) returns (aEscribir: nat)
      requires Valid() && tamanio <= |contenido| && i < necesarios && primero + necesarios <= cfg.Bloques()
      requires EnTurno(cfg, primero, i, necesarios, tamanio, escritos, offset)
      requires Escrito(disco0, cfg.Bytes(primero), contenido, escritos, disco)
      modifies this`disco
      ensures 1 <= aEscribir <= cfg.blockSize && aEscribir + escritos <= tamanio
      ensures EnTurno(cfg, primero, i + 1, necesarios, tamanio, escritos + aEscribir, Mod32(offset + cfg.blockSize))
      ensures Escrito(disco0, cfg.Bytes(primero), contenido, escritos + aEscribir, disco)
    {
      TurnoSigue(cfg, primero, i, necesarios, tamanio, escritos, offset);
      aEscribir := if tamanio - escritos > cfg.blockSize then cfg.blockSize else tamanio - escritos;
      EscribirTrozo(disco0, cfg.Bytes(primero), contenido, escritos, aEscribir, disco);
      disco := Escribir(disco, offset, contenido[escritos..escritos + aEscribir]);
    }

    /** Copies `tamanio` bytes block by block. `trozos` records the size of each write: as many
        writes as blocks, none empty, none longer than a block, adding up to the whole file. */
    method EscribirContenidoBloques(primero: nat, contenido: seq<Byte>, necesarios: nat, tamanio: nat)
        returns (ghost trozos: seq<nat>)
      requires Valid() && tamanio < WORD && tamanio <= |contenido|
      requires necesarios == BloquesNecesarios(cfg, tamanio)
      requires necesarios > 0 ==> primero + necesarios <= cfg.Bloques()
      modifies this`disco
      ensures Escrito(old(disco), cfg.Bytes(primero), contenido, if necesarios == 0 then 0 else tamanio, disco)
      ensures |trozos| == necesarios && Suma(trozos) == if necesarios == 0 then 0 else tamanio
      ensures forall i :: 0 <= i < |trozos| ==> 1 <= trozos[i] <= cfg.blockSize
    {
      TurnoInicial(cfg, primero, necesarios, tamanio);
      var offset: nat, escritos: nat := Mod32(cfg.Bytes(primero)), 0;
      ghost var disco0 := disco;
      trozos := [];
      for i := 0 to necesarios
        invariant EnTurno(cfg, primero, i, necesarios, tamanio, escritos, offset)
        invariant Escrito(disco0, cfg.Bytes(primero), contenido, escritos, disco)
        invariant Trozos(trozos, i, escritos, cfg.blockSize) && (i == 0 ==> escritos == 0)
      {
        var aEscribir := EscribirTurno(primero, contenido, i, necesarios, tamanio, escritos, offset, disco0);
        TrozosMas(trozos, i, escritos, cfg.blockSize, aEscribir);
        escritos := escritos + aEscribir;
        offset := Mod32(offset + cfg.blockSize);
        trozos := trozos + [aEscribir];
      }
      TurnoFinal(cfg, primero, necesarios, tamanio, escritos, offset);
    }

    /** `crear_archivo`: checks for room, reserves the blocks and writes the contents. */
    method CrearArchivo(contenido: seq<Byte>, tamanio: nat)
      requires Valid() && Pedido(contenido, tamanio).Valido()
      modifies this, bitmap
      ensures Valid()
      ensures Estado() == Crear(cfg, old(Estado()), Pedido(contenido, tamanio))
    {
      var necesarios := BloquesNecesarios(cfg, tamanio);
      var hay := EspacioDisponible(necesarios);
      if hay {
        ghost var bits := Bits(bitmap[..]);
        var primero := ReservarBloques(bitmap, necesarios);
        if necesarios > 0 {
          LibresCero(bits, |bits|);
          CabenDesdeElPrimero(bits, primero);
          archivos := archivos + [Archivo(primero, contenido[..tamanio])];
        }
        ghost var antes := disco;
        var _ := EscribirContenidoBloques(primero, contenido, necesarios, tamanio);
        EscritoEs(antes, cfg.Bytes(primero), contenido, if necesarios == 0 then 0 else tamanio, disco);
      }
    }
  }
}
