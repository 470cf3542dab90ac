/** The numbers that the operands of an instruction and of a system call are written as. */
module Numeros {
  import opened Comun
  import opened Cpu

  predicate EsCifra(c: char) {
    '0' <= c <= '9'
  }

  function Cifra(k: nat): (c: char)
    requires k < 10
    ensures EsCifra(c) && c as int - '0' as int == k
  {
    "0123456789"[k]
  }

  /** `n` in decimal digits. */
  function Decimal(n: nat): (d: string)
    ensures d != ""
  {
    if n < 10 then [Cifra(n)] else Decimal(n / 10) + [Cifra(n % 10)]
  }

  /** A signed number in decimal digits. */
  function Entero(x: int): string {
    if x < 0 then "-" + Decimal(-x) else Decimal(x)
  }

  lemma {:induction false} DecimalCifras(n: nat, i: nat)
    requires i < |Decimal(n)|
    ensures EsCifra(Decimal(n)[i])
  {
    if n < 10 {
    } else if i < |Decimal(n)| - 1 {
      DecimalCifras(n / 10, i);
    }
  }

  /** The digits of `n` are read as `n`, wherever they are and whatever follows. */
  lemma {:induction false} DigitosDecimal(s: string, i: nat, n: nat)
    requires i + |Decimal(n)| <= |s| && s[i..i + |Decimal(n)|] == Decimal(n)
    ensures Digitos(s, i, 0) == Digitos(s, i + |Decimal(n)|, n)
  {
    var d, k := Decimal(n), |Decimal(n)| - 1;
    assert s[i + k] == s[i..i + |d|][k] == Cifra(n % 10);
    if n < 10 {
    } else {
      assert s[i..i + k] == s[i..i + |d|][..k] == Decimal(n / 10);
      DigitosDecimal(s, i, n / 10);
      assert 10 * (n / 10) + n % 10 == n;
    }
  }

  predicate SinCifraDelante(s: string) {
    s == "" || !EsCifra(s[0])
  }

  predicate Todos0(s: string) {
    forall i :: 0 <= i < |s| ==> s[i] == '0'
  }

  predicate TodosBlancos(s: string) {
    forall i :: 0 <= i < |s| ==> EsBlanco(s[i])
  }

  lemma {:induction false} DigitosCeros(s: string, i: nat, j: nat)
    requires i <= j <= |s| && Todos0(s[i..j])
    ensures Digitos(s, i, 0) == Digitos(s, j, 0)
    decreases j - i
  {
    if i == j {
    } else {
      assert s[i] == s[i..j][0];
      var resto := s[i + 1..j];
      forall k | 0 <= k < |resto| ensures resto[k] == '0' {
        assert resto[k] == s[i..j][k + 1];
      }
      DigitosCeros(s, i + 1, j);
    }
  }

  lemma {:induction false} BlancosSaltan(s: string, i: nat, j: nat)
    requires i <= j <= |s| && TodosBlancos(s[i..j]) && (j == |s| || !EsBlanco(s[j]))
    ensures Blancos(s, i) == j
    decreases j - i
  {
    if i == j {
    } else {
      assert s[i] == s[i..j][0];
      var resto := s[i + 1..j];
      forall k | 0 <= k < |resto| ensures EsBlanco(resto[k]) {
        assert resto[k] == s[i..j][k + 1];
      }
      BlancosSaltan(s, i + 1, j);
    }
  }

  predicate EsSigno(signo: string) {
    signo == "" || signo == "+" || signo == "-"
  }

  function ConSigno(signo: string, n: nat): int {
    var x: int := n;
    if signo == "-" then -x else x
  }

  /** Where `atoi` starts to read digits, and with what sign. */
  lemma {:induction false} AtoiDesde(blancos: string, signo: string, resto: string)
    requires TodosBlancos(blancos) && EsSigno(signo)
    requires signo == "" ==> resto == "" || !(EsBlanco(resto[0]) || resto[0] == '+' || resto[0] == '-')
    ensures Atoi(blancos + signo + resto)
         == Mod32(ConSigno(signo, Digitos(blancos + signo + resto, |blancos + signo|, 0)))
  {
    var s := blancos + signo + resto;
    assert s[0..|blancos|] == blancos;
    assert |blancos| < |s| ==> s[|blancos|] == if signo == "" then resto[0] else signo[0];
    BlancosSaltan(s, 0, |blancos|);
  }

  /** Zeros and the digits of a number read as that number. */
  lemma {:induction false} DigitosTras(antes: string, ceros: string, n: nat, cola: string)
    requires Todos0(ceros) && SinCifraDelante(cola)
    ensures Digitos(antes + (ceros + (Decimal(n) + cola)), |antes|, 0) == n
  {
    var s, d := antes + (ceros + (Decimal(n) + cola)), Decimal(n);
    var i, j := |antes|, |antes| + |ceros|;
    assert s[i..] == ceros + (d + cola);
    Corte(s, i, ceros, d + cola);
    DigitosCeros(s, i, j);
    Corte(s, j, d, cola);
    DigitosDecimal(s, j, n);
    assert cola != "" ==> s[j + |d|] == s[j + |d|..][0];
  }

  /** Blanks, a sign or none, zeros, and the digits of a number read as that number on 32 bits,
      whatever follows that is not a digit. */
  lemma {:induction false} AtoiDecimal(blancos: string, signo: string, ceros: string, n: nat, cola: string)
    requires TodosBlancos(blancos) && EsSigno(signo) && Todos0(ceros) && SinCifraDelante(cola)
    ensures Atoi(blancos + signo + (ceros + (Decimal(n) + cola))) == Mod32(ConSigno(signo, n))
  {
    var resto := ceros + (Decimal(n) + cola);
    DecimalCifras(n, 0);
    assert resto[0] == if ceros == "" then Decimal(n)[0] else ceros[0];
    AtoiDesde(blancos, signo, resto);
    DigitosTras(blancos + signo, ceros, n, cola);
  }

  /** With no digit after the blanks and the sign, the number is 0. */
  lemma {:induction false} AtoiSinCifras(blancos: string, signo: string, cola: string)
    requires TodosBlancos(blancos) && EsSigno(signo) && SinCifraDelante(cola)
    requires signo == "" ==> cola == "" || !(EsBlanco(cola[0]) || cola[0] == '+' || cola[0] == '-')
    ensures Atoi(blancos + signo + cola) == 0
  {
    AtoiDesde(blancos, signo, cola);
    assert cola != "" ==> (blancos + signo + cola)[|blancos + signo|] == cola[0];
  }

  lemma {:induction false} AtoiConSigno(signo: string, n: nat)
    requires EsSigno(signo)
    ensures Atoi(signo + Decimal(n)) == Mod32(ConSigno(signo, n))
  {
    AtoiDecimal("", signo, "", n, "");
    assert "" + signo + ("" + (Decimal(n) + "")) == signo + Decimal(n);
  }

  /** Every 32-bit number written in decimal is read back. */
  lemma {:induction false} AtoiDe(n: nat)
    requires n < WORD
    ensures Atoi(Decimal(n)) == n && Atoi("+" + Decimal(n)) == n
  {
    hide Atoi, Decimal;
    AtoiConSigno("", n);
    assert "" + Decimal(n) == Decimal(n);
    AtoiConSigno("+", n);
  }

  /** A signed number in decimal is read modulo 2^32. */
  lemma {:induction false} AtoiEntero(x: int)
    ensures Atoi(Entero(x)) == Mod32(x)
  {
    hide Atoi, Decimal;
    if x < 0 {
      AtoiConSigno("-", -x);
    } else {
      AtoiConSigno("", x);
      assert "" + Decimal(x) == Decimal(x);
    }
  }

  /** A number in decimal is one word, and not the word PC. */
  lemma {:induction false} DecimalEsPalabra(n: nat)
    ensures EsPalabra(Decimal(n)) && Decimal(n) != "PC"
  {
    forall i | 0 <= i < |Decimal(n)| ensures EsCifra(Decimal(n)[i]) {
      DecimalCifras(n, i);
    }
    assert EsCifra(Decimal(n)[0]) && "PC"[0] == 'P';
  }

  lemma {:induction false} EnteroEsPalabra(x: int)
    ensures EsPalabra(Entero(x))
  {
    DecimalEsPalabra(if x < 0 then -x else x);
  }
}
