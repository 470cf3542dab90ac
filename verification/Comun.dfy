/** What every module shares. */
module Comun {
  type Byte = x: int | 0 <= x < 0x100

  /** One more than the largest `uint32_t`. */
  const WORD: nat := 0x1_0000_0000

  /** `x` on 32 bits. */
  function Mod32(x: int): (r: nat)
    ensures r < WORD
  {
    x % 0x1_0000_0000
  }

  /** The code as it stands, or with the repairs listed in README.md. */
  datatype Variante = ComoEsta | Reparada

  datatype Option<+T> = None | Some(value: T)

  /** What starts at `i` is `a` and then `b`. */
  lemma {:induction false} Corte<T>(s: seq<T>, i: nat, a: seq<T>, b: seq<T>)
    requires i <= |s| && s[i..] == a + b
    ensures i + |a| <= |s| && s[i..i + |a|] == a && s[i + |a|..] == b
  {
    var r := s[i..];
    assert s[i..i + |a|] == r[..|a|] == a;
    assert s[i + |a|..] == r[|a|..] == b;
  }

  lemma {:induction false} Asociar<T>(a: seq<T>, b: seq<T>, c: seq<T>)
    ensures (a + b) + c == a + (b + c)
  {
  }
}
