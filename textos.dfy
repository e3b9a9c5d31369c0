/**
 * The java.lang.String operations the core relies on, over seq<char>:
 * trim(), isEmpty() after trim, replace, and decimal numerals.
 */
module Textos {

  /** String.trim() removes every leading and trailing char up to U+0020. */
  predicate EhEspaco(c: char)
  {
    c <= ' '
  }

  /** s.trim().isEmpty(): the string is empty or made only of such chars. */
  predicate EmBranco(s: string)
  {
    forall i :: 0 <= i < |s| ==> EhEspaco(s[i])
  }

  function TrimInicio(s: string): (r: string)
    ensures |r| <= |s| && r == s[|s| - |r|..]
    ensures r == [] || !EhEspaco(r[0])
    ensures EmBranco(s[..|s| - |r|])
  {
    if |s| > 0 && EhEspaco(s[0]) then
      var r := TrimInicio(s[1..]);
      assert s[1..][..|s| - 1 - |r|] == s[1..|s| - |r|];
      r
    else s
  }

  function TrimFim(s: string): (r: string)
    ensures |r| <= |s| && r == s[..|r|]
    ensures r == [] || !EhEspaco(r[|r| - 1])
    ensures EmBranco(s[|r|..])
  {
    if |s| > 0 && EhEspaco(s[|s| - 1]) then
      var r := TrimFim(s[..|s| - 1]);
      assert s[..|s| - 1][|r|..] == s[|r|..|s| - 1];
      assert forall k :: |r| <= k < |s| - 1 ==> s[k] == s[..|s| - 1][|r|..][k - |r|];
      assert forall k :: |r| <= k < |s| ==> s[|r|..][k - |r|] == s[k];
      r
    else s
  }

  /** String.trim(): strips the blank prefix and the blank suffix. */
  function Trim(s: string): (r: string)
    ensures exists i, j :: 0 <= i <= j <= |s| && r == s[i..j] && EmBranco(s[..i]) && EmBranco(s[j..])
    ensures r == [] || (!EhEspaco(r[0]) && !EhEspaco(r[|r| - 1]))
  {
    var t := TrimInicio(s);
    var r := TrimFim(t);
    var i := |s| - |t|;
    assert r == s[i..i + |r|];
    assert s[i + |r|..] == t[|r|..];
    r
  }

  /** The trimmed string is empty exactly when the input is blank. */
  lemma TrimVazioSseEmBranco(s: string)
    ensures Trim(s) == [] <==> EmBranco(s)
  {
    var i, j :| 0 <= i <= j <= |s| && Trim(s) == s[i..j] && EmBranco(s[..i]) && EmBranco(s[j..]);
    if Trim(s) == [] {
      assert i == j;
      forall k | 0 <= k < |s| ensures EhEspaco(s[k]) {
        if k < i { assert s[k] == s[..i][k]; } else { assert s[k] == s[j..][k - j]; }
      }
    }
  }

  /** Blank padding around a string that neither starts nor ends blank is what trim() removes. */
  lemma TrimDeAcolchoado(w1: string, t: string, w2: string)
    requires EmBranco(w1) && EmBranco(w2)
    requires t == [] || (!EhEspaco(t[0]) && !EhEspaco(t[|t| - 1]))
    ensures Trim(w1 + t + w2) == t
  {
    assert w1 + t + w2 == w1 + (t + w2);
    if t == [] {
      assert t + w2 == w2;
      assert EmBranco(w1 + w2) by {
        forall k | 0 <= k < |w1 + w2| ensures EhEspaco((w1 + w2)[k]) {
          if k < |w1| { assert (w1 + w2)[k] == w1[k]; } else { assert (w1 + w2)[k] == w2[k - |w1|]; }
        }
      }
    } else {
      TrimInicioAcolchoado(w1, t + w2);
      TrimFimAcolchoado(t, w2);
    }
  }

  /** trim()'s left half drops a blank prefix and stops at the first non-blank char. */
  lemma {:induction false} TrimInicioAcolchoado(w: string, t: string)
    requires EmBranco(w) && t != [] && !EhEspaco(t[0])
    ensures TrimInicio(w + t) == t
  {
    if w == [] {
      assert w + t == t;
    } else {
      assert (w + t)[0] == w[0];
      assert (w + t)[1..] == w[1..] + t;
      TrimInicioAcolchoado(w[1..], t);
    }
  }

  /** trim()'s right half drops a blank suffix and stops at the last non-blank char. */
  lemma {:induction false} TrimFimAcolchoado(t: string, w: string)
    requires EmBranco(w) && t != [] && !EhEspaco(t[|t| - 1])
    ensures TrimFim(t + w) == t
  {
    if w == [] {
      assert t + w == t;
    } else {
      var s := t + w;
      assert s[|s| - 1] == w[|w| - 1];
      assert s[..|s| - 1] == t + w[..|w| - 1];
      TrimFimAcolchoado(t, w[..|w| - 1]);
    }
  }

  predicate EhDigito(c: char)
  {
    '0' <= c <= '9'
  }

  predicate SoDigitos(s: string)
  {
    forall i :: 0 <= i < |s| ==> EhDigito(s[i])
  }

  function ValorDigito(c: char): (d: nat)
    requires EhDigito(c)
    ensures d <= 9
  {
    (c - '0') as nat
  }

  function DigitoDe(d: nat): (c: char)
    requires d <= 9
    ensures EhDigito(c) && ValorDigito(c) == d
  {
    ('0' as int + d) as char
  }

  function Pot10(n: nat): (p: nat)
    ensures p >= 1
  {
    if n == 0 then 1 else 10 * Pot10(n - 1)
  }

  /** The value of a decimal numeral, read left to right. */
  function ValorDigitos(s: string): nat
    requires SoDigitos(s)
  {
    if s == [] then 0 else 10 * ValorDigitos(s[..|s| - 1]) + ValorDigito(s[|s| - 1])
  }

  lemma {:induction false} ValorDigitosConcat(a: string, b: string)
    requires SoDigitos(a) && SoDigitos(b)
    ensures SoDigitos(a + b)
    ensures ValorDigitos(a + b) == ValorDigitos(a) * Pot10(|b|) + ValorDigitos(b)
  {
    SoDigitosConcat(a, b);
    if b == [] {
      assert a + b == a;
    } else {
      var b' := b[..|b| - 1];
      var c := b[|b| - 1];
      assert (a + b)[..|a + b| - 1] == a + b';
      assert (a + b)[|a + b| - 1] == c;
      ValorDigitosConcat(a, b');
      var x, p, y, d := ValorDigitos(a), Pot10(|b'|), ValorDigitos(b'), ValorDigito(c);
      assert ValorDigitos(b) == 10 * y + d;
      assert Pot10(|b|) == 10 * p;
      assert ValorDigitos(a + b) == 10 * ValorDigitos(a + b') + d;
      DezVezes(x, p, y, d);
    }
  }

  lemma SoDigitosConcat(a: string, b: string)
    requires SoDigitos(a) && SoDigitos(b)
    ensures SoDigitos(a + b)
  {
    forall k | 0 <= k < |a + b| ensures EhDigito((a + b)[k]) {
      if k < |a| { assert (a + b)[k] == a[k]; } else { assert (a + b)[k] == b[k - |a|]; }
    }
  }

  lemma DezVezes(x: int, p: int, y: int, d: int)
    ensures 10 * (x * p + y) + d == x * (10 * p) + (10 * y + d)
  {
    assert 10 * (x * p) == x * (10 * p);
  }

  /** Integer.toString / BigDecimal digits of a natural number: the shortest numeral. */
  function Digitos(n: nat): (s: string)
    ensures SoDigitos(s) && |s| >= 1
    ensures ValorDigitos(s) == n
    ensures s[0] != '0' || s == "0"
    ensures n < 10 ==> |s| == 1
    decreases n
  {
    if n < 10 then [DigitoDe(n)]
    else
      var r := Digitos(n / 10) + [DigitoDe(n % 10)];
      assert r[..|r| - 1] == Digitos(n / 10);
      r
  }

  /** A numeral with fewer than k digits denotes a number below 10^k. */
  lemma {:induction false} DigitosCurtos(n: nat, k: nat)
    requires n < Pot10(k)
    ensures |Digitos(n)| <= k || (k == 0 && n == 0)
    decreases n
  {
    if n >= 10 {
      assert k > 0;
      assert n / 10 < Pot10(k - 1);
      DigitosCurtos(n / 10, k - 1);
    } else if k == 0 {
      assert n == 0;
    }
  }

  /** A numeral of more than k digits denotes at least 10^k. */
  lemma {:induction false} DigitosLongos(n: nat, k: nat)
    requires n >= Pot10(k)
    ensures |Digitos(n)| > k
    decreases n
  {
    if k > 0 {
      assert n >= 10;
      assert n / 10 >= Pot10(k - 1);
      DigitosLongos(n / 10, k - 1);
    } else {
    }
  }

  /** String.replace(c, d) for chars. */
  function SubstituiChar(s: string, de: char, para: char): (r: string)
    ensures |r| == |s|
    ensures forall i :: 0 <= i < |s| ==> r[i] == if s[i] == de then para else s[i]
  {
    if s == [] then [] else [if s[0] == de then para else s[0]] + SubstituiChar(s[1..], de, para)
  }

  lemma {:induction false} SubstituiCharConcat(a: string, b: string, de: char, para: char)
    ensures SubstituiChar(a + b, de, para) == SubstituiChar(a, de, para) + SubstituiChar(b, de, para)
  {
    if a == [] {
      assert a + b == b;
    } else {
      assert (a + b)[1..] == a[1..] + b;
      SubstituiCharConcat(a[1..], b, de, para);
    }
  }

  lemma SubstituiSemOcorrencia(s: string, de: char, para: char)
    requires de !in s
    ensures SubstituiChar(s, de, para) == s
  {
  }

  /** String.replace(alvo, ""): deletes the non-overlapping occurrences of alvo, scanning left to right. */
  function RemoveOcorrencias(s: string, alvo: string): (r: string)
    requires |alvo| > 0
    ensures |r| <= |s|
    decreases |s|
  {
    if |s| == 0 then []
    else if |s| >= |alvo| && s[..|alvo|] == alvo then RemoveOcorrencias(s[|alvo|..], alvo)
    else [s[0]] + RemoveOcorrencias(s[1..], alvo)
  }

  /** Nothing is deleted from a string in which the target's first char never occurs. */
  lemma {:induction false} RemoveSemOcorrencia(s: string, alvo: string)
    requires |alvo| > 0 && alvo[0] !in s
    ensures RemoveOcorrencias(s, alvo) == s
  {
    if |s| > 0 {
      assert s[0] != alvo[0];
      assert s[1..] + [] == s[1..];
      assert alvo[0] !in s[1..] by {
        forall k | 0 <= k < |s| - 1 ensures s[1..][k] != alvo[0] { assert s[1..][k] == s[k + 1]; }
      }
      RemoveSemOcorrencia(s[1..], alvo);
      assert [s[0]] + s[1..] == s;
    }
  }

  /** alvo occurs in s starting at position i. */
  predicate OcorreEm(s: string, alvo: string, i: int)
  {
    0 <= i && i + |alvo| <= |s| && s[i..i + |alvo|] == alvo
  }

  /** A text in which the target occurs nowhere is left unchanged. */
  lemma {:induction false} RemoveNenhumaOcorrencia(s: string, alvo: string)
    requires |alvo| > 0 && forall i :: 0 <= i < |s| ==> !OcorreEm(s, alvo, i)
    ensures RemoveOcorrencias(s, alvo) == s
  {
    if |s| > 0 {
      assert !OcorreEm(s, alvo, 0);
      forall i | 0 <= i < |s| - 1 ensures !OcorreEm(s[1..], alvo, i) {
        if OcorreEm(s[1..], alvo, i) {
          assert s[1..][i..i + |alvo|] == s[i + 1..i + 1 + |alvo|];
          assert OcorreEm(s, alvo, i + 1);
        }
      }
      RemoveNenhumaOcorrencia(s[1..], alvo);
      assert [s[0]] + s[1..] == s;
    }
  }

  /**
   * The scan is left to right: when the first occurrence of the target
   * starts right after a, the text a is kept, that occurrence is deleted
   * and the scan goes on after it.
   */
  lemma {:induction false} RemovePrimeiraOcorrencia(a: string, alvo: string, b: string)
    requires |alvo| > 0 && forall i :: 0 <= i < |a| ==> !OcorreEm(a + alvo + b, alvo, i)
    ensures RemoveOcorrencias(a + alvo + b, alvo) == a + RemoveOcorrencias(b, alvo)
    decreases |a|
  {
    var s := a + alvo + b;
    if a == [] {
      assert s == alvo + b;
      assert s[..|alvo|] == alvo && s[|alvo|..] == b;
    } else {
      assert !OcorreEm(s, alvo, 0);
      assert s[1..] == a[1..] + alvo + b;
      forall i | 0 <= i < |a| - 1 ensures !OcorreEm(a[1..] + alvo + b, alvo, i) {
        if OcorreEm(s[1..], alvo, i) {
          assert s[1..][i..i + |alvo|] == s[i + 1..i + 1 + |alvo|];
          assert OcorreEm(s, alvo, i + 1);
        }
      }
      RemovePrimeiraOcorrencia(a[1..], alvo, b);
      assert [a[0]] + (a[1..] + RemoveOcorrencias(b, alvo)) == a + RemoveOcorrencias(b, alvo);
    }
  }

  /**
   * String.length(): the number of UTF-16 code units, where a char above
   * U+FFFF is a surrogate pair and counts twice.
   */
  function ComprimentoUtf16(s: string): (n: nat)
    ensures |s| <= n <= 2 * |s|
    ensures (forall i :: 0 <= i < |s| ==> s[i] as int < 0x1_0000) ==> n == |s|
    ensures (forall i :: 0 <= i < |s| ==> s[i] as int >= 0x1_0000) ==> n == 2 * |s|
  {
    if s == [] then 0
    else (if s[0] as int < 0x1_0000 then 1 else 2) + ComprimentoUtf16(s[1..])
  }

  /** The UTF-16 length of a concatenation is the sum of the lengths. */
  lemma {:induction false} ComprimentoUtf16Concat(a: string, b: string)
    ensures ComprimentoUtf16(a + b) == ComprimentoUtf16(a) + ComprimentoUtf16(b)
  {
    if a != [] {
      assert (a + b)[1..] == a[1..] + b;
      ComprimentoUtf16Concat(a[1..], b);
    } else {
      assert a + b == b;
    }
  }

  /** Index of the first occurrence of x in s. */
  function Primeiro<T(==)>(s: seq<T>, x: T): (k: nat)
    requires x in s
    ensures k < |s| && s[k] == x && x !in s[..k]
  {
    if s[0] == x then 0
    else
      var k := 1 + Primeiro(s[1..], x);
      assert s[..k] == [s[0]] + s[1..][..k - 1];
      k
  }

}
