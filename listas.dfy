/** Python list operations used by the bot on its id lists: membership-guarded
    `append` and `list.remove`, which deletes the first occurrence only. */
module Listas {

  /** No element occurs twice. */
  predicate SemRepeticao<T(==)>(s: seq<T>) {
    forall i, j :: 0 <= i < j < |s| ==> s[i] != s[j]
  }

  /** `if x not in s: s.append(x)` */
  function Adicionado<T(==,!new)>(s: seq<T>, x: T): (r: seq<T>)
    ensures x in r
    ensures forall y :: y in r <==> y in s || y == x
    ensures x in s ==> r == s
    ensures x !in s ==> r == s + [x]
    ensures SemRepeticao(s) ==> SemRepeticao(r)
  {
    if x in s then s else s + [x]
  }

  /** `s.index(x)`: the position of the first occurrence of `x`. */
  function Posicao<T(==)>(s: seq<T>, x: T): (i: nat)
    requires x in s
    ensures i < |s| && s[i] == x && x !in s[..i]
  {
    if s[0] == x then 0
    else
      var j := Posicao(s[1..], x);
      assert s[..j + 1] == [s[0]] + s[1..][..j];
      j + 1
  }

  /** `s.remove(x)` once `x in s` has been checked: the first occurrence
      of `x` is deleted and the order of the rest is kept; on a list
      without `x` the result is the list itself. */
  function RemoverPrimeiro<T(==)>(s: seq<T>, x: T): (r: seq<T>)
    ensures x !in s ==> r == s
    ensures multiset(r) == multiset(s) - multiset{x}
  {
    if s == [] then []
    else if s[0] == x then assert s == [s[0]] + s[1..]; s[1..]
    else assert s == [s[0]] + s[1..]; [s[0]] + RemoverPrimeiro(s[1..], x)
  }

  /** The occurrence removed is the first one, and the elements before and
      after it keep their order. */
  lemma {:induction false} RemoverPrimeiroNaPosicao<T>(s: seq<T>, x: T)
    requires x in s
    ensures RemoverPrimeiro(s, x) == s[..Posicao(s, x)] + s[Posicao(s, x) + 1..]
  {
    if s[0] == x {
      assert s[..0] + s[1..] == s[1..];
    } else {
      var t := s[1..];
      var j := Posicao(t, x);
      var r := RemoverPrimeiro(t, x);
      assert Posicao(s, x) == j + 1;
      assert RemoverPrimeiro(s, x) == [s[0]] + r;
      RemoverPrimeiroNaPosicao(t, x);
      assert r == t[..j] + t[j + 1..];
      CortarDepoisDoPrimeiro(s, j);
      assert [s[0]] + r == s[..j + 1] + s[j + 2..];
    }
  }

  /** Cutting position `j` out of the tail, then putting the head back, is
      cutting position `j + 1` out of the whole list. */
  lemma CortarDepoisDoPrimeiro<T>(s: seq<T>, j: nat)
    requires j + 1 < |s|
    ensures [s[0]] + (s[1..][..j] + s[1..][j + 1..]) == s[..j + 1] + s[j + 2..]
  {
    assert [s[0]] + s[1..][..j] == s[..j + 1];
    assert s[1..][j + 1..] == s[j + 2..];
  }

  /** Removal keeps every other element and deletes one occurrence of `x`. */
  lemma RemoverPertence<T(!new)>(s: seq<T>, x: T)
    ensures forall y :: y != x ==> (y in RemoverPrimeiro(s, x) <==> y in s)
    ensures x in s ==> |RemoverPrimeiro(s, x)| == |s| - 1
  {
    var r := RemoverPrimeiro(s, x);
    forall y | y != x ensures y in r <==> y in s {
      assert y in r <==> y in multiset(r);
      assert y in s <==> y in multiset(s);
    }
    if x in s {
      assert x in multiset(s);
      assert |multiset(r)| == |multiset(s)| - 1;
    }
  }

  /** A list without repetitions holds `x` at most once. */
  lemma {:induction false} UmaOcorrencia<T>(s: seq<T>, x: T)
    requires SemRepeticao(s)
    ensures multiset(s)[x] <= 1
  {
    if s != [] {
      var n := |s| - 1;
      assert s == s[..n] + [s[n]];
      assert SemRepeticao(s[..n]) by {
        forall i, j | 0 <= i < j < n ensures s[..n][i] != s[..n][j] {
          assert s[..n][i] == s[i] && s[..n][j] == s[j];
        }
      }
      UmaOcorrencia(s[..n], x);
      if s[n] == x {
        assert x !in s[..n] by {
          forall k | 0 <= k < n ensures s[..n][k] != x {
            assert s[..n][k] == s[k];
          }
        }
      }
    }
  }

  /** A list without repetitions is determined, as to repetitions, by its multiset. */
  lemma {:induction false} SemRepeticaoPorContagem<T>(s: seq<T>)
    requires forall y :: multiset(s)[y] <= 1
    ensures SemRepeticao(s)
  {
    if s != [] {
      var n := |s| - 1;
      assert s == s[..n] + [s[n]];
      assert multiset(s) == multiset(s[..n]) + multiset{s[n]};
      assert forall y :: multiset(s[..n])[y] <= 1 by {
        forall y ensures multiset(s[..n])[y] <= 1 {
          assert multiset(s)[y] == multiset(s[..n])[y] + multiset{s[n]}[y];
        }
      }
      SemRepeticaoPorContagem(s[..n]);
      assert s[n] !in s[..n] by {
        assert multiset(s)[s[n]] == multiset(s[..n])[s[n]] + 1;
      }
      forall i, j | 0 <= i < j < |s| ensures s[i] != s[j] {
        if j < n {
          assert s[..n][i] == s[i] && s[..n][j] == s[j];
        } else {
          assert s[..n][i] == s[i];
        }
      }
    }
  }

  /** On a list without repetitions, removal deletes the element entirely and
      keeps every other one, each still once. */
  lemma RemoverSemRepeticao<T(!new)>(s: seq<T>, x: T)
    requires SemRepeticao(s)
    ensures x in s ==> |RemoverPrimeiro(s, x)| == |s| - 1
    ensures SemRepeticao(RemoverPrimeiro(s, x))
    ensures forall y :: y in RemoverPrimeiro(s, x) <==> y in s && y != x
  {
    var r := RemoverPrimeiro(s, x);
    RemoverPertence(s, x);
    UmaOcorrencia(s, x);
    assert x !in multiset(r);
    forall y ensures multiset(r)[y] <= 1 {
      UmaOcorrencia(s, y);
    }
    SemRepeticaoPorContagem(r);
  }

  /** Removing what was just appended restores the list. */
  lemma {:induction false} RemoverDesfazAdicionar<T(!new)>(s: seq<T>, x: T)
    requires x !in s
    ensures RemoverPrimeiro(Adicionado(s, x), x) == s
  {
    if s != [] {
      assert (s + [x])[1..] == s[1..] + [x];
      RemoverDesfazAdicionar(s[1..], x);
    }
  }

  /** Appending what was just removed gives back the same elements, each once:
      a permutation of the list (the element moves to the end). */
  lemma AdicionarDesfazRemover<T(!new)>(s: seq<T>, x: T)
    requires SemRepeticao(s) && x in s
    ensures multiset(Adicionado(RemoverPrimeiro(s, x), x)) == multiset(s)
    ensures SemRepeticao(Adicionado(RemoverPrimeiro(s, x), x))
  {
    var r := RemoverPrimeiro(s, x);
    RemoverSemRepeticao(s, x);
    assert Adicionado(r, x) == r + [x];
    assert x in multiset(s);
    calc {
      multiset(r + [x]);
      multiset(r) + multiset{x};
      (multiset(s) - multiset{x}) + multiset{x};
      multiset(s);
    }
  }

  /** Dropping the last element keeps a list free of repetitions, and the
      dropped element is not among the others. */
  lemma PrefixoSemRepeticao<T>(s: seq<T>)
    requires SemRepeticao(s) && s != []
    ensures SemRepeticao(s[..|s| - 1])
    ensures s[|s| - 1] !in s[..|s| - 1]
  {
    var n := |s| - 1;
    forall i, j | 0 <= i < j < n ensures s[..n][i] != s[..n][j] {
      assert s[..n][i] == s[i] && s[..n][j] == s[j];
    }
    forall k | 0 <= k < n ensures s[..n][k] != s[n] {
      assert s[..n][k] == s[k];
    }
  }

  /** Appending an element that is not present keeps a list free of repetitions. */
  lemma AnexarSemRepeticao<T>(s: seq<T>, x: T)
    requires SemRepeticao(s) && x !in s
    ensures SemRepeticao(s + [x])
  {
    forall i, j | 0 <= i < j < |s + [x]| ensures (s + [x])[i] != (s + [x])[j] {
      if j < |s| {
        assert (s + [x])[i] == s[i] && (s + [x])[j] == s[j];
      } else {
        assert (s + [x])[i] == s[i];
      }
    }
  }
}
