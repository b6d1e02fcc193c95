/** The settlement rules of the four games, as functions on the accounts once
    the random draw is given: the duel (`duelar`), the coin-flip bet (`bet`),
    the group melee (`rinha`) and the cup guess (`copo`). Each is followed by
    the lemma that states what it does to balances and logs. */
module Jogos {
  import opened Listas
  import opened Financas

  /** Why a game is refused before it starts. */
  datatype Recusa =
    | ContraSiMesmo        // a duel against oneself
    | AlvoInvalido         // a bet against oneself or against a bot
    | ValorInvalido        // a bet with a non-positive stake
    | SemSaldo             // a duel or cup game some player cannot cover
    | AutorSemSaldo        // a bet the proposer cannot cover
    | DesafiadoSemSaldo    // a bet the challenged user cannot cover
    | ParametrosInvalidos  // a rinha with a non-positive stake or fewer than 2 seats

  // ---------------------------------------------------------------- duel

  /** The checks of `duelar` before the challenge is posted: no
      self-challenge, and both users must hold at least the stake. The stake
      itself is not checked for sign. */
  function PropostaDuelo(u: Usuarios, autor: Uid, membro: Uid, valor: int): (r: Option<Recusa>)
    ensures r == Some(ContraSiMesmo) <==> autor == membro
    ensures r == Some(SemSaldo) <==>
              autor != membro && (Saldo(u, autor) < valor || Saldo(u, membro) < valor)
    ensures r == None <==>
              autor != membro && Saldo(u, autor) >= valor && Saldo(u, membro) >= valor
  {
    if membro == autor then Some(ContraSiMesmo)
    else if Saldo(u, autor) < valor || Saldo(u, membro) < valor then Some(SemSaldo)
    else None
  }

  /** The loser of a duel or a bet, given the drawn winner: the other one of
      the two participants. */
  function Perdedor(autor: Uid, membro: Uid, vencedor: Uid): (p: Uid)
    requires autor != membro
    requires vencedor == autor || vencedor == membro
    ensures p == autor || p == membro
    ensures p != vencedor
  {
    if vencedor == autor then membro else autor
  }

  /** The accepted duel: the winner is credited the stake, the loser
      debited, then one "receita" and one "despesa" entry are logged. */
  function LiquidacaoDuelo(u: Usuarios, vencedor: Uid, perdedor: Uid, valor: int,
                           nomeVencedor: string, nomePerdedor: string, agora: int): Usuarios
  {
    var u1 := Creditar(u, vencedor, valor);
    var u2 := Creditar(u1, perdedor, -valor);
    var u3 := Registrar(u2, vencedor, Transacao(Receita, valor, "Ganhou duelo contra " + nomePerdedor, agora));
    Registrar(u3, perdedor, Transacao(Despesa, valor, "Perdeu duelo para " + nomeVencedor, agora))
  }

  /** A settled duel moves exactly the stake from the loser to the winner,
      so the pair's total is conserved; each gets exactly one entry; nobody
      else changes; and balances stay equal to their logs' signed sums. */
  lemma DueloTransfere(u: Usuarios, vencedor: Uid, perdedor: Uid, valor: int,
                       nomeVencedor: string, nomePerdedor: string, agora: int)
    requires vencedor != perdedor
    ensures var r := LiquidacaoDuelo(u, vencedor, perdedor, valor, nomeVencedor, nomePerdedor, agora);
            && Saldo(r, vencedor) == Saldo(u, vencedor) + valor
            && Saldo(r, perdedor) == Saldo(u, perdedor) - valor
            && Saldo(r, vencedor) + Saldo(r, perdedor) == Saldo(u, vencedor) + Saldo(u, perdedor)
            && Historico(r, vencedor) == Historico(u, vencedor) + [Transacao(Receita, valor, "Ganhou duelo contra " + nomePerdedor, agora)]
            && Historico(r, perdedor) == Historico(u, perdedor) + [Transacao(Despesa, valor, "Perdeu duelo para " + nomeVencedor, agora)]
            && r.Keys == u.Keys + {vencedor, perdedor}
            && (forall x :: x in u && x != vencedor && x != perdedor ==> r[x] == u[x])
            && (Consistente(u) ==> Consistente(r))
  {
    var tv := Transacao(Receita, valor, "Ganhou duelo contra " + nomePerdedor, agora);
    var tp := Transacao(Despesa, valor, "Perdeu duelo para " + nomeVencedor, agora);
    var r := LiquidacaoDuelo(u, vencedor, perdedor, valor, nomeVencedor, nomePerdedor, agora);
    DueloConta(u, vencedor, perdedor, valor, tv, tp, vencedor);
    DueloConta(u, vencedor, perdedor, valor, tv, tp, perdedor);
    forall x | x in u && x != vencedor && x != perdedor ensures r[x] == u[x] {
      DueloConta(u, vencedor, perdedor, valor, tv, tp, x);
    }
    if Consistente(u) {
      DueloConsistente(u, vencedor, perdedor, valor, tv, tp);
    }
  }

  /** Each account after the four updates of a settled duel. */
  lemma DueloConta(u: Usuarios, vencedor: Uid, perdedor: Uid, valor: int, tv: Transacao, tp: Transacao, x: Uid)
    requires vencedor != perdedor
    ensures var r := Registrar(Registrar(Creditar(Creditar(u, vencedor, valor), perdedor, -valor), vencedor, tv), perdedor, tp);
            ContaDe(r, x) == if x == vencedor then Conta(Saldo(u, x) + valor, Historico(u, x) + [tv])
                             else if x == perdedor then Conta(Saldo(u, x) - valor, Historico(u, x) + [tp])
                             else ContaDe(u, x)
  {
    var u1 := Creditar(u, vencedor, valor);
    var u2 := Creditar(u1, perdedor, -valor);
    var u3 := Registrar(u2, vencedor, tv);
    var r := Registrar(u3, perdedor, tp);
    if x == vencedor {
      assert ContaDe(u2, x) == ContaDe(u1, x);
      assert ContaDe(r, x) == ContaDe(u3, x);
    } else if x == perdedor {
      assert ContaDe(u1, x) == ContaDe(u, x);
      assert ContaDe(u3, x) == ContaDe(u2, x);
    } else {
      assert ContaDe(u1, x) == ContaDe(u, x);
      assert ContaDe(u2, x) == ContaDe(u1, x);
      assert ContaDe(u3, x) == ContaDe(u2, x);
    }
  }

  /** The four updates of a settled duel keep balances equal to their logs'
      signed sums. */
  lemma DueloConsistente(u: Usuarios, vencedor: Uid, perdedor: Uid, valor: int, tv: Transacao, tp: Transacao)
    requires vencedor != perdedor
    requires Consistente(u)
    requires Assinado(tv) == valor && Assinado(tp) == -valor
    ensures Consistente(Registrar(Registrar(Creditar(Creditar(u, vencedor, valor), perdedor, -valor), vencedor, tv), perdedor, tp))
  {
    var u1 := Creditar(u, vencedor, valor);
    var u2 := Creditar(u1, perdedor, -valor);
    var u3 := Registrar(u2, vencedor, tv);
    var r := Registrar(u3, perdedor, tp);
    forall x | x in r ensures r[x].saldo == SomaLog(r[x].transacoes) {
      if x == vencedor {
        SomaLogAnexar(Historico(u, vencedor), tv);
        assert ContaDe(r, x) == ContaDe(u3, x);
      } else if x == perdedor {
        SomaLogAnexar(Historico(u, perdedor), tp);
        assert ContaDe(u2, x).transacoes == ContaDe(u, x).transacoes;
      } else {
        assert r[x] == u[x];
      }
    }
  }

  // ---------------------------------------------------------- coin-flip bet

  /** The two faces of the coin; "cara" makes the proposer win. */
  datatype Face = Cara | Coroa

  /** The checks of `bet`, in their order: a bot or oneself as opponent, a
      non-positive stake, then each user's balance. */
  function PropostaAposta(u: Usuarios, autor: Uid, membro: Uid, membroEhBot: bool, valor: int): (r: Option<Recusa>)
    ensures r == Some(AlvoInvalido) <==> membroEhBot || membro == autor
    ensures r == Some(ValorInvalido) <==> !membroEhBot && membro != autor && valor <= 0
    ensures r == Some(AutorSemSaldo) <==>
              !membroEhBot && membro != autor && valor > 0 && Saldo(u, autor) < valor
    ensures r == Some(DesafiadoSemSaldo) <==>
              !membroEhBot && membro != autor && valor > 0 &&
              Saldo(u, autor) >= valor && Saldo(u, membro) < valor
    ensures r == None <==>
              !membroEhBot && membro != autor && valor > 0 &&
              Saldo(u, autor) >= valor && Saldo(u, membro) >= valor
  {
    if membroEhBot || membro == autor then Some(AlvoInvalido)
    else if valor <= 0 then Some(ValorInvalido)
    else if Saldo(u, autor) < valor then Some(AutorSemSaldo)
    else if Saldo(u, membro) < valor then Some(DesafiadoSemSaldo)
    else None
  }

  /** The winner of the bet for the drawn face. */
  function VencedorAposta(autor: Uid, membro: Uid, resultado: Face): (v: Uid)
    requires autor != membro
    ensures v == autor || v == membro
    ensures v == autor <==> resultado == Cara
  {
    if resultado == Cara then autor else membro
  }

  /** The accepted bet: two calls of the four-argument `alterar_saldo`. */
  function LiquidacaoAposta(u: Usuarios, vencedor: Uid, perdedor: Uid, valor: int,
                            nomeVencedor: string, nomePerdedor: string, agora: int): Usuarios
  {
    var u1 := Lancar(u, vencedor, valor, "Venceu aposta cara ou coroa contra " + nomePerdedor, agora);
    Lancar(u1, perdedor, -valor, "Perdeu aposta cara ou coroa para " + nomeVencedor, agora)
  }

  /** For the positive stakes the bet admits, the winner gains it with a
      "receita" entry and the loser loses it with a "despesa" entry of the
      same amount; the pair's total is conserved and nobody else changes. */
  lemma ApostaTransfere(u: Usuarios, vencedor: Uid, perdedor: Uid, valor: int,
                        nomeVencedor: string, nomePerdedor: string, agora: int)
    requires vencedor != perdedor
    requires valor > 0
    ensures var r := LiquidacaoAposta(u, vencedor, perdedor, valor, nomeVencedor, nomePerdedor, agora);
            && Saldo(r, vencedor) == Saldo(u, vencedor) + valor
            && Saldo(r, perdedor) == Saldo(u, perdedor) - valor
            && Saldo(r, vencedor) + Saldo(r, perdedor) == Saldo(u, vencedor) + Saldo(u, perdedor)
            && Historico(r, vencedor) == Historico(u, vencedor) + [Transacao(Receita, valor, "Venceu aposta cara ou coroa contra " + nomePerdedor, agora)]
            && Historico(r, perdedor) == Historico(u, perdedor) + [Transacao(Despesa, valor, "Perdeu aposta cara ou coroa para " + nomeVencedor, agora)]
            && r.Keys == u.Keys + {vencedor, perdedor}
            && (forall x :: x in u && x != vencedor && x != perdedor ==> r[x] == u[x])
            && (Consistente(u) ==> Consistente(r))
  {
    var dv := "Venceu aposta cara ou coroa contra " + nomePerdedor;
    var dp := "Perdeu aposta cara ou coroa para " + nomeVencedor;
    var u1 := Lancar(u, vencedor, valor, dv, agora);
    var r := Lancar(u1, perdedor, -valor, dp, agora);
    ApostaConta(u, vencedor, perdedor, valor, dv, dp, agora, vencedor);
    ApostaConta(u, vencedor, perdedor, valor, dv, dp, agora, perdedor);
    forall x | x in u && x != vencedor && x != perdedor ensures r[x] == u[x] {
      ApostaConta(u, vencedor, perdedor, valor, dv, dp, agora, x);
    }
    if Consistente(u) {
      ApostaConsistente(u, vencedor, perdedor, valor, dv, dp, agora);
    }
  }

  /** The two updates of a settled bet keep balances equal to their logs'
      signed sums. */
  lemma ApostaConsistente(u: Usuarios, vencedor: Uid, perdedor: Uid, valor: int, dv: string, dp: string, agora: int)
    requires Consistente(u)
    ensures Consistente(Lancar(Lancar(u, vencedor, valor, dv, agora), perdedor, -valor, dp, agora))
  {
    var tv := Transacao(TipoPeloSinal(valor), Abs(valor), dv, agora);
    var tp := Transacao(TipoPeloSinal(-valor), Abs(-valor), dp, agora);
    assert Assinado(tv) == valor && Assinado(tp) == -valor;
    var u1 := Lancar(u, vencedor, valor, dv, agora);
    var r := Lancar(u1, perdedor, -valor, dp, agora);
    forall x | x in r ensures r[x].saldo == SomaLog(r[x].transacoes) {
      if x == perdedor {
        SomaLogAnexar(Historico(u1, perdedor), tp);
        if x != vencedor {
          assert ContaDe(u1, x) == ContaDe(u, x);
        } else {
          SomaLogAnexar(Historico(u, vencedor), tv);
        }
      } else if x == vencedor {
        SomaLogAnexar(Historico(u, vencedor), tv);
        assert ContaDe(r, x) == ContaDe(u1, x);
      } else {
        assert r[x] == u1[x] == u[x];
      }
    }
  }

  /** Each account after the two updates of a settled bet. */
  lemma ApostaConta(u: Usuarios, vencedor: Uid, perdedor: Uid, valor: int,
                    dv: string, dp: string, agora: int, x: Uid)
    requires vencedor != perdedor
    requires valor > 0
    ensures var r := Lancar(Lancar(u, vencedor, valor, dv, agora), perdedor, -valor, dp, agora);
            ContaDe(r, x) == if x == vencedor then Conta(Saldo(u, x) + valor, Historico(u, x) + [Transacao(Receita, valor, dv, agora)])
                             else if x == perdedor then Conta(Saldo(u, x) - valor, Historico(u, x) + [Transacao(Despesa, valor, dp, agora)])
                             else ContaDe(u, x)
  {
    var u1 := Lancar(u, vencedor, valor, dv, agora);
    assert TipoPeloSinal(valor) == Receita && Abs(valor) == valor;
    assert TipoPeloSinal(-valor) == Despesa && Abs(-valor) == valor;
    if x == vencedor {
      assert ContaDe(Lancar(u1, perdedor, -valor, dp, agora), x) == ContaDe(u1, x);
    } else if x == perdedor {
      assert ContaDe(u1, x) == ContaDe(u, x);
    } else {
      assert ContaDe(u1, x) == ContaDe(u, x);
    }
  }

  // ------------------------------------------------------------------ rinha

  /** The check of `rinha` before the session is posted. */
  function PropostaRinha(valor: int, maxJogadores: int): (r: Option<Recusa>)
    ensures r == None <==> valor > 0 && maxJogadores >= 2
    ensures r != None ==> r == Some(ParametrosInvalidos)
  {
    if valor <= 0 || maxJogadores < 2 then Some(ParametrosInvalidos) else None
  }

  /** The entry logged for each player when the melee starts. */
  function EntradaRinha(valor: int, agora: int): Transacao {
    Transacao(Despesa, valor, "Entrou na rinha", agora)
  }

  /** One iteration of the charging loop of `iniciar_rinha`. */
  function Cobrar(u: Usuarios, j: Uid, valor: int, agora: int): Usuarios {
    Registrar(Creditar(u, j, -valor), j, EntradaRinha(valor, agora))
  }

  /** The charging loop of `iniciar_rinha` over the players, in order:
      no account is dropped and everyone else is untouched. */
  function CobrarTodos(u: Usuarios, js: seq<Uid>, valor: int, agora: int): (r: Usuarios)
    ensures u.Keys <= r.Keys
    ensures forall x :: x !in js ==> (x in r <==> x in u) && ContaDe(r, x) == ContaDe(u, x)
    decreases |js|
  {
    if js == [] then u
    else
      assert js == js[..|js| - 1] + [js[|js| - 1]];
      Cobrar(CobrarTodos(u, js[..|js| - 1], valor, agora), js[|js| - 1], valor, agora)
  }

  /** After the charging loop every player has an account, and no other
      account was created. */
  lemma {:induction false} CobrarTodosChaves(u: Usuarios, js: seq<Uid>, valor: int, agora: int)
    ensures CobrarTodos(u, js, valor, agora).Keys == u.Keys + (set x | x in js)
  {
    if js != [] {
      var n := |js| - 1;
      assert js == js[..n] + [js[n]];
      CobrarTodosChaves(u, js[..n], valor, agora);
    }
  }

  /** Charging the first `i + 1` players is charging the first `i` and then
      player `i`: the step of the loop of `iniciar_rinha`. */
  lemma CobrarTodosPasso(u: Usuarios, js: seq<Uid>, i: nat, valor: int, agora: int)
    requires i < |js|
    ensures CobrarTodos(u, js[..i + 1], valor, agora) == Cobrar(CobrarTodos(u, js[..i], valor, agora), js[i], valor, agora)
  {
    assert js[..i + 1][..i] == js[..i];
  }

  /** With distinct players, the charging loop debits each player the stake
      exactly once. */
  lemma {:induction false} CobrarTodosSaldos(u: Usuarios, js: seq<Uid>, valor: int, agora: int)
    requires SemRepeticao(js)
    ensures forall x :: x in js ==> Saldo(CobrarTodos(u, js, valor, agora), x) == Saldo(u, x) - valor
  {
    if js != [] {
      var n := |js| - 1;
      assert js == js[..n] + [js[n]];
      PrefixoSemRepeticao(js);
      CobrarTodosSaldos(u, js[..n], valor, agora);
      assert Saldo(CobrarTodos(u, js[..n], valor, agora), js[n]) == Saldo(u, js[n]);
    }
  }

  /** With distinct players, the charging loop logs exactly one expense of
      the stake for each player, after the entries already there. */
  lemma {:induction false} CobrarTodosHistoricos(u: Usuarios, js: seq<Uid>, valor: int, agora: int)
    requires SemRepeticao(js)
    ensures forall x :: x in js ==>
              Historico(CobrarTodos(u, js, valor, agora), x) == Historico(u, x) + [EntradaRinha(valor, agora)]
  {
    if js != [] {
      var n := |js| - 1;
      assert js == js[..n] + [js[n]];
      PrefixoSemRepeticao(js);
      var c := CobrarTodos(u, js[..n], valor, agora);
      CobrarTodosHistoricos(u, js[..n], valor, agora);
      assert Historico(c, js[n]) == Historico(u, js[n]);
      forall x | x in js ensures Historico(CobrarTodos(u, js, valor, agora), x) == Historico(u, x) + [EntradaRinha(valor, agora)] {
        if x != js[n] {
          assert x in js[..n];
          assert Historico(CobrarTodos(u, js, valor, agora), x) == Historico(c, x);
        }
      }
    }
  }

  /** `iniciar_rinha`: every player is charged, then the drawn winner is
      credited the stake times the number of players and logs one income. */
  function LiquidacaoRinha(u: Usuarios, js: seq<Uid>, valor: int, vencedor: Uid, agora: int): Usuarios {
    var premio := valor * |js|;
    Registrar(Creditar(CobrarTodos(u, js, valor, agora), vencedor, premio), vencedor,
              Transacao(Receita, premio, "Ganhou a rinha", agora))
  }

  /** The sum of the players' balances. */
  function SomaSaldos(u: Usuarios, js: seq<Uid>): int {
    if js == [] then 0 else SomaSaldos(u, js[..|js| - 1]) + Saldo(u, js[|js| - 1])
  }

  /** Shifting every player's balance by `d` shifts the sum by `d` per player. */
  lemma {:induction false} SomaDeslocada(a: Usuarios, b: Usuarios, js: seq<Uid>, d: int)
    requires forall x :: x in js ==> Saldo(a, x) == Saldo(b, x) - d
    ensures SomaSaldos(a, js) == SomaSaldos(b, js) - d * |js|
  {
    if js != [] {
      var n := |js| - 1;
      assert Saldo(a, js[n]) == Saldo(b, js[n]) - d;
      assert forall i :: 0 <= i < n ==> js[..n][i] == js[i];
      SomaDeslocada(a, b, js[..n], d);
      assert SomaSaldos(a, js) == SomaSaldos(a, js[..n]) + Saldo(a, js[n]);
      assert SomaSaldos(b, js) == SomaSaldos(b, js[..n]) + Saldo(b, js[n]);
      MultiploSeguinte(d, n);
    }
  }

  /** `d` times one more player is `d` more. */
  lemma MultiploSeguinte(d: int, n: nat)
    ensures d * (n + 1) == d * n + d
  {
  }

  /** Changing one player's balance by `p` changes the sum by `p`. */
  lemma {:induction false} SomaComUmCredito(a: Usuarios, b: Usuarios, js: seq<Uid>, w: Uid, p: int)
    requires SemRepeticao(js) && w in js
    requires Saldo(a, w) == Saldo(b, w) + p
    requires forall x :: x in js && x != w ==> Saldo(a, x) == Saldo(b, x)
    ensures SomaSaldos(a, js) == SomaSaldos(b, js) + p
  {
    var n := |js| - 1;
    assert js == js[..n] + [js[n]];
    PrefixoSemRepeticao(js);
    if js[n] == w {
      SomaDeslocada(a, b, js[..n], 0);
    } else {
      SomaComUmCredito(a, b, js[..n], w, p);
    }
  }

  /** Charging one player keeps balances equal to their logs' signed sums. */
  lemma CobrarConsistente(c: Usuarios, j: Uid, valor: int, agora: int)
    requires Consistente(c)
    ensures Consistente(Cobrar(c, j, valor, agora))
  {
    var m := Registrar(Creditar(c, j, -valor), j, EntradaRinha(valor, agora));
    CreditarERegistrarConsistente(c, j, -valor, EntradaRinha(valor, agora));
    assert Consistente(m);
  }

  /** The charging loop keeps balances equal to their logs' signed sums. */
  lemma {:induction false} CobrarTodosConsistente(u: Usuarios, js: seq<Uid>, valor: int, agora: int)
    requires Consistente(u)
    ensures Consistente(CobrarTodos(u, js, valor, agora))
  {
    if js != [] {
      var n := |js| - 1;
      CobrarTodosConsistente(u, js[..n], valor, agora);
      CobrarConsistente(CobrarTodos(u, js[..n], valor, agora), js[n], valor, agora);
    }
  }

  /** A settled rinha among distinct players, with the winner drawn from
      them: each loser is down the stake with one expense entry, the winner is
      up the stake times (players - 1) with one expense and one income entry,
      and nobody else changes. */
  lemma RinhaPorJogador(u: Usuarios, js: seq<Uid>, valor: int, vencedor: Uid, agora: int)
    requires SemRepeticao(js) && vencedor in js
    ensures var r := LiquidacaoRinha(u, js, valor, vencedor, agora);
            && Saldo(r, vencedor) == Saldo(u, vencedor) + valor * (|js| - 1)
            && Historico(r, vencedor) == Historico(u, vencedor) +
                 [EntradaRinha(valor, agora), Transacao(Receita, valor * |js|, "Ganhou a rinha", agora)]
            && (forall x :: x in js && x != vencedor ==>
                  Saldo(r, x) == Saldo(u, x) - valor &&
                  Historico(r, x) == Historico(u, x) + [EntradaRinha(valor, agora)])
            && r.Keys == u.Keys + (set x | x in js)
            && (forall x :: x in u && x !in js ==> r[x] == u[x])
  {
    RinhaVencedor(u, js, valor, vencedor, agora);
    RinhaPerdedores(u, js, valor, vencedor, agora);
    RinhaDemais(u, js, valor, vencedor, agora);
  }

  /** The winner of the melee pays the stake and collects the pot. */
  lemma RinhaVencedor(u: Usuarios, js: seq<Uid>, valor: int, vencedor: Uid, agora: int)
    requires SemRepeticao(js) && vencedor in js
    ensures var r := LiquidacaoRinha(u, js, valor, vencedor, agora);
            && Saldo(r, vencedor) == Saldo(u, vencedor) + valor * (|js| - 1)
            && Historico(r, vencedor) == Historico(u, vencedor) +
                 [EntradaRinha(valor, agora), Transacao(Receita, valor * |js|, "Ganhou a rinha", agora)]
  {
    CobrarTodosSaldos(u, js, valor, agora);
    CobrarTodosHistoricos(u, js, valor, agora);
    RinhaConta(u, js, valor, vencedor, agora, vencedor);
    var h := Historico(u, vencedor);
    var e := EntradaRinha(valor, agora);
    var p := Transacao(Receita, valor * |js|, "Ganhou a rinha", agora);
    assert (h + [e]) + [p] == h + [e, p];
    MultiploSeguinte(valor, |js| - 1);
  }

  /** Every other player of the melee only pays the stake. */
  lemma RinhaPerdedores(u: Usuarios, js: seq<Uid>, valor: int, vencedor: Uid, agora: int)
    requires SemRepeticao(js)
    ensures var r := LiquidacaoRinha(u, js, valor, vencedor, agora);
            forall x :: x in js && x != vencedor ==>
              Saldo(r, x) == Saldo(u, x) - valor &&
              Historico(r, x) == Historico(u, x) + [EntradaRinha(valor, agora)]
  {
    var r := LiquidacaoRinha(u, js, valor, vencedor, agora);
    CobrarTodosSaldos(u, js, valor, agora);
    CobrarTodosHistoricos(u, js, valor, agora);
    forall x | x in js && x != vencedor
      ensures Saldo(r, x) == Saldo(u, x) - valor
      ensures Historico(r, x) == Historico(u, x) + [EntradaRinha(valor, agora)]
    {
      RinhaConta(u, js, valor, vencedor, agora, x);
    }
  }

  /** The melee creates accounts only for its players and leaves every
      account outside it as it was. */
  lemma RinhaDemais(u: Usuarios, js: seq<Uid>, valor: int, vencedor: Uid, agora: int)
    requires vencedor in js
    ensures var r := LiquidacaoRinha(u, js, valor, vencedor, agora);
            && r.Keys == u.Keys + (set x | x in js)
            && (forall x :: x in u && x !in js ==> r[x] == u[x])
  {
    var r := LiquidacaoRinha(u, js, valor, vencedor, agora);
    CobrarTodosChaves(u, js, valor, agora);
    forall x | x in u && x !in js ensures r[x] == u[x] {
      RinhaConta(u, js, valor, vencedor, agora, x);
    }
  }

  /** Each account after the melee, in terms of the accounts after the
      charging loop: only the winner's changes, by the pot and one entry. */
  lemma RinhaConta(u: Usuarios, js: seq<Uid>, valor: int, vencedor: Uid, agora: int, x: Uid)
    ensures var c := CobrarTodos(u, js, valor, agora);
            ContaDe(LiquidacaoRinha(u, js, valor, vencedor, agora), x)
            == if x == vencedor
               then Conta(Saldo(c, x) + valor * |js|, Historico(c, x) + [Transacao(Receita, valor * |js|, "Ganhou a rinha", agora)])
               else ContaDe(c, x)
  {
    var c := CobrarTodos(u, js, valor, agora);
    var c1 := Creditar(c, vencedor, valor * |js|);
    if x != vencedor {
      assert ContaDe(c1, x) == ContaDe(c, x);
    }
  }

  /** Charging distinct players lowers their sum by the stake per player. */
  lemma SomaAposCobranca(u: Usuarios, js: seq<Uid>, valor: int, agora: int)
    requires SemRepeticao(js)
    ensures SomaSaldos(CobrarTodos(u, js, valor, agora), js) == SomaSaldos(u, js) - valor * |js|
  {
    CobrarTodosSaldos(u, js, valor, agora);
    SomaDeslocada(CobrarTodos(u, js, valor, agora), u, js, valor);
  }

  /** Crediting one of the players raises their sum by the credit. */
  lemma SomaAposPremio(c: Usuarios, js: seq<Uid>, vencedor: Uid, premio: int, t: Transacao)
    requires SemRepeticao(js) && vencedor in js
    ensures SomaSaldos(Registrar(Creditar(c, vencedor, premio), vencedor, t), js) == SomaSaldos(c, js) + premio
  {
    SaldosAposLancamento(c, vencedor, premio, t);
    SomaComUmCredito(Registrar(Creditar(c, vencedor, premio), vencedor, t), c, js, vencedor, premio);
  }

  /** The rinha is zero-sum: after settlement the players' balances add up
      to what they added up to before. */
  lemma RinhaSomaZero(u: Usuarios, js: seq<Uid>, valor: int, vencedor: Uid, agora: int)
    requires SemRepeticao(js) && vencedor in js
    ensures SomaSaldos(LiquidacaoRinha(u, js, valor, vencedor, agora), js) == SomaSaldos(u, js)
  {
    var premio := valor * |js|;
    SomaAposCobranca(u, js, valor, agora);
    SomaAposPremio(CobrarTodos(u, js, valor, agora), js, vencedor, premio,
                   Transacao(Receita, premio, "Ganhou a rinha", agora));
  }

  /** Settling a rinha keeps every balance equal to its log's signed sum. */
  lemma RinhaConsistente(u: Usuarios, js: seq<Uid>, valor: int, vencedor: Uid, agora: int)
    requires Consistente(u)
    ensures Consistente(LiquidacaoRinha(u, js, valor, vencedor, agora))
  {
    var c := CobrarTodos(u, js, valor, agora);
    var premio := valor * |js|;
    CobrarTodosConsistente(u, js, valor, agora);
    CreditarERegistrarConsistente(c, vencedor, premio, Transacao(Receita, premio, "Ganhou a rinha", agora));
  }

  // ------------------------------------------------------------------- copo

  /** The check of `copo` before the cups are shown. The stake is not checked
      for sign. */
  function PropostaCopo(u: Usuarios, jogador: Uid, valor: int): (r: Option<Recusa>)
    ensures r == None <==> Saldo(u, jogador) >= valor
    ensures r != None ==> r == Some(SemSaldo)
  {
    if Saldo(u, jogador) < valor then Some(SemSaldo) else None
  }

  /** `reveal_result`: a right guess credits the stake with a "receita"
      entry, a wrong one debits it with a "despesa" entry. */
  function ResultadoCopo(u: Usuarios, jogador: Uid, valor: int, certo: int, escolhido: int, agora: int): Usuarios {
    if escolhido == certo then
      Registrar(Creditar(u, jogador, valor), jogador, Transacao(Receita, valor, "Acertou o copo", agora))
    else
      Registrar(Creditar(u, jogador, -valor), jogador, Transacao(Despesa, valor, "Errou o copo", agora))
  }

  /** A guess changes only the player's account: the balance by plus or minus
      the stake, according to whether the guess hit, and exactly one entry. */
  lemma CopoUmLancamento(u: Usuarios, jogador: Uid, valor: int, certo: int, escolhido: int, agora: int)
    ensures var r := ResultadoCopo(u, jogador, valor, certo, escolhido, agora);
            && Saldo(r, jogador) == Saldo(u, jogador) + (if escolhido == certo then valor else -valor)
            && |Historico(r, jogador)| == |Historico(u, jogador)| + 1
            && Historico(r, jogador)[..|Historico(u, jogador)|] == Historico(u, jogador)
            && Historico(r, jogador)[|Historico(u, jogador)|].tipo == (if escolhido == certo then Receita else Despesa)
            && Historico(r, jogador)[|Historico(u, jogador)|].valor == valor
            && r.Keys == u.Keys + {jogador}
            && (forall x :: x in u && x != jogador ==> r[x] == u[x])
            && (Consistente(u) ==> Consistente(r))
  {
    var r := ResultadoCopo(u, jogador, valor, certo, escolhido, agora);
    assert Historico(r, jogador)[..|Historico(u, jogador)|] == Historico(u, jogador);
    if Consistente(u) {
      if escolhido == certo {
        CreditarERegistrarConsistente(u, jogador, valor, Transacao(Receita, valor, "Acertou o copo", agora));
      } else {
        CreditarERegistrarConsistente(u, jogador, -valor, Transacao(Despesa, valor, "Errou o copo", agora));
      }
    }
  }
}
