/** The interactive sessions behind the game commands: each command posts a
    message with buttons, and a view object holds the session's state and
    settles the game when the right button is pressed. A view that has been
    stopped (`self.stop()`) or has timed out no longer receives presses; the
    flag `ouvindo` ("listening") stands for that. The random draw of each game
    is a parameter, and the clock reading is `agora`. */
module Sessoes {
  import opened Listas
  import opened Financas
  import opened Dados
  import opened Jogos

  /** What a button press produced. */
  datatype Resposta =
    | Ignorado                  // the view no longer listens
    | NaoAutorizado             // a press by someone the button is not for
    | Venceu(vencedor: Uid)     // a duel or bet settled with this winner
    | Recusado                  // the challenged user declined the duel
    | Acertou                   // the right cup
    | Errou                     // a wrong cup
    | JaComecou                 // the rinha has already started
    | JaEntrou                  // the user is already in the rinha
    | SemSaldoParaEntrar        // the user cannot cover the rinha stake
    | Entrou                    // the user joined; seats remain
    | PoucosJogadores           // a manual start with fewer than two players
    | Iniciou(vencedor: Uid)    // the rinha was settled with this winner

  /** The display name (`.name`) of one of the two users of a duel or a
      bet: the proposer's or the other one's. */
  function NomeDe(uid: Uid, autor: Uid, nomeAutor: string, nomeDesafiado: string): string {
    if uid == autor then nomeAutor else nomeDesafiado
  }

  // ---------------------------------------------------------------- duel

  /** `DueloView`: the challenge `autor` posted against `desafiado`. */
  class Duelo {
    const autor: Uid
    const desafiado: Uid
    const valor: int
    const nomeAutor: string
    const nomeDesafiado: string
    var ouvindo: bool

    constructor (autor: Uid, desafiado: Uid, valor: int, nomeAutor: string, nomeDesafiado: string)
      requires autor != desafiado
      ensures this.autor == autor && this.desafiado == desafiado && this.valor == valor
      ensures this.nomeAutor == nomeAutor && this.nomeDesafiado == nomeDesafiado
      ensures ouvindo
    {
      this.autor := autor;
      this.desafiado := desafiado;
      this.valor := valor;
      this.nomeAutor := nomeAutor;
      this.nomeDesafiado := nomeDesafiado;
      ouvindo := true;
    }

    /** "Aceitar Duelo", pressed by `clicante`, with `vencedor` the drawn
        winner. Only the challenged user may accept; the balances are not
        checked again. */
    method Aceitar(banco: Banco, clicante: Uid, vencedor: Uid, agora: int) returns (r: Resposta)
      requires autor != desafiado
      requires vencedor == autor || vencedor == desafiado
      modifies this`ouvindo, banco`usuarios
      ensures !old(ouvindo) ==> r == Ignorado && !ouvindo && banco.usuarios == old(banco.usuarios)
      ensures old(ouvindo) && clicante != desafiado ==>
                r == NaoAutorizado && ouvindo && banco.usuarios == old(banco.usuarios)
      ensures old(ouvindo) && clicante == desafiado ==>
                var perdedor := Perdedor(autor, desafiado, vencedor);
                r == Venceu(vencedor) && !ouvindo &&
                banco.usuarios == LiquidacaoDuelo(old(banco.usuarios), vencedor, perdedor, valor,
                                                  NomeDe(vencedor, autor, nomeAutor, nomeDesafiado),
                                                  NomeDe(perdedor, autor, nomeAutor, nomeDesafiado), agora)
    {
      if !ouvindo {
        return Ignorado;
      }
      if clicante != desafiado {
        return NaoAutorizado;
      }
      ouvindo := false;
      var perdedor := Perdedor(autor, desafiado, vencedor);
      var nomeVencedor := NomeDe(vencedor, autor, nomeAutor, nomeDesafiado);
      var nomePerdedor := NomeDe(perdedor, autor, nomeAutor, nomeDesafiado);
      Liquidar(banco, vencedor, perdedor, nomeVencedor, nomePerdedor, agora);
      r := Venceu(vencedor);
    }

    /** The four updates of the accept callback: both balances, then the
        winner's and the loser's entries. */
    method Liquidar(banco: Banco, vencedor: Uid, perdedor: Uid, nomeVencedor: string, nomePerdedor: string, agora: int)
      modifies banco`usuarios
      ensures banco.usuarios == LiquidacaoDuelo(old(banco.usuarios), vencedor, perdedor, valor, nomeVencedor, nomePerdedor, agora)
    {
      banco.AlterarSaldo(vencedor, valor);
      banco.AlterarSaldo(perdedor, -valor);
      banco.RegistrarTransacao(vencedor, Receita, valor, "Ganhou duelo contra " + nomePerdedor, agora);
      banco.RegistrarTransacao(perdedor, Despesa, valor, "Perdeu duelo para " + nomeVencedor, agora);
    }

    /** "Recusar": only the challenged user may decline; nothing is paid. */
    method Recusar(clicante: Uid) returns (r: Resposta)
      modifies this`ouvindo
      ensures !old(ouvindo) ==> r == Ignorado && !ouvindo
      ensures old(ouvindo) && clicante != desafiado ==> r == NaoAutorizado && ouvindo
      ensures old(ouvindo) && clicante == desafiado ==> r == Recusado && !ouvindo
    {
      if !ouvindo {
        return Ignorado;
      }
      if clicante != desafiado {
        return NaoAutorizado;
      }
      ouvindo := false;
      r := Recusado;
    }

    /** The 60-second timeout: the challenge lapses without any payment. */
    method Expirar()
      modifies this`ouvindo
      ensures !ouvindo
    {
      ouvindo := false;
    }
  }

  // ---------------------------------------------------------- coin-flip bet

  /** `AceitarView` of `bet`. */
  class Aposta {
    const autor: Uid
    const desafiado: Uid
    const valor: int
    const nomeAutor: string
    const nomeDesafiado: string
    var aceitou: bool
    var ouvindo: bool

    constructor (autor: Uid, desafiado: Uid, valor: int, nomeAutor: string, nomeDesafiado: string)
      requires autor != desafiado
      ensures this.autor == autor && this.desafiado == desafiado && this.valor == valor
      ensures this.nomeAutor == nomeAutor && this.nomeDesafiado == nomeDesafiado
      ensures !aceitou && ouvindo
    {
      this.autor := autor;
      this.desafiado := desafiado;
      this.valor := valor;
      this.nomeAutor := nomeAutor;
      this.nomeDesafiado := nomeDesafiado;
      aceitou := false;
      ouvindo := true;
    }

    /** "Aceitar Aposta", pressed by `clicante`, with `resultado` the drawn
        face: "cara" makes the proposer win. Settled with two calls of the
        four-argument `alterar_saldo`. */
    method Aceitar(banco: Banco, clicante: Uid, resultado: Face, agora: int) returns (r: Resposta)
      requires autor != desafiado
      modifies this`aceitou, this`ouvindo, banco`usuarios
      ensures !old(ouvindo) ==>
                r == Ignorado && aceitou == old(aceitou) && !ouvindo && banco.usuarios == old(banco.usuarios)
      ensures old(ouvindo) && clicante != desafiado ==>
                r == NaoAutorizado && aceitou == old(aceitou) && ouvindo && banco.usuarios == old(banco.usuarios)
      ensures old(ouvindo) && clicante == desafiado ==>
                var vencedor := VencedorAposta(autor, desafiado, resultado);
                var perdedor := Perdedor(autor, desafiado, vencedor);
                r == Venceu(vencedor) && aceitou && !ouvindo &&
                banco.usuarios == LiquidacaoAposta(old(banco.usuarios), vencedor, perdedor, valor,
                                                   NomeDe(vencedor, autor, nomeAutor, nomeDesafiado),
                                                   NomeDe(perdedor, autor, nomeAutor, nomeDesafiado), agora)
    {
      if !ouvindo {
        return Ignorado;
      }
      if clicante != desafiado {
        return NaoAutorizado;
      }
      aceitou := true;
      ouvindo := false;
      var vencedor := VencedorAposta(autor, desafiado, resultado);
      var perdedor := Perdedor(autor, desafiado, vencedor);
      var nomeVencedor := NomeDe(vencedor, autor, nomeAutor, nomeDesafiado);
      var nomePerdedor := NomeDe(perdedor, autor, nomeAutor, nomeDesafiado);
      banco.AlterarSaldoERegistrar(vencedor, valor, Receita, "Venceu aposta cara ou coroa contra " + nomePerdedor, agora);
      banco.AlterarSaldoERegistrar(perdedor, -valor, Despesa, "Perdeu aposta cara ou coroa para " + nomeVencedor, agora);
      r := Venceu(vencedor);
    }

    /** The 30-second timeout: the bet lapses without any payment. */
    method Expirar()
      modifies this`ouvindo
      ensures !ouvindo && aceitou == old(aceitou)
    {
      ouvindo := false;
    }
  }

  // ------------------------------------------------------------------- copo

  /** `CopoView`: the game `jogador` started, with the prize under cup
      `certo`. Any member's press on a cup settles it. */
  class Copo {
    const jogador: Uid
    const valor: int
    const certo: int
    var ouvindo: bool

    constructor (jogador: Uid, valor: int, certo: int)
      requires 1 <= certo <= 3
      ensures this.jogador == jogador && this.valor == valor && this.certo == certo
      ensures ouvindo
    {
      this.jogador := jogador;
      this.valor := valor;
      this.certo := certo;
      ouvindo := true;
    }

    /** `reveal_result` for cup `escolhido`: the first press settles the game
        and stops the view. */
    method Escolher(banco: Banco, escolhido: int, agora: int) returns (r: Resposta)
      requires 1 <= escolhido <= 3
      modifies this`ouvindo, banco`usuarios
      ensures !old(ouvindo) ==> r == Ignorado && !ouvindo && banco.usuarios == old(banco.usuarios)
      ensures old(ouvindo) ==>
                (r == Acertou <==> escolhido == certo) && (r == Errou <==> escolhido != certo) && !ouvindo &&
                banco.usuarios == ResultadoCopo(old(banco.usuarios), jogador, valor, certo, escolhido, agora)
    {
      if !ouvindo {
        return Ignorado;
      }
      if escolhido == certo {
        banco.AlterarSaldo(jogador, valor);
        banco.RegistrarTransacao(jogador, Receita, valor, "Acertou o copo", agora);
        r := Acertou;
      } else {
        banco.AlterarSaldo(jogador, -valor);
        banco.RegistrarTransacao(jogador, Despesa, valor, "Errou o copo", agora);
        r := Errou;
      }
      ouvindo := false;
    }

    /** The 15-second timeout: the game is cancelled without any payment. */
    method Expirar()
      modifies this`ouvindo
      ensures !ouvindo
    {
      ouvindo := false;
    }
  }

  // ------------------------------------------------------------------ rinha

  /** `RinhaView` with the command's `jogadores` list and `iniciado` flag. */
  class Rinha {
    const criador: Uid
    const valor: int
    const maxJogadores: int
    var jogadores: seq<Uid>
    var iniciado: bool
    var ouvindo: bool

    /** Nobody joins twice, the parameters passed the command's check, and
        a melee that has not started still has a free seat. */
    predicate Valid()
      reads this
    {
      SemRepeticao(jogadores) && PropostaRinha(valor, maxJogadores) == None &&
      (!iniciado ==> |jogadores| < maxJogadores)
    }

    constructor (criador: Uid, valor: int, maxJogadores: int)
      requires PropostaRinha(valor, maxJogadores) == None
      ensures this.criador == criador && this.valor == valor && this.maxJogadores == maxJogadores
      ensures jogadores == [] && !iniciado && ouvindo
      ensures Valid()
    {
      this.criador := criador;
      this.valor := valor;
      this.maxJogadores := maxJogadores;
      jogadores := [];
      iniciado := false;
      ouvindo := true;
    }

    /** The body of the charging loop for one player: minus the stake, then
        the "Entrou na rinha" entry. */
    method CobrarEntrada(banco: Banco, j: Uid, agora: int)
      modifies banco`usuarios
      ensures banco.usuarios == Cobrar(old(banco.usuarios), j, valor, agora)
    {
      banco.AlterarSaldo(j, -valor);
      banco.RegistrarTransacao(j, Despesa, valor, "Entrou na rinha", agora);
    }

    /** `iniciar_rinha`: mark the melee started, charge every player in
        order, then credit the player drawn by `sorteio` with the whole pot. */
    method IniciarRinha(banco: Banco, sorteio: nat, agora: int) returns (vencedor: Uid)
      requires jogadores != []
      modifies this`iniciado, banco`usuarios
      ensures iniciado
      ensures vencedor == jogadores[sorteio % |jogadores|]
      ensures banco.usuarios == LiquidacaoRinha(old(banco.usuarios), jogadores, valor, vencedor, agora)
    {
      iniciado := true;
      var js := jogadores;
      var i := 0;
      while i < |js|
        invariant 0 <= i <= |js| && iniciado
        invariant banco.usuarios == CobrarTodos(old(banco.usuarios), js[..i], valor, agora)
      {
        CobrarEntrada(banco, js[i], agora);
        CobrarTodosPasso(old(banco.usuarios), js, i, valor, agora);
        i := i + 1;
      }
      assert js[..i] == js;
      vencedor := js[sorteio % |js|];
      var premio := valor * |js|;
      banco.AlterarSaldo(vencedor, premio);
      banco.RegistrarTransacao(vencedor, Receita, premio, "Ganhou a rinha", agora);
    }

    /** "Entrar na Rinha", pressed by `user`: refused once started, for a
        player already in, or without the stake; otherwise the user takes a
        seat, and the melee is settled at once when the seats are full. */
    method Entrar(banco: Banco, user: Uid, sorteio: nat, agora: int) returns (r: Resposta)
      requires Valid()
      modifies this`jogadores, this`iniciado, this`ouvindo, banco`usuarios
      ensures Valid()
      ensures !old(ouvindo) ==>
                r == Ignorado && jogadores == old(jogadores) && iniciado == old(iniciado) && !ouvindo &&
                banco.usuarios == old(banco.usuarios)
      ensures old(ouvindo) && old(iniciado) ==>
                r == JaComecou && jogadores == old(jogadores) && iniciado && ouvindo &&
                banco.usuarios == old(banco.usuarios)
      ensures old(ouvindo) && !old(iniciado) && user in old(jogadores) ==>
                r == JaEntrou && jogadores == old(jogadores) && !iniciado && ouvindo &&
                banco.usuarios == old(banco.usuarios)
      ensures old(ouvindo) && !old(iniciado) && user !in old(jogadores) && Saldo(old(banco.usuarios), user) < valor ==>
                r == SemSaldoParaEntrar && jogadores == old(jogadores) && !iniciado && ouvindo &&
                banco.usuarios == old(banco.usuarios)
      ensures old(ouvindo) && !old(iniciado) && user !in old(jogadores) && Saldo(old(banco.usuarios), user) >= valor ==>
                jogadores == old(jogadores) + [user] &&
                if |jogadores| < maxJogadores then
                  r == Entrou && !iniciado && ouvindo && banco.usuarios == old(banco.usuarios)
                else
                  r == Iniciou(jogadores[sorteio % |jogadores|]) && iniciado && !ouvindo &&
                  banco.usuarios == LiquidacaoRinha(old(banco.usuarios), jogadores, valor, r.vencedor, agora)
    {
      if !ouvindo {
        return Ignorado;
      }
      if iniciado {
        return JaComecou;
      }
      if user in jogadores {
        return JaEntrou;
      }
      if banco.SaldoUsuario(user) < valor {
        return SemSaldoParaEntrar;
      }
      AnexarSemRepeticao(jogadores, user);
      jogadores := jogadores + [user];
      if |jogadores| >= maxJogadores {
        var vencedor := IniciarRinha(banco, sorteio, agora);
        ouvindo := false;
        r := Iniciou(vencedor);
      } else {
        r := Entrou;
      }
    }

    /** "Finalizar Manualmente", pressed by `clicante`: only the creator,
        and only with at least two players. The `iniciado` flag is not
        consulted here. */
    method Finalizar(banco: Banco, clicante: Uid, sorteio: nat, agora: int) returns (r: Resposta)
      requires Valid()
      modifies this`iniciado, this`ouvindo, banco`usuarios
      ensures Valid()
      ensures !old(ouvindo) ==>
                r == Ignorado && iniciado == old(iniciado) && !ouvindo && banco.usuarios == old(banco.usuarios)
      ensures old(ouvindo) && clicante != criador ==>
                r == NaoAutorizado && iniciado == old(iniciado) && ouvindo && banco.usuarios == old(banco.usuarios)
      ensures old(ouvindo) && clicante == criador && |jogadores| < 2 ==>
                r == PoucosJogadores && iniciado == old(iniciado) && ouvindo && banco.usuarios == old(banco.usuarios)
      ensures old(ouvindo) && clicante == criador && |jogadores| >= 2 ==>
                r == Iniciou(jogadores[sorteio % |jogadores|]) && iniciado && !ouvindo &&
                banco.usuarios == LiquidacaoRinha(old(banco.usuarios), jogadores, valor, r.vencedor, agora)
    {
      if !ouvindo {
        return Ignorado;
      }
      if clicante != criador {
        return NaoAutorizado;
      }
      if |jogadores| < 2 {
        return PoucosJogadores;
      }
      var vencedor := IniciarRinha(banco, sorteio, agora);
      ouvindo := false;
      r := Iniciou(vencedor);
    }

    /** `on_timeout`: a view still listening stops, and announces the
        expiry exactly when the melee never started. */
    method Expirar() returns (avisou: bool)
      modifies this`ouvindo
      ensures avisou <==> old(ouvindo) && !iniciado
      ensures !ouvindo
    {
      avisou := ouvindo && !iniciado;
      ouvindo := false;
    }
  }
}
