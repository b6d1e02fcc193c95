/** Three places where bot.py, as written, does not do what its own code
    around them evidently means. Each is modelled as written, with a lemma
    that exhibits the difference on a concrete input; the rest of the model
    uses the intended behaviour, whose properties are proved in the modules
    Dados, Jogos and Sessoes. */
module Achados {
  import opened Listas
  import opened Financas
  import opened Vips
  import opened Dados
  import opened Jogos

  // ----------------------------------------- the shadowed `alterar_saldo`

  /** The effect of a call on the data document: the new accounts, or a
      `TypeError` raised before anything was saved. */
  datatype Efeito = Feito(u: Usuarios) | ErroDeTipo

  /** The name `alterar_saldo` once the whole module has run: bot.py defines
      it a second time with four parameters, and that later definition is
      the one the name is bound to when any command runs. A call with only
      `(user_id, valor)` raises `TypeError` before touching the document;
      a call with the extra `(tipo, descricao)` is the four-argument update. */
  function AlterarSaldoVinculado(u: Usuarios, uid: Uid, valor: int, extra: Option<string>, agora: int): (r: Efeito)
    ensures extra.None? <==> r == ErroDeTipo
    ensures extra.Some? ==> Saldo(r.u, uid) == Saldo(u, uid) + valor
  {
    match extra
    case None => ErroDeTipo
    case Some(descricao) => Feito(Lancar(u, uid, valor, descricao, agora))
  }

  /** The accept button of the duel as written: its first statement is a
      two-argument `alterar_saldo` call, which raises, so the callback stops
      there. */
  function DueloComoEscrito(u: Usuarios, vencedor: Uid, perdedor: Uid, valor: int,
                            nomeVencedor: string, nomePerdedor: string, agora: int): Efeito
  {
    match AlterarSaldoVinculado(u, vencedor, valor, None, agora)
    case ErroDeTipo => ErroDeTipo
    case Feito(u1) =>
      match AlterarSaldoVinculado(u1, perdedor, -valor, None, agora)
      case ErroDeTipo => ErroDeTipo
      case Feito(u2) =>
        Feito(Registrar(Registrar(u2, vencedor, Transacao(Receita, valor, "Ganhou duelo contra " + nomePerdedor, agora)),
                        perdedor, Transacao(Despesa, valor, "Perdeu duelo para " + nomeVencedor, agora)))
  }

  /** As written, an accepted duel always fails and moves no money, while
      the settlement the callback was written against moves the stake. */
  lemma DueloNaoLiquida(u: Usuarios, vencedor: Uid, perdedor: Uid, valor: int,
                        nomeVencedor: string, nomePerdedor: string, agora: int)
    requires vencedor != perdedor
    ensures DueloComoEscrito(u, vencedor, perdedor, valor, nomeVencedor, nomePerdedor, agora) == ErroDeTipo
    ensures Saldo(LiquidacaoDuelo(u, vencedor, perdedor, valor, nomeVencedor, nomePerdedor, agora), vencedor)
            == Saldo(u, vencedor) + valor
  {
    DueloTransfere(u, vencedor, perdedor, valor, nomeVencedor, nomePerdedor, agora);
  }

  /** Two players with 1000 each and a stake of 300: the intended settlement
      leaves 1300 and 700; as written the document keeps 1000 and 1000. */
  lemma DueloExemplo()
    ensures DueloComoEscrito(map[1 := Conta(1000, []), 2 := Conta(1000, [])], 1, 2, 300, "a", "b", 0) == ErroDeTipo
    ensures var r := LiquidacaoDuelo(map[1 := Conta(1000, []), 2 := Conta(1000, [])], 1, 2, 300, "a", "b", 0);
            Saldo(r, 1) == 1300 && Saldo(r, 2) == 700
  {
    DueloTransfere(map[1 := Conta(1000, []), 2 := Conta(1000, [])], 1, 2, 300, "a", "b", 0);
  }

  // ------------------------------------------- the stale document of vipclaim

  /** The parts of the data document `vipclaim` touches. */
  datatype Arquivo = Arquivo(usuarios: Usuarios, vips: map<Uid, Vip>)

  /** `vipclaim` as written, with the two-argument helpers it was written
      against, as the documents it saves, in order: the command loads the
      file into `copia`; `alterar_saldo` loads the file, credits the reward
      and saves; `registrar_transacao` loads that, appends the entry and
      saves; then the command saves `copia`, loaded before either helper
      ran, with only `ultimo_claim` changed. A refusal saves nothing. The
      file keeps the last document saved. */
  function VipClaimComoEscrito(f: Arquivo, uid: Uid, agora: int): (Claim, seq<Arquivo>)
  {
    var copia := f;
    var c := AvaliarClaim(copia.vips, uid, agora);
    if c != Coletado then (c, [])
    else
      var aposCredito := f.(usuarios := Creditar(f.usuarios, uid, Recompensa));
      var aposRegistro := aposCredito.(usuarios := Registrar(aposCredito.usuarios, uid, EntradaVip(agora)));
      var aposCopia := copia.(vips := Coletar(copia.vips, uid, agora));
      (Coletado, [aposCredito, aposRegistro, aposCopia])
  }

  /** As written, a successful claim reports the reward, and the helpers do
      save the credit and its entry; but the last save puts back the
      accounts from before the claim, so no credit and no entry survive,
      while the five hour wait has started. */
  lemma {:induction false} RecompensaVipPerdida(f: Arquivo, uid: Uid, agora: int, depois: int)
    requires AvaliarClaim(f.vips, uid, agora) == Coletado
    requires agora <= depois < agora + Intervalo && depois <= f.vips[uid].expiraEm
    ensures var (c, gravados) := VipClaimComoEscrito(f, uid, agora);
            c == Coletado && |gravados| == 3 &&
            Saldo(gravados[1].usuarios, uid) == Saldo(f.usuarios, uid) + Recompensa &&
            Historico(gravados[1].usuarios, uid) == Historico(f.usuarios, uid) + [EntradaVip(agora)] &&
            gravados[2].usuarios == f.usuarios &&
            AvaliarClaim(gravados[2].vips, uid, depois).Aguarde?
  {
    SaldosAposLancamento(f.usuarios, uid, Recompensa, EntradaVip(agora));
    EsperaAposColeta(f.vips, uid, agora, depois);
  }

  /** A VIP with no balance who claims at time 0: intended 250, as written 0. */
  lemma VipClaimExemplo()
    ensures var f := Arquivo(map[7 := Conta(0, [])], map[7 := Vip(100000, None, "")]);
            var gravados := VipClaimComoEscrito(f, 7, 0).1;
            |gravados| == 3 && Saldo(gravados[2].usuarios, 7) == 0 &&
            Saldo(Registrar(Creditar(f.usuarios, 7, Recompensa), 7, EntradaVip(0)), 7) == 250
  {
    var f := Arquivo(map[7 := Conta(0, [])], map[7 := Vip(100000, None, "")]);
    SaldosAposLancamento(f.usuarios, 7, Recompensa, EntradaVip(0));
  }

  // --------------------------------------- the string key of addgive

  /** `str(n)` for a natural number: its decimal digits. */
  function Digitos(n: nat): string
    decreases n
  {
    if n < 10 then ["0123456789"[n]] else Digitos(n / 10) + ["0123456789"[n % 10]]
  }

  /** `str(n)` for an integer. */
  function Decimal(n: int): string {
    if n < 0 then "-" + Digitos(-n) else Digitos(n)
  }

  /** The "give"/"remove" branch of `addgive` as written: the member is
      looked up and stored as `str(membro.id)`, a string, while every
      permission check asks `eh_autorizado` about the integer id. */
  function AddGiveComoEscrito(autorizados: seq<Chave>, autor: Uid, acao: string, membro: Option<Uid>): (RespostaAddGive, seq<Chave>)
  {
    if Num(autor) !in autorizados then (SemPermissao, autorizados)
    else if (acao != "give" && acao != "remove") || membro.None? then (UsoIncorreto, autorizados)
    else
      var k := Texto(Decimal(membro.value));
      if acao == "give" then
        if k in autorizados then (JaTinha, autorizados) else (Concedido, autorizados + [k])
      else
        if k !in autorizados then (NaoTinha, autorizados) else (Removido, RemoverPrimeiro(autorizados, k))
  }

  /** As written, `addgive` never changes whom `eh_autorizado` accepts: a
      "give" grants nothing and a "remove" revokes nothing. */
  lemma ConcessaoNaoAutoriza(autorizados: seq<Chave>, autor: Uid, acao: string, membro: Option<Uid>, m: Uid)
    ensures Num(m) in AddGiveComoEscrito(autorizados, autor, acao, membro).1 <==> Num(m) in autorizados
  {
    var r := AddGiveComoEscrito(autorizados, autor, acao, membro).1;
    if Num(autor) in autorizados && (acao == "give" || acao == "remove") && membro.Some? {
      var k := Texto(Decimal(membro.value));
      if acao == "give" && k !in autorizados {
        assert r == autorizados + [k];
      } else if acao == "remove" && k in autorizados {
        RemoverPertence(autorizados, k);
        assert r == RemoverPrimeiro(autorizados, k);
      }
    }
  }

  /** An authorized user 1 grants user 2: as written the reply is
      "granted" yet user 2 is still refused; the intended update authorizes
      user 2. */
  lemma AddGiveExemplo()
    ensures AddGiveComoEscrito([Num(1)], 1, "give", Some(2)) == (Concedido, [Num(1), Texto("2")])
    ensures Num(2) !in AddGiveComoEscrito([Num(1)], 1, "give", Some(2)).1
    ensures Num(2) in Adicionado([Num(1)], Num(2))
  {
    assert Decimal(2) == "2";
    assert Texto("2") !in [Num(1)];
    assert [Num(1)] + [Texto("2")] == [Num(1), Texto("2")];
  }
}
