/** The bot's data document (`dados`): accounts, VIP records and the list of
    ids allowed to use the administrative commands. Each helper of bot.py
    loads the document, changes it in place and saves it; here the document is
    one object whose methods make that change. */
module Dados {
  import opened Listas
  import opened Financas
  import opened Vips

  /** An entry of `dados["autorizados"]`. The list is plain JSON and holds
      whatever was appended: an integer id or a string. */
  datatype Chave = Num(n: int) | Texto(s: string)

  /** The replies of `addgive`. */
  datatype RespostaAddGive =
    | SemPermissao   // the caller is not authorized
    | UsoIncorreto   // the action is neither "give" nor "remove", or no member
    | JaTinha        // "give" for an id already in the list
    | Concedido
    | NaoTinha       // "remove" for an id not in the list
    | Removido

  class Banco {
    var usuarios: Usuarios
    var vips: map<Uid, Vip>
    var autorizados: seq<Chave>

    /** The document `carregar_dados` returns when no file exists yet; a
        missing "autorizados" key reads as the empty list. */
    constructor ()
      ensures usuarios == map[] && vips == map[] && autorizados == []
    {
      usuarios := map[];
      vips := map[];
      autorizados := [];
    }

    /** `saldo_usuario` (and the identical `get_saldo`): a read that never
        fails and never creates an account. */
    function SaldoUsuario(uid: Uid): (s: int)
      reads this
      ensures uid in usuarios ==> s == usuarios[uid].saldo
      ensures uid !in usuarios ==> s == 0
    {
      Saldo(usuarios, uid)
    }

    /** `alterar_saldo(user_id, valor)`, the first, two-argument definition.
        bot.py defines `alterar_saldo` again further down with four
        parameters; at run time that later definition is the one bound to the
        name (see module Achados). Callers here use the one they were
        written against. */
    method AlterarSaldo(uid: Uid, valor: int)
      modifies this`usuarios
      ensures usuarios == Creditar(old(usuarios), uid, valor)
    {
      if uid !in usuarios {
        usuarios := usuarios[uid := ContaNova];
      }
      usuarios := usuarios[uid := usuarios[uid].(saldo := usuarios[uid].saldo + valor)];
    }

    /** `registrar_transacao(user_id, tipo, valor, descricao)`, stamped `agora`. */
    method RegistrarTransacao(uid: Uid, tipo: Tipo, valor: int, descricao: string, agora: int)
      modifies this`usuarios
      ensures usuarios == Registrar(old(usuarios), uid, Transacao(tipo, valor, descricao, agora))
    {
      if uid !in usuarios {
        usuarios := usuarios[uid := ContaNova];
      }
      var t := Transacao(tipo, valor, descricao, agora);
      usuarios := usuarios[uid := usuarios[uid].(transacoes := usuarios[uid].transacoes + [t])];
    }

    /** `alterar_saldo(uid, valor, tipo, descricao)`, the later definition:
        balance and log in one update. The `tipo` argument is not used; the
        entry is "receita" exactly when `valor > 0`, with amount |valor|. */
    method AlterarSaldoERegistrar(uid: Uid, valor: int, tipo: Tipo, descricao: string, agora: int)
      modifies this`usuarios
      ensures usuarios == Lancar(old(usuarios), uid, valor, descricao, agora)
    {
      if uid !in usuarios {
        usuarios := usuarios[uid := ContaNova];
      }
      var t := Transacao(TipoPeloSinal(valor), Abs(valor), descricao, agora);
      usuarios := usuarios[uid := Conta(usuarios[uid].saldo + valor, usuarios[uid].transacoes + [t])];
    }

    /** `eh_autorizado(user_id)`: membership in the authorized list. */
    function EhAutorizado(k: Chave): (b: bool)
      reads this
      ensures b <==> k in autorizados
    {
      k in autorizados
    }

    /** `adicionar_autorizado(user_id)`: append unless already present. */
    method AdicionarAutorizado(k: Chave)
      modifies this`autorizados
      ensures autorizados == Adicionado(old(autorizados), k)
      ensures EhAutorizado(k)
      ensures SemRepeticao(old(autorizados)) ==> SemRepeticao(autorizados)
    {
      if k !in autorizados {
        autorizados := autorizados + [k];
      }
    }

    /** `remover_autorizado(user_id)`: `list.remove` when present. */
    method RemoverAutorizado(k: Chave)
      modifies this`autorizados
      ensures autorizados == RemoverPrimeiro(old(autorizados), k)
      ensures SemRepeticao(old(autorizados)) ==> SemRepeticao(autorizados) && !EhAutorizado(k)
    {
      if k in autorizados {
        autorizados := RemoverPrimeiro(autorizados, k);
      }
      RemoverSemRepeticaoSeHouver(old(autorizados), k);
    }

    /** The "give"/"remove" branch of `addgive`, with the member stored under
        the same kind of key that `eh_autorizado` is asked about (an integer
        id); bot.py stores `str(membro.id)` instead, see module Achados. */
    method AddGive(autor: Uid, acao: string, membro: Option<Uid>) returns (r: RespostaAddGive)
      modifies this`autorizados
      ensures !old(EhAutorizado(Num(autor))) ==> r == SemPermissao && autorizados == old(autorizados)
      ensures old(EhAutorizado(Num(autor))) && (acao !in {"give", "remove"} || membro.None?) ==>
                r == UsoIncorreto && autorizados == old(autorizados)
      ensures old(EhAutorizado(Num(autor))) && acao == "give" && membro.Some? ==>
                if Num(membro.value) in old(autorizados)
                then r == JaTinha && autorizados == old(autorizados)
                else r == Concedido && autorizados == old(autorizados) + [Num(membro.value)]
      ensures old(EhAutorizado(Num(autor))) && acao == "remove" && membro.Some? ==>
                if Num(membro.value) !in old(autorizados)
                then r == NaoTinha && autorizados == old(autorizados)
                else r == Removido && autorizados == RemoverPrimeiro(old(autorizados), Num(membro.value))
      ensures r == Concedido ==> EhAutorizado(Num(membro.value))
      ensures r == Removido && SemRepeticao(old(autorizados)) ==> !EhAutorizado(Num(membro.value))
      ensures SemRepeticao(old(autorizados)) ==> SemRepeticao(autorizados)
    {
      if !EhAutorizado(Num(autor)) {
        return SemPermissao;
      }
      if (acao != "give" && acao != "remove") || membro.None? {
        return UsoIncorreto;
      }
      var uid := Num(membro.value);
      if acao == "give" {
        if uid in autorizados {
          return JaTinha;
        }
        autorizados := autorizados + [uid];
        r := Concedido;
      } else {
        if uid !in autorizados {
          return NaoTinha;
        }
        autorizados := RemoverPrimeiro(autorizados, uid);
        r := Removido;
      }
      RemoverSemRepeticaoSeHouver(old(autorizados), uid);
    }

    /** `vipclaim` at time `agora`, with the document updated once: on success
        the balance rises by 250, one "receita" entry is logged and
        `ultimo_claim` becomes `agora`; every refusal changes nothing. */
    method VipClaim(uid: Uid, agora: int) returns (r: Claim)
      modifies this`usuarios, this`vips
      ensures r == AvaliarClaim(old(vips), uid, agora)
      ensures r == Coletado ==>
                usuarios == Registrar(Creditar(old(usuarios), uid, Recompensa), uid, EntradaVip(agora)) &&
                vips == Coletar(old(vips), uid, agora)
      ensures r != Coletado ==> usuarios == old(usuarios) && vips == old(vips)
    {
      if uid !in vips {
        return NaoVip;
      }
      var vip := vips[uid];
      if agora > vip.expiraEm {
        return Expirado;
      }
      if vip.ultimoClaim.Some? {
        var decorrido := agora - vip.ultimoClaim.value;
        if decorrido < Intervalo {
          return Aguarde(Intervalo - decorrido);
        }
      }
      AlterarSaldo(uid, Recompensa);
      RegistrarTransacao(uid, Receita, Recompensa, "Recompensa VIP", agora);
      vips := vips[uid := vip.(ultimoClaim := Some(agora))];
      r := Coletado;
    }
  }

  /** Both list updates keep the list free of repetitions. */
  lemma RemoverSemRepeticaoSeHouver(s: seq<Chave>, x: Chave)
    ensures SemRepeticao(s) ==> SemRepeticao(RemoverPrimeiro(s, x)) && x !in RemoverPrimeiro(s, x)
    ensures SemRepeticao(s) ==> SemRepeticao(Adicionado(s, x))
  {
    if SemRepeticao(s) {
      RemoverSemRepeticao(s, x);
    }
  }
}
