/** Accounts of the economy as values: the `usuarios` part of the bot's data
    document, which maps a user id to a balance (`saldo`) and an append-only
    list of transactions (`transacoes`). The primitives here are the effects of
    `alterar_saldo`, `registrar_transacao` and the later four-argument
    `alterar_saldo` on that map. */
module Financas {

  datatype Option<+T> = None | Some(value: T)

  /** A Discord user id. The document keys accounts by `str(user_id)`, and
      `str` is injective on integers, so the id itself serves as the key. */
  type Uid = int

  /** The `tipo` of a transaction: "receita" (income) or "despesa" (expense). */
  datatype Tipo = Receita | Despesa

  /** One log entry; `data` is the clock reading, in seconds. */
  datatype Transacao = Transacao(tipo: Tipo, valor: int, descricao: string, data: int)

  datatype Conta = Conta(saldo: int, transacoes: seq<Transacao>)

  type Usuarios = map<Uid, Conta>

  /** The account created on first reference: `{"saldo": 0, "transacoes": []}`. */
  const ContaNova := Conta(0, [])

  function ContaDe(u: Usuarios, uid: Uid): Conta {
    if uid in u then u[uid] else ContaNova
  }

  /** `saldo_usuario` / `get_saldo`: the stored balance, 0 for an unknown user. */
  function Saldo(u: Usuarios, uid: Uid): int {
    ContaDe(u, uid).saldo
  }

  function Historico(u: Usuarios, uid: Uid): seq<Transacao> {
    ContaDe(u, uid).transacoes
  }

  /** What `alterar_saldo(uid, valor)` (the two-argument version) does to the
      accounts: a missing account is created empty, its balance moves by
      exactly `valor`, and nothing else changes. */
  function Creditar(u: Usuarios, uid: Uid, valor: int): (r: Usuarios)
    ensures r.Keys == u.Keys + {uid}
    ensures uid !in u ==> r[uid] == Conta(valor, [])
    ensures Saldo(r, uid) == Saldo(u, uid) + valor
    ensures Historico(r, uid) == Historico(u, uid)
    ensures forall x :: x in u && x != uid ==> r[x] == u[x]
  {
    u[uid := Conta(Saldo(u, uid) + valor, Historico(u, uid))]
  }

  /** What `registrar_transacao` does: one entry at the end of that user's
      list, earlier entries and every balance unchanged. */
  function Registrar(u: Usuarios, uid: Uid, t: Transacao): (r: Usuarios)
    ensures r.Keys == u.Keys + {uid}
    ensures Saldo(r, uid) == Saldo(u, uid)
    ensures Historico(r, uid) == Historico(u, uid) + [t]
    ensures forall x :: x in u && x != uid ==> r[x] == u[x]
  {
    u[uid := Conta(Saldo(u, uid), Historico(u, uid) + [t])]
  }

  /** The later `alterar_saldo(uid, valor, tipo, descricao)` ignores its
      `tipo` argument and derives the kind from the sign of `valor`. */
  function TipoPeloSinal(valor: int): Tipo {
    if valor > 0 then Receita else Despesa
  }

  function Abs(v: int): nat {
    if v < 0 then -v else v
  }

  /** What the four-argument `alterar_saldo` does: the balance moves by
      `valor` and one entry of magnitude |valor| is appended, in one update. */
  function Lancar(u: Usuarios, uid: Uid, valor: int, descricao: string, agora: int): (r: Usuarios)
    ensures r.Keys == u.Keys + {uid}
    ensures Saldo(r, uid) == Saldo(u, uid) + valor
    ensures Historico(r, uid) == Historico(u, uid) + [Transacao(TipoPeloSinal(valor), Abs(valor), descricao, agora)]
    ensures forall x :: x in u && x != uid ==> r[x] == u[x]
  {
    u[uid := Conta(Saldo(u, uid) + valor,
                   Historico(u, uid) + [Transacao(TipoPeloSinal(valor), Abs(valor), descricao, agora)])]
  }

  /** The signed amount of an entry: income counts up, expense down. */
  function Assinado(t: Transacao): int {
    if t.tipo == Receita then t.valor else -t.valor
  }

  /** The signed sum of a transaction list. */
  function SomaLog(ts: seq<Transacao>): int {
    if ts == [] then 0 else SomaLog(ts[..|ts| - 1]) + Assinado(ts[|ts| - 1])
  }

  /** Every account's balance equals the signed sum of its log. */
  predicate Consistente(u: Usuarios) {
    forall x :: x in u ==> u[x].saldo == SomaLog(u[x].transacoes)
  }

  lemma SomaLogAnexar(ts: seq<Transacao>, t: Transacao)
    ensures SomaLog(ts + [t]) == SomaLog(ts) + Assinado(t)
  {
    assert (ts + [t])[..|ts|] == ts;
  }

  /** A balance change paired with a log entry of the same signed amount
      keeps every balance equal to the signed sum of its log. */
  lemma CreditarERegistrarConsistente(u: Usuarios, uid: Uid, delta: int, t: Transacao)
    requires Consistente(u)
    requires Assinado(t) == delta
    ensures Consistente(Registrar(Creditar(u, uid, delta), uid, t))
  {
    SomaLogAnexar(Historico(u, uid), t);
  }

  /** The four-argument `alterar_saldo` moves the signed sum of the log in step
      with the balance, for every `valor` (zero included, logged as a zero
      expense), so it keeps every account consistent. */
  lemma LancarConsistente(u: Usuarios, uid: Uid, valor: int, descricao: string, agora: int)
    ensures SomaLog(Historico(Lancar(u, uid, valor, descricao, agora), uid))
            == SomaLog(Historico(u, uid)) + valor
    ensures Consistente(u) ==> Consistente(Lancar(u, uid, valor, descricao, agora))
  {
    var t := Transacao(TipoPeloSinal(valor), Abs(valor), descricao, agora);
    SomaLogAnexar(Historico(u, uid), t);
    assert Assinado(t) == valor;
  }

  /** A balance change followed by a log entry for `uid` leaves every other
      user's balance as it was. */
  lemma SaldosAposLancamento(u: Usuarios, uid: Uid, delta: int, t: Transacao)
    ensures Saldo(Registrar(Creditar(u, uid, delta), uid, t), uid) == Saldo(u, uid) + delta
    ensures forall x :: x != uid ==> Saldo(Registrar(Creditar(u, uid, delta), uid, t), x) == Saldo(u, x)
  {
  }
}
