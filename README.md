# Banguela economy core in Dafny

A model of the economy of the Discord bot in `bot.py`. The bot keeps one
data document with three parts:

- `usuarios`: each account's balance (`saldo`) and its append-only
  transaction log (`transacoes`);
- `vips`: each VIP's expiry time and the time of their last claim;
- `autorizados`: the ids allowed to use the administrative commands.

Every helper loads the document, changes it and saves it. The model keeps the
document as one object, `Dados.Banco`, and each helper becomes one method on
it. The games become settlement functions on the accounts, taking the random
draw as a parameter. Their interactive sessions (the button views) become
classes whose methods change the session state and the document.

Modules, in dependency order:

| file | module | what it holds |
|---|---|---|
| `listas.dfy` | `Listas` | guarded `append` and `list.remove` on id lists; the no-repetition invariant |
| `financas.dfy` | `Financas` | accounts as values; the effects of both `alterar_saldo` definitions and of `registrar_transacao`; balance/log consistency |
| `vips.dfy` | `Vips` | the `vipclaim` gate: expiry, the 18000-second wait, the fixed 250 credit |
| `dados.dfy` | `Dados` | class `Banco`, the data document, with the ledger, authorization and `vipclaim` methods |
| `jogos.dfy` | `Jogos` | the pre-game checks and the settlement of duel, coin-flip bet, rinha and cup game, with their conservation lemmas |
| `sessoes.dfy` | `Sessoes` | the button views as classes: `Duelo`, `Aposta`, `Copo`, `Rinha` |
| `achados.dfy` | `Achados` | three places where the code as written differs from what it evidently means |

Conventions:

- A user id is an `int`. The document's keys are `str(id)`, and `str` is
  injective on integers.
- Times are integer seconds passed in as `agora`.
- Random draws are parameters, each constrained to its candidate set: the
  duel winner, the coin face, the rinha winner (`jogadores[sorteio % |jogadores|]`)
  and the winning cup.
- A view that was stopped, or has timed out, receives no more presses. The
  flag `ouvindo` ("listening") models that.

bot.py defines `alterar_saldo` twice: with two parameters at line 39 and with
four at line 657. Each call site is modelled against the definition it was
written for. `Dados.Banco.AlterarSaldo` is the first definition and
`Dados.Banco.AlterarSaldoERegistrar` the second. At run time the name is bound
to the second one, so every two-argument call raises; see "## Findings".

The model also keeps these behaviours of the code as written:

- Balances are not checked again when a duel, bet or rinha is settled, so a
  balance spent in between can go negative; this is likely unintended.
- The duel and the cup game do not check the sign of the stake.
- Any member's press on a cup settles the cup game of the member who started
  it, who pays the stake; every other per-user button checks who pressed it
  (bot.py:111, 127, 234, 703), so this is likely unintended.
- "Finalizar Manualmente" does not check whether the rinha has already
  started (see the concurrency line under "## Left out").

## Model

| member | source | states |
|---|---|---|
| `Listas.Adicionado` | bot.py:69-70 | the id is present afterwards; membership is old membership plus the id; an id already present leaves the list as it was, a new one goes at the end; no repetition is introduced |
| `Listas.RemoverPrimeiro` | bot.py:75-76 | `list.remove` deletes exactly one occurrence (multiset minus the id); a list without the id is unchanged |
| `Listas.Posicao` | bot.py:76 | the position of the first occurrence: it holds the id and no earlier position does |
| `Listas.RemoverPrimeiroNaPosicao` | bot.py:76 | the occurrence `list.remove` deletes is the first one, and the elements before and after it keep their order |
| `Listas.RemoverPertence` | bot.py:76 | removal keeps every other element, and shortens the list by one when the id was present |
| `Listas.RemoverSemRepeticao` | bot.py:73-77 | on a list without repetitions, removal takes the id out entirely and keeps the list free of repetitions |
| `Listas.RemoverDesfazAdicionar` | bot.py:65-77 | adding a new id and then removing it restores the list |
| `Listas.AdicionarDesfazRemover` | bot.py:65-77 | removing a present id and adding it back gives a permutation of the list, still without repetitions |
| `Listas.AnexarSemRepeticao` | bot.py:311-317 | appending a user who is not yet in the rinha keeps the player list free of repetitions |
| `Financas.Creditar` | bot.py:39-45 | a missing account is created as balance 0 with an empty log; the balance moves by exactly the amount; the log and every other account are unchanged |
| `Financas.Registrar` | bot.py:47-59 | exactly one entry is appended at the end of that user's log; the balance, earlier entries and other accounts are unchanged |
| `Financas.Lancar` | bot.py:657-669 | the balance moves by the amount and one entry is appended, "receita" iff the amount is positive, with its absolute value; nobody else changes |
| `Financas.LancarConsistente` | bot.py:657-669 | the signed sum of the log moves in step with the balance, so balances stay equal to their logs' signed sums |
| `Financas.CreditarERegistrarConsistente` | bot.py:39-59 | a balance change followed by a log entry of the same signed amount keeps every balance equal to its log's signed sum |
| `Financas.SaldosAposLancamento` | bot.py:39-59 | a balance change plus a log entry for one user moves that balance by the change and leaves every other balance as it was |
| `Vips.AvaliarClaim` | bot.py:150-163 | refused iff not VIP; refused iff expired; collected iff not expired and no earlier claim or at least 18000 s since it; otherwise the wait is 18000 minus the elapsed time, and positive |
| `Vips.Coletar` | bot.py:166 | a claim sets `ultimo_claim` to now and changes nothing else |
| `Vips.EsperaAposColeta` | bot.py:159-166 | right after a claim at `t1`, a claim at `t2` before expiry waits exactly `18000 - (t2 - t1)` if under five hours, and succeeds otherwise |
| `Vips.Coletas` | bot.py:149-167 | over any sequence of attempts, successful claims are drawn from the attempts, a first attempt that the gate accepts is the first success, and the successes fall before the expiry and at least 18000 s after the previous one |
| `Dados.Banco.constructor` | bot.py:15-17 | the document before any file exists: no accounts, no VIPs, no authorized ids |
| `Dados.Banco.SaldoUsuario` | bot.py:35-37 | the stored balance, or 0 for an unknown user, read without changing anything |
| `Dados.Banco.AlterarSaldo` | bot.py:39-45 | the accounts become `Creditar` of the old accounts |
| `Dados.Banco.RegistrarTransacao` | bot.py:47-59 | the accounts become `Registrar` of the old accounts |
| `Dados.Banco.AlterarSaldoERegistrar` | bot.py:657-669 | the accounts become `Lancar` of the old accounts; the `tipo` argument is ignored |
| `Dados.Banco.EhAutorizado` | bot.py:79-80 | true iff the id is in the authorized list |
| `Dados.Banco.AdicionarAutorizado` | bot.py:65-71 | the list becomes `Adicionado` of the old one; the id is authorized afterwards; no repetition is introduced |
| `Dados.Banco.RemoverAutorizado` | bot.py:73-77 | the list becomes `RemoverPrimeiro` of the old one; on a list without repetitions the id is no longer authorized |
| `Dados.Banco.AddGive` | bot.py:446-469 | each reply and its list: no permission, wrong usage, already had, granted (appended), did not have, removed; a grant authorizes the member and, on a list without repetitions, a removal revokes them |
| `Dados.Banco.VipClaim` | bot.py:149-168 | the reply is `AvaliarClaim`; on success the balance rises by 250 with one "Recompensa VIP" income entry and `ultimo_claim` is set; every refusal changes nothing |
| `Dados.RemoverSemRepeticaoSeHouver` | bot.py:458-467 | both branches of `addgive` keep the list free of repetitions, and on a list without repetitions a removal leaves the id absent |
| `Jogos.PropostaDuelo` | bot.py:99-103 | refused iff a self-challenge; refused for funds iff either side holds less than the stake; otherwise accepted |
| `Jogos.Perdedor` | bot.py:114-115 | the loser is the participant who is not the winner |
| `Jogos.LiquidacaoDuelo` | bot.py:117-121 | the accepted duel's two balance updates and two entries, in the callback's order; `DueloTransfere`, `DueloConta` and `DueloConsistente` prove that it moves exactly the stake from loser to winner, logs one entry each, touches nobody else and keeps balances consistent |
| `Jogos.DueloTransfere` | bot.py:117-121 | winner +stake, loser -stake, the pair's sum unchanged, one entry each, nobody else changes, consistency kept |
| `Jogos.DueloConta` | bot.py:117-121 | each account after the duel's four updates: the winner's balance +stake with one income entry, the loser's -stake with one expense entry, any other account as before |
| `Jogos.DueloConsistente` | bot.py:117-121 | the duel's four updates keep balances equal to their logs' signed sums |
| `Jogos.PropostaAposta` | bot.py:682-691 | each outcome iff its guard, in the command's order: invalid target iff a bot or the proposer; otherwise invalid stake iff not positive; otherwise proposer short iff below the stake; otherwise challenged user short iff below it; accepted iff none of these |
| `Jogos.VencedorAposta` | bot.py:709-711 | the proposer wins iff the coin shows "cara"; the winner is one of the two |
| `Jogos.LiquidacaoAposta` | bot.py:713-714 | the accepted bet's two four-argument updates; `ApostaTransfere`, `ApostaConta` and `ApostaConsistente` prove the stake moves with a "receita" and a "despesa" entry of the same amount, nobody else changes and balances stay consistent |
| `Jogos.ApostaTransfere` | bot.py:713-714 | winner +stake with an income entry, loser -stake with an expense entry of the same amount, the pair's sum unchanged, only the two accounts may be created, nobody else changes, consistency kept |
| `Jogos.ApostaConsistente` | bot.py:713-714 | the bet's two updates keep balances equal to their logs' signed sums |
| `Jogos.ApostaConta` | bot.py:713-714 | each account after the bet's two updates: the winner +stake with a "receita" entry, the loser -stake with a "despesa" entry of the same amount, any other account as before |
| `Jogos.PropostaRinha` | bot.py:286-287 | accepted iff the stake is positive and there are at least 2 seats |
| `Jogos.Cobrar` | bot.py:351-352 | one pass of the charging loop: minus the stake, then the "Entrou na rinha" expense; `CobrarConsistente` proves it keeps balances consistent |
| `Jogos.LiquidacaoRinha` | bot.py:346-357 | the whole settlement: the charging loop, then the pot credited to the winner with one income entry; `RinhaPorJogador`, `RinhaSomaZero` and `RinhaConsistente` prove the per-player effect, zero sum and consistency |
| `Jogos.CobrarTodos` | bot.py:350-352 | the charging loop keeps every account and leaves every non-player's account as it was |
| `Jogos.CobrarTodosChaves` | bot.py:350-352 | after the charging loop exactly the old accounts and the players' accounts exist |
| `Jogos.CobrarTodosPasso` | bot.py:350-352 | charging the first i+1 players is charging the first i, then player i |
| `Jogos.CobrarTodosSaldos` | bot.py:350-352 | with distinct players, each player's balance drops by exactly the stake |
| `Jogos.CobrarTodosHistoricos` | bot.py:350-352 | with distinct players, each player's log gains exactly one "Entrou na rinha" expense of the stake |
| `Jogos.CobrarConsistente` | bot.py:351-352 | charging one player keeps every balance equal to its log's signed sum |
| `Jogos.CobrarTodosConsistente` | bot.py:350-352 | the charging loop keeps balances equal to their logs' signed sums |
| `Jogos.SomaAposCobranca` | bot.py:350-352 | charging distinct players lowers their summed balance by the stake times the number of players |
| `Jogos.SomaAposPremio` | bot.py:354-357 | crediting the winner, one of the players, raises the players' sum by the prize |
| `Jogos.RinhaPorJogador` | bot.py:346-357 | each loser -stake with one expense entry; the winner +stake times (players - 1) with an expense then an income entry; only players' accounts are created; nobody else changes |
| `Jogos.RinhaVencedor` | bot.py:350-357 | the winner ends up +stake times (players - 1), with the entry expense and then the prize income appended |
| `Jogos.RinhaPerdedores` | bot.py:350-352 | every other player ends up -stake with exactly the entry expense appended |
| `Jogos.RinhaDemais` | bot.py:350-357 | the accounts afterwards are the old ones plus the players'; every account outside the melee is unchanged |
| `Jogos.RinhaConta` | bot.py:354-357 | after the charging loop only the winner's account changes, by the pot and one income entry |
| `Jogos.RinhaSomaZero` | bot.py:346-357 | the rinha is zero-sum: the players' summed balance is the same after settlement |
| `Jogos.RinhaConsistente` | bot.py:346-357 | settlement keeps balances equal to their logs' signed sums |
| `Jogos.PropostaCopo` | bot.py:378-379 | accepted iff the player holds at least the stake |
| `Jogos.ResultadoCopo` | bot.py:393-399 | `reveal_result`: a right guess credits the stake with a "receita" entry, a wrong one debits it with a "despesa" entry; `CopoUmLancamento` proves only the player's account changes, by exactly one entry |
| `Jogos.CopoUmLancamento` | bot.py:393-399 | only the player's account changes: +stake on the right cup, -stake otherwise, and exactly one entry of that kind with amount the stake |
| `Sessoes.Duelo.constructor` | bot.py:105-107 | a new challenge between two distinct users, listening |
| `Sessoes.Duelo.Aceitar` | bot.py:110-121 | a press by anyone but the challenged user changes nothing; the challenged user's press stops the view and settles by `LiquidacaoDuelo` with the drawn winner and the other as loser |
| `Sessoes.Duelo.Liquidar` | bot.py:117-121 | the four updates of the accept callback leave the accounts as `LiquidacaoDuelo` of the old ones |
| `Sessoes.Duelo.Recusar` | bot.py:126-130 | only the challenged user can decline; declining stops the view and pays nothing |
| `Sessoes.Duelo.Expirar` | bot.py:107 | the timeout stops the view without payment |
| `Sessoes.Aposta.constructor` | bot.py:696-699 | a new bet, not accepted, listening |
| `Sessoes.Aposta.Aceitar` | bot.py:702-714 | a press by anyone but the challenged user changes nothing; the challenged user's press sets `aceitou`, stops the view and settles by `LiquidacaoAposta` with the winner of the drawn face |
| `Sessoes.Aposta.Expirar` | bot.py:718-724 | the timeout stops the view without payment |
| `Sessoes.Copo.constructor` | bot.py:381-386 | the winning cup lies in 1..3 |
| `Sessoes.Copo.Escolher` | bot.py:388-414 | the first press reports a hit iff the cup is the winning one, settles by `ResultadoCopo` and stops the view; later presses change nothing |
| `Sessoes.Copo.Expirar` | bot.py:416-422 | the timeout stops the view without payment |
| `Sessoes.Rinha.constructor` | bot.py:291-299 | an empty, unstarted, listening rinha whose parameters passed the command's check |
| `Sessoes.Rinha.CobrarEntrada` | bot.py:350-352 | one pass of the charging loop leaves the accounts as `Cobrar` of the old ones: minus the stake and one "Entrou na rinha" expense for that player |
| `Sessoes.Rinha.IniciarRinha` | bot.py:346-357 | the loop charges every player in order; `iniciado` becomes true; the winner is the drawn player; the accounts become `LiquidacaoRinha` of the old ones |
| `Sessoes.Rinha.Entrar` | bot.py:302-331 | refused with list and accounts unchanged once started, for a player already in, or below the stake; otherwise the user is appended, and a full rinha is settled and stopped; the list stays free of repetitions |
| `Sessoes.Rinha.Finalizar` | bot.py:334-340 | refused for anyone but the creator and with fewer than 2 players; otherwise the rinha is settled and the view stopped |
| `Sessoes.Rinha.Expirar` | bot.py:342-344 | the expiry is announced iff the view was listening and the rinha never started |
| `Achados.AlterarSaldoVinculado` | bot.py:657-669 | the name as bound at run time: a two-argument call raises; a four-argument call moves the balance by the amount |
| `Achados.DueloComoEscrito` | bot.py:117-121 | the accept callback as written, whose first call goes to the four-parameter name; `DueloNaoLiquida` proves it always ends in `TypeError` |
| `Achados.DueloNaoLiquida` | bot.py:117-118 | as written, every accepted duel raises and moves nothing, while the intended settlement pays the winner the stake |
| `Achados.DueloExemplo` | bot.py:117-121 | 1000 and 1000 with a stake of 300: intended 1300 and 700; as written no change |
| `Achados.RecompensaVipPerdida` | bot.py:150-167 | once line 164 calls the two-argument helper of bot.py:39 (with the file as it stands it raises first), a successful claim saves three documents: the helpers' saves do hold the +250 credit and its entry, but the last save puts back the accounts from before the claim (no credit, no entry) while starting the five-hour wait |
| `Achados.VipClaimExemplo` | bot.py:164-167 | a VIP with balance 0 claiming, with line 164 reaching the bot.py:39 helper: intended 250, with the stale copy saved 0 |
| `Achados.VipClaimComoEscrito` | bot.py:150-167 | `vipclaim` as written with the bot.py:39 helpers: the documents saved in order: after bot.py:164 the credit, after bot.py:165 the credit and its entry, then at bot.py:167 the copy loaded first, with only `ultimo_claim` changed; a refusal saves nothing; `RecompensaVipPerdida` proves the reward is lost while the wait starts |
| `Achados.ConcessaoNaoAutoriza` | bot.py:454-466 | as written, `addgive` never changes whether `eh_autorizado` accepts any integer id |
| `Achados.AddGiveComoEscrito` | bot.py:445-466 | the "give"/"remove" branch as written, storing the string `str(membro.id)`; `ConcessaoNaoAutoriza` proves it never changes which integer ids are authorized |
| `Achados.AddGiveExemplo` | bot.py:454-461 | user 1 grants user 2: the reply is "granted", the list gains the string "2", and user 2 is still refused |

## Left out

- JSON persistence (`carregar_dados`/`salvar_dados`, bot.py:15-23 and
  645-651): each load-modify-save is one update of `Dados.Banco`. The later
  `carregar_dados` (bot.py:645), which is the one bound at run time, has no
  default for a missing file; file errors are not modelled.
- `parse_valor` (bot.py:25-33) and the float stake of `duelar`: amounts are
  integers, and `int(...)` truncation in `rinha` and `copo` is taken as done.
- Randomness: each draw is a parameter constrained to its candidate set.
- Date formatting and parsing: times are integer seconds, and the log's
  `data` field holds that integer instead of a formatted string. The two
  logging definitions read different clocks: bot.py:56 uses local
  `datetime.now()` and bot.py:667 uses UTC `discord.utils.utcnow()`; both
  become the same `agora`, so the offset between them is not modelled.
- Discord I/O: messages, embeds, button rendering and ephemeral replies. A
  reply is a `Resposta` value. The help menu, `on_ready` and the moderation
  commands (bot.py:471-635) are library calls with no economy logic.
- `setvip` (bot.py:137-146): VIP records are taken as present in `vips`.
- `vipedit`, `get_emoji` and the rinha emojis: presentation only.
- `daily` and `work` (bot.py:187-250): their cooldowns come from a discord.py
  decorator whose code is not part of this model.
- `atm`, `bal` and `saldo`: displays of `SaldoUsuario`.
- `badicionar` (bot.py:428-443): an authorized credit built from the
  modelled `AlterarSaldo` and `RegistrarTransacao`; not modelled separately.
- Concurrency: each button callback runs to completion before the next one.
  The source awaits inside callbacks, so two presses could interleave. For
  example, a "Finalizar" press during the `await` of a full rinha's
  settlement could settle it twice. No such interleaving is modelled.
- The hard-coded bot token (bot.py:731).

## Findings

| source | as written | input that shows it | evidently intended | confidence | as-written member | corrected member |
|---|---|---|---|---|---|---|
| bot.py:117-118 | the duel calls `alterar_saldo(id, valor)` with two arguments, but the name is bound to the four-parameter definition of bot.py:657, so the call raises `TypeError` (the same holds at bot.py:164, 190, 204, 351, 356, 394, 398, 441; in the rinha, line 351 raises after `iniciado` is already true and before `self.stop()`, so the view stays open, refuses every later join as already started, raises again on a manual finalize, and never sends the timeout message) | players 1 and 2 with 1000 each, stake 300, accepted: no balance changes | the two-argument update of bot.py:39: 1300 and 700 | high; not executed | `Achados.DueloNaoLiquida` | `Jogos.DueloTransfere` |
| bot.py:150-167 | `vipclaim` saves its own copy of the document, loaded before `alterar_saldo` and `registrar_transacao` saved theirs, so their changes are overwritten; this shows once line 164 reaches the two-argument helper of bot.py:39 (the fix of the row above), since with the file as it stands line 164 raises `TypeError` first and nothing is saved | with `alterar_saldo` bound to the bot.py:39 helper: VIP 7 with balance 0, expiry 100000, no earlier claim, claiming at 0: balance 0 and no entry, yet the next claim must wait five hours | the 250 credit and its entry persist together with the new `ultimo_claim` | high; not executed | `Achados.RecompensaVipPerdida` | `Dados.Banco.VipClaim` |
| bot.py:454-461 | `addgive` stores and looks up `str(membro.id)`, while `eh_autorizado` is always asked about the integer `ctx.author.id` | list `[1]`, user 1 runs "give" for user 2: the list becomes `[1, "2"]` and user 2 is still refused | the member's integer id is stored, so user 2 becomes authorized | medium (the list may also be edited by hand); not executed | `Achados.ConcessaoNaoAutoriza` | `Dados.Banco.AddGive` |
