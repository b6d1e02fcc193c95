/** The VIP periodic claim gate of `vipclaim`: a VIP record carries an expiry
    time and the time of the last successful claim; a claim succeeds at most
    once every 18000 seconds and only before the expiry. */
module Vips {
  import opened Financas

  /** `dados["vips"][uid]`: `expira_em`, `ultimo_claim` (None until the first
      claim) and the cosmetic `custom` emoji. Times are in seconds. */
  datatype Vip = Vip(expiraEm: int, ultimoClaim: Option<int>, custom: string)

  /** The outcomes of `vipclaim`. */
  datatype Claim = NaoVip | Expirado | Aguarde(restante: int) | Coletado

  /** The cooldown between two claims, in seconds (five hours). */
  const Intervalo: int := 18000

  /** The fixed credit of a successful claim. */
  const Recompensa: int := 250

  /** The income entry `vipclaim` logs for the reward. */
  function EntradaVip(agora: int): Transacao {
    Transacao(Receita, Recompensa, "Recompensa VIP", agora)
  }

  /** The decision of `vipclaim` at time `agora`. An unknown user and an
      expired VIP are refused; a claim less than `Intervalo` seconds after the
      last one is refused with the positive remaining wait. */
  function AvaliarClaim(vips: map<Uid, Vip>, uid: Uid, agora: int): (r: Claim)
    ensures r == NaoVip <==> uid !in vips
    ensures r == Expirado <==> uid in vips && agora > vips[uid].expiraEm
    ensures r == Coletado <==>
              uid in vips && agora <= vips[uid].expiraEm &&
              (vips[uid].ultimoClaim.None? || agora - vips[uid].ultimoClaim.value >= Intervalo)
    ensures r.Aguarde? ==>
              uid in vips && vips[uid].ultimoClaim.Some? &&
              r.restante == Intervalo - (agora - vips[uid].ultimoClaim.value) &&
              0 < r.restante
  {
    if uid !in vips then NaoVip
    else if agora > vips[uid].expiraEm then Expirado
    else if vips[uid].ultimoClaim.Some? && agora - vips[uid].ultimoClaim.value < Intervalo then
      Aguarde(Intervalo - (agora - vips[uid].ultimoClaim.value))
    else Coletado
  }

  /** The record after a successful claim at `agora`: `ultimo_claim` is set. */
  function Coletar(vips: map<Uid, Vip>, uid: Uid, agora: int): (r: map<Uid, Vip>)
    requires uid in vips
    ensures r.Keys == vips.Keys
    ensures r[uid].ultimoClaim == Some(agora)
    ensures r[uid].expiraEm == vips[uid].expiraEm && r[uid].custom == vips[uid].custom
    ensures forall x :: x in vips && x != uid ==> r[x] == vips[x]
  {
    vips[uid := vips[uid].(ultimoClaim := Some(agora))]
  }

  /** Right after a successful claim at `t1`, a claim at `t2` before the expiry
      waits exactly the rest of the five hours, and succeeds from then on. */
  lemma EsperaAposColeta(vips: map<Uid, Vip>, uid: Uid, t1: int, t2: int)
    requires AvaliarClaim(vips, uid, t1) == Coletado
    requires t2 <= vips[uid].expiraEm
    ensures t2 - t1 < Intervalo ==>
              AvaliarClaim(Coletar(vips, uid, t1), uid, t2) == Aguarde(Intervalo - (t2 - t1))
    ensures t2 - t1 >= Intervalo ==> AvaliarClaim(Coletar(vips, uid, t1), uid, t2) == Coletado
  {
  }

  /** The times at which claims attempted at `ts`, in that order, succeed. */
  function Coletas(vips: map<Uid, Vip>, uid: Uid, ts: seq<int>): (r: seq<int>)
    ensures |r| <= |ts|
    ensures forall i :: 0 <= i < |r| ==> r[i] in ts
    ensures |ts| > 0 && AvaliarClaim(vips, uid, ts[0]) == Coletado ==> |r| > 0 && r[0] == ts[0]
    ensures forall i :: 0 <= i < |r| ==> uid in vips && r[i] <= vips[uid].expiraEm
    ensures |r| > 0 && uid in vips && vips[uid].ultimoClaim.Some? ==>
              r[0] - vips[uid].ultimoClaim.value >= Intervalo
    ensures forall i :: 0 <= i < |r| - 1 ==> r[i + 1] - r[i] >= Intervalo
    decreases |ts|
  {
    if ts == [] then []
    else if AvaliarClaim(vips, uid, ts[0]) == Coletado then
      [ts[0]] + Coletas(Coletar(vips, uid, ts[0]), uid, ts[1..])
    else
      Coletas(vips, uid, ts[1..])
  }
}
