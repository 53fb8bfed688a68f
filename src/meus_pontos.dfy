/** The points page: the balance, the history of earnings and spends, the reward
    catalogue, redemption, the lists shown and the progress to the next level. */
module MeusPontos {
  import opened Wrappers
  import Lists

  datatype Recompensa = Recompensa(id: int, nome: string, pontosNecessarios: int, disponivel: bool)

  datatype HistoricoItem = HistoricoItem(id: int, tipo: string, descricao: string, pontos: int, data: string, icone: string)

  /** `recompensas.find(r => r.id === id)`. */
  function FindRecompensa(l: seq<Recompensa>, id: int): (r: Option<Recompensa>)
    ensures r.Some? ==> r.value in l && r.value.id == id
    ensures r.None? ==> forall x :: x in l ==> x.id != id
  {
    if l == [] then None else if l[0].id == id then Some(l[0]) else FindRecompensa(l[1..], id)
  }

  /** The history entry a redemption adds (`id` is the clock reading, `data` its ISO text). */
  function RedemptionEntry(r: Recompensa, now: int, timestamp: string): HistoricoItem {
    HistoricoItem(now, "recompensa_resgatada", "Resgatou: " + r.nome, -r.pontosNecessarios, timestamp, "gift")
  }

  /** The points a history records. */
  function SumPontos(h: seq<HistoricoItem>): int {
    if h == [] then 0 else h[0].pontos + SumPontos(h[1..])
  }

  /** `safeHistorico`: entries with a (truthy) id. */
  function SafeHistorico(h: seq<HistoricoItem>): (r: seq<HistoricoItem>)
    ensures |r| <= |h|
    ensures forall x :: x in r <==> x in h && x.id != 0
  {
    Lists.Filter(h, (x: HistoricoItem) => x.id != 0)
  }

  /** `safeRecompensas`: rewards with a (truthy) id. */
  function SafeRecompensas(l: seq<Recompensa>): (r: seq<Recompensa>)
    ensures |r| <= |l|
    ensures forall x :: x in r <==> x in l && x.id != 0
  {
    Lists.Filter(l, (x: Recompensa) => x.id != 0)
  }

  /** `recompensasDisponiveis`: available rewards the balance covers. */
  function Disponiveis(l: seq<Recompensa>, pontos: int): (r: seq<Recompensa>)
    ensures |r| <= |l|
    ensures forall x :: x in r <==> x in l && x.disponivel && pontos >= x.pontosNecessarios
  {
    if l == [] then []
    else (if l[0].disponivel && pontos >= l[0].pontosNecessarios then [l[0]] else []) + Disponiveis(l[1..], pontos)
  }

  predicate UniqueIds(l: seq<Recompensa>) {
    forall i, j :: 0 <= i < j < |l| ==> l[i].id != l[j].id
  }

  /** With unique ids, every reward listed as available is found by its id and
      covered by the balance, so redeeming it succeeds. */
  lemma {:induction false} AvailableIsRedeemable(l: seq<Recompensa>, pontos: int, r: Recompensa)
    requires UniqueIds(l)
    requires r in Disponiveis(SafeRecompensas(l), pontos)
    ensures FindRecompensa(l, r.id) == Some(r) && pontos >= r.pontosNecessarios
  {
    FoundByUniqueId(l, r);
  }

  lemma {:induction false} FoundByUniqueId(l: seq<Recompensa>, r: Recompensa)
    requires UniqueIds(l) && r in l
    ensures FindRecompensa(l, r.id) == Some(r)
  {
    if l[0] != r {
      assert UniqueIds(l[1..]);
      assert r in l[1..];
      FoundByUniqueId(l[1..], r);
    }
  }

  /** JavaScript's `%`: the remainder takes the sign of the dividend. */
  function JsRemainder(a: int, b: int): (r: int)
    requires b > 0
    ensures a >= 0 ==> r == a % b && 0 <= r < b
    ensures a < 0 ==> -b < r <= 0
  {
    if a >= 0 then a % b else -((-a) % b)
  }

  /** `progressoProximoNivel`: the percentage of the current thousand reached. */
  function ProgressoProximoNivel(pontos: int): (progress: real)
    ensures pontos >= 0 ==> 0.0 <= progress < 100.0
    ensures pontos % 1000 == 0 ==> progress == 0.0
  {
    JsRemainder(pontos, 1000) as real / 1000.0 * 100.0
  }

  /** For a non-negative balance the progress is in [0, 100) and is a tenth of the
      points past the last thousand; a negative balance shows a negative progress. */
  lemma ProgressoBounds(pontos: int)
    ensures pontos >= 0 ==> 0.0 <= ProgressoProximoNivel(pontos) < 100.0
    ensures pontos >= 0 ==> ProgressoProximoNivel(pontos) == (pontos % 1000) as real / 10.0
    ensures pontos < 0 && pontos % 1000 != 0 ==> ProgressoProximoNivel(pontos) < 0.0
  {
  }

  class PointsLedger {
    var pontos: int
    var historico: seq<HistoricoItem>
    var recompensas: seq<Recompensa>

    constructor (initialPontos: int, initialHistorico: seq<HistoricoItem>, catalogue: seq<Recompensa>)
      ensures pontos == initialPontos && historico == initialHistorico && recompensas == catalogue
    {
      pontos := initialPontos;
      historico := initialHistorico;
      recompensas := catalogue;
    }

    /** `resgatarRecompensa(id)`: an unknown id or an uncovered cost changes
        nothing; otherwise the cost is debited and the spend is put first in the
        history (availability is not consulted). The balance minus the recorded
        points never changes, and a non-negative balance stays non-negative. */
    method ResgatarRecompensa(recompensaId: int, now: int, timestamp: string) returns (redeemed: Option<Recompensa>)
      modifies this
      ensures recompensas == old(recompensas)
      ensures var found := FindRecompensa(old(recompensas), recompensaId);
        if found.None? || old(pontos) < found.value.pontosNecessarios then
          redeemed == None && pontos == old(pontos) && historico == old(historico)
        else
          redeemed == found
          && pontos == old(pontos) - found.value.pontosNecessarios
          && historico == [RedemptionEntry(found.value, now, timestamp)] + old(historico)
      ensures pontos - SumPontos(historico) == old(pontos) - SumPontos(old(historico))
      ensures old(pontos) >= 0 ==> pontos >= 0
    {
      var found := FindRecompensa(recompensas, recompensaId);
      if found.None? || pontos < found.value.pontosNecessarios {
        return None;
      }
      var r := found.value;
      var entry := RedemptionEntry(r, now, timestamp);
      pontos := pontos - r.pontosNecessarios;
      assert ([entry] + historico)[1..] == historico;
      historico := [entry] + historico;
      redeemed := found;
    }
  }
}
