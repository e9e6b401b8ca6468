/** The dashboard's indicators: the number of ideas and how many are in each
    of the five statuses. */
module Dashboard {
  import opened Modelo
  import opened Servico

  datatype Indicadores = Indicadores(
    total: nat,
    emGeracao: nat,
    emDefinicao: nat,
    prontasAvaliacao: nat,
    aprovadas: nat,
    arquivadas: nat)

  /** The five per-status counts added up. */
  function SomaPorStatus(k: Indicadores): nat {
    k.emGeracao + k.emDefinicao + k.prontasAvaliacao + k.aprovadas + k.arquivadas
  }

  /** The indicators of a list of ideas: the total is the list's length and
      each status counts the ideas in it (the same numbers `contarPorStatus`
      is meant to give for the statuses of the list). */
  function Calcular(ideias: seq<Ideia>): (k: Indicadores)
    ensures k.total == |ideias|
    ensures k.emGeracao == multiset(Statuses(ideias))[GERACAO]
    ensures k.emDefinicao == multiset(Statuses(ideias))[EM_DEFINICAO]
    ensures k.prontasAvaliacao == multiset(Statuses(ideias))[PRONTA]
    ensures k.aprovadas == multiset(Statuses(ideias))[APROVADA]
    ensures k.arquivadas == multiset(Statuses(ideias))[ARQUIVADA]
  {
    FiltrarPorStatus(ideias, GERACAO);
    FiltrarPorStatus(ideias, EM_DEFINICAO);
    FiltrarPorStatus(ideias, PRONTA);
    FiltrarPorStatus(ideias, APROVADA);
    FiltrarPorStatus(ideias, ARQUIVADA);
    Indicadores(
      |ideias|,
      |Filtrar(ideias, TemStatus(GERACAO))|,
      |Filtrar(ideias, TemStatus(EM_DEFINICAO))|,
      |Filtrar(ideias, TemStatus(PRONTA))|,
      |Filtrar(ideias, TemStatus(APROVADA))|,
      |Filtrar(ideias, TemStatus(ARQUIVADA))|)
  }

  /** No count exceeds the total, and the five add up to the total exactly
      when every idea has one of the five statuses. */
  lemma {:induction false} SomaDosIndicadores(ideias: seq<Ideia>)
    ensures SomaPorStatus(Calcular(ideias)) <= |ideias|
    ensures SomaPorStatus(Calcular(ideias)) == |ideias| <==> forall i | i in ideias :: i.status in STATUS
  {
    var s := Statuses(ideias);
    SomaDosStatus(s);
    assert (forall i | i in ideias :: i.status in STATUS) <==> (forall k | 0 <= k < |s| :: s[k] in STATUS) by {
      if forall k | 0 <= k < |s| :: s[k] in STATUS {
        forall i | i in ideias ensures i.status in STATUS {
          var k :| 0 <= k < |ideias| && ideias[k] == i;
          assert s[k] == i.status;
        }
      }
    }
  }

  /** A new idea, in generation, adds one to the total and to the ideas in
      generation, and leaves the other counts as they were. */
  lemma {:induction false} NovaIdeiaConta(ideias: seq<Ideia>, nova: Ideia)
    requires nova.status == GERACAO
    ensures var antes, depois := Calcular(ideias), Calcular(ideias + [nova]);
      && depois.total == antes.total + 1
      && depois.emGeracao == antes.emGeracao + 1
      && depois.emDefinicao == antes.emDefinicao && depois.prontasAvaliacao == antes.prontasAvaliacao
      && depois.aprovadas == antes.aprovadas && depois.arquivadas == antes.arquivadas
  {
    Modelo.StatusDistintos();
    FiltrarAnexar(ideias, nova, TemStatus(GERACAO));
    FiltrarAnexar(ideias, nova, TemStatus(EM_DEFINICAO));
    FiltrarAnexar(ideias, nova, TemStatus(PRONTA));
    FiltrarAnexar(ideias, nova, TemStatus(APROVADA));
    FiltrarAnexar(ideias, nova, TemStatus(ARQUIVADA));
  }

  /** The dashboard's counts agree with what `contarPorStatus` is meant to
      report for the statuses of the same ideas. */
  method ConfereComContagem(ideias: seq<Ideia>) returns (k: Indicadores, contagem: map<string, int>)
    ensures k == Calcular(ideias)
    ensures contagem.Keys == ChavesContagem()
    ensures contagem[TOTAL] == k.total
    ensures contagem[GERACAO] == k.emGeracao && contagem[EM_DEFINICAO] == k.emDefinicao
    ensures contagem[PRONTA] == k.prontasAvaliacao && contagem[APROVADA] == k.aprovadas
    ensures contagem[ARQUIVADA] == k.arquivadas
  {
    k := Calcular(ideias);
    contagem := ContarPorStatus(Statuses(ideias));
  }
}
