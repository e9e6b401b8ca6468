/** The evaluation page: the queue of ideas ready for evaluation and the
    evaluation form, whose submission records the evaluation and decides the
    idea's status. */
module PaginaAvaliacao {
  import opened Modelo
  import opened Texto
  import opened Servico

  /** `ideiasParaAvaliar`: exactly the ideas ready for evaluation, in the
      order of the list. */
  function FilaDeAvaliacao(ideias: seq<Ideia>): (r: seq<Ideia>)
    ensures forall i | i in r :: i in ideias && i.status == PRONTA
    ensures forall k | 0 <= k < |ideias| && ideias[k].status == PRONTA :: ideias[k] in r
    ensures Subsequencia(r, ideias)
    ensures |r| == multiset(Statuses(ideias))[PRONTA]
  {
    FiltrarPorStatus(ideias, PRONTA);
    FiltrarSubsequencia(ideias, TemStatus(PRONTA));
    Filtrar(ideias, TemStatus(PRONTA))
  }

  /** The default score of each criterion. */
  const NOTA_PADRAO: int := 3

  predicate NotaValida(n: int) {
    1 <= n <= 5
  }

  /** What a press of "Confirmar Avaliação" ends in. */
  datatype Desfecho =
    | NadaAberto                 // no idea open: nothing happens
    | JustificativaObrigatoria   // archiving with a blank justification: warned, nothing written
    | Salva(avaliacao: Avaliacao)
    | ErroAoSalvar

  /** The evaluation the page submits: the open idea, the evaluator, the
      three scores and the decision, with the justification text only when
      the decision is to archive. */
  function Submetida(ideiaId: nat, avaliador: UsuarioId, clareza: int, negocio: int, tecnica: int,
                     decisao: string, justificativa: string): (av: Avaliacao)
    ensures av.ideiaId == ideiaId && av.avaliadorId == avaliador && av.decisao == decisao
    ensures (av.notaClarezaObjetivos, av.notaAnaliseNegocio, av.notaViabilidadeTecnica) == (clareza, negocio, tecnica)
    ensures av.justificativa.Some? <==> decisao == ARQUIVADA
    ensures av.justificativa.Some? ==> av.justificativa.value == justificativa
  {
    Avaliacao(ideiaId, avaliador, clareza, negocio, tecnica, decisao,
              if decisao == ARQUIVADA then Some(justificativa) else None)
  }

  /** The form's state. */
  class FormAvaliacao {
    var aberta: Option<Ideia>
    var clareza: int
    var negocio: int
    var tecnica: int
    var decisao: string
    var justificativa: string

    /** Scores are those the buttons offer, the decision one of the two. */
    ghost predicate Valid()
      reads this
    {
      NotaValida(clareza) && NotaValida(negocio) && NotaValida(tecnica)
      && (decisao == APROVADA || decisao == ARQUIVADA)
    }

    /** Nothing open, every score 3, approval chosen, no justification. */
    ghost predicate Padrao()
      reads this
    {
      aberta == None && clareza == NOTA_PADRAO && negocio == NOTA_PADRAO && tecnica == NOTA_PADRAO
      && decisao == APROVADA && justificativa == ""
    }

    constructor ()
      ensures Valid() && Padrao()
    {
      aberta := None;
      clareza, negocio, tecnica := NOTA_PADRAO, NOTA_PADRAO, NOTA_PADRAO;
      decisao := APROVADA;
      justificativa := "";
    }

    /** "Avaliar Ideia": opens an idea of the queue; the scores and the
        decision are kept. */
    method Abrir(ideia: Ideia)
      modifies this`aberta
      ensures aberta == Some(ideia)
    {
      aberta := Some(ideia);
    }

    /** A score button of the clarity criterion. */
    method DefinirClareza(n: int)
      requires NotaValida(n) && Valid()
      modifies this`clareza
      ensures clareza == n && Valid()
    {
      clareza := n;
    }

    /** A score button of the business-analysis criterion. */
    method DefinirNegocio(n: int)
      requires NotaValida(n) && Valid()
      modifies this`negocio
      ensures negocio == n && Valid()
    {
      negocio := n;
    }

    /** A score button of the technical-feasibility criterion. */
    method DefinirTecnica(n: int)
      requires NotaValida(n) && Valid()
      modifies this`tecnica
      ensures tecnica == n && Valid()
    {
      tecnica := n;
    }

    /** The approve / archive buttons. */
    method DefinirDecisao(d: string)
      requires (d == APROVADA || d == ARQUIVADA) && Valid()
      modifies this`decisao
      ensures decisao == d && Valid()
    {
      decisao := d;
    }

    /** The justification text area. */
    method DefinirJustificativa(texto: string)
      modifies this`justificativa
      ensures justificativa == texto
    {
      justificativa := texto;
    }

    /** "Cancelar": closes the form; the scores, decision and text stay. */
    method Cancelar()
      modifies this`aberta
      ensures aberta == None
    {
      aberta := None;
    }

    /** `handleAvaliar`: with no idea open nothing happens; archiving with a
        justification blank after trimming only warns; otherwise the
        evaluation is submitted, and on success the form returns to its
        defaults. A failed submission leaves the form as it was. The
        backend's answer to the insert is `insercaoAceita`. */
    method HandleAvaliar(banco: Banco, usuario: UsuarioId, insercaoAceita: bool) returns (d: Desfecho)
      requires Valid()
      modifies this, banco`avaliacoes, banco`ideias
      ensures Valid()
      ensures old(aberta).None? ==> d == NadaAberto
      ensures old(aberta).Some? && old(decisao) == ARQUIVADA && Branco(old(justificativa)) ==> d == JustificativaObrigatoria
      ensures d == NadaAberto || d == JustificativaObrigatoria ==>
        && unchanged(this) && banco.avaliacoes == old(banco.avaliacoes) && banco.ideias == old(banco.ideias)
      ensures old(aberta).Some? && !(old(decisao) == ARQUIVADA && Branco(old(justificativa))) ==>
        var av := Submetida(old(aberta).value.id, usuario, old(clareza), old(negocio), old(tecnica),
                            old(decisao), old(justificativa));
        && (insercaoAceita ==> banco.avaliacoes == old(banco.avaliacoes) + [av])
        && (!insercaoAceita ==> banco.avaliacoes == old(banco.avaliacoes) && banco.ideias == old(banco.ideias))
        && (insercaoAceita && av.ideiaId in old(banco.ideias) ==>
              && d == Salva(av) && Padrao()
              && banco.ideias == old(banco.ideias)[av.ideiaId :=
                   ComStatus(old(banco.ideias)[av.ideiaId], av.decisao, JustificativaRepassada(av))])
        && (insercaoAceita && av.ideiaId !in old(banco.ideias) ==> banco.ideias == old(banco.ideias))
        && (!(insercaoAceita && av.ideiaId in old(banco.ideias)) ==> d == ErroAoSalvar && unchanged(this))
    {
      if aberta.None? {
        return NadaAberto;
      }
      if decisao == ARQUIVADA && Trim(justificativa) == "" {
        return JustificativaObrigatoria;
      }
      var av := Submetida(aberta.value.id, usuario, clareza, negocio, tecnica, decisao, justificativa);
      var r := banco.CriarAvaliacao(av, insercaoAceita);
      if r.Err? {
        return ErroAoSalvar;
      }
      aberta := None;
      clareza, negocio, tecnica := NOTA_PADRAO, NOTA_PADRAO, NOTA_PADRAO;
      decisao := APROVADA;
      justificativa := "";
      d := Salva(av);
    }
  }

  /** What the page submits is a well-formed evaluation: scores in 1..5, a
      decision of approve or archive, and a justification exactly when it
      archives, never blank. */
  lemma {:induction false} SubmetidaBemFormada(ideiaId: nat, avaliador: UsuarioId, clareza: int, negocio: int,
                                               tecnica: int, decisao: string, justificativa: string)
    requires NotaValida(clareza) && NotaValida(negocio) && NotaValida(tecnica)
    requires decisao == APROVADA || decisao == ARQUIVADA
    requires !(decisao == ARQUIVADA && Branco(justificativa))
    ensures var av := Submetida(ideiaId, avaliador, clareza, negocio, tecnica, decisao, justificativa);
      && NotaValida(av.notaClarezaObjetivos) && NotaValida(av.notaAnaliseNegocio) && NotaValida(av.notaViabilidadeTecnica)
      && (av.justificativa.Some? <==> av.decisao == ARQUIVADA)
      && (av.justificativa.Some? ==> !Branco(av.justificativa.value) && Verdadeira(JustificativaRepassada(av)))
  {
    var av := Submetida(ideiaId, avaliador, clareza, negocio, tecnica, decisao, justificativa);
    if decisao == ARQUIVADA {
      assert Trim(justificativa) != [];
      assert justificativa != "";
    }
  }

  /** An idea archived from this page keeps the justification as its
      rejection rationale; an approved one keeps the rationale it had. */
  lemma {:induction false} ArquivarGuardaJustificativa(r: Registro, av: Avaliacao)
    requires av.decisao == ARQUIVADA ==> av.justificativa.Some? && !Branco(av.justificativa.value)
    ensures av.decisao == ARQUIVADA ==>
      ComStatus(r, av.decisao, JustificativaRepassada(av)).justificativaRejeicao == av.justificativa
    ensures av.decisao != ARQUIVADA ==>
      ComStatus(r, av.decisao, JustificativaRepassada(av)).justificativaRejeicao == r.justificativaRejeicao
    ensures ComStatus(r, av.decisao, JustificativaRepassada(av)).status == av.decisao
  {
    if av.decisao == ARQUIVADA {
      assert av.justificativa.value != "" by {
        assert Texto.Branco("");
      }
    }
  }
}
