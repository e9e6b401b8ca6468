/** The service layer over the backend tables: ideas and their tags, votes,
    evaluations, product definitions and attachments. The tables are fields
    of one `Banco` object; each service call is a method that changes the
    tables it writes and no others. */
module Servico {
  import opened Modelo
  import opened Texto

  /** The answer of a `.single()` read: the one matching row, or an error code. */
  datatype RespostaUnica<T> = Linha(linha: T) | FalhaConsulta(codigo: string)

  /** PostgREST's `.single()`: exactly one matching row is the answer; none
      or several give the "no row" code. */
  function ConsultaUnica<T>(linhas: seq<T>): (r: RespostaUnica<T>)
    ensures r.Linha? <==> |linhas| == 1
    ensures r.Linha? ==> r.linha == linhas[0]
    ensures r.FalhaConsulta? ==> r.codigo == SEM_LINHA
  {
    if |linhas| == 1 then Linha(linhas[0]) else FalhaConsulta(SEM_LINHA)
  }

  /** How `verificarVoto` and `definicaoService.buscar` read a `.single()`
      answer: the "no row" code means absent, any other code is an error. */
  function LerUnica<T>(resposta: RespostaUnica<T>): (r: Result<Option<T>, ErroBanco>)
    ensures resposta.Linha? ==> r == Ok(Some(resposta.linha))
    ensures resposta.FalhaConsulta? ==> (r == Ok(None) <==> resposta.codigo == SEM_LINHA)
    ensures r.Err? <==> resposta.FalhaConsulta? && resposta.codigo != SEM_LINHA
  {
    match resposta
    case Linha(x) => Ok(Some(x))
    case FalhaConsulta(c) => if c == SEM_LINHA then Ok(None) else Err(FalhaBackend)
  }

  /** JavaScript truthiness of an optional string: present and not empty. */
  predicate Verdadeira(s: Option<string>) {
    s.Some? && s.value != ""
  }

  /** `valor || null`: the empty string becomes null. */
  function OuNulo(s: string): (r: Option<string>)
    ensures r.None? <==> s == ""
    ensures r.Some? ==> r.value == s
  {
    if s == "" then None else Some(s)
  }

  /** The row `criar` inserts: the form's fields, empty optional fields as
      null, the author, and the column defaults (status Geração, no owner, no
      rejection rationale, creation time now). */
  function RegistroNovo(ideia: NovaIdeia, autorId: UsuarioId, agora: int): (r: Registro)
    ensures r.status == GERACAO && r.ownerId.None? && r.justificativaRejeicao.None?
    ensures r.autorId == autorId && r.titulo == ideia.titulo && r.descricao == ideia.descricao
    ensures r.fonte == OuNulo(ideia.fonte) && r.segmento == OuNulo(ideia.segmento) && r.impacto == OuNulo(ideia.impacto)
    ensures r.fonte != Some("") && r.segmento != Some("") && r.impacto != Some("")
    ensures r.createdAt == agora
  {
    Registro(ideia.titulo, ideia.descricao, OuNulo(ideia.fonte), OuNulo(ideia.segmento),
             OuNulo(ideia.impacto), autorId, GERACAO, None, None, agora)
  }

  /** The update `atualizarStatus` makes: the status always, the rejection
      rationale only when a truthy justification is given. */
  function ComStatus(r: Registro, novoStatus: string, justificativa: Option<string>): (n: Registro)
    ensures n.status == novoStatus
    ensures n.justificativaRejeicao == if Verdadeira(justificativa) then justificativa else r.justificativaRejeicao
    ensures n == r.(status := n.status, justificativaRejeicao := n.justificativaRejeicao)
  {
    if Verdadeira(justificativa) then r.(status := novoStatus, justificativaRejeicao := justificativa)
    else r.(status := novoStatus)
  }

  /** The justification `avaliacoesService.criar` passes on: the
      evaluation's own when it archives the idea, none otherwise. */
  function JustificativaRepassada(av: Avaliacao): (j: Option<string>)
    ensures av.decisao != ARQUIVADA ==> j.None?
    ensures av.decisao == ARQUIVADA ==> j == av.justificativa
  {
    if av.decisao == ARQUIVADA then av.justificativa else None
  }

  predicate SemRepeticao(s: seq<string>) {
    forall i, j | 0 <= i < j < |s| :: s[i] != s[j]
  }

  /** The tag names `criar` looks up: each given tag lower-cased. */
  function NomesDeTags(tags: seq<string>): (r: seq<string>)
    ensures |r| == |tags|
    ensures forall k | 0 <= k < |tags| :: r[k] == Minusculas(tags[k])
  {
    seq(|tags|, k requires 0 <= k < |tags| => Minusculas(tags[k]))
  }

  /** The lookup `tags.eq('nome', nome)`: the id (position) of the tag. */
  function BuscarTag(tabela: seq<string>, nome: string): (r: Option<nat>)
    ensures r.Some? <==> nome in tabela
    ensures r.Some? ==> r.value < |tabela| && tabela[r.value] == nome
  {
    if tabela == [] then None
    else if tabela[|tabela| - 1] == nome then Some(|tabela| - 1)
    else BuscarTag(tabela[..|tabela| - 1], nome)
  }

  /** The tags table after find-or-create of each name in turn. */
  function TagsApos(tabela: seq<string>, nomes: seq<string>): (r: seq<string>)
    ensures |tabela| <= |r| && r[..|tabela|] == tabela
  {
    if nomes == [] then tabela
    else
      var antes := TagsApos(tabela, nomes[..|nomes| - 1]);
      var ultimo := nomes[|nomes| - 1];
      if ultimo in antes then antes else antes + [ultimo]
  }

  /** Find-or-create keeps the table free of repetitions, and afterwards the
      table holds every name, and nothing but the old tags and the names. */
  lemma {:induction false} TagsAposConteudo(tabela: seq<string>, nomes: seq<string>)
    ensures SemRepeticao(tabela) ==> SemRepeticao(TagsApos(tabela, nomes))
    ensures forall x | x in nomes :: x in TagsApos(tabela, nomes)
    ensures forall x | x in TagsApos(tabela, nomes) :: x in tabela || x in nomes
  {
    if nomes != [] {
      var ini := nomes[..|nomes| - 1];
      var ultimo := nomes[|nomes| - 1];
      TagsAposConteudo(tabela, ini);
      assert nomes == ini + [ultimo];
    }
  }

  /** The id `criar` links for a name: the existing tag's, or the id of the
      tag it creates at the end of the table. */
  function IdDaTag(tabela: seq<string>, nome: string): (j: nat)
    ensures j <= |tabela|
    ensures j < |tabela| <==> nome in tabela
    ensures j < |tabela| ==> tabela[j] == nome
  {
    match BuscarTag(tabela, nome)
    case Some(k) => k
    case None => |tabela|
  }

  /** Where the tag loop of `criar` stops, looking from the `i`-th name on:
      at the first name that is neither in the table by then nor accepted by
      its insert, or after the last name when there is none. */
  function Parada(tabela: seq<string>, nomes: seq<string>, aceitas: seq<bool>, i: nat): (n: nat)
    requires |aceitas| == |nomes| && i <= |nomes|
    ensures i <= n <= |nomes|
    ensures n < |nomes| ==> nomes[n] !in TagsApos(tabela, nomes[..n]) && !aceitas[n]
    decreases |nomes| - i
  {
    if i == |nomes| || (nomes[i] !in TagsApos(tabela, nomes[..i]) && !aceitas[i]) then i
    else Parada(tabela, nomes, aceitas, i + 1)
  }

  /** The stop is the first refusal: every name before it is in the table by
      then or has its insert accepted. */
  lemma {:induction false} ParadaPrimeira(tabela: seq<string>, nomes: seq<string>, aceitas: seq<bool>, i: nat, k: nat)
    requires |aceitas| == |nomes| && i <= |nomes| && i <= k < Parada(tabela, nomes, aceitas, i)
    ensures nomes[k] in TagsApos(tabela, nomes[..k]) || aceitas[k]
    decreases |nomes| - i
  {
    if k > i {
      ParadaPrimeira(tabela, nomes, aceitas, i + 1, k);
    }
  }

  /** With every tag insert accepted the loop goes through all the names. */
  lemma ParadaSemRecusa(tabela: seq<string>, nomes: seq<string>, aceitas: seq<bool>)
    requires |aceitas| == |nomes|
    requires forall k | 0 <= k < |aceitas| :: aceitas[k]
    ensures Parada(tabela, nomes, aceitas, 0) == |nomes|
  {
  }

  /** Only the insert of a new tag can stop the loop: names already in the
      table never do, whatever the outcomes. */
  lemma {:induction false} ParadaSoEmTagNova(tabela: seq<string>, nomes: seq<string>, aceitas: seq<bool>)
    requires |aceitas| == |nomes|
    requires forall k | 0 <= k < |nomes| :: nomes[k] in tabela
    ensures Parada(tabela, nomes, aceitas, 0) == |nomes|
  {
  }

  /** The loop goes past the `i`-th name exactly when that name is in the
      table by then or its insert is accepted. */
  lemma ParadaPasso(tabela: seq<string>, nomes: seq<string>, aceitas: seq<bool>, i: nat)
    requires |aceitas| == |nomes| && i < |nomes|
    requires i <= Parada(tabela, nomes, aceitas, 0)
    ensures i < Parada(tabela, nomes, aceitas, 0) <==> nomes[i] in TagsApos(tabela, nomes[..i]) || aceitas[i]
  {
    if i < Parada(tabela, nomes, aceitas, 0) {
      ParadaPrimeira(tabela, nomes, aceitas, 0, i);
    }
  }

  /** The `ideia_tags` rows `criar` inserts for the names, in order. */
  function ParesApos(tabela: seq<string>, id: nat, nomes: seq<string>): (r: seq<(nat, nat)>)
    ensures |r| == |nomes|
  {
    if nomes == [] then []
    else
      var ini := nomes[..|nomes| - 1];
      ParesApos(tabela, id, ini) + [(id, IdDaTag(TagsApos(tabela, ini), nomes[|nomes| - 1]))]
  }

  /** One more name: the table and the rows after it. */
  lemma AposPasso(tabela: seq<string>, id: nat, nomes: seq<string>, x: string)
    ensures var antes := TagsApos(tabela, nomes);
      && TagsApos(tabela, nomes + [x]) == (if x in antes then antes else antes + [x])
      && ParesApos(tabela, id, nomes + [x]) == ParesApos(tabela, id, nomes) + [(id, IdDaTag(antes, x))]
  {
    assert (nomes + [x])[..|nomes|] == nomes;
  }

  /** The tag loop's step: after name `i` the table and the rows are those
      of the first `i + 1` names. */
  lemma PassoDoLaco(t0: seq<string>, id: nat, nomes: seq<string>, i: nat,
                    t: seq<string>, t2: seq<string>, p: seq<(nat, nat)>, p2: seq<(nat, nat)>)
    requires i < |nomes|
    requires t == TagsApos(t0, nomes[..i]) && p == ParesApos(t0, id, nomes[..i])
    requires t2 == (if nomes[i] in t then t else t + [nomes[i]])
    requires p2 == p + [(id, IdDaTag(t, nomes[i]))]
    ensures t2 == TagsApos(t0, nomes[..i + 1]) && p2 == ParesApos(t0, id, nomes[..i + 1])
  {
    assert nomes[..i + 1] == nomes[..i] + [nomes[i]];
    AposPasso(t0, id, nomes[..i], nomes[i]);
  }

  lemma AnexarAposConcat<T>(a: seq<T>, b: seq<T>, x: T)
    ensures (a + b) + [x] == a + (b + [x])
  {
  }

  /** Each row links the idea to the tag of the name of the same index. */
  predicate Vinculos(tabela: seq<string>, pares: seq<(nat, nat)>, id: nat, nomes: seq<string>) {
    && |pares| == |nomes|
    && forall k | 0 <= k < |nomes| :: pares[k].0 == id && pares[k].1 < |tabela| && tabela[pares[k].1] == nomes[k]
  }

  /** The rows `criar` inserts link the idea to the tag of each name. */
  lemma {:induction false} ParesAposVinculam(tabela: seq<string>, id: nat, nomes: seq<string>)
    ensures Vinculos(TagsApos(tabela, nomes), ParesApos(tabela, id, nomes), id, nomes)
  {
    if nomes != [] {
      var ini := nomes[..|nomes| - 1];
      var x := nomes[|nomes| - 1];
      assert nomes == ini + [x];
      ParesAposVinculam(tabela, id, ini);
      AposPasso(tabela, id, ini, x);
      var t, t2 := TagsApos(tabela, ini), TagsApos(tabela, nomes);
      var p := ParesApos(tabela, id, ini);
      assert |t| <= |t2| && t2[..|t|] == t;
      forall k | 0 <= k < |nomes| ensures ParesApos(tabela, id, nomes)[k].0 == id
        && ParesApos(tabela, id, nomes)[k].1 < |t2| && t2[ParesApos(tabela, id, nomes)[k].1] == nomes[k] {
        if k < |ini| {
          assert ParesApos(tabela, id, nomes)[k] == p[k];
          assert t2[p[k].1] == t2[..|t|][p[k].1];
        }
      }
    }
  }

  /** A row of `definicao_produto`. */
  datatype LinhaDefinicao = LinhaDefinicao(ideiaId: nat, definicao: Definicao)

  function DaIdeia(ideiaId: nat): LinhaDefinicao -> bool {
    (l: LinhaDefinicao) => l.ideiaId == ideiaId
  }

  predicate UmaDefinicaoPorIdeia(ds: seq<LinhaDefinicao>) {
    forall i, j | 0 <= i < j < |ds| :: ds[i].ideiaId != ds[j].ideiaId
  }

  /** Position of the definition row of an idea. */
  function PosicaoDefinicao(ds: seq<LinhaDefinicao>, ideiaId: nat): (r: Option<nat>)
    ensures r.Some? ==> r.value < |ds| && ds[r.value].ideiaId == ideiaId
    ensures r.None? ==> forall k | 0 <= k < |ds| :: ds[k].ideiaId != ideiaId
  {
    if ds == [] then None
    else if ds[|ds| - 1].ideiaId == ideiaId then Some(|ds| - 1)
    else PosicaoDefinicao(ds[..|ds| - 1], ideiaId)
  }

  /** The definition document stored for an idea, if any. */
  function DefinicaoDe(ds: seq<LinhaDefinicao>, ideiaId: nat): Option<Definicao> {
    match PosicaoDefinicao(ds, ideiaId)
    case Some(k) => Some(ds[k].definicao)
    case None => None
  }

  /** With one row per idea, the rows of an idea are its row or nothing. */
  lemma {:induction false} LinhasDaIdeia(ds: seq<LinhaDefinicao>, ideiaId: nat)
    requires UmaDefinicaoPorIdeia(ds)
    ensures Filtrar(ds, DaIdeia(ideiaId)) ==
      match PosicaoDefinicao(ds, ideiaId) case Some(k) => [ds[k]] case None => []
  {
    if ds != [] {
      var ini := ds[..|ds| - 1];
      assert ds == ini + [ds[|ds| - 1]];
      FiltrarAnexar(ini, ds[|ds| - 1], DaIdeia(ideiaId));
      LinhasDaIdeia(ini, ideiaId);
      if ds[|ds| - 1].ideiaId == ideiaId {
        assert PosicaoDefinicao(ini, ideiaId).None?;
      }
    }
  }

  /** The objects stored for an idea's attachments all sit under the idea's
      folder: `anexos/<ideiaId>/<momento>_<sufixo>.<ext>`, where `ext` is the
      file name's extension. */
  function CaminhoArmazenamento(ideiaId: nat, nomeArquivo: string, momento: nat, sufixo: string): (r: string)
    ensures Extensao(r) == Extensao(nomeArquivo)
    ensures var pasta := "anexos/" + Decimal(ideiaId) + "/"; |pasta| <= |r| && r[..|pasta|] == pasta
  {
    var pasta := "anexos/" + Decimal(ideiaId) + "/";
    var r := pasta + (Decimal(momento) + "_" + sufixo + "." + Extensao(nomeArquivo));
    assert r == pasta + Decimal(momento) + "_" + sufixo + "." + Extensao(nomeArquivo);
    assert r[..|pasta|] == pasta;
    ExtensaoDoSufixo("anexos/" + Decimal(ideiaId) + "/" + Decimal(momento) + "_" + sufixo, Extensao(nomeArquivo));
    r
  }

  /** Two strings that agree up to a separator absent from both leading parts
      have the same leading part. */
  lemma {:induction false} AteSeparador(a: string, b: string, c: char, x: string, y: string)
    requires c !in a && c !in b
    requires a + [c] + x == b + [c] + y
    ensures a == b
  {
    var u, v := a + [c] + x, b + [c] + y;
    assert u[|a|] == c && v[|b|] == c;
    assert forall k | 0 <= k < |a| :: u[k] == a[k];
    assert forall k | 0 <= k < |b| :: v[k] == b[k];
    assert |a| == |b|;
    assert a == u[..|a|] && b == v[..|b|];
  }

  /** The path cut at its two separators, grouped as
      CaminhoDeterminaIdeiaEMomento peels it: prefix, then idea id up to
      '/', then moment up to '_'. A helper that only fixes the association
      of the concatenations for that proof. */
  lemma CaminhoEmPartes(id: nat, nome: string, momento: nat, sufixo: string)
    ensures CaminhoArmazenamento(id, nome, momento, sufixo)
      == "anexos/" + (Decimal(id) + ['/'] + (Decimal(momento) + ['_'] + (sufixo + "." + Extensao(nome))))
  {
  }

  /** A storage path names its idea and its upload moment: paths can only
      clash for the same idea, the same millisecond and the same suffix. */
  lemma CaminhoDeterminaIdeiaEMomento(id1: nat, n1: string, m1: nat, s1: string,
                                      id2: nat, n2: string, m2: nat, s2: string)
    requires CaminhoArmazenamento(id1, n1, m1, s1) == CaminhoArmazenamento(id2, n2, m2, s2)
    ensures id1 == id2 && m1 == m2
  {
    var d1, d2 := Decimal(id1), Decimal(id2);
    var t1, t2 := Decimal(m1), Decimal(m2);
    var r1, r2 := s1 + "." + Extensao(n1), s2 + "." + Extensao(n2);
    var x, y := t1 + ['_'] + r1, t2 + ['_'] + r2;
    CaminhoEmPartes(id1, n1, m1, s1);
    CaminhoEmPartes(id2, n2, m2, s2);
    var c1, c2 := d1 + ['/'] + x, d2 + ['/'] + y;
    assert "anexos/" + c1 == "anexos/" + c2;
    assert c1 == ("anexos/" + c1)[7..];
    assert c2 == ("anexos/" + c2)[7..];
    SemSeparadorEmDecimal(id1, '/');
    SemSeparadorEmDecimal(id2, '/');
    AteSeparador(d1, d2, '/', x, y);
    assert x == c1[|d1| + 1..] && y == c2[|d2| + 1..];
    SemSeparadorEmDecimal(m1, '_');
    SemSeparadorEmDecimal(m2, '_');
    AteSeparador(t1, t2, '_', r1, r2);
    DecimalIda(id1);
    DecimalIda(id2);
    DecimalIda(m1);
    DecimalIda(m2);
  }

  /** A decimal rendering holds no character other than a digit. */
  lemma SemSeparadorEmDecimal(n: nat, c: char)
    requires !('0' <= c <= '9')
    ensures c !in Decimal(n)
  {
  }

  function ComIdDiferente(anexoId: nat): Anexo -> bool {
    (a: Anexo) => a.id != anexoId
  }

  /** The votes an idea has: what the counters view reports as `votos`. */
  function VotosDaIdeia(votos: set<Voto>, ideiaId: nat): set<Voto> {
    set v | v in votos && v.ideiaId == ideiaId
  }

  /** The vote set after one toggle of `v`. */
  function Alternado(votos: set<Voto>, v: Voto): (r: set<Voto>)
    ensures v in r <==> v !in votos
    ensures forall w | w in votos && w != v :: w in r
    ensures forall w | w in r && w != v :: w in votos
  {
    if v in votos then votos - {v} else votos + {v}
  }

  /** Two toggles of the same vote restore the vote set. */
  lemma AlternarDuasVezes(votos: set<Voto>, v: Voto)
    ensures Alternado(Alternado(votos, v), v) == votos
  {
  }

  /** A toggle moves the idea's vote count by exactly one, up when the vote
      is now there, and leaves every other idea's votes as they were. */
  lemma AlternarContagem(votos: set<Voto>, v: Voto)
    ensures |VotosDaIdeia(Alternado(votos, v), v.ideiaId)| ==
            |VotosDaIdeia(votos, v.ideiaId)| + (if v in votos then -1 else 1)
    ensures forall id | id != v.ideiaId :: VotosDaIdeia(Alternado(votos, v), id) == VotosDaIdeia(votos, id)
  {
    var antes := VotosDaIdeia(votos, v.ideiaId);
    var depois := VotosDaIdeia(Alternado(votos, v), v.ideiaId);
    if v in votos {
      assert depois == antes - {v};
    } else {
      assert depois == antes + {v};
    }
  }

  /** The backend's tables and storage bucket, as the services see them. */
  class Banco {
    /** Table `ideias`, by id. */
    var ideias: map<nat, Registro>
    /** The id the next inserted idea receives. */
    var proximoId: nat
    /** Table `tags`: a tag's id is its position. */
    var tags: seq<string>
    /** Table `ideia_tags`: (idea id, tag id). */
    var ideiaTags: seq<(nat, nat)>
    /** Table `votos`. */
    var votos: set<Voto>
    /** Table `avaliacoes`. */
    var avaliacoes: seq<Avaliacao>
    /** Table `definicao_produto`. */
    var definicoes: seq<LinhaDefinicao>
    /** The objects of the storage bucket, by path. */
    var objetos: set<string>
    /** Table `anexos`. */
    var anexos: seq<Anexo>
    /** The id the next inserted attachment receives. */
    var proximoAnexoId: nat

    /** What the database's keys and constraints keep true: serial ids, one
        tag per name, one definition per idea. */
    ghost predicate Valid()
      reads this
    {
      && (forall id | id in ideias :: id < proximoId)
      && SemRepeticao(tags)
      && UmaDefinicaoPorIdeia(definicoes)
      && (forall a | a in anexos :: a.id < proximoAnexoId)
    }

    constructor ()
      ensures Valid()
      ensures ideias == map[] && tags == [] && ideiaTags == [] && votos == {}
      ensures avaliacoes == [] && definicoes == [] && objetos == {} && anexos == []
    {
      ideias, proximoId := map[], 0;
      tags, ideiaTags := [], [];
      votos := {};
      avaliacoes, definicoes := [], [];
      objetos, anexos, proximoAnexoId := {}, [], 0;
    }

    /** `ideiasService.criar`: inserts the idea, then for each tag finds the
        tag with the lower-cased name or creates it, and links it to the idea.
        `aceitas[k]` is the outcome the insert of the `k`-th tag would have: a
        refused tag insert leaves no tag to take the id of, so `criar` throws
        there (reported as `FalhaBackend`), after the idea and the earlier
        links are written. */
    method Criar(ideia: NovaIdeia, autorId: UsuarioId, agora: int, aceitas: seq<bool>) returns (r: Result<nat, ErroBanco>)
      requires Valid()
      requires |aceitas| == |ideia.tags|
      modifies this`ideias, this`proximoId, this`tags, this`ideiaTags
      ensures Valid()
      ensures old(proximoId) !in old(ideias) && proximoId == old(proximoId) + 1
      ensures ideias == old(ideias)[old(proximoId) := RegistroNovo(ideia, autorId, agora)]
      ensures var nomes := NomesDeTags(ideia.tags);
        var n := Parada(old(tags), nomes, aceitas, 0);
        && (n == |nomes| ==> r == Ok(old(proximoId)))
        && (n < |nomes| ==> r == Err(FalhaBackend))
        && tags == TagsApos(old(tags), nomes[..n])
        && ideiaTags == old(ideiaTags) + ParesApos(old(tags), old(proximoId), nomes[..n])
    {
      var id := proximoId;
      ideias := ideias[id := RegistroNovo(ideia, autorId, agora)];
      proximoId := proximoId + 1;
      var ok := VincularTags(id, NomesDeTags(ideia.tags), aceitas);
      r := if ok then Ok(id) else Err(FalhaBackend);
    }

    /** The tag part of `criar`: for each name, the tag with that name, found
        or created, linked to the idea; the loop stops at the first tag whose
        insert is refused. */
    method VincularTags(id: nat, nomes: seq<string>, aceitas: seq<bool>) returns (ok: bool)
      requires SemRepeticao(tags)
      requires |aceitas| == |nomes|
      modifies this`tags, this`ideiaTags
      ensures SemRepeticao(tags)
      ensures var n := Parada(old(tags), nomes, aceitas, 0);
        && (ok <==> n == |nomes|)
        && tags == TagsApos(old(tags), nomes[..n])
        && ideiaTags == old(ideiaTags) + ParesApos(old(tags), id, nomes[..n])
    {
      ghost var t0, p0 := tags, ideiaTags;
      ghost var n := Parada(t0, nomes, aceitas, 0);
      var i := 0;
      ok := true;
      while i < |nomes|
        invariant 0 <= i <= n
        invariant SemRepeticao(tags)
        invariant tags == TagsApos(t0, nomes[..i])
        invariant ideiaTags == p0 + ParesApos(t0, id, nomes[..i])
      {
        ghost var t := tags;
        ParadaPasso(t0, nomes, aceitas, i);
        ok := VincularTag(id, nomes[i], aceitas[i]);
        if !ok {
          return;
        }
        ghost var pares, vinculo := ParesApos(t0, id, nomes[..i]), (id, IdDaTag(t, nomes[i]));
        PassoDoLaco(t0, id, nomes, i, t, tags, pares, pares + [vinculo]);
        AnexarAposConcat(p0, pares, vinculo);
        i := i + 1;
      }
      assert nomes[..i] == nomes;
    }

    /** One name of the tag loop: the tag with that name, found or created,
        then the link from the idea to it; a refused insert of a new tag
        (`aceita` false) stops before the link. */
    method VincularTag(id: nat, nome: string, aceita: bool) returns (ok: bool)
      requires SemRepeticao(tags)
      modifies this`tags, this`ideiaTags
      ensures SemRepeticao(tags)
      ensures ok <==> nome in old(tags) || aceita
      ensures ok ==> tags == (if nome in old(tags) then old(tags) else old(tags) + [nome])
      ensures ok ==> ideiaTags == old(ideiaTags) + [(id, IdDaTag(old(tags), nome))]
      ensures !ok ==> tags == old(tags) && ideiaTags == old(ideiaTags)
    {
      var tagId: nat;
      match BuscarTag(tags, nome) {
        case Some(k) =>
          tagId := k;
        case None =>
          if !aceita {
            return false;
          }
          tags := tags + [nome];
          tagId := |tags| - 1;
      }
      ideiaTags := ideiaTags + [(id, tagId)];
      ok := true;
    }

    /** `ideiasService.atualizarStatus`: writes the status, and the rejection
        rationale when a truthy justification is given; no row is an error. */
    method AtualizarStatus(id: nat, novoStatus: string, justificativa: Option<string>)
      returns (r: Result<Registro, ErroBanco>)
      modifies this`ideias
      ensures id !in old(ideias) ==> r == Err(NenhumaLinha) && ideias == old(ideias)
      ensures id in old(ideias) ==>
        && ideias == old(ideias)[id := ComStatus(old(ideias)[id], novoStatus, justificativa)]
        && r == Ok(ideias[id])
    {
      if id in ideias {
        ideias := ideias[id := ComStatus(ideias[id], novoStatus, justificativa)];
        r := Ok(ideias[id]);
      } else {
        r := Err(NenhumaLinha);
      }
    }

    /** `ideiasService.assumirOwnership`: writes the owner unconditionally. */
    method AssumirOwnership(ideiaId: nat, usuarioId: UsuarioId) returns (r: Result<Registro, ErroBanco>)
      modifies this`ideias
      ensures ideiaId !in old(ideias) ==> r == Err(NenhumaLinha) && ideias == old(ideias)
      ensures ideiaId in old(ideias) ==>
        && ideias == old(ideias)[ideiaId := old(ideias)[ideiaId].(ownerId := Some(usuarioId))]
        && r == Ok(ideias[ideiaId])
    {
      if ideiaId in ideias {
        ideias := ideias[ideiaId := ideias[ideiaId].(ownerId := Some(usuarioId))];
        r := Ok(ideias[ideiaId]);
      } else {
        r := Err(NenhumaLinha);
      }
    }

    /** `votosService.verificarVoto`: reads the (idea, user) row with
        `.single()`; "no row" means not voted, so it never fails here. */
    method VerificarVoto(ideiaId: nat, usuarioId: UsuarioId) returns (r: Result<bool, ErroBanco>)
      ensures r == Ok(Voto(ideiaId, usuarioId) in votos)
    {
      var v := Voto(ideiaId, usuarioId);
      var linhas := if v in votos then [v] else [];
      var lido := LerUnica(ConsultaUnica(linhas));
      match lido {
        case Ok(dado) => r := Ok(dado.Some?);
        case Err(e) => r := Err(e);
      }
    }

    /** `votosService.votar`: inserts the vote; the (idea, user) key refuses
        a second one. */
    method Votar(ideiaId: nat, usuarioId: UsuarioId) returns (r: Result<bool, ErroBanco>)
      modifies this`votos
      ensures Voto(ideiaId, usuarioId) in old(votos) ==> r == Err(ViolacaoUnicidade) && votos == old(votos)
      ensures Voto(ideiaId, usuarioId) !in old(votos) ==> r == Ok(true) && votos == old(votos) + {Voto(ideiaId, usuarioId)}
    {
      var v := Voto(ideiaId, usuarioId);
      if v in votos {
        r := Err(ViolacaoUnicidade);
      } else {
        votos := votos + {v};
        r := Ok(true);
      }
    }

    /** `votosService.removerVoto`: deletes the rows matching both the idea
        and the user, and no other. */
    method RemoverVoto(ideiaId: nat, usuarioId: UsuarioId) returns (r: Result<bool, ErroBanco>)
      modifies this`votos
      ensures votos == old(votos) - {Voto(ideiaId, usuarioId)}
      ensures r == Ok(true)
    {
      votos := votos - {Voto(ideiaId, usuarioId)};
      r := Ok(true);
    }

    /** `votosService.toggleVoto`: removes the vote if there is one and
        answers false, otherwise inserts it and answers true. */
    method ToggleVoto(ideiaId: nat, usuarioId: UsuarioId) returns (r: Result<bool, ErroBanco>)
      modifies this`votos
      ensures votos == Alternado(old(votos), Voto(ideiaId, usuarioId))
      ensures r == Ok(Voto(ideiaId, usuarioId) !in old(votos))
      ensures r.value <==> Voto(ideiaId, usuarioId) in votos
    {
      var jaVotou := VerificarVoto(ideiaId, usuarioId);
      if jaVotou.Err? {
        return jaVotou;
      }
      if jaVotou.value {
        var _ := RemoverVoto(ideiaId, usuarioId);
        r := Ok(false);
      } else {
        var _ := Votar(ideiaId, usuarioId);
        r := Ok(true);
      }
    }

    /** `avaliacoesService.criar`: inserts the evaluation; only when the
        insert is accepted does it write the idea's status as the decision,
        passing the justification only for an archiving decision. The
        backend's answer to the insert is `insercaoAceita`. */
    method CriarAvaliacao(av: Avaliacao, insercaoAceita: bool) returns (r: Result<Avaliacao, ErroBanco>)
      modifies this`avaliacoes, this`ideias
      ensures !insercaoAceita ==> r == Err(FalhaBackend) && avaliacoes == old(avaliacoes) && ideias == old(ideias)
      ensures insercaoAceita ==> avaliacoes == old(avaliacoes) + [av]
      ensures insercaoAceita && av.ideiaId in old(ideias) ==>
        && ideias == old(ideias)[av.ideiaId := ComStatus(old(ideias)[av.ideiaId], av.decisao, JustificativaRepassada(av))]
        && r == Ok(av)
      ensures insercaoAceita && av.ideiaId !in old(ideias) ==> r == Err(NenhumaLinha) && ideias == old(ideias)
    {
      if !insercaoAceita {
        return Err(FalhaBackend);
      }
      avaliacoes := avaliacoes + [av];
      var atualizado := AtualizarStatus(av.ideiaId, av.decisao, JustificativaRepassada(av));
      if atualizado.Err? {
        return Err(atualizado.erro);
      }
      r := Ok(av);
    }

    /** `definicaoService.buscar`: the idea's definition row, read with
        `.single()`; "no row" is no definition. */
    method BuscarDefinicao(ideiaId: nat) returns (r: Result<Option<Definicao>, ErroBanco>)
      requires Valid()
      ensures r == Ok(DefinicaoDe(definicoes, ideiaId))
    {
      LinhasDaIdeia(definicoes, ideiaId);
      var lido := LerUnica(ConsultaUnica(Filtrar(definicoes, DaIdeia(ideiaId))));
      match lido {
        case Ok(Some(linha)) => r := Ok(Some(linha.definicao));
        case Ok(None) => r := Ok(None);
        case Err(e) => r := Err(e);
      }
    }

    /** `definicaoService.salvar`: updates the idea's definition when there
        is one, otherwise inserts one carrying the idea's id; an idea never
        gets a second definition. */
    method SalvarDefinicao(ideiaId: nat, definicao: Definicao) returns (r: Result<Definicao, ErroBanco>)
      requires Valid()
      modifies this`definicoes
      ensures Valid()
      ensures r == Ok(definicao)
      ensures DefinicaoDe(definicoes, ideiaId) == Some(definicao)
      ensures forall j | j != ideiaId :: DefinicaoDe(definicoes, j) == DefinicaoDe(old(definicoes), j)
      ensures |definicoes| == |old(definicoes)| + (if DefinicaoDe(old(definicoes), ideiaId).Some? then 0 else 1)
    {
      var existente := BuscarDefinicao(ideiaId);
      ghost var antes := definicoes;
      if existente.value.Some? {
        var k := PosicaoDefinicao(definicoes, ideiaId).value;
        definicoes := definicoes[k := LinhaDefinicao(ideiaId, definicao)];
        PosicaoAposTroca(antes, k, LinhaDefinicao(ideiaId, definicao));
      } else {
        definicoes := definicoes + [LinhaDefinicao(ideiaId, definicao)];
        PosicaoAposAnexar(antes, LinhaDefinicao(ideiaId, definicao));
      }
      r := Ok(definicao);
    }

    /** `anexosService.upload`: stores the file under a fresh path in the
        idea's folder, then records its metadata. A path already in storage
        is refused, and so is any upload the storage refuses (`envioAceito`
        false); either way nothing is written. A refused metadata insert
        (`metadadosAceitos` false) leaves the stored object without a row. */
    method UploadAnexo(ideiaId: nat, arquivo: Arquivo, usuarioId: UsuarioId, momento: nat, sufixo: string,
                       envioAceito: bool, metadadosAceitos: bool) returns (r: Result<Anexo, ErroBanco>)
      requires Valid()
      modifies this`objetos, this`anexos, this`proximoAnexoId
      ensures Valid()
      ensures var path := CaminhoArmazenamento(ideiaId, arquivo.nome, momento, sufixo);
        && (path in old(objetos) ==>
              r == Err(ObjetoJaExiste) && objetos == old(objetos) && anexos == old(anexos))
        && (path !in old(objetos) && !envioAceito ==>
              r == Err(FalhaBackend) && objetos == old(objetos) && anexos == old(anexos))
        && (path !in old(objetos) && envioAceito ==> objetos == old(objetos) + {path})
        && (path !in old(objetos) && envioAceito && !metadadosAceitos ==> r == Err(FalhaBackend) && anexos == old(anexos))
        && (path !in old(objetos) && envioAceito && metadadosAceitos ==>
              && r == Ok(Anexo(old(proximoAnexoId), ideiaId, arquivo.nome, path, arquivo.tipo, arquivo.tamanho, usuarioId))
              && anexos == old(anexos) + [r.value])
      ensures proximoAnexoId == old(proximoAnexoId) + (if r.Ok? then 1 else 0)
    {
      var path := CaminhoArmazenamento(ideiaId, arquivo.nome, momento, sufixo);
      if path in objetos {
        return Err(ObjetoJaExiste);
      }
      if !envioAceito {
        return Err(FalhaBackend);
      }
      objetos := objetos + {path};
      if !metadadosAceitos {
        return Err(FalhaBackend);
      }
      var anexo := Anexo(proximoAnexoId, ideiaId, arquivo.nome, path, arquivo.tipo, arquivo.tamanho, usuarioId);
      anexos := anexos + [anexo];
      proximoAnexoId := proximoAnexoId + 1;
      r := Ok(anexo);
    }

    /** `anexosService.deletar`: removes the stored object first, then the
        row. A refused storage removal deletes nothing; a refused row delete
        leaves the row pointing at a removed object. */
    method DeletarAnexo(anexoId: nat, storagePath: string, armazenamentoAceita: bool, bancoAceita: bool)
      returns (r: Result<bool, ErroBanco>)
      requires Valid()
      modifies this`objetos, this`anexos
      ensures Valid()
      ensures !armazenamentoAceita ==> r == Err(FalhaBackend) && objetos == old(objetos) && anexos == old(anexos)
      ensures armazenamentoAceita ==> objetos == old(objetos) - {storagePath}
      ensures armazenamentoAceita && !bancoAceita ==> r == Err(FalhaBackend) && anexos == old(anexos)
      ensures armazenamentoAceita && bancoAceita ==>
        r == Ok(true) && anexos == Filtrar(old(anexos), ComIdDiferente(anexoId))
    {
      if !armazenamentoAceita {
        return Err(FalhaBackend);
      }
      objetos := objetos - {storagePath};
      if !bancoAceita {
        return Err(FalhaBackend);
      }
      anexos := Filtrar(anexos, ComIdDiferente(anexoId));
      r := Ok(true);
    }
  }

  lemma {:induction false} PosicaoAposTroca(ds: seq<LinhaDefinicao>, k: nat, l: LinhaDefinicao)
    requires UmaDefinicaoPorIdeia(ds)
    requires k < |ds| && ds[k].ideiaId == l.ideiaId
    ensures UmaDefinicaoPorIdeia(ds[k := l])
    ensures DefinicaoDe(ds[k := l], l.ideiaId) == Some(l.definicao)
    ensures forall j | j != l.ideiaId :: DefinicaoDe(ds[k := l], j) == DefinicaoDe(ds, j)
  {
    var novo := ds[k := l];
    forall j ensures PosicaoDefinicao(novo, j) == PosicaoDefinicao(ds, j) {
      PosicaoUnica(ds, j);
      PosicaoUnica(novo, j);
    }
  }

  lemma {:induction false} PosicaoAposAnexar(ds: seq<LinhaDefinicao>, l: LinhaDefinicao)
    requires UmaDefinicaoPorIdeia(ds)
    requires PosicaoDefinicao(ds, l.ideiaId).None?
    ensures UmaDefinicaoPorIdeia(ds + [l])
    ensures DefinicaoDe(ds + [l], l.ideiaId) == Some(l.definicao)
    ensures forall j | j != l.ideiaId :: DefinicaoDe(ds + [l], j) == DefinicaoDe(ds, j)
  {
    assert (ds + [l])[..|ds|] == ds;
  }

  /** With one row per idea, the position found is the only one. */
  lemma {:induction false} PosicaoUnica(ds: seq<LinhaDefinicao>, j: nat)
    ensures UmaDefinicaoPorIdeia(ds) ==>
      forall k | 0 <= k < |ds| && ds[k].ideiaId == j :: PosicaoDefinicao(ds, j) == Some(k)
  {
    if ds != [] && UmaDefinicaoPorIdeia(ds) {
      var ini := ds[..|ds| - 1];
      assert UmaDefinicaoPorIdeia(ini);
      PosicaoUnica(ini, j);
      forall k | 0 <= k < |ds| && ds[k].ideiaId == j ensures PosicaoDefinicao(ds, j) == Some(k) {
        if k < |ds| - 1 {
          assert ini[k] == ds[k];
        }
      }
    }
  }

  /** The key of the row count in the object `contarPorStatus` returns. */
  const TOTAL: string := "total"

  /** The keys of that object: `total` and the five statuses. */
  function ChavesContagem(): set<string> {
    {TOTAL, GERACAO, EM_DEFINICAO, PRONTA, APROVADA, ARQUIVADA}
  }

  /** `ideiasService.contarPorStatus` as written: the rows' statuses are
      counted into the object, bumping any key the status names, so a row
      whose status is the text "total" inflates the total. */
  method ContarPorStatusComoEscrito(linhas: seq<string>) returns (contagem: map<string, int>)
    ensures contagem.Keys == ChavesContagem()
    ensures contagem[TOTAL] == |linhas| + multiset(linhas)[TOTAL]
    ensures forall st | st in STATUS :: contagem[st] == multiset(linhas)[st]
  {
    contagem := map[TOTAL := |linhas|, GERACAO := 0, EM_DEFINICAO := 0, PRONTA := 0, APROVADA := 0, ARQUIVADA := 0];
    Modelo.StatusDistintos();
    assert TOTAL !in STATUS by { assert forall st | st in STATUS :: st[0] != 't'; }
    var i := 0;
    while i < |linhas|
      invariant 0 <= i <= |linhas|
      invariant contagem.Keys == ChavesContagem()
      invariant contagem[TOTAL] == |linhas| + multiset(linhas[..i])[TOTAL]
      invariant forall st | st in STATUS :: contagem[st] == multiset(linhas[..i])[st]
    {
      assert linhas[..i + 1] == linhas[..i] + [linhas[i]];
      if linhas[i] in contagem {
        contagem := contagem[linhas[i] := contagem[linhas[i]] + 1];
      }
      i := i + 1;
    }
    assert linhas[..i] == linhas;
  }

  /** What the as-written count reports once some row's status is the text
      "total": a total above the number of rows, 2 for a table of one such
      row. */
  lemma TotalInfladoPorStatusTotal(linhas: seq<string>, contagem: map<string, int>)
    requires TOTAL in linhas
    requires contagem.Keys == ChavesContagem() && contagem[TOTAL] == |linhas| + multiset(linhas)[TOTAL]
    ensures contagem[TOTAL] > |linhas|
    ensures linhas == [TOTAL] ==> contagem[TOTAL] == 2
  {
  }

  /** `contarPorStatus` as intended: `total` is the number of rows and each
      of the five statuses counts its rows; rows with any other status are
      left out of the five. */
  method ContarPorStatus(linhas: seq<string>) returns (contagem: map<string, int>)
    ensures contagem.Keys == ChavesContagem()
    ensures contagem[TOTAL] == |linhas|
    ensures forall st | st in STATUS :: contagem[st] == multiset(linhas)[st]
  {
    contagem := map[TOTAL := |linhas|, GERACAO := 0, EM_DEFINICAO := 0, PRONTA := 0, APROVADA := 0, ARQUIVADA := 0];
    Modelo.StatusDistintos();
    assert TOTAL !in STATUS by { assert forall st | st in STATUS :: st[0] != 't'; }
    var i := 0;
    while i < |linhas|
      invariant 0 <= i <= |linhas|
      invariant contagem.Keys == ChavesContagem()
      invariant contagem[TOTAL] == |linhas|
      invariant forall st | st in STATUS :: contagem[st] == multiset(linhas[..i])[st]
    {
      assert linhas[..i + 1] == linhas[..i] + [linhas[i]];
      if linhas[i] in STATUS {
        contagem := contagem[linhas[i] := contagem[linhas[i]] + 1];
      }
      i := i + 1;
    }
    assert linhas[..i] == linhas;
  }

  /** The five counts of `contarPorStatus` add up to at most the total, with
      equality exactly when every row has one of the five statuses. */
  lemma {:induction false} SomaDosStatus(linhas: seq<string>)
    ensures multiset(linhas)[GERACAO] + multiset(linhas)[EM_DEFINICAO] + multiset(linhas)[PRONTA]
            + multiset(linhas)[APROVADA] + multiset(linhas)[ARQUIVADA] <= |linhas|
    ensures (multiset(linhas)[GERACAO] + multiset(linhas)[EM_DEFINICAO] + multiset(linhas)[PRONTA]
            + multiset(linhas)[APROVADA] + multiset(linhas)[ARQUIVADA] == |linhas|)
            <==> forall k | 0 <= k < |linhas| :: linhas[k] in STATUS
  {
    Modelo.StatusDistintos();
    if linhas != [] {
      var ini := linhas[..|linhas| - 1];
      assert linhas == ini + [linhas[|linhas| - 1]];
      SomaDosStatus(ini);
      if forall k | 0 <= k < |ini| :: ini[k] in STATUS {
        if linhas[|linhas| - 1] in STATUS {
          forall k | 0 <= k < |linhas| ensures linhas[k] in STATUS {
            if k < |ini| { assert ini[k] == linhas[k]; }
          }
        }
      } else {
        var k :| 0 <= k < |ini| && ini[k] !in STATUS;
        assert linhas[k] !in STATUS;
      }
    }
  }
}
