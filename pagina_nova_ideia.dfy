/** The new-idea form: the comma-separated tag field becomes a list of tags,
    and the form's fields become the idea handed to the service. */
module PaginaNovaIdeia {
  import opened Modelo
  import opened Texto
  import opened Servico

  /** `pedacos.map(tag => tag.trim())`. */
  function Aparadas(pedacos: seq<string>): (r: seq<string>)
    ensures |r| == |pedacos|
    ensures forall k | 0 <= k < |pedacos| :: r[k] == Trim(pedacos[k])
  {
    if pedacos == [] then [] else [Trim(pedacos[0])] + Aparadas(pedacos[1..])
  }

  lemma AparadasConcat(a: seq<string>, b: seq<string>)
    ensures Aparadas(a + b) == Aparadas(a) + Aparadas(b)
  {
  }

  /** The test `tag => tag !== ''`. */
  function NaoVazia(): string -> bool {
    (t: string) => t != ""
  }

  /** How many of the pieces are not blank. */
  function NaoBrancos(pedacos: seq<string>): nat {
    if pedacos == [] then 0
    else NaoBrancos(pedacos[..|pedacos| - 1]) + (if Branco(pedacos[|pedacos| - 1]) then 0 else 1)
  }

  /** Dropping the empty trimmed pieces keeps one per non-blank piece. */
  lemma {:induction false} ContaAparadas(pedacos: seq<string>)
    ensures |Filtrar(Aparadas(pedacos), NaoVazia())| == NaoBrancos(pedacos)
  {
    if pedacos != [] {
      var ini, u := pedacos[..|pedacos| - 1], pedacos[|pedacos| - 1];
      assert pedacos == ini + [u];
      ContaAparadas(ini);
      AparadasConcat(ini, [u]);
      assert Aparadas(pedacos) == Aparadas(ini) + [Trim(u)];
      FiltrarAnexar(Aparadas(ini), Trim(u), NaoVazia());
      assert NaoVazia()(Trim(u)) <==> !Branco(u);
    }
  }

  /** The tag field as the form reads it: split on commas, each piece
      trimmed, empty pieces dropped. The tags are the non-blank pieces,
      trimmed, in the order they were typed, one tag per non-blank piece;
      none is empty, none holds a comma or starts or ends with whitespace,
      and there are no more tags than pieces. */
  function ParseTags(entrada: string): (r: seq<string>)
    ensures forall t | t in r :: t != "" && ',' !in t && Trim(t) == t
    ensures Subsequencia(r, Aparadas(Dividir(entrada, ',')))
    ensures forall k | 0 <= k < |Dividir(entrada, ',')| && !Branco(Dividir(entrada, ',')[k]) ::
      Trim(Dividir(entrada, ',')[k]) in r
    ensures |r| == NaoBrancos(Dividir(entrada, ','))
    ensures |r| <= Ocorrencias(entrada, ',') + 1
  {
    var pedacos := Dividir(entrada, ',');
    var aparadas := Aparadas(pedacos);
    DividirSemSeparadorNasPartes(entrada, ',');
    forall k | 0 <= k < |pedacos| ensures ',' !in aparadas[k] && Trim(aparadas[k]) == aparadas[k] {
      TrimSemCaractere(pedacos[k], ',');
      TrimIdempotente(pedacos[k]);
    }
    FiltrarSubsequencia(aparadas, NaoVazia());
    ContaAparadas(pedacos);
    Filtrar(aparadas, NaoVazia())
  }

  /** Tags are read piece by piece: a comma between two texts splits their
      tags. */
  lemma {:induction false} ParseTagsConcat(x: string, y: string)
    ensures ParseTags(x + [','] + y) == ParseTags(x) + ParseTags(y)
  {
    DividirConcat(x, y, ',');
    AparadasConcat(Dividir(x, ','), Dividir(y, ','));
    FiltrarConcat(Aparadas(Dividir(x, ',')), Aparadas(Dividir(y, ',')), NaoVazia());
  }

  /** A list of trimmed, non-empty tags without commas, written out joined
      with commas, reads back as the same list. */
  lemma {:induction false} ParseTagsJuntar(tags: seq<string>)
    requires |tags| >= 1
    requires forall t | t in tags :: t != "" && ',' !in t && Trim(t) == t
    ensures ParseTags(Juntar(tags, ',')) == tags
  {
    DividirJuntar(tags, ',');
    assert Aparadas(tags) == tags;
    FiltrarTodos(tags, NaoVazia());
  }

  /** A field of commas and whitespace only (the empty field included) gives
      no tags. */
  lemma {:induction false} ParseTagsVazias(entrada: string)
    requires forall c | c in entrada :: c == ',' || EhEspaco(c)
    ensures ParseTags(entrada) == []
  {
    var pedacos := Dividir(entrada, ',');
    DividirCaracteres(entrada, ',');
    DividirSemSeparadorNasPartes(entrada, ',');
    forall k | 0 <= k < |pedacos| ensures Trim(pedacos[k]) == "" {
      forall m | 0 <= m < |pedacos[k]| ensures EhEspaco(pedacos[k][m]) {
        assert pedacos[k][m] in pedacos[k];
      }
    }
    FiltrarNenhum(Aparadas(pedacos), NaoVazia());
  }

  /** The object `handleSubmit` builds from the form's fields. */
  function Formulario(titulo: string, fonte: string, descricao: string, segmento: string,
                      tagsInput: string, impacto: string): (n: NovaIdeia)
    ensures n.tags == ParseTags(tagsInput)
    ensures (n.titulo, n.fonte, n.descricao, n.segmento, n.impacto) == (titulo, fonte, descricao, segmento, impacto)
  {
    NovaIdeia(titulo, fonte, descricao, segmento, ParseTags(tagsInput), impacto)
  }

  /** `handleSubmit`: the idea built from the form is created by the
      service, as a new idea in generation with the tags of the field.
      `aceitas` are the outcomes of the tag inserts; a refused one makes
      `criar` fail after the idea is written, and the page shows the error. */
  method HandleSubmit(banco: Banco, titulo: string, fonte: string, descricao: string, segmento: string,
                      tagsInput: string, impacto: string, autor: UsuarioId, agora: int, aceitas: seq<bool>)
    returns (r: Result<nat, ErroBanco>)
    requires banco.Valid()
    requires |aceitas| == |ParseTags(tagsInput)|
    modifies banco`ideias, banco`proximoId, banco`tags, banco`ideiaTags
    ensures banco.Valid()
    ensures var id := old(banco.proximoId);
      && id !in old(banco.ideias)
      && banco.ideias == old(banco.ideias)[id := RegistroNovo(Formulario(titulo, fonte, descricao, segmento, tagsInput, impacto), autor, agora)]
      && banco.ideias[id].status == GERACAO && banco.ideias[id].ownerId == None
    ensures var nomes := NomesDeTags(ParseTags(tagsInput));
      var n := Parada(old(banco.tags), nomes, aceitas, 0);
      && (r.Ok? <==> n == |nomes|)
      && (r.Ok? ==> r.value == old(banco.proximoId))
      && banco.tags == TagsApos(old(banco.tags), nomes[..n])
      && banco.ideiaTags == old(banco.ideiaTags) + ParesApos(old(banco.tags), old(banco.proximoId), nomes[..n])
  {
    r := banco.Criar(Formulario(titulo, fonte, descricao, segmento, tagsInput, impacto), autor, agora, aceitas);
  }
}
