/** The idea list page: the tag choices, the search/status/tag filters, the
    four sort orders and the filter bar's reset. */
module PaginaIdeias {
  import opened Modelo
  import opened Texto
  import opened Servico

  // ------------------------------------------------------------- tag choices

  /** The elements of a list of texts. */
  function Conjunto(s: seq<string>): set<string> {
    set t | t in s
  }

  lemma ConjuntoAnexar(s: seq<string>, x: string)
    ensures Conjunto(s + [x]) == Conjunto(s) + {x}
  {
  }

  /** The tags of the ideas of a list, gathered from the first to the last. */
  function TagsDe(ideias: seq<Ideia>): set<string> {
    if ideias == [] then {}
    else TagsDe(ideias[..|ideias| - 1]) + Conjunto(ideias[|ideias| - 1].tags)
  }

  /** The gathered tags are exactly the tags some idea of the list carries. */
  lemma {:induction false} TagsDeConteudo(ideias: seq<Ideia>)
    ensures forall i, k | 0 <= i < |ideias| && 0 <= k < |ideias[i].tags| :: ideias[i].tags[k] in TagsDe(ideias)
    ensures forall t | t in TagsDe(ideias) :: exists i | 0 <= i < |ideias| :: t in ideias[i].tags
  {
    if ideias != [] {
      var ini := ideias[..|ideias| - 1];
      TagsDeConteudo(ini);
      assert forall i | 0 <= i < |ini| :: ini[i] == ideias[i];
    }
  }

  /** `a` before `b` or equal, in `Array.prototype.sort`'s default order. */
  predicate OrdenadaLex(s: seq<string>) {
    forall i, j | 0 <= i < j < |s| :: LexMenorIgual(s[i], s[j])
  }

  /** Inserts into a list of texts before the first one not below it. */
  function InserirTexto(x: string, s: seq<string>): (r: seq<string>)
    ensures multiset(r) == multiset(s) + multiset{x}
    ensures r[0] == x || (s != [] && r[0] == s[0])
  {
    if s == [] then [x]
    else if LexMenorIgual(x, s[0]) then [x] + s
    else
      assert s == [s[0]] + s[1..];
      [s[0]] + InserirTexto(x, s[1..])
  }

  /** A text not above the head of a sorted list can go before it. */
  lemma ColocarNoInicio(h: string, s: seq<string>)
    requires OrdenadaLex(s)
    requires s != [] ==> LexMenorIgual(h, s[0])
    ensures OrdenadaLex([h] + s)
  {
    forall j | 0 <= j < |s| ensures LexMenorIgual(h, s[j]) {
      if j > 0 { LexTransitivo(h, s[0], s[j]); }
    }
    var r := [h] + s;
    forall i, j | 0 <= i < j < |r| ensures LexMenorIgual(r[i], r[j]) {
      if i > 0 { assert r[i] == s[i - 1] && r[j] == s[j - 1]; }
    }
  }

  /** Inserting into a sorted list keeps it sorted. */
  lemma {:induction false} InserirTextoOrdenada(x: string, s: seq<string>)
    requires OrdenadaLex(s)
    ensures OrdenadaLex(InserirTexto(x, s))
  {
    if s == [] {
    } else if LexMenorIgual(x, s[0]) {
      ColocarNoInicio(x, s);
    } else {
      LexTotal(x, s[0]);
      var cauda := s[1..];
      assert OrdenadaLex(cauda) by {
        forall i, j | 0 <= i < j < |cauda| ensures LexMenorIgual(cauda[i], cauda[j]) {
          assert cauda[i] == s[i + 1] && cauda[j] == s[j + 1];
        }
      }
      InserirTextoOrdenada(x, cauda);
      var resto := InserirTexto(x, cauda);
      assert resto[0] == x || resto[0] == s[1];
      ColocarNoInicio(s[0], resto);
    }
  }

  /** The default `sort()` of a list of texts. */
  function OrdenarTextos(s: seq<string>): (r: seq<string>)
    ensures OrdenadaLex(r)
    ensures multiset(r) == multiset(s)
  {
    if s == [] then []
    else
      assert s == s[..|s| - 1] + [s[|s| - 1]];
      InserirTextoOrdenada(s[|s| - 1], OrdenarTextos(s[..|s| - 1]));
      InserirTexto(s[|s| - 1], OrdenarTextos(s[..|s| - 1]))
  }

  /** A list without repetitions has each element once. */
  lemma {:induction false} MultiplicidadeUm(s: seq<string>, x: string)
    requires SemRepeticao(s)
    ensures multiset(s)[x] <= 1
  {
    if s != [] {
      var ini := s[..|s| - 1];
      assert s == ini + [s[|s| - 1]];
      assert SemRepeticao(ini);
      MultiplicidadeUm(ini, x);
      if s[|s| - 1] == x {
        assert x !in ini;
      }
    }
  }

  /** The same elements, each once, in any order: no repetitions either. */
  lemma {:induction false} SemRepeticaoPorMultiset(s: seq<string>, r: seq<string>)
    requires SemRepeticao(s) && multiset(r) == multiset(s)
    ensures SemRepeticao(r)
  {
    forall i, j | 0 <= i < j < |r| ensures r[i] != r[j] {
      if r[i] == r[j] {
        var x := r[i];
        assert r == r[..j] + [r[j]] + r[j + 1..];
        assert x in r[..j];
        assert multiset(r)[x] >= 2;
        MultiplicidadeUm(s, x);
      }
    }
  }

  /** `todasTags`: each tag of each idea is collected once into a set, and
      the set's elements are sorted. The result has every tag of the list,
      nothing else, each exactly once, in sorted order. */
  method TodasTags(ideias: seq<Ideia>) returns (r: seq<string>)
    ensures OrdenadaLex(r) && SemRepeticao(r)
    ensures forall t | t in r :: t in TagsDe(ideias)
    ensures forall t | t in TagsDe(ideias) :: t in r
  {
    var vistas: seq<string> := [];
    var i := 0;
    while i < |ideias|
      invariant 0 <= i <= |ideias|
      invariant SemRepeticao(vistas)
      invariant Conjunto(vistas) == TagsDe(ideias[..i])
    {
      vistas := AcrescentarTags(vistas, ideias[i].tags);
      assert ideias[..i + 1][..i] == ideias[..i];
      i := i + 1;
    }
    assert ideias[..i] == ideias;
    r := OrdenarTextos(vistas);
    SemRepeticaoPorMultiset(vistas, r);
    assert forall t | t in r :: t in multiset(vistas);
    assert forall t | t in vistas :: t in multiset(r);
  }

  /** The inner loop of `todasTags`: adds each tag of one idea to the tags
      seen so far, unless it is already there. */
  method AcrescentarTags(vistas: seq<string>, tags: seq<string>) returns (v: seq<string>)
    requires SemRepeticao(vistas)
    ensures SemRepeticao(v)
    ensures Conjunto(v) == Conjunto(vistas) + Conjunto(tags)
    ensures |vistas| <= |v| && v[..|vistas|] == vistas
  {
    v := vistas;
    var k := 0;
    while k < |tags|
      invariant 0 <= k <= |tags|
      invariant SemRepeticao(v)
      invariant Conjunto(v) == Conjunto(vistas) + Conjunto(tags[..k])
      invariant |vistas| <= |v| && v[..|vistas|] == vistas
    {
      assert tags[..k + 1] == tags[..k] + [tags[k]];
      ConjuntoAnexar(tags[..k], tags[k]);
      if tags[k] !in v {
        ConjuntoAnexar(v, tags[k]);
        v := v + [tags[k]];
      }
      k := k + 1;
    }
    assert tags[..k] == tags;
  }

  // ----------------------------------------------------------- the filters

  /** The text search: the lower-cased term occurs in the lower-cased title,
      description, source or segment; a missing source or segment never
      matches. */
  predicate CasaBusca(termo: string, i: Ideia) {
    || Contem(Minusculas(i.titulo), termo)
    || Contem(Minusculas(i.descricao), termo)
    || (i.fonte.Some? && Contem(Minusculas(i.fonte.value), termo))
    || (i.segmento.Some? && Contem(Minusculas(i.segmento.value), termo))
  }

  function Buscando(termo: string): Ideia -> bool {
    (i: Ideia) => CasaBusca(termo, i)
  }

  function TemTag(tag: string): Ideia -> bool {
    (i: Ideia) => tag in i.tags
  }

  /** Whether an idea shows under the filters: the search only applies when
      it is not blank after trimming, and then with the untrimmed text,
      lower-cased; an empty status or tag choice means "any". */
  predicate Passa(busca: string, statusFiltro: string, tagFiltro: string, i: Ideia) {
    && (Trim(busca) == "" || CasaBusca(Minusculas(busca), i))
    && (statusFiltro == "" || i.status == statusFiltro)
    && (tagFiltro == "" || tagFiltro in i.tags)
  }

  function Passando(busca: string, statusFiltro: string, tagFiltro: string): Ideia -> bool {
    (i: Ideia) => Passa(busca, statusFiltro, tagFiltro, i)
  }

  /** With no search, no status and no tag chosen, every idea shows. */
  lemma SemFiltrosPassaTudo(ideias: seq<Ideia>)
    ensures Filtrar(ideias, Passando("", "", "")) == ideias
  {
    assert Trim("") == "";
    FiltrarTodos(ideias, Passando("", "", ""));
  }

  // ------------------------------------------------------------- the sorts

  const RECENTES: string := "recentes"
  const ANTIGAS: string := "antigas"
  const VOTOS: string := "votos"
  const COMENTARIOS: string := "comentarios"

  /** `x || 0` on a count the view may leave out. */
  function OuZero(n: Option<int>): int {
    if n.Some? then n.value else 0
  }

  /** The sort key of each order, ascending: newest first, oldest first, most
      voted first, most commented first. */
  function Chave(ordenacao: string): Ideia -> int {
    if ordenacao == RECENTES then (i: Ideia) => -i.createdAt
    else if ordenacao == ANTIGAS then (i: Ideia) => i.createdAt
    else if ordenacao == VOTOS then (i: Ideia) => -OuZero(i.votos)
    else (i: Ideia) => -OuZero(i.comentarios)
  }

  predicate OrdenadaPor(s: seq<Ideia>, chave: Ideia -> int) {
    forall i, j | 0 <= i < j < |s| :: chave(s[i]) <= chave(s[j])
  }

  /** A sorted list stays sorted with an element appended whose key is not
      below its last key. */
  lemma ColocarNoFim(s: seq<Ideia>, x: Ideia, chave: Ideia -> int)
    requires OrdenadaPor(s, chave)
    requires s != [] ==> chave(s[|s| - 1]) <= chave(x)
    ensures OrdenadaPor(s + [x], chave)
  {
    var r := s + [x];
    forall i, j | 0 <= i < j < |r| ensures chave(r[i]) <= chave(r[j]) {
      assert r[i] == s[i];
      if j < |s| {
        assert r[j] == s[j];
      } else if i < |s| - 1 {
        assert chave(s[i]) <= chave(s[|s| - 1]);
      }
    }
  }

  lemma OrdenadaPrefixo(s: seq<Ideia>, chave: Ideia -> int)
    requires s != [] && OrdenadaPor(s, chave)
    ensures OrdenadaPor(s[..|s| - 1], chave)
    ensures |s| >= 2 ==> chave(s[|s| - 2]) <= chave(s[|s| - 1])
  {
  }

  /** Inserts after every element whose key is not above its own, so that
      equal keys keep their order. */
  function InserirPor(x: Ideia, s: seq<Ideia>, chave: Ideia -> int): (r: seq<Ideia>)
    ensures |r| == |s| + 1
    ensures multiset(r) == multiset(s) + multiset{x}
  {
    if s == [] then [x]
    else if chave(s[|s| - 1]) <= chave(x) then s + [x]
    else
      var ini := s[..|s| - 1];
      assert s == ini + [s[|s| - 1]];
      InserirPor(x, ini, chave) + [s[|s| - 1]]
  }

  /** Inserting into a sorted list keeps it sorted; the last element is the
      one inserted or the list's last. */
  lemma {:induction false} InserirPorOrdenada(x: Ideia, s: seq<Ideia>, chave: Ideia -> int)
    requires OrdenadaPor(s, chave)
    ensures OrdenadaPor(InserirPor(x, s, chave), chave)
    ensures var r := InserirPor(x, s, chave); r[|r| - 1] == x || (s != [] && r[|r| - 1] == s[|s| - 1])
  {
    if s != [] {
      var u := s[|s| - 1];
      if chave(u) <= chave(x) {
        assert InserirPor(x, s, chave) == s + [x];
        ColocarNoFim(s, x, chave);
      } else {
        var ini := s[..|s| - 1];
        var r0 := InserirPor(x, ini, chave);
        assert InserirPor(x, s, chave) == r0 + [u];
        OrdenadaPrefixo(s, chave);
        InserirPorOrdenada(x, ini, chave);
        assert chave(r0[|r0| - 1]) <= chave(u) by {
          if ini != [] { assert chave(ini[|ini| - 1]) <= chave(u); }
        }
        ColocarNoFim(r0, u, chave);
      }
    }
  }

  /** `sort` with a comparator by key (a stable sort). */
  function OrdenarPor(s: seq<Ideia>, chave: Ideia -> int): (r: seq<Ideia>)
    ensures OrdenadaPor(r, chave)
    ensures multiset(r) == multiset(s)
  {
    if s == [] then []
    else
      assert s == s[..|s| - 1] + [s[|s| - 1]];
      InserirPorOrdenada(s[|s| - 1], OrdenarPor(s[..|s| - 1], chave), chave);
      InserirPor(s[|s| - 1], OrdenarPor(s[..|s| - 1], chave), chave)
  }

  /** The test "has key `v`". */
  function MesmaChave(chave: Ideia -> int, v: int): Ideia -> bool {
    (i: Ideia) => chave(i) == v
  }

  /** Insertion puts the element after every element with the same key, and
      moves no element past another: it only passes elements of larger key. */
  lemma {:induction false} InserirPorEstavel(x: Ideia, s: seq<Ideia>, chave: Ideia -> int, v: int)
    ensures Filtrar(InserirPor(x, s, chave), MesmaChave(chave, v))
      == Filtrar(s, MesmaChave(chave, v)) + (if chave(x) == v then [x] else [])
  {
    var p := MesmaChave(chave, v);
    assert p(x) <==> chave(x) == v;
    if s == [] {
      FiltrarAnexar([], x, p);
      assert [] + [x] == [x];
    } else {
      var u := s[|s| - 1];
      var ini := s[..|s| - 1];
      assert s == ini + [u];
      if chave(u) <= chave(x) {
        assert InserirPor(x, s, chave) == s + [x];
        FiltrarAnexar(s, x, p);
      } else {
        var r0 := InserirPor(x, ini, chave);
        assert InserirPor(x, s, chave) == r0 + [u];
        InserirPorEstavel(x, ini, chave, v);
        EstavelAtras(x, r0, ini, u, p, chave(x) == v);
      }
    }
  }

  /** The step of the insertion when the element goes before the last one,
      which does not pass together with it. */
  lemma EstavelAtras(x: Ideia, r0: seq<Ideia>, ini: seq<Ideia>, u: Ideia, p: Ideia -> bool, passa: bool)
    requires passa ==> !p(u)
    requires Filtrar(r0, p) == Filtrar(ini, p) + (if passa then [x] else [])
    ensures Filtrar(r0 + [u], p) == Filtrar(ini + [u], p) + (if passa then [x] else [])
  {
    var ux: seq<Ideia> := if p(u) then [u] else [];
    FiltrarAnexar(r0, u, p);
    FiltrarAnexar(ini, u, p);
    TrocaDeVazias(Filtrar(ini, p), if passa then [x] else [], ux);
  }

  /** Two pieces of which one is empty can be appended in either order. */
  lemma TrocaDeVazias(a: seq<Ideia>, xs: seq<Ideia>, ux: seq<Ideia>)
    requires xs == [] || ux == []
    ensures (a + xs) + ux == (a + ux) + xs
  {
  }

  /** The sort is stable: the ideas with any one key come out in the order
      they came in. */
  lemma {:induction false} OrdenarPorEstavel(s: seq<Ideia>, chave: Ideia -> int, v: int)
    ensures Filtrar(OrdenarPor(s, chave), MesmaChave(chave, v)) == Filtrar(s, MesmaChave(chave, v))
  {
    if s != [] {
      var ini, u := s[..|s| - 1], s[|s| - 1];
      assert s == ini + [u];
      OrdenarPorEstavel(ini, chave, v);
      InserirPorEstavel(u, OrdenarPor(ini, chave), chave, v);
      FiltrarAnexar(ini, u, MesmaChave(chave, v));
    }
  }

  /** Sequences with the same multiset hold the same elements. */
  lemma MesmosElementos<T>(a: seq<T>, b: seq<T>)
    requires multiset(a) == multiset(b)
    ensures forall x | x in a :: x in b
    ensures forall x | x in b :: x in a
  {
    assert forall x | x in a :: x in multiset(b);
    assert forall x | x in b :: x in multiset(a);
  }

  /** What sorting by each key means for the ideas' fields. */
  lemma {:induction false} SentidoDaOrdem(r: seq<Ideia>, ordenacao: string)
    requires OrdenadaPor(r, Chave(ordenacao))
    ensures ordenacao == RECENTES ==> forall i, j | 0 <= i < j < |r| :: r[i].createdAt >= r[j].createdAt
    ensures ordenacao == ANTIGAS ==> forall i, j | 0 <= i < j < |r| :: r[i].createdAt <= r[j].createdAt
    ensures ordenacao == VOTOS ==> forall i, j | 0 <= i < j < |r| :: OuZero(r[i].votos) >= OuZero(r[j].votos)
    ensures ordenacao == COMENTARIOS ==>
      forall i, j | 0 <= i < j < |r| :: OuZero(r[i].comentarios) >= OuZero(r[j].comentarios)
  {
    forall i, j | 0 <= i < j < |r| ensures Chave(ordenacao)(r[i]) <= Chave(ordenacao)(r[j]) {
    }
  }

  predicate OrdenacaoConhecida(ordenacao: string) {
    ordenacao == RECENTES || ordenacao == ANTIGAS || ordenacao == VOTOS || ordenacao == COMENTARIOS
  }

  /** The filter part of `ideiasFiltradas`: the search, status and tag
      filters in turn, each only when it is set. */
  method Selecionar(ideias: seq<Ideia>, busca: string, statusFiltro: string, tagFiltro: string)
    returns (resultado: seq<Ideia>)
    ensures resultado == Filtrar(ideias, Passando(busca, statusFiltro, tagFiltro))
  {
    resultado := ideias;
    ghost var porBusca := (i: Ideia) => Passa(busca, "", "", i);
    if Trim(busca) != "" {
      var termo := Minusculas(busca);
      resultado := Filtrar(resultado, Buscando(termo));
      FiltrarExtensional(ideias, Buscando(termo), porBusca);
    } else {
      FiltrarTodos(ideias, porBusca);
    }
    ghost var comStatus := (i: Ideia) => Passa(busca, statusFiltro, "", i);
    if statusFiltro != "" {
      FiltrarFiltrar(ideias, porBusca, TemStatus(statusFiltro), comStatus);
      resultado := Filtrar(resultado, TemStatus(statusFiltro));
    } else {
      FiltrarExtensional(ideias, porBusca, comStatus);
    }
    if tagFiltro != "" {
      FiltrarFiltrar(ideias, comStatus, TemTag(tagFiltro), Passando(busca, statusFiltro, tagFiltro));
      resultado := Filtrar(resultado, TemTag(tagFiltro));
    } else {
      FiltrarExtensional(ideias, comStatus, Passando(busca, statusFiltro, tagFiltro));
    }
  }

  /** `ideiasFiltradas`: the list, through the search, status and tag filters
      in turn, then sorted by the chosen order. It shows exactly the ideas
      that pass the filters, each as often as in the list; it is sorted by
      the chosen order, and an unknown order keeps the list's order. */
  method IdeiasFiltradas(ideias: seq<Ideia>, busca: string, statusFiltro: string, tagFiltro: string,
                         ordenacao: string) returns (resultado: seq<Ideia>)
    ensures multiset(resultado) == multiset(Filtrar(ideias, Passando(busca, statusFiltro, tagFiltro)))
    ensures multiset(resultado) <= multiset(ideias)
    ensures forall i | i in resultado :: i in ideias && Passa(busca, statusFiltro, tagFiltro, i)
    ensures forall k | 0 <= k < |ideias| && Passa(busca, statusFiltro, tagFiltro, ideias[k]) :: ideias[k] in resultado
    ensures ordenacao == RECENTES ==> forall i, j | 0 <= i < j < |resultado| :: resultado[i].createdAt >= resultado[j].createdAt
    ensures ordenacao == ANTIGAS ==> forall i, j | 0 <= i < j < |resultado| :: resultado[i].createdAt <= resultado[j].createdAt
    ensures ordenacao == VOTOS ==>
      forall i, j | 0 <= i < j < |resultado| :: OuZero(resultado[i].votos) >= OuZero(resultado[j].votos)
    ensures ordenacao == COMENTARIOS ==>
      forall i, j | 0 <= i < j < |resultado| :: OuZero(resultado[i].comentarios) >= OuZero(resultado[j].comentarios)
    ensures !OrdenacaoConhecida(ordenacao) ==> resultado == Filtrar(ideias, Passando(busca, statusFiltro, tagFiltro))
    ensures OrdenacaoConhecida(ordenacao) ==> forall v ::
      Filtrar(resultado, MesmaChave(Chave(ordenacao), v))
        == Filtrar(Filtrar(ideias, Passando(busca, statusFiltro, tagFiltro)), MesmaChave(Chave(ordenacao), v))
  {
    var selecao := Selecionar(ideias, busca, statusFiltro, tagFiltro);
    resultado := selecao;
    if OrdenacaoConhecida(ordenacao) {
      resultado := OrdenarPor(selecao, Chave(ordenacao));
      SentidoDaOrdem(resultado, ordenacao);
      MesmosElementos(resultado, selecao);
      forall v ensures Filtrar(resultado, MesmaChave(Chave(ordenacao), v)) == Filtrar(selecao, MesmaChave(Chave(ordenacao), v)) {
        OrdenarPorEstavel(selecao, Chave(ordenacao), v);
      }
    }
  }

  // ---------------------------------------------------------- the filter bar

  /** The filter bar's state. */
  class Filtros {
    var busca: string
    var statusFiltro: string
    var tagFiltro: string
    var ordenacao: string

    /** No search, any status, any tag, newest first. */
    ghost predicate Padrao()
      reads this
    {
      busca == "" && statusFiltro == "" && tagFiltro == "" && ordenacao == RECENTES
    }

    constructor ()
      ensures Padrao()
    {
      busca, statusFiltro, tagFiltro, ordenacao := "", "", "", RECENTES;
    }

    /** `temFiltrosAtivos`: some text in the search box (whitespace
        included), a status or a tag chosen, or an order other than newest
        first. */
    function TemFiltrosAtivos(): (b: bool)
      reads this
      ensures b == !Padrao()
    {
      busca != "" || statusFiltro != "" || tagFiltro != "" || ordenacao != RECENTES
    }

    /** `limparFiltros`: back to the defaults. */
    method LimparFiltros()
      modifies this
      ensures Padrao() && !TemFiltrosAtivos()
    {
      busca, statusFiltro, tagFiltro, ordenacao := "", "", "", RECENTES;
    }

    /** The list the page shows under the current filters. */
    method Filtradas(ideias: seq<Ideia>) returns (r: seq<Ideia>)
      ensures multiset(r) == multiset(Filtrar(ideias, Passando(busca, statusFiltro, tagFiltro)))
      ensures !TemFiltrosAtivos() ==> multiset(r) == multiset(ideias)
      ensures !TemFiltrosAtivos() ==> forall i, j | 0 <= i < j < |r| :: r[i].createdAt >= r[j].createdAt
    {
      r := IdeiasFiltradas(ideias, busca, statusFiltro, tagFiltro, ordenacao);
      if !TemFiltrosAtivos() {
        SemFiltrosPassaTudo(ideias);
      }
    }
  }
}
