/** The records of the idea funnel, the five lifecycle statuses and the
    sequence operations (`filter`, counting, sub-sequences) every page uses. */
module Modelo {

  datatype Option<T> = None | Some(value: T)

  datatype Result<T, E> = Ok(value: T) | Err(erro: E)

  /** Errors the backend reports and the service passes on by throwing. */
  datatype ErroBanco =
    | NenhumaLinha        // `.single()` found no row (code PGRST116)
    | ViolacaoUnicidade   // an insert clashed with a unique key
    | ObjetoJaExiste      // storage refused to overwrite (`upsert: false`)
    | FalhaBackend        // any other failure, opaque to this layer

  /** The PostgREST error code for "no row" from `.single()`. */
  const SEM_LINHA: string := "PGRST116"

  // Lifecycle statuses, written exactly as the `status` column holds them.
  const GERACAO: string := "Geração"
  const EM_DEFINICAO: string := "Em Definição"
  const PRONTA: string := "Pronta para Avaliação"
  const APROVADA: string := "Aprovada"
  const ARQUIVADA: string := "Arquivada"

  /** The five statuses, in lifecycle order. */
  const STATUS: seq<string> := [GERACAO, EM_DEFINICAO, PRONTA, APROVADA, ARQUIVADA]

  /** The five statuses are pairwise distinct. */
  lemma StatusDistintos()
    ensures forall i, j | 0 <= i < j < |STATUS| :: STATUS[i] != STATUS[j]
  {
    assert GERACAO[0] != EM_DEFINICAO[0] && GERACAO[0] != PRONTA[0] && GERACAO[0] != APROVADA[0];
    assert EM_DEFINICAO[0] != PRONTA[0] && EM_DEFINICAO[0] != APROVADA[0];
    assert PRONTA[0] != APROVADA[0] && PRONTA[0] != ARQUIVADA[0];
    assert APROVADA[1] != ARQUIVADA[1];
    assert GERACAO[0] != ARQUIVADA[0] && EM_DEFINICAO[0] != ARQUIVADA[0];
  }

  type UsuarioId = string

  /** A row of the `ideias` table. */
  datatype Registro = Registro(
    titulo: string,
    descricao: string,
    fonte: Option<string>,
    segmento: Option<string>,
    impacto: Option<string>,
    autorId: UsuarioId,
    status: string,
    ownerId: Option<UsuarioId>,
    justificativaRejeicao: Option<string>,
    createdAt: int)

  /** A row of the idea list the pages receive (the counters view): the
      record plus its tag names and its vote and comment counts, which the
      view may leave empty. */
  datatype Ideia = Ideia(
    id: nat,
    titulo: string,
    descricao: string,
    fonte: Option<string>,
    segmento: Option<string>,
    impacto: Option<string>,
    tags: seq<string>,
    status: string,
    autorId: UsuarioId,
    ownerId: Option<UsuarioId>,
    createdAt: int,
    votos: Option<int>,
    comentarios: Option<int>)

  /** The object the new-idea form hands to the service. */
  datatype NovaIdeia = NovaIdeia(
    titulo: string,
    fonte: string,
    descricao: string,
    segmento: string,
    tags: seq<string>,
    impacto: string)

  /** A vote: the pair is its whole identity. */
  datatype Voto = Voto(ideiaId: nat, usuarioId: UsuarioId)

  /** The evaluation the evaluation page submits. */
  datatype Avaliacao = Avaliacao(
    ideiaId: nat,
    avaliadorId: UsuarioId,
    notaClarezaObjetivos: int,
    notaAnaliseNegocio: int,
    notaViabilidadeTecnica: int,
    decisao: string,
    justificativa: Option<string>)

  /** The product-definition document of an idea. A text field the backend
      leaves null is the empty string here; both count as unfilled. */
  datatype Definicao = Definicao(
    alinhamentoEstrategico: string,
    capacidadeTecnica: bool,
    capacidadeOperacional: bool,
    capacidadeRecursos: bool,
    publicoAlvo: string,
    mercado: string,
    hipotesesValor: string,
    estimativaRentabilidade: string,
    progressoPercentual: int)

  /** A file chosen for upload. */
  datatype Arquivo = Arquivo(nome: string, tamanho: nat, tipo: string)

  /** A row of the `anexos` table. */
  datatype Anexo = Anexo(
    id: nat,
    ideiaId: nat,
    nomeArquivo: string,
    storagePath: string,
    tipoMime: string,
    tamanhoBytes: nat,
    uploadedBy: UsuarioId)

  /** `xs.filter(p)`: the elements satisfying `p`, in their order. */
  function Filtrar<T(==)>(s: seq<T>, p: T -> bool): (r: seq<T>)
    ensures |r| <= |s|
    ensures forall x | x in r :: x in s && p(x)
    ensures forall k | 0 <= k < |s| && p(s[k]) :: s[k] in r
    ensures multiset(r) <= multiset(s)
  {
    if s == [] then []
    else
      assert s == [s[0]] + s[1..];
      if p(s[0]) then [s[0]] + Filtrar(s[1..], p)
      else Filtrar(s[1..], p)
  }

  /** What a filter keeps is a sub-sequence of what it was given. */
  lemma {:induction false} FiltrarSubsequencia<T>(s: seq<T>, p: T -> bool)
    ensures Subsequencia(Filtrar(s, p), s)
  {
    if s != [] {
      FiltrarSubsequencia(s[1..], p);
      var resto := Filtrar(s[1..], p);
      if p(s[0]) {
        assert Filtrar(s, p)[1..] == resto;
      } else {
        assert resto != [] ==> resto[0] != s[0] by {
          if resto != [] { assert resto[0] in resto; }
        }
        SubsequenciaEmCauda(resto, s);
      }
    }
  }

  /** Filtering a sequence extended by one element. */
  lemma {:induction false} FiltrarAnexar<T>(s: seq<T>, x: T, p: T -> bool)
    ensures Filtrar(s + [x], p) == Filtrar(s, p) + (if p(x) then [x] else [])
  {
    if s == [] {
      assert [x][1..] == [];
    } else {
      assert (s + [x])[1..] == s[1..] + [x];
      FiltrarAnexar(s[1..], x, p);
    }
  }

  /** Filtering a concatenation filters each part. */
  lemma {:induction false} FiltrarConcat<T>(a: seq<T>, b: seq<T>, p: T -> bool)
    ensures Filtrar(a + b, p) == Filtrar(a, p) + Filtrar(b, p)
  {
    if a == [] {
      assert a + b == b;
    } else {
      assert (a + b)[0] == a[0] && (a + b)[1..] == a[1..] + b;
      FiltrarConcat(a[1..], b, p);
      var fa, fb := Filtrar(a[1..], p), Filtrar(b, p);
      if p(a[0]) {
        assert [a[0]] + (fa + fb) == [a[0]] + fa + fb;
      }
    }
  }

  /** A filter every element passes keeps the whole sequence. */
  lemma {:induction false} FiltrarTodos<T>(s: seq<T>, p: T -> bool)
    requires forall x | x in s :: p(x)
    ensures Filtrar(s, p) == s
  {
    if s != [] {
      assert forall x | x in s[1..] :: x in s;
      FiltrarTodos(s[1..], p);
    }
  }

  /** A filter no element passes keeps nothing. */
  lemma {:induction false} FiltrarNenhum<T>(s: seq<T>, p: T -> bool)
    requires forall x | x in s :: !p(x)
    ensures Filtrar(s, p) == []
  {
    if s != [] {
      assert forall x | x in s[1..] :: x in s;
      FiltrarNenhum(s[1..], p);
    }
  }

  /** Two filters in a row keep what passes both. */
  lemma {:induction false} FiltrarFiltrar<T>(s: seq<T>, p: T -> bool, q: T -> bool, ambos: T -> bool)
    requires forall x | x in s :: ambos(x) == (p(x) && q(x))
    ensures Filtrar(Filtrar(s, p), q) == Filtrar(s, ambos)
  {
    if s != [] {
      assert forall x | x in s[1..] :: x in s;
      FiltrarFiltrar(s[1..], p, q, ambos);
    }
  }

  /** Filters that agree on every element keep the same elements. */
  lemma {:induction false} FiltrarExtensional<T>(s: seq<T>, p: T -> bool, q: T -> bool)
    requires forall x | x in s :: p(x) == q(x)
    ensures Filtrar(s, p) == Filtrar(s, q)
  {
    if s != [] {
      assert forall x | x in s[1..] :: x in s;
      FiltrarExtensional(s[1..], p, q);
    }
  }

  /** `a` is `b` with some elements dropped, the rest in the same order. */
  predicate Subsequencia<T(==)>(a: seq<T>, b: seq<T>)
    decreases |b|
  {
    a == [] || (b != [] && if a[0] == b[0] then Subsequencia(a[1..], b[1..]) else Subsequencia(a, b[1..]))
  }

  lemma {:induction false} SubsequenciaEmCauda<T>(a: seq<T>, b: seq<T>)
    requires b != [] && Subsequencia(a, b[1..])
    requires a != [] ==> a[0] != b[0]
    ensures Subsequencia(a, b)
  {
  }

  /** Every sequence is a sub-sequence of itself. */
  lemma {:induction false} SubsequenciaReflexiva<T>(a: seq<T>)
    ensures Subsequencia(a, a)
  {
    if a != [] { SubsequenciaReflexiva(a[1..]); }
  }

  /** The statuses of a list of ideas, in order. */
  function Statuses(ideias: seq<Ideia>): (r: seq<string>)
    ensures |r| == |ideias|
    ensures forall k | 0 <= k < |ideias| :: r[k] == ideias[k].status
  {
    if ideias == [] then [] else [ideias[0].status] + Statuses(ideias[1..])
  }

  /** The test `i => i.status === st`. */
  function TemStatus(st: string): Ideia -> bool {
    (i: Ideia) => i.status == st
  }

  /** Keeping the ideas of one status keeps as many as the status occurs in
      the list of statuses. */
  lemma {:induction false} FiltrarPorStatus(ideias: seq<Ideia>, st: string)
    ensures |Filtrar(ideias, TemStatus(st))| == multiset(Statuses(ideias))[st]
  {
    if ideias != [] {
      FiltrarPorStatus(ideias[1..], st);
      assert Statuses(ideias) == [ideias[0].status] + Statuses(ideias[1..]);
    }
  }
}
