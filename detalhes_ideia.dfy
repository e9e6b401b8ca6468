/** The idea detail page: the manual lifecycle transitions it offers, who may
    take ownership or move an idea on, the product-definition form and its
    progress figure, and the batch upload of attachments. */
module DetalhesIdeia {
  import opened Modelo
  import opened Texto
  import opened Servico

  // ---------------------------------------------------------------- lifecycle

  /** Position of a status along the lifecycle; -1 for any other text. */
  function Ordem(s: string): (o: int)
    ensures -1 <= o < |STATUS|
    ensures o >= 0 ==> STATUS[o] == s
    ensures o == -1 <==> s !in STATUS
  {
    if s == GERACAO then 0
    else if s == EM_DEFINICAO then 1
    else if s == PRONTA then 2
    else if s == APROVADA then 3
    else if s == ARQUIVADA then 4
    else -1
  }

  /** `getProximosStatus`: the statuses the page lets the idea move to. At most
      one is offered, always the next one along the lifecycle, and none from
      Pronta para Avaliação (decided on the evaluation page), from Arquivada
      or from an unknown status. */
  function ProximosStatus(s: string): (r: seq<string>)
    ensures |r| <= 1
    ensures forall t | t in r :: 0 <= Ordem(s) && Ordem(t) == Ordem(s) + 1
    ensures r == [] <==> s != GERACAO && s != EM_DEFINICAO && s != APROVADA
  {
    if s == GERACAO then [EM_DEFINICAO]
    else if s == EM_DEFINICAO then [PRONTA]
    else if s == APROVADA then [ARQUIVADA]
    else []
  }

  /** No manual transition leads to Aprovada: approval only comes from an
      evaluation. */
  lemma AprovacaoSoPorAvaliacao(s: string)
    ensures APROVADA !in ProximosStatus(s)
  {
  }

  /** Following the manual transitions from Geração goes through Em Definição
      to Pronta para Avaliação and stops there. */
  lemma CaminhoManualAteAvaliacao()
    ensures ProximosStatus(GERACAO) == [EM_DEFINICAO]
    ensures ProximosStatus(EM_DEFINICAO) == [PRONTA]
    ensures ProximosStatus(PRONTA) == []
    ensures ProximosStatus(ARQUIVADA) == []
  {
    Modelo.StatusDistintos();
  }

  /** `podeAssumirOwnership`: no owner yet (a missing or empty id) and the
      idea neither approved nor archived. */
  function PodeAssumirOwnership(i: Ideia): (b: bool)
    ensures b <==> (i.ownerId.None? || i.ownerId.value == "") && Ordem(i.status) != 3 && Ordem(i.status) != 4
  {
    (i.ownerId.None? || i.ownerId.value == "") && i.status != ARQUIVADA && i.status != APROVADA
  }

  /** `isOwner`: a null owner matches no user. */
  predicate IsOwner(i: Ideia, usuario: UsuarioId)
    ensures IsOwner(i, usuario) ==> i.ownerId.Some?
  {
    i.ownerId == Some(usuario)
  }

  /** `isAutor`. */
  predicate IsAutor(i: Ideia, usuario: UsuarioId) {
    i.autorId == usuario
  }

  /** Once a user has taken the idea, the page shows them as its owner and no
      longer offers ownership to anyone. */
  lemma AssumirEncerraOferta(i: Ideia, usuario: UsuarioId)
    requires usuario != ""
    ensures IsOwner(i.(ownerId := Some(usuario)), usuario)
    ensures forall outro :: PodeAssumirOwnership(i.(ownerId := Some(outro))) ==> outro == ""
    ensures !PodeAssumirOwnership(i.(ownerId := Some(usuario)))
  {
  }

  /** The status buttons the page shows: the next statuses, and only to the
      owner or the author. */
  function StatusOferecidos(i: Ideia, usuario: UsuarioId): (r: seq<string>)
    ensures forall t | t in r :: (IsOwner(i, usuario) || IsAutor(i, usuario)) && t in ProximosStatus(i.status)
    ensures r != [] <==> (IsOwner(i, usuario) || IsAutor(i, usuario)) && ProximosStatus(i.status) != []
  {
    if (IsOwner(i, usuario) || IsAutor(i, usuario)) && |ProximosStatus(i.status)| > 0 then ProximosStatus(i.status)
    else []
  }

  /** Whatever the page offers moves the idea exactly one step forward, never
      to Aprovada, and is offered to nobody but the owner and the author. */
  lemma {:induction false} OfertaAvancaUmPasso(i: Ideia, usuario: UsuarioId, t: string)
    requires t in StatusOferecidos(i, usuario)
    ensures Ordem(t) == Ordem(i.status) + 1 && 0 <= Ordem(i.status)
    ensures t != APROVADA
    ensures IsOwner(i, usuario) || IsAutor(i, usuario)
  {
    AprovacaoSoPorAvaliacao(i.status);
  }

  /** `handleMudarStatus`: writes the chosen status with no justification,
      so the stored rejection rationale is left as it was. */
  method HandleMudarStatus(banco: Banco, id: nat, novoStatus: string) returns (sucesso: bool)
    modifies banco`ideias
    ensures sucesso <==> id in old(banco.ideias)
    ensures sucesso ==> banco.ideias == old(banco.ideias)[id := old(banco.ideias)[id].(status := novoStatus)]
    ensures !sucesso ==> banco.ideias == old(banco.ideias)
  {
    var r := banco.AtualizarStatus(id, novoStatus, None);
    sucesso := r.Ok?;
  }

  /** `handleAssumirOwnership`: makes the user the idea's owner. */
  method HandleAssumirOwnership(banco: Banco, id: nat, usuario: UsuarioId) returns (sucesso: bool)
    modifies banco`ideias
    ensures sucesso <==> id in old(banco.ideias)
    ensures sucesso ==> banco.ideias == old(banco.ideias)[id := old(banco.ideias)[id].(ownerId := Some(usuario))]
    ensures !sucesso ==> banco.ideias == old(banco.ideias)
  {
    var r := banco.AssumirOwnership(id, usuario);
    sucesso := r.Ok?;
  }

  // ------------------------------------------------------- definition progress

  /** A text field counts as filled when it holds a character other than
      whitespace. */
  predicate Preenchido(s: string) {
    !Branco(s)
  }

  /** `s?.trim()` is truthy exactly when the field counts as filled. */
  lemma PreenchidoSeTrim(s: string)
    ensures Preenchido(s) <==> Trim(s) != ""
  {
  }

  function Um(b: bool): nat {
    if b then 1 else 0
  }

  /** The filled fields of a definition: five texts and three check boxes. */
  function Preenchidos(d: Definicao): (n: nat)
    ensures n <= 8
  {
    Um(Preenchido(d.alinhamentoEstrategico)) + Um(Preenchido(d.publicoAlvo)) + Um(Preenchido(d.mercado))
    + Um(Preenchido(d.hipotesesValor)) + Um(Preenchido(d.estimativaRentabilidade))
    + Um(d.capacidadeTecnica) + Um(d.capacidadeOperacional) + Um(d.capacidadeRecursos)
  }

  predicate TodosPreenchidos(d: Definicao) {
    && Preenchido(d.alinhamentoEstrategico) && Preenchido(d.publicoAlvo) && Preenchido(d.mercado)
    && Preenchido(d.hipotesesValor) && Preenchido(d.estimativaRentabilidade)
    && d.capacidadeTecnica && d.capacidadeOperacional && d.capacidadeRecursos
  }

  predicate NenhumPreenchido(d: Definicao) {
    && !Preenchido(d.alinhamentoEstrategico) && !Preenchido(d.publicoAlvo) && !Preenchido(d.mercado)
    && !Preenchido(d.hipotesesValor) && !Preenchido(d.estimativaRentabilidade)
    && !d.capacidadeTecnica && !d.capacidadeOperacional && !d.capacidadeRecursos
  }

  /** All eight fields are filled exactly when the count is 8, none exactly
      when it is 0. */
  lemma PreenchidosExtremos(d: Definicao)
    ensures Preenchidos(d) == 8 <==> TodosPreenchidos(d)
    ensures Preenchidos(d) == 0 <==> NenhumPreenchido(d)
  {
  }

  /** The progress figure: the filled share of the eight fields as a
      percentage, rounded to the nearest integer with halves rounded up. */
  function Progresso(d: Definicao): (p: int)
    ensures 0 <= p <= 100
    ensures -4 <= 100 * Preenchidos(d) - 8 * p < 4
  {
    (100 * Preenchidos(d) + 4) / 8
  }

  /** The progress is 0% exactly when nothing is filled and 100% exactly
      when everything is. */
  lemma {:induction false} ProgressoExtremos(d: Definicao)
    ensures Progresso(d) == 0 <==> NenhumPreenchido(d)
    ensures Progresso(d) == 100 <==> TodosPreenchidos(d)
  {
    PreenchidosExtremos(d);
  }

  /** `Math.round(n / 8 * 100)`, written with the page's integers: twice
      the numerator and twice the divisor round the same way. */
  lemma MeioParaCima(def: Definicao, n: nat, campos: nat)
    requires campos == 8 && n == Preenchidos(def)
    ensures (200 * n + campos) / (2 * campos) == Progresso(def)
  {
    var q, r := (100 * n + 4) / 8, (100 * n + 4) % 8;
    assert 200 * n + 8 == 16 * q + 2 * r && 0 <= 2 * r < 16;
  }

  /** A text line of `calcularProgresso`: the filled count goes up when the
      trimmed field is not empty, the field count always. */
  method ContarTexto(texto: string, preenchidos: nat, campos: nat) returns (p: nat, c: nat)
    ensures p == preenchidos + Um(Preenchido(texto)) && c == campos + 1
  {
    p, c := preenchidos, campos;
    if Trim(texto) != "" { p := p + 1; }
    c := c + 1;
  }

  /** A check-box line of `calcularProgresso`. */
  method ContarMarcado(marcado: bool, preenchidos: nat, campos: nat) returns (p: nat, c: nat)
    ensures p == preenchidos + Um(marcado) && c == campos + 1
  {
    p, c := preenchidos, campos;
    if marcado { p := p + 1; }
    c := c + 1;
  }

  /** `calcularProgresso`: counts the fields and the filled fields one by
      one, then rounds `preenchidos / campos * 100`. */
  method CalcularProgresso(def: Definicao) returns (p: int)
    ensures p == Progresso(def)
  {
    var campos := 0;
    var preenchidos := 0;
    preenchidos, campos := ContarTexto(def.alinhamentoEstrategico, preenchidos, campos);
    preenchidos, campos := ContarTexto(def.publicoAlvo, preenchidos, campos);
    preenchidos, campos := ContarTexto(def.mercado, preenchidos, campos);
    preenchidos, campos := ContarTexto(def.hipotesesValor, preenchidos, campos);
    preenchidos, campos := ContarTexto(def.estimativaRentabilidade, preenchidos, campos);
    preenchidos, campos := ContarMarcado(def.capacidadeTecnica, preenchidos, campos);
    preenchidos, campos := ContarMarcado(def.capacidadeOperacional, preenchidos, campos);
    preenchidos, campos := ContarMarcado(def.capacidadeRecursos, preenchidos, campos);
    MeioParaCima(def, preenchidos, campos);
    p := (200 * preenchidos + campos) / (2 * campos);
  }

  /** The definition the page starts from: empty texts, unchecked boxes, 0%. */
  function DefinicaoInicial(): Definicao {
    Definicao("", false, false, false, "", "", "", "", 0)
  }

  /** The initial definition shows 0%, consistently with its fields. */
  lemma ProgressoInicial()
    ensures Progresso(DefinicaoInicial()) == 0 == DefinicaoInicial().progressoPercentual
  {
    assert !Preenchido("");
  }

  /** `d2` has every field filled that `d1` has. */
  predicate NaoMenosPreenchida(d1: Definicao, d2: Definicao) {
    && (Preenchido(d1.alinhamentoEstrategico) ==> Preenchido(d2.alinhamentoEstrategico))
    && (Preenchido(d1.publicoAlvo) ==> Preenchido(d2.publicoAlvo))
    && (Preenchido(d1.mercado) ==> Preenchido(d2.mercado))
    && (Preenchido(d1.hipotesesValor) ==> Preenchido(d2.hipotesesValor))
    && (Preenchido(d1.estimativaRentabilidade) ==> Preenchido(d2.estimativaRentabilidade))
    && (d1.capacidadeTecnica ==> d2.capacidadeTecnica)
    && (d1.capacidadeOperacional ==> d2.capacidadeOperacional)
    && (d1.capacidadeRecursos ==> d2.capacidadeRecursos)
  }

  /** Filling fields never lowers the progress, and one more filled field
      always raises it. */
  lemma ProgressoMonotono(d1: Definicao, d2: Definicao)
    requires NaoMenosPreenchida(d1, d2)
    ensures Preenchidos(d1) <= Preenchidos(d2)
    ensures Progresso(d1) <= Progresso(d2)
    ensures Preenchidos(d1) < Preenchidos(d2) ==> Progresso(d1) < Progresso(d2)
  {
  }

  // ------------------------------------------------------------ the form

  /** A change the definition form makes: one field and its new value. */
  datatype Campo =
    | AlinhamentoEstrategico(texto: string)
    | CapacidadeTecnica(marcado: bool)
    | CapacidadeOperacional(marcado: bool)
    | CapacidadeRecursos(marcado: bool)
    | PublicoAlvo(texto: string)
    | Mercado(texto: string)
    | HipotesesValor(texto: string)
    | EstimativaRentabilidade(texto: string)

  /** `{ ...definicao, [field]: value }`. */
  function Aplicar(d: Definicao, c: Campo): Definicao {
    match c
    case AlinhamentoEstrategico(v) => d.(alinhamentoEstrategico := v)
    case CapacidadeTecnica(v) => d.(capacidadeTecnica := v)
    case CapacidadeOperacional(v) => d.(capacidadeOperacional := v)
    case CapacidadeRecursos(v) => d.(capacidadeRecursos := v)
    case PublicoAlvo(v) => d.(publicoAlvo := v)
    case Mercado(v) => d.(mercado := v)
    case HipotesesValor(v) => d.(hipotesesValor := v)
    case EstimativaRentabilidade(v) => d.(estimativaRentabilidade := v)
  }

  /** The value the definition holds for the field a change names. */
  function Ler(d: Definicao, c: Campo): Campo {
    match c
    case AlinhamentoEstrategico(_) => AlinhamentoEstrategico(d.alinhamentoEstrategico)
    case CapacidadeTecnica(_) => CapacidadeTecnica(d.capacidadeTecnica)
    case CapacidadeOperacional(_) => CapacidadeOperacional(d.capacidadeOperacional)
    case CapacidadeRecursos(_) => CapacidadeRecursos(d.capacidadeRecursos)
    case PublicoAlvo(_) => PublicoAlvo(d.publicoAlvo)
    case Mercado(_) => Mercado(d.mercado)
    case HipotesesValor(_) => HipotesesValor(d.hipotesesValor)
    case EstimativaRentabilidade(_) => EstimativaRentabilidade(d.estimativaRentabilidade)
  }

  predicate MesmoCampo(a: Campo, b: Campo) {
    Ler(DefinicaoInicial(), a) == Ler(DefinicaoInicial(), b)
  }

  /** A change replaces exactly the field it names: reading that field back
      gives the new value, every other field and the stored progress are as
      before, and writing back what was read changes nothing. */
  lemma AplicarSoOCampo(d: Definicao, c: Campo)
    ensures Ler(Aplicar(d, c), c) == c
    ensures forall c2 | !MesmoCampo(c, c2) :: Ler(Aplicar(d, c), c2) == Ler(d, c2)
    ensures Aplicar(d, c).progressoPercentual == d.progressoPercentual
    ensures Aplicar(d, Ler(d, c)) == d
  {
  }

  /** The form state of `DefinicaoProdutoForm`: the definition being edited
      and whether it is saved. */
  class FormDefinicao {
    var definicao: Definicao
    var salva: bool

    /** The shown progress is the progress of the shown fields. */
    ghost predicate Valid()
      reads this
    {
      definicao.progressoPercentual == Progresso(definicao)
    }

    constructor ()
      ensures Valid()
      ensures definicao == DefinicaoInicial() && !salva
    {
      definicao := DefinicaoInicial();
      salva := false;
      ProgressoInicial();
    }

    /** `handleChange`: sets the field, recomputes the progress from the new
        record and marks the definition unsaved. */
    method HandleChange(c: Campo)
      modifies this
      ensures Valid()
      ensures definicao == Aplicar(old(definicao), c).(progressoPercentual := Progresso(Aplicar(old(definicao), c)))
      ensures !salva
    {
      var nova := Aplicar(definicao, c);
      var p := CalcularProgresso(nova);
      definicao := nova.(progressoPercentual := p);
      salva := false;
    }
  }

  // -------------------------------------------------------------- uploads

  /** The size limit of one attachment: 10 MiB. */
  const TAMANHO_MAXIMO: nat := 10 * 1024 * 1024

  /** The MIME types the page accepts. */
  const TIPOS_PERMITIDOS: seq<string> := [
    "image/jpeg", "image/png", "image/gif", "application/pdf", "application/msword",
    "application/vnd.openxmlformats-officedocument.wordprocessingml.document",
    "application/vnd.ms-excel", "application/vnd.openxmlformats-officedocument.spreadsheetml.sheet",
    "text/plain", "text/csv"]

  /** The notice the page shows for one file of a batch. */
  datatype Aviso =
    | ExcedeLimite(nome: string)
    | TipoNaoPermitido(nome: string)
    | Enviado(nome: string)
    | ErroAoEnviar(nome: string)

  /** The notice that rejects a file before any upload, if it is rejected:
      the size is checked before the type. */
  function Triagem(f: Arquivo): (r: Option<Aviso>)
    ensures r.None? <==> f.tamanho <= TAMANHO_MAXIMO && f.tipo in TIPOS_PERMITIDOS
    ensures f.tamanho > TAMANHO_MAXIMO ==> r == Some(ExcedeLimite(f.nome))
    ensures f.tamanho <= TAMANHO_MAXIMO && f.tipo !in TIPOS_PERMITIDOS ==> r == Some(TipoNaoPermitido(f.nome))
  {
    if f.tamanho > TAMANHO_MAXIMO then Some(ExcedeLimite(f.nome))
    else if f.tipo !in TIPOS_PERMITIDOS then Some(TipoNaoPermitido(f.nome))
    else None
  }

  predicate Aceito(f: Arquivo) {
    Triagem(f).None?
  }

  /** How many notices report a completed upload. */
  function Enviados(avisos: seq<Aviso>): nat {
    if avisos == [] then 0
    else Enviados(avisos[..|avisos| - 1]) + (if avisos[|avisos| - 1].Enviado? then 1 else 0)
  }

  /** The limit is inclusive; a larger file is refused for its size even when
      its type is also refused; an allowed type under the limit goes through. */
  lemma TriagemExemplos()
    ensures Aceito(Arquivo("ata.pdf", TAMANHO_MAXIMO, "application/pdf"))
    ensures Triagem(Arquivo("ata.pdf", TAMANHO_MAXIMO + 1, "application/pdf")) == Some(ExcedeLimite("ata.pdf"))
    ensures Triagem(Arquivo("setup.exe", 12 * 1024 * 1024, "application/x-msdownload")) == Some(ExcedeLimite("setup.exe"))
    ensures Triagem(Arquivo("setup.exe", 1024 * 1024, "application/x-msdownload")) == Some(TipoNaoPermitido("setup.exe"))
    ensures Aceito(Arquivo("dados.csv", 1024 * 1024, "text/csv"))
  {
    assert TIPOS_PERMITIDOS[3] == "application/pdf";
    assert TIPOS_PERMITIDOS[9] == "text/csv";
    assert "application/x-msdownload" !in TIPOS_PERMITIDOS by {
      forall k | 0 <= k < |TIPOS_PERMITIDOS| ensures TIPOS_PERMITIDOS[k] != "application/x-msdownload" {
        assert |TIPOS_PERMITIDOS[k]| != 24 || TIPOS_PERMITIDOS[k][0] != 'a' || TIPOS_PERMITIDOS[k][12] != 'x';
      }
    }
  }

  /** An attachment row the page may create: on the idea, by the user,
      within the limit and of an allowed type. */
  predicate AnexoAdmitido(a: Anexo, ideiaId: nat, usuario: UsuarioId) {
    && a.ideiaId == ideiaId && a.uploadedBy == usuario
    && a.tamanhoBytes <= TAMANHO_MAXIMO && a.tipoMime in TIPOS_PERMITIDOS
  }

  /** `depois` is `antes` followed by attachment rows the page may create
      for the idea and the user. */
  predicate Acrescimo(antes: seq<Anexo>, depois: seq<Anexo>, ideiaId: nat, usuario: UsuarioId) {
    && |antes| <= |depois| && depois[..|antes|] == antes
    && forall k | |antes| <= k < |depois| :: AnexoAdmitido(depois[k], ideiaId, usuario)
  }

  lemma AcrescimoAnexar(antes: seq<Anexo>, depois: seq<Anexo>, x: Anexo, ideiaId: nat, usuario: UsuarioId)
    requires Acrescimo(antes, depois, ideiaId, usuario) && AnexoAdmitido(x, ideiaId, usuario)
    ensures Acrescimo(antes, depois + [x], ideiaId, usuario)
  {
    assert (depois + [x])[..|antes|] == depois[..|antes|];
    forall k | |antes| <= k < |depois| + 1 ensures AnexoAdmitido((depois + [x])[k], ideiaId, usuario) {
      if k < |depois| {
        assert (depois + [x])[k] == depois[k];
      }
    }
  }

  /** The notice a file gets: its refusal when the checks refuse it, the
      outcome of its upload otherwise. */
  predicate Confere(f: Arquivo, aviso: Aviso) {
    if Aceito(f) then aviso == Enviado(f.nome) || aviso == ErroAoEnviar(f.nome)
    else aviso == Triagem(f).value
  }

  /** The part of the backend an upload writes: the storage bucket, the
      attachment table and the id the next attachment row gets. */
  datatype Acervo = Acervo(objetos: set<string>, anexos: seq<Anexo>, proximoAnexoId: nat)

  /** One file of the batch: a refused file gets its notice and writes
      nothing; an accepted one is stored under its path unless the path is
      taken or the storage refuses it (`envioAceito` false), and gets its row
      when the metadata insert is accepted. */
  function Envio(ac: Acervo, ideiaId: nat, f: Arquivo, usuario: UsuarioId,
                 momento: nat, sufixo: string, envioAceito: bool, metadadosAceitos: bool): (Acervo, Aviso)
  {
    if !Aceito(f) then (ac, Triagem(f).value)
    else
      var path := CaminhoArmazenamento(ideiaId, f.nome, momento, sufixo);
      if path in ac.objetos || !envioAceito then (ac, ErroAoEnviar(f.nome))
      else if !metadadosAceitos then (ac.(objetos := ac.objetos + {path}), ErroAoEnviar(f.nome))
      else
        (Acervo(ac.objetos + {path},
                ac.anexos + [Anexo(ac.proximoAnexoId, ideiaId, f.nome, path, f.tipo, f.tamanho, usuario)],
                ac.proximoAnexoId + 1),
         Enviado(f.nome))
  }

  /** One file, case by case: a refused file changes nothing; an accepted
      file's path is in storage afterwards exactly when the storage accepted
      it, and otherwise storage is unchanged; it is sent exactly when its path
      was free and both the upload and its metadata insert were accepted, and
      then its own row is appended under the next id; otherwise no row is
      added. */
  lemma EnvioPorCaso(ac: Acervo, ideiaId: nat, f: Arquivo, usuario: UsuarioId,
                     momento: nat, sufixo: string, envioAceito: bool, metadadosAceitos: bool)
    ensures var e := Envio(ac, ideiaId, f, usuario, momento, sufixo, envioAceito, metadadosAceitos);
      var path := CaminhoArmazenamento(ideiaId, f.nome, momento, sufixo);
      && (!Aceito(f) ==> e.0 == ac && e.1 == Triagem(f).value)
      && (Aceito(f) ==> e.1 == Enviado(f.nome) || e.1 == ErroAoEnviar(f.nome))
      && (Aceito(f) ==> (e.1.Enviado? <==> path !in ac.objetos && envioAceito && metadadosAceitos))
      && (Aceito(f) ==> e.0.objetos == if envioAceito then ac.objetos + {path} else ac.objetos)
      && (e.1.Enviado? ==>
            && e.0.anexos == ac.anexos + [Anexo(ac.proximoAnexoId, ideiaId, f.nome, path, f.tipo, f.tamanho, usuario)]
            && e.0.proximoAnexoId == ac.proximoAnexoId + 1)
      && (!e.1.Enviado? ==> e.0.anexos == ac.anexos && e.0.proximoAnexoId == ac.proximoAnexoId)
  {
  }

  /** The parameters of a batch line up with its files. */
  predicate Alinhados(arquivos: seq<Arquivo>, momentos: seq<nat>, sufixos: seq<string>, enviosAceitos: seq<bool>, metadadosAceitos: seq<bool>) {
    |momentos| == |arquivos| && |sufixos| == |arquivos| && |enviosAceitos| == |arquivos| && |metadadosAceitos| == |arquivos|
  }

  /** The first `n` files of the batch in order, each with the moment, suffix,
      upload outcome and metadata outcome of its index: the backend after them
      and their notices. */
  function Lote(ac: Acervo, ideiaId: nat, arquivos: seq<Arquivo>, usuario: UsuarioId,
                momentos: seq<nat>, sufixos: seq<string>, enviosAceitos: seq<bool>, metadadosAceitos: seq<bool>, n: nat): (r: (Acervo, seq<Aviso>))
    requires Alinhados(arquivos, momentos, sufixos, enviosAceitos, metadadosAceitos) && n <= |arquivos|
    ensures |r.1| == n
  {
    if n == 0 then (ac, [])
    else
      var antes := Lote(ac, ideiaId, arquivos, usuario, momentos, sufixos, enviosAceitos, metadadosAceitos, n - 1);
      var depois := Envio(antes.0, ideiaId, arquivos[n - 1], usuario, momentos[n - 1], sufixos[n - 1], enviosAceitos[n - 1], metadadosAceitos[n - 1]);
      (depois.0, antes.1 + [depois.1])
  }

  /** The storage paths of the files among the first `n` that pass the
      checks and whose upload the storage accepts. */
  function Caminhos(ideiaId: nat, arquivos: seq<Arquivo>, momentos: seq<nat>, sufixos: seq<string>, enviosAceitos: seq<bool>, n: nat): set<string>
    requires |momentos| == |arquivos| && |sufixos| == |arquivos| && |enviosAceitos| == |arquivos| && n <= |arquivos|
  {
    if n == 0 then {}
    else
      Caminhos(ideiaId, arquivos, momentos, sufixos, enviosAceitos, n - 1)
        + (if Aceito(arquivos[n - 1]) && enviosAceitos[n - 1] then {CaminhoArmazenamento(ideiaId, arquivos[n - 1].nome, momentos[n - 1], sufixos[n - 1])} else {})
  }

  /** Every file of the batch gets the notice of the same index: its refusal
      when the checks refuse it, a sent or failed notice otherwise. */
  lemma {:induction false} LoteAvisos(ac: Acervo, ideiaId: nat, arquivos: seq<Arquivo>, usuario: UsuarioId,
                                      momentos: seq<nat>, sufixos: seq<string>, enviosAceitos: seq<bool>, metadadosAceitos: seq<bool>, n: nat)
    requires Alinhados(arquivos, momentos, sufixos, enviosAceitos, metadadosAceitos) && n <= |arquivos|
    ensures |Lote(ac, ideiaId, arquivos, usuario, momentos, sufixos, enviosAceitos, metadadosAceitos, n).1| == n
    ensures forall k | 0 <= k < n ::
      Confere(arquivos[k], Lote(ac, ideiaId, arquivos, usuario, momentos, sufixos, enviosAceitos, metadadosAceitos, n).1[k])
  {
    if n > 0 {
      var antes := Lote(ac, ideiaId, arquivos, usuario, momentos, sufixos, enviosAceitos, metadadosAceitos, n - 1);
      var e := Envio(antes.0, ideiaId, arquivos[n - 1], usuario, momentos[n - 1], sufixos[n - 1], enviosAceitos[n - 1], metadadosAceitos[n - 1]);
      var avisos := Lote(ac, ideiaId, arquivos, usuario, momentos, sufixos, enviosAceitos, metadadosAceitos, n).1;
      assert avisos == antes.1 + [e.1];
      LoteAvisos(ac, ideiaId, arquivos, usuario, momentos, sufixos, enviosAceitos, metadadosAceitos, n - 1);
      EnvioPorCaso(antes.0, ideiaId, arquivos[n - 1], usuario, momentos[n - 1], sufixos[n - 1], enviosAceitos[n - 1], metadadosAceitos[n - 1]);
      forall k | 0 <= k < n ensures Confere(arquivos[k], avisos[k]) {
        if k < n - 1 {
          assert avisos[k] == antes.1[k];
        }
      }
    }
  }

  /** After the batch the bucket holds what it held plus the path of every
      file that passed the checks and whose upload the storage accepted,
      whether stored now or taken before, and nothing else. */
  lemma {:induction false} LoteObjetos(ac: Acervo, ideiaId: nat, arquivos: seq<Arquivo>, usuario: UsuarioId,
                                       momentos: seq<nat>, sufixos: seq<string>, enviosAceitos: seq<bool>, metadadosAceitos: seq<bool>, n: nat)
    requires Alinhados(arquivos, momentos, sufixos, enviosAceitos, metadadosAceitos) && n <= |arquivos|
    ensures Lote(ac, ideiaId, arquivos, usuario, momentos, sufixos, enviosAceitos, metadadosAceitos, n).0.objetos
      == ac.objetos + Caminhos(ideiaId, arquivos, momentos, sufixos, enviosAceitos, n)
  {
    if n > 0 {
      LoteObjetos(ac, ideiaId, arquivos, usuario, momentos, sufixos, enviosAceitos, metadadosAceitos, n - 1);
    }
  }

  /** The batch only appends rows: one per sent file, on the idea, by the
      user, within the limit and of an allowed type; the next id moves on by
      as many. */
  lemma {:induction false} LoteAnexos(ac: Acervo, ideiaId: nat, arquivos: seq<Arquivo>, usuario: UsuarioId,
                                      momentos: seq<nat>, sufixos: seq<string>, enviosAceitos: seq<bool>, metadadosAceitos: seq<bool>, n: nat)
    requires Alinhados(arquivos, momentos, sufixos, enviosAceitos, metadadosAceitos) && n <= |arquivos|
    ensures var r := Lote(ac, ideiaId, arquivos, usuario, momentos, sufixos, enviosAceitos, metadadosAceitos, n);
      && Acrescimo(ac.anexos, r.0.anexos, ideiaId, usuario)
      && |r.0.anexos| == |ac.anexos| + Enviados(r.1)
      && r.0.proximoAnexoId == ac.proximoAnexoId + Enviados(r.1)
  {
    if n > 0 {
      var antes := Lote(ac, ideiaId, arquivos, usuario, momentos, sufixos, enviosAceitos, metadadosAceitos, n - 1);
      LoteAnexos(ac, ideiaId, arquivos, usuario, momentos, sufixos, enviosAceitos, metadadosAceitos, n - 1);
      var e := Envio(antes.0, ideiaId, arquivos[n - 1], usuario, momentos[n - 1], sufixos[n - 1], enviosAceitos[n - 1], metadadosAceitos[n - 1]);
      assert Lote(ac, ideiaId, arquivos, usuario, momentos, sufixos, enviosAceitos, metadadosAceitos, n) == (e.0, antes.1 + [e.1]);
      AnexosPasso(ac, antes.0, antes.1, ideiaId, arquivos[n - 1], usuario, momentos[n - 1], sufixos[n - 1],
                  enviosAceitos[n - 1], metadadosAceitos[n - 1]);
    }
  }

  /** One file keeps what `LoteAnexos` states of the rows before it. */
  lemma AnexosPasso(ac: Acervo, antes: Acervo, avisos: seq<Aviso>, ideiaId: nat, f: Arquivo, usuario: UsuarioId,
                    momento: nat, sufixo: string, envioAceito: bool, metadadosAceitos: bool)
    requires Acrescimo(ac.anexos, antes.anexos, ideiaId, usuario)
    requires |antes.anexos| == |ac.anexos| + Enviados(avisos)
    requires antes.proximoAnexoId == ac.proximoAnexoId + Enviados(avisos)
    ensures var e := Envio(antes, ideiaId, f, usuario, momento, sufixo, envioAceito, metadadosAceitos);
      && Acrescimo(ac.anexos, e.0.anexos, ideiaId, usuario)
      && |e.0.anexos| == |ac.anexos| + Enviados(avisos + [e.1])
      && e.0.proximoAnexoId == ac.proximoAnexoId + Enviados(avisos + [e.1])
  {
    var e := Envio(antes, ideiaId, f, usuario, momento, sufixo, envioAceito, metadadosAceitos);
    EnvioPorCaso(antes, ideiaId, f, usuario, momento, sufixo, envioAceito, metadadosAceitos);
    assert (avisos + [e.1])[..|avisos|] == avisos;
    if e.1.Enviado? {
      var path := CaminhoArmazenamento(ideiaId, f.nome, momento, sufixo);
      AcrescimoAnexar(ac.anexos, antes.anexos, Anexo(antes.proximoAnexoId, ideiaId, f.nome, path, f.tipo, f.tamanho, usuario),
                      ideiaId, usuario);
    }
  }

  /** The rows of `anexos` after `base` have consecutive ids from
      `proximo`, and each is stored under one of `caminhos`. */
  predicate Numeradas(base: seq<Anexo>, proximo: nat, anexos: seq<Anexo>, caminhos: set<string>) {
    && |base| <= |anexos|
    && forall k | |base| <= k < |anexos| ::
         anexos[k].id == proximo + (k - |base|) && anexos[k].storagePath in caminhos
  }

  lemma NumeradasAnexar(base: seq<Anexo>, proximo: nat, anexos: seq<Anexo>, caminhos: set<string>,
                        maisCaminhos: set<string>, x: Anexo)
    requires Numeradas(base, proximo, anexos, caminhos) && caminhos <= maisCaminhos
    requires x.id == proximo + (|anexos| - |base|) && x.storagePath in maisCaminhos
    ensures Numeradas(base, proximo, anexos + [x], maisCaminhos)
  {
    forall k | |base| <= k < |anexos| + 1
      ensures (anexos + [x])[k].id == proximo + (k - |base|) && (anexos + [x])[k].storagePath in maisCaminhos
    {
      if k < |anexos| {
        assert (anexos + [x])[k] == anexos[k];
      }
    }
  }

  /** The rows the batch appends have consecutive ids from the next id, and
      each is stored under the path of a file whose upload was accepted. */
  lemma {:induction false} LoteIdsECaminhos(ac: Acervo, ideiaId: nat, arquivos: seq<Arquivo>, usuario: UsuarioId,
                                            momentos: seq<nat>, sufixos: seq<string>, enviosAceitos: seq<bool>, metadadosAceitos: seq<bool>, n: nat)
    requires Alinhados(arquivos, momentos, sufixos, enviosAceitos, metadadosAceitos) && n <= |arquivos|
    ensures Numeradas(ac.anexos, ac.proximoAnexoId,
                      Lote(ac, ideiaId, arquivos, usuario, momentos, sufixos, enviosAceitos, metadadosAceitos, n).0.anexos,
                      Caminhos(ideiaId, arquivos, momentos, sufixos, enviosAceitos, n))
  {
    if n > 0 {
      var antes := Lote(ac, ideiaId, arquivos, usuario, momentos, sufixos, enviosAceitos, metadadosAceitos, n - 1);
      LoteIdsECaminhos(ac, ideiaId, arquivos, usuario, momentos, sufixos, enviosAceitos, metadadosAceitos, n - 1);
      LoteAnexos(ac, ideiaId, arquivos, usuario, momentos, sufixos, enviosAceitos, metadadosAceitos, n - 1);
      var f := arquivos[n - 1];
      var e := Envio(antes.0, ideiaId, f, usuario, momentos[n - 1], sufixos[n - 1], enviosAceitos[n - 1], metadadosAceitos[n - 1]);
      EnvioPorCaso(antes.0, ideiaId, f, usuario, momentos[n - 1], sufixos[n - 1], enviosAceitos[n - 1], metadadosAceitos[n - 1]);
      var c0, c1 := Caminhos(ideiaId, arquivos, momentos, sufixos, enviosAceitos, n - 1), Caminhos(ideiaId, arquivos, momentos, sufixos, enviosAceitos, n);
      assert c0 <= c1;
      if e.1.Enviado? {
        var path := CaminhoArmazenamento(ideiaId, f.nome, momentos[n - 1], sufixos[n - 1]);
        NumeradasAnexar(ac.anexos, ac.proximoAnexoId, antes.0.anexos, c0, c1,
                        Anexo(antes.0.proximoAnexoId, ideiaId, f.nome, path, f.tipo, f.tamanho, usuario));
      }
    }
  }

  /** One pass of the `handleUpload` loop: the checks, then the upload. */
  method EnviarArquivo(banco: Banco, ideiaId: nat, f: Arquivo, usuario: UsuarioId,
                       momento: nat, sufixo: string, envioAceito: bool, metadadosAceitos: bool)
    returns (aviso: Aviso)
    requires banco.Valid()
    modifies banco`objetos, banco`anexos, banco`proximoAnexoId
    ensures banco.Valid()
    ensures (Acervo(banco.objetos, banco.anexos, banco.proximoAnexoId), aviso)
      == Envio(Acervo(old(banco.objetos), old(banco.anexos), old(banco.proximoAnexoId)),
               ideiaId, f, usuario, momento, sufixo, envioAceito, metadadosAceitos)
    ensures !Aceito(f) ==>
      aviso == Triagem(f).value && banco.objetos == old(banco.objetos) && banco.anexos == old(banco.anexos)
    ensures var path := CaminhoArmazenamento(ideiaId, f.nome, momento, sufixo);
      && (Aceito(f) ==> aviso == Enviado(f.nome) || aviso == ErroAoEnviar(f.nome))
      && (Aceito(f) ==> (aviso.Enviado? <==> path !in old(banco.objetos) && envioAceito && metadadosAceitos))
      && (Aceito(f) && envioAceito ==> banco.objetos == old(banco.objetos) + {path})
      && (Aceito(f) && !envioAceito ==> banco.objetos == old(banco.objetos))
      && (aviso.Enviado? ==>
            banco.anexos == old(banco.anexos) + [Anexo(old(banco.proximoAnexoId), ideiaId, f.nome, path, f.tipo, f.tamanho, usuario)])
      && (!aviso.Enviado? ==> banco.anexos == old(banco.anexos))
  {
    ghost var antes := Acervo(banco.objetos, banco.anexos, banco.proximoAnexoId);
    var recusa := Triagem(f);
    if recusa.Some? {
      aviso := recusa.value;
    } else {
      var r := banco.UploadAnexo(ideiaId, f, usuario, momento, sufixo, envioAceito, metadadosAceitos);
      aviso := if r.Ok? then Enviado(f.nome) else ErroAoEnviar(f.nome);
    }
    assert (Acervo(banco.objetos, banco.anexos, banco.proximoAnexoId), aviso)
      == Envio(antes, ideiaId, f, usuario, momento, sufixo, envioAceito, metadadosAceitos);
    EnvioPorCaso(antes, ideiaId, f, usuario, momento, sufixo, envioAceito, metadadosAceitos);
  }

  /** `handleUpload`: goes through the batch in order; a file over the limit
      or of a type not allowed gets its notice and is skipped, every other
      file is uploaded, and a failed upload gets its notice without stopping
      the batch. The moment, random suffix, storage outcome and
      metadata-insert outcome of each file's upload are the parameters of the
      same index. */
  method HandleUpload(banco: Banco, ideiaId: nat, arquivos: seq<Arquivo>, usuario: UsuarioId,
                      momentos: seq<nat>, sufixos: seq<string>, enviosAceitos: seq<bool>, metadadosAceitos: seq<bool>)
    returns (avisos: seq<Aviso>)
    requires banco.Valid()
    requires Alinhados(arquivos, momentos, sufixos, enviosAceitos, metadadosAceitos)
    modifies banco`objetos, banco`anexos, banco`proximoAnexoId
    ensures banco.Valid()
    ensures (Acervo(banco.objetos, banco.anexos, banco.proximoAnexoId), avisos)
      == Lote(Acervo(old(banco.objetos), old(banco.anexos), old(banco.proximoAnexoId)),
              ideiaId, arquivos, usuario, momentos, sufixos, enviosAceitos, metadadosAceitos, |arquivos|)
    ensures |avisos| == |arquivos|
    ensures forall k | 0 <= k < |arquivos| && !Aceito(arquivos[k]) :: avisos[k] == Triagem(arquivos[k]).value
    ensures forall k | 0 <= k < |arquivos| && Aceito(arquivos[k]) ::
      avisos[k] == Enviado(arquivos[k].nome) || avisos[k] == ErroAoEnviar(arquivos[k].nome)
    ensures banco.objetos == old(banco.objetos) + Caminhos(ideiaId, arquivos, momentos, sufixos, enviosAceitos, |arquivos|)
    ensures |banco.anexos| == |old(banco.anexos)| + Enviados(avisos)
    ensures Acrescimo(old(banco.anexos), banco.anexos, ideiaId, usuario)
    ensures Numeradas(old(banco.anexos), old(banco.proximoAnexoId), banco.anexos,
                      Caminhos(ideiaId, arquivos, momentos, sufixos, enviosAceitos, |arquivos|))
  {
    ghost var inicio := Acervo(banco.objetos, banco.anexos, banco.proximoAnexoId);
    avisos := [];
    var i := 0;
    while i < |arquivos|
      invariant 0 <= i <= |arquivos|
      invariant banco.Valid()
      invariant (Acervo(banco.objetos, banco.anexos, banco.proximoAnexoId), avisos)
        == Lote(inicio, ideiaId, arquivos, usuario, momentos, sufixos, enviosAceitos, metadadosAceitos, i)
    {
      var aviso := EnviarArquivo(banco, ideiaId, arquivos[i], usuario, momentos[i], sufixos[i], enviosAceitos[i], metadadosAceitos[i]);
      avisos := avisos + [aviso];
      i := i + 1;
    }
    LoteAvisos(inicio, ideiaId, arquivos, usuario, momentos, sufixos, enviosAceitos, metadadosAceitos, i);
    LoteObjetos(inicio, ideiaId, arquivos, usuario, momentos, sufixos, enviosAceitos, metadadosAceitos, i);
    LoteAnexos(inicio, ideiaId, arquivos, usuario, momentos, sufixos, enviosAceitos, metadadosAceitos, i);
    LoteIdsECaminhos(inicio, ideiaId, arquivos, usuario, momentos, sufixos, enviosAceitos, metadadosAceitos, i);
  }
}
