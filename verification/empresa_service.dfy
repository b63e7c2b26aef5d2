/** The company registry service: create (with a CNPJ conflict check and a
    notification), paginated listing, lookup by CNPJ, partial update and
    removal, over an in-memory repository of `Empresa` records. */
module EmpresaServico {
  import opened Wrappers
  import opened EmpresaEntity
  import opened Paginacao
  import opened Notificacoes

  /** The exceptions the service raises: 409 Conflict, 404 Not Found, and the
      generic 500 wrapper (its text is not modelled). */
  datatype Erro = Conflito(mensagem: string) | NaoEncontrado(mensagem: string) | Interno

  /** `{ message, status }` returned by create, update and delete. */
  datatype Confirmacao = Confirmacao(message: string, status: string)

  const StatusSucesso := "success"

  /** The create input: `endereco` may be absent. */
  datatype DadosCriacao = DadosCriacao(
    nome: string,
    cnpj: string,
    nomeFantasia: string,
    endereco: Option<string>)

  /** The update input: every field may be absent, including `cnpj`. */
  datatype DadosAtualizacao = DadosAtualizacao(
    nome: Option<string>,
    cnpj: Option<string>,
    nomeFantasia: Option<string>,
    endereco: Option<string>)

  /** One company in the listing: no `id`, no `nome`. */
  datatype ItemLista = ItemLista(
    cnpj: string,
    nomeFantasia: string,
    endereco: string,
    criadoEm: nat,
    alteradoEm: nat)

  datatype Listagem = Listagem(
    data: seq<ItemLista>,
    total: nat,
    paginaAtual: int,
    totalPaginas: nat,
    existeProximaPagina: bool,
    existePaginaAnterior: bool,
    proximaPagina: Option<int>,
    paginaAnterior: Option<int>,
    mensagem: string,
    status: string)

  // ---------------------------------------------------------------------------
  // Messages

  function MsgJaCadastrada(cnpj: string): string {
    "Empresa com CNPJ " + cnpj + " já está cadastrada."
  }

  function MsgCriada(cnpj: string): string {
    "Empresa com CNPJ " + cnpj + " foi criada com sucesso."
  }

  function MsgNaoEncontrada(cnpj: string): string {
    "Empresa com CNPJ " + cnpj + " não encontrada."
  }

  function MsgAtualizada(cnpj: string): string {
    "Empresa com CNPJ " + cnpj + " foi atualizada com sucesso."
  }

  function MsgErroAtualizar(cnpj: string, detalhes: string): string {
    "Erro ao atualizar empresa com CNPJ " + cnpj + ". Detalhes: " + detalhes
  }

  function MsgExcluida(cnpj: string): string {
    "Empresa com CNPJ " + cnpj + " foi excluída com sucesso."
  }

  function MsgErroExcluir(cnpj: string, detalhes: string): string {
    "Erro ao excluir empresa com CNPJ " + cnpj + ". Detalhes: " + detalhes
  }

  const MsgListadas := "Empresas listadas com sucesso."

  /** Stands for the database driver's text when a save breaks the unique
      CNPJ column (the constraint's name that follows it is not modelled). */
  const DetalheCnpjDuplicado := "duplicate key value violates unique constraint"

  // ---------------------------------------------------------------------------
  // Reads

  /** The list item shows the CNPJ, trade name, address and both timestamps
      of the record. */
  function MapearRespostaBuscarTodas(e: Empresa): (r: ItemLista)
    ensures r.cnpj == e.cnpj && r.nomeFantasia == e.nomeFantasia && r.endereco == e.endereco
    ensures r.criadoEm == e.criadoEm && r.alteradoEm == e.alteradoEm
  {
    ItemLista(e.cnpj, e.nomeFantasia, e.endereco, e.criadoEm, e.alteradoEm)
  }

  /** The list item hides the primary key and the legal name: records that
      differ only there are listed alike. */
  lemma ItemOmiteIdENome(e: Empresa, id: nat, nome: string)
    ensures MapearRespostaBuscarTodas(e.(id := id, nome := nome)) == MapearRespostaBuscarTodas(e)
  {
  }

  /** The lookup response carries all seven columns of the record unchanged. */
  function MapearRespostaEncontrarEmpresaCnpj(e: Empresa): (r: Empresa)
    ensures r == e
  {
    Empresa(e.id, e.nome, e.cnpj, e.nomeFantasia, e.endereco, e.criadoEm, e.alteradoEm)
  }

  /** Lookup by CNPJ over the repository contents `empresas`. */
  function EncontrarEmpresaPorCnpj(empresas: seq<Empresa>, cnpj: string): (r: Result<Empresa, Erro>)
    ensures r.Failure? <==> !ExisteCnpj(empresas, cnpj)
    ensures r.Failure? ==> r.error == NaoEncontrado(MsgNaoEncontrada(cnpj))
    ensures r.Success? ==> r.value in empresas && r.value.cnpj == cnpj
    ensures r.Success? && CnpjsUnicos(empresas) ==>
      forall i :: 0 <= i < |empresas| && empresas[i].cnpj == cnpj ==> r.value == empresas[i]
  {
    match IndicePorCnpj(empresas, cnpj)
    case None => Failure(NaoEncontrado(MsgNaoEncontrada(cnpj)))
    case Some(i) => Success(MapearRespostaEncontrarEmpresaCnpj(empresas[i]))
  }

  /** The list view of the records a page covers: `skip pule, take limite`
      over the ordered records, each projected to its list item. */
  function ItensDaPagina(ordenadas: seq<Empresa>, pule: nat, limite: nat): (r: seq<ItemLista>)
    requires Decrescente(ordenadas)
    ensures |r| == Min(limite, Max(0, |ordenadas| - pule))
    ensures forall i :: 0 <= i < |r| ==> r[i] == MapearRespostaBuscarTodas(ordenadas[pule + i])
    ensures forall i, j :: 0 <= i < j < |r| ==> r[i].criadoEm >= r[j].criadoEm
  {
    var pagina := Fatia(ordenadas, pule, limite);
    var data := seq(|pagina|, i requires 0 <= i < |pagina| => MapearRespostaBuscarTodas(pagina[i]));
    assert forall i :: 0 <= i < |data| ==> data[i] == MapearRespostaBuscarTodas(ordenadas[pule + i]) by {
      forall i | 0 <= i < |data| ensures data[i] == MapearRespostaBuscarTodas(ordenadas[pule + i]) {
        assert data[i] == MapearRespostaBuscarTodas(pagina[i]);
        assert pagina[i] == ordenadas[pule + i];
      }
    }
    assert forall i, j :: 0 <= i < j < |data| ==> data[i].criadoEm >= data[j].criadoEm by {
      forall i, j | 0 <= i < j < |data| ensures data[i].criadoEm >= data[j].criadoEm {
        assert data[i].criadoEm == ordenadas[pule + i].criadoEm;
        assert data[j].criadoEm == ordenadas[pule + j].criadoEm;
      }
    }
    data
  }

  /** The response for page `p` of size `l` (both already clamped): the page's
      items in newest-first order, the total, the page count and the
      next/previous flags and numbers that follow from them. */
  function MontarListagem(empresas: seq<Empresa>, p: int, l: int): (res: Listagem)
    requires p >= 1 && l >= 1
    ensures res.total == |empresas| && res.paginaAtual == p
    ensures res.totalPaginas == TotalPaginas(|empresas|, l)
    ensures |res.data| == Min(l, Max(0, |empresas| - Pule(p, l)))
    ensures forall i :: 0 <= i < |res.data| ==>
      res.data[i] == MapearRespostaBuscarTodas(Ordenar(empresas)[Pule(p, l) + i])
    ensures forall i, j :: 0 <= i < j < |res.data| ==> res.data[i].criadoEm >= res.data[j].criadoEm
    ensures res.existeProximaPagina <==> p < res.totalPaginas
    ensures res.proximaPagina.Some? <==> res.existeProximaPagina
    ensures res.proximaPagina.Some? ==> res.proximaPagina.value == p + 1
    ensures res.existePaginaAnterior <==> p > 1
    ensures res.paginaAnterior.Some? <==> res.existePaginaAnterior
    ensures res.paginaAnterior.Some? ==> res.paginaAnterior.value == p - 1
    ensures res.mensagem == MsgListadas && res.status == StatusSucesso
  {
    var data := ItensDaPagina(Ordenar(empresas), Pule(p, l), l);
    var totalPaginas := TotalPaginas(|empresas|, l);
    Listagem(
      data,
      |empresas|,
      p,
      totalPaginas,
      p < totalPaginas,
      p > 1,
      if p < totalPaginas then Some(p + 1) else None,
      if p > 1 then Some(p - 1) else None,
      MsgListadas,
      StatusSucesso)
  }

  /** `buscarTodas` over the repository contents `empresas`: the requested page
      and size are clamped first; `falhaBanco` stands for a failing query,
      reported as the generic error. */
  function BuscarTodas(empresas: seq<Empresa>, pagina: Option<int>, limite: Option<int>, falhaBanco: bool)
    : (r: Result<Listagem, Erro>)
    ensures r.Failure? <==> falhaBanco
    ensures r.Failure? ==> r.error == Interno
    ensures r.Success? ==> r.value == MontarListagem(empresas, ClampPagina(pagina), ClampLimite(limite))
    ensures r.Success? ==> r.value.paginaAtual >= 1 && |r.value.data| <= ClampLimite(limite) <= LimiteMaximo
  {
    if falhaBanco then Failure(Interno)
    else Success(MontarListagem(empresas, ClampPagina(pagina), ClampLimite(limite)))
  }

  /** `existeProximaPagina` is honest: while there is a next page the current
      page is full, the last page is non-empty, and a page past the last one
      is empty. */
  lemma {:induction false} PaginasCheias(empresas: seq<Empresa>, p: int, l: int)
    requires p >= 1 && l >= 1
    ensures var r := MontarListagem(empresas, p, l);
      && (r.existeProximaPagina ==> |r.data| == l)
      && (p == r.totalPaginas ==> 1 <= |r.data| <= l)
      && (p > r.totalPaginas ==> r.data == [])
  {
    var n := TotalPaginas(|empresas|, l);
    var pule := Pule(p, l);
    assert pule == (p - 1) * l;
    if p < n {
      MultiplicacaoMonotona(p, n - 1, l);
    } else if p == n {
      assert pule == (n - 1) * l;
    } else {
      MultiplicacaoMonotona(n, p - 1, l);
    }
  }

  /** `a <= b` gives `a * l <= b * l` for a positive `l`. */
  lemma MultiplicacaoMonotona(a: int, b: int, l: int)
    requires a <= b && l >= 1
    ensures a * l <= b * l
  {
    assert b * l - a * l == (b - a) * l;
  }

  /** The default query (no page, no size) serves the first ten records, newest
      first; on an empty repository nothing follows and nothing precedes. */
  lemma ConsultaPadrao(empresas: seq<Empresa>)
    ensures var r := BuscarTodas(empresas, None, None, false);
      && r.Success?
      && r.value.paginaAtual == 1
      && |r.value.data| == Min(10, |empresas|)
      && (forall i :: 0 <= i < |r.value.data| ==> r.value.data[i] == MapearRespostaBuscarTodas(Ordenar(empresas)[i]))
      && !r.value.existePaginaAnterior
      && (empresas == [] ==> r.value.totalPaginas == 0 && r.value.data == [] && !r.value.existeProximaPagina)
  {
  }

  /** On an empty repository every page is empty and there are no pages. */
  lemma ListagemVazia(pagina: Option<int>, limite: Option<int>)
    ensures var r := BuscarTodas([], pagina, limite, false);
      && r.Success?
      && r.value.total == 0 && r.value.totalPaginas == 0 && r.value.data == []
      && !r.value.existeProximaPagina && r.value.proximaPagina == None
  {
  }

  // ---------------------------------------------------------------------------
  // Update input

  /** `Object.assign(empresa, data)`: each field present in `d` overwrites the
      record's, every other field is kept. */
  function Mesclar(e: Empresa, d: DadosAtualizacao): (r: Empresa)
    ensures r.id == e.id && r.criadoEm == e.criadoEm && r.alteradoEm == e.alteradoEm
    ensures d.nome.Some? ==> r.nome == d.nome.value
    ensures d.nome.None? ==> r.nome == e.nome
    ensures d.cnpj.Some? ==> r.cnpj == d.cnpj.value
    ensures d.cnpj.None? ==> r.cnpj == e.cnpj
    ensures d.nomeFantasia.Some? ==> r.nomeFantasia == d.nomeFantasia.value
    ensures d.nomeFantasia.None? ==> r.nomeFantasia == e.nomeFantasia
    ensures d.endereco.Some? ==> r.endereco == d.endereco.value
    ensures d.endereco.None? ==> r.endereco == e.endereco
  {
    e.(nome := d.nome.GetOr(e.nome),
       cnpj := d.cnpj.GetOr(e.cnpj),
       nomeFantasia := d.nomeFantasia.GetOr(e.nomeFantasia),
       endereco := d.endereco.GetOr(e.endereco))
  }

  /** Merging twice is merging once. */
  lemma MesclarIdempotente(e: Empresa, d: DadosAtualizacao)
    ensures Mesclar(Mesclar(e, d), d) == Mesclar(e, d)
  {
  }

  // ---------------------------------------------------------------------------
  // The service

  /** The service and its repository: `empresas` in insertion order, the next
      generated primary key and the clock that stamps each save. */
  class EmpresaService {
    var empresas: seq<Empresa>
    var proximoId: nat
    var relogio: nat
    const notificacoes: NotificacoesService

    ghost predicate Valid()
      reads this
    {
      RepositorioValido(empresas, proximoId, relogio)
    }

    constructor (notificacoes: NotificacoesService)
      ensures Valid()
      ensures empresas == [] && this.notificacoes == notificacoes
    {
      empresas := [];
      proximoId := 1;
      relogio := 0;
      this.notificacoes := notificacoes;
    }

    /** Creates a company. A CNPJ already stored raises Conflict; a failing
        save (`falhaBanco`, or no `endereco` for the NOT NULL column) raises the
        generic error; either way nothing is stored or sent. Otherwise the
        record is stored with a fresh id and both timestamps set to the new
        tick, the notifier is called once with it, and the result does not
        depend on whether the mail went out (`falhaEnvio`). */
    method Criar(dados: DadosCriacao, falhaBanco: bool, falhaEnvio: bool) returns (r: Result<Confirmacao, Erro>)
      requires Valid()
      modifies this, notificacoes
      ensures Valid()
      ensures ExisteCnpj(old(empresas), dados.cnpj) ==> r == Failure(Conflito(MsgJaCadastrada(dados.cnpj)))
      ensures !ExisteCnpj(old(empresas), dados.cnpj) && (dados.endereco.None? || falhaBanco) ==> r == Failure(Interno)
      ensures r.Success? <==> !ExisteCnpj(old(empresas), dados.cnpj) && dados.endereco.Some? && !falhaBanco
      ensures r.Failure? ==>
        && empresas == old(empresas) && proximoId == old(proximoId) && relogio == old(relogio)
        && notificacoes.recebidas == old(notificacoes.recebidas)
        && notificacoes.envios == old(notificacoes.envios)
      ensures r.Success? ==>
        var salva := Empresa(old(proximoId), dados.nome, dados.cnpj, dados.nomeFantasia,
                             dados.endereco.value, relogio, relogio);
        && r.value == Confirmacao(MsgCriada(dados.cnpj), StatusSucesso)
        && relogio == old(relogio) + 1 && proximoId == old(proximoId) + 1
        && empresas == old(empresas) + [salva]
        && notificacoes.recebidas == old(notificacoes.recebidas) + [salva]
        && notificacoes.envios == old(notificacoes.envios) + EnviosDaNotificacao(notificacoes.emails, salva, falhaEnvio)
    {
      var existente := IndicePorCnpj(empresas, dados.cnpj);
      if existente.Some? {
        r := Failure(Conflito(MsgJaCadastrada(dados.cnpj)));
        return;
      }
      if dados.endereco.None? || falhaBanco {
        r := Failure(Interno);
        return;
      }
      var salva := Empresa(proximoId, dados.nome, dados.cnpj, dados.nomeFantasia,
                           dados.endereco.value, relogio + 1, relogio + 1);
      ValidoAposInsercao(empresas, proximoId, relogio, salva);
      empresas := empresas + [salva];
      proximoId := proximoId + 1;
      relogio := relogio + 1;
      notificacoes.EnviarNotificacaoCriacaoEmpresa(salva, falhaEnvio);
      r := Success(Confirmacao(MsgCriada(salva.cnpj), StatusSucesso));
    }

    /** Updates the company with CNPJ `cnpj`: the fields present in `dados`
        overwrite the stored ones and `alteradoEm` takes the new tick. Every
        failure (no such company, a merged CNPJ that another company holds, a
        failing save) is raised as Not Found and changes nothing. */
    method Atualizar(cnpj: string, dados: DadosAtualizacao, falhaBanco: Option<string>) returns (r: Result<Confirmacao, Erro>)
      requires Valid()
      modifies this
      ensures Valid()
      ensures proximoId == old(proximoId)
      ensures r.Failure? ==> r.error.NaoEncontrado? && empresas == old(empresas) && relogio == old(relogio)
      ensures !ExisteCnpj(old(empresas), cnpj) ==>
        r == Failure(NaoEncontrado(MsgErroAtualizar(cnpj, MsgNaoEncontrada(cnpj))))
      ensures ExisteCnpj(old(empresas), cnpj) ==>
        var i := IndicePorCnpj(old(empresas), cnpj).value;
        var mesclada := Mesclar(old(empresas)[i], dados);
        if CnpjEmOutro(old(empresas), i, mesclada.cnpj) then
          r == Failure(NaoEncontrado(MsgErroAtualizar(cnpj, DetalheCnpjDuplicado)))
        else if falhaBanco.Some? then
          r == Failure(NaoEncontrado(MsgErroAtualizar(cnpj, falhaBanco.value)))
        else
          && r == Success(Confirmacao(MsgAtualizada(cnpj), StatusSucesso))
          && relogio == old(relogio) + 1
          && empresas == old(empresas)[i := mesclada.(alteradoEm := relogio)]
    {
      var achada := EncontrarEmpresaPorCnpj(empresas, cnpj);
      if achada.Failure? {
        r := Failure(NaoEncontrado(MsgErroAtualizar(cnpj, achada.error.mensagem)));
        return;
      }
      // The row the merged record's primary key points at.
      var i := IndicePorCnpj(empresas, cnpj).value;
      assert achada.value == empresas[i];
      var mesclada := Mesclar(achada.value, dados);
      if CnpjEmOutro(empresas, i, mesclada.cnpj) {
        r := Failure(NaoEncontrado(MsgErroAtualizar(cnpj, DetalheCnpjDuplicado)));
        return;
      }
      if falhaBanco.Some? {
        r := Failure(NaoEncontrado(MsgErroAtualizar(cnpj, falhaBanco.value)));
        return;
      }
      var salva := mesclada.(alteradoEm := relogio + 1);
      ValidoAposSubstituicao(empresas, proximoId, relogio, i, salva);
      empresas := empresas[i := salva];
      relogio := relogio + 1;
      r := Success(Confirmacao(MsgAtualizada(cnpj), StatusSucesso));
    }

    /** Removes the company with CNPJ `cnpj` and nothing else. A missing company
        or a failing removal is raised as Not Found and removes nothing. */
    method Excluir(cnpj: string, falhaBanco: Option<string>) returns (r: Result<Confirmacao, Erro>)
      requires Valid()
      modifies this
      ensures Valid()
      ensures proximoId == old(proximoId) && relogio == old(relogio)
      ensures r.Failure? ==> r.error.NaoEncontrado? && empresas == old(empresas)
      ensures !ExisteCnpj(old(empresas), cnpj) ==>
        r == Failure(NaoEncontrado(MsgErroExcluir(cnpj, MsgNaoEncontrada(cnpj))))
      ensures ExisteCnpj(old(empresas), cnpj) && falhaBanco.Some? ==>
        r == Failure(NaoEncontrado(MsgErroExcluir(cnpj, falhaBanco.value)))
      ensures ExisteCnpj(old(empresas), cnpj) && falhaBanco.None? ==>
        var i := IndicePorCnpj(old(empresas), cnpj).value;
        && r == Success(Confirmacao(MsgExcluida(old(empresas)[i].cnpj), StatusSucesso))
        && empresas == old(empresas)[..i] + old(empresas)[i + 1..]
        && |empresas| == |old(empresas)| - 1
        && (forall e :: e in empresas <==> e in old(empresas) && e.cnpj != cnpj)
    {
      var achada := EncontrarEmpresaPorCnpj(empresas, cnpj);
      if achada.Failure? {
        r := Failure(NaoEncontrado(MsgErroExcluir(cnpj, achada.error.mensagem)));
        return;
      }
      if falhaBanco.Some? {
        r := Failure(NaoEncontrado(MsgErroExcluir(cnpj, falhaBanco.value)));
        return;
      }
      var i := IndicePorCnpj(empresas, cnpj).value;
      assert achada.value == empresas[i];
      ValidoAposRemocao(empresas, proximoId, relogio, i);
      RemocaoPorCnpj(empresas, i);
      empresas := empresas[..i] + empresas[i + 1..];
      r := Success(Confirmacao(MsgExcluida(achada.value.cnpj), StatusSucesso));
    }
  }

  /** Creating a company twice on a fresh service whose setting lists two
      addresses separated by a comma and a space: the first create succeeds,
      stores a record whose timestamps agree and sends one mail to both
      addresses; the second is a conflict and stores nothing. */
  method CriacaoDuplicada(dados: DadosCriacao, a: string, b: string)
    returns (r1: Result<Confirmacao, Erro>, r2: Result<Confirmacao, Erro>, armazenadas: seq<Empresa>, ghost envios: seq<Envio>)
    requires dados.endereco.Some?
    requires EnderecoLimpo(a) && EnderecoLimpo(b)
    ensures r1 == Success(Confirmacao(MsgCriada(dados.cnpj), StatusSucesso))
    ensures r2 == Failure(Conflito(MsgJaCadastrada(dados.cnpj)))
    ensures |armazenadas| == 1 && armazenadas[0].cnpj == dados.cnpj
    ensures armazenadas[0].criadoEm == armazenadas[0].alteradoEm
    ensures |envios| == 1 && envios[0].email.para == [a, b] && envios[0].entregue
  {
    var n := new NotificacoesService(Some(a + ", " + b));
    var s := new EmpresaService(n);
    r1 := s.Criar(dados, false, false);
    assert !ExisteCnpj([], dados.cnpj);
    DestinatariosSeparadosPorEspaco(a, b);
    assert s.empresas[0].cnpj == dados.cnpj;
    r2 := s.Criar(dados, false, false);
    armazenadas := s.empresas;
    envios := n.envios;
  }
}
