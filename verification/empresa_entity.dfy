/** The `Empresa` record (a registered company) and the constraints its columns
    declare: a generated primary key, a unique CNPJ of 14 digits, three required
    text fields and the creation/update timestamps. */
module EmpresaEntity {
  import opened Wrappers

  /** One stored company. Timestamps are ticks of an abstract clock. */
  datatype Empresa = Empresa(
    id: nat,
    nome: string,
    cnpj: string,
    nomeFantasia: string,
    endereco: string,
    criadoEm: nat,
    alteradoEm: nat)

  predicate EhDigito(c: char) {
    '0' <= c <= '9'
  }

  /** The column's declared pattern: exactly 14 decimal digits. */
  predicate CnpjValido(cnpj: string) {
    |cnpj| == 14 && forall i :: 0 <= i < |cnpj| ==> EhDigito(cnpj[i])
  }

  /** Every constraint the entity declares on a single record. The service does
      not enforce the text and pattern rules; they describe a well-formed record. */
  predicate EmpresaValida(e: Empresa) {
    && e.nome != []
    && CnpjValido(e.cnpj)
    && e.nomeFantasia != []
    && e.endereco != []
    && e.criadoEm <= e.alteradoEm
  }

  /** The unique column: no two stored records share a CNPJ. */
  predicate CnpjsUnicos(s: seq<Empresa>) {
    forall i, j :: 0 <= i < j < |s| ==> s[i].cnpj != s[j].cnpj
  }

  /** The generated primary key: no two stored records share an id. */
  predicate IdsUnicos(s: seq<Empresa>) {
    forall i, j :: 0 <= i < j < |s| ==> s[i].id != s[j].id
  }

  predicate ExisteCnpj(s: seq<Empresa>, cnpj: string) {
    exists i :: 0 <= i < |s| && s[i].cnpj == cnpj
  }

  /** The repository's find-one by CNPJ: the position of the first record with
      that CNPJ, or None when there is none. */
  function IndicePorCnpj(s: seq<Empresa>, cnpj: string): (r: Option<nat>)
    ensures r.Some? ==> r.value < |s| && s[r.value].cnpj == cnpj
    ensures r.Some? ==> forall k :: 0 <= k < r.value ==> s[k].cnpj != cnpj
    ensures r.None? <==> !ExisteCnpj(s, cnpj)
  {
    if |s| == 0 then None
    else if s[0].cnpj == cnpj then Some(0)
    else
      match IndicePorCnpj(s[1..], cnpj)
      case None => None
      case Some(k) => Some(k + 1)
  }

  /** With unique CNPJs, the record found is the only one carrying that CNPJ. */
  lemma IndicePorCnpjUnico(s: seq<Empresa>, cnpj: string, j: nat)
    requires CnpjsUnicos(s)
    requires j < |s| && s[j].cnpj == cnpj
    ensures IndicePorCnpj(s, cnpj) == Some(j)
  {
  }

  /** Appending a record whose CNPJ is new keeps the CNPJs unique. */
  lemma CnpjsUnicosAposInsercao(s: seq<Empresa>, e: Empresa)
    requires CnpjsUnicos(s)
    requires !ExisteCnpj(s, e.cnpj)
    ensures CnpjsUnicos(s + [e])
  {
    var t := s + [e];
    forall i, j | 0 <= i < j < |t|
      ensures t[i].cnpj != t[j].cnpj
    {
      if j == |s| {
        assert t[i] == s[i];
      }
    }
  }

  /** Some record other than the one at position `i` carries `cnpj`. */
  predicate CnpjEmOutro(s: seq<Empresa>, i: nat, cnpj: string) {
    exists j :: 0 <= j < |s| && j != i && s[j].cnpj == cnpj
  }

  /** The invariant of the repository: unique CNPJs and ids, every id below the
      next one to be generated, and `criadoEm <= alteradoEm <= relogio`. */
  predicate RepositorioValido(s: seq<Empresa>, proximoId: nat, relogio: nat) {
    && CnpjsUnicos(s)
    && IdsUnicos(s)
    && (forall i :: 0 <= i < |s| ==> s[i].id < proximoId)
    && (forall i :: 0 <= i < |s| ==> s[i].criadoEm <= s[i].alteradoEm <= relogio)
  }

  /** Inserting a record with a new CNPJ, the next id and the next tick as both
      timestamps keeps the repository valid. */
  lemma ValidoAposInsercao(s: seq<Empresa>, proximoId: nat, relogio: nat, e: Empresa)
    requires RepositorioValido(s, proximoId, relogio)
    requires !ExisteCnpj(s, e.cnpj)
    requires e.id == proximoId && e.criadoEm == e.alteradoEm == relogio + 1
    ensures RepositorioValido(s + [e], proximoId + 1, relogio + 1)
  {
    CnpjsUnicosAposInsercao(s, e);
    var t := s + [e];
    forall i, j | 0 <= i < j < |t| ensures t[i].id != t[j].id {
      if j == |s| {
        assert t[i] == s[i];
      }
    }
  }

  /** Overwriting the record at `i` with one that keeps its id and creation
      time, is stamped with the next tick and takes no other record's CNPJ
      keeps the repository valid. */
  lemma ValidoAposSubstituicao(s: seq<Empresa>, proximoId: nat, relogio: nat, i: nat, e: Empresa)
    requires RepositorioValido(s, proximoId, relogio)
    requires i < |s|
    requires e.id == s[i].id && e.criadoEm == s[i].criadoEm && e.alteradoEm == relogio + 1
    requires !CnpjEmOutro(s, i, e.cnpj)
    ensures RepositorioValido(s[i := e], proximoId, relogio + 1)
  {
    var t := s[i := e];
    forall a, b | 0 <= a < b < |t| ensures t[a].cnpj != t[b].cnpj && t[a].id != t[b].id {
      if a == i {
        assert s[b].cnpj != e.cnpj;
      } else if b == i {
        assert s[a].cnpj != e.cnpj;
      }
    }
  }

  /** Removing one record keeps the repository valid. */
  lemma ValidoAposRemocao(s: seq<Empresa>, proximoId: nat, relogio: nat, i: nat)
    requires RepositorioValido(s, proximoId, relogio)
    requires i < |s|
    ensures RepositorioValido(s[..i] + s[i + 1..], proximoId, relogio)
  {
    var t := s[..i] + s[i + 1..];
    forall a, b | 0 <= a < b < |t| ensures t[a].cnpj != t[b].cnpj && t[a].id != t[b].id {
      var a' := if a < i then a else a + 1;
      var b' := if b < i then b else b + 1;
      assert t[a] == s[a'] && t[b] == s[b'];
    }
    forall k | 0 <= k < |t| ensures t[k].id < proximoId && t[k].criadoEm <= t[k].alteradoEm <= relogio {
      assert t[k] == s[if k < i then k else k + 1];
    }
  }

  /** Removing the record that holds `cnpj` leaves exactly the records with
      another CNPJ. */
  lemma RemocaoPorCnpj(s: seq<Empresa>, i: nat)
    requires CnpjsUnicos(s)
    requires i < |s|
    ensures forall e :: e in s[..i] + s[i + 1..] <==> e in s && e.cnpj != s[i].cnpj
  {
    var t := s[..i] + s[i + 1..];
    forall e ensures e in t <==> e in s && e.cnpj != s[i].cnpj {
      if e in t {
        var k :| 0 <= k < |t| && t[k] == e;
        assert t[k] == s[if k < i then k else k + 1];
      }
      if e in s && e.cnpj != s[i].cnpj {
        var k :| 0 <= k < |s| && s[k] == e;
        assert k != i;
        assert e == t[if k < i then k else k - 1];
      }
    }
  }
}
