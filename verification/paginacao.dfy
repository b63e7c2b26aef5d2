/** The arithmetic behind the paginated listing of companies: clamping the
    requested page and page size, the newest-first order the query asks for,
    the slice a page covers and the number of pages. */
module Paginacao {
  import opened Wrappers
  import opened EmpresaEntity

  const PaginaPadrao := 1
  const LimitePadrao := 10
  const LimiteMaximo := 100

  function Max(a: int, b: int): int { if a < b then b else a }
  function Min(a: int, b: int): int { if a < b then a else b }

  /** `Number(x) || padrao`: a value that is absent or not a number (NaN) and
      the value 0 are both falsy, so they give way to the default. */
  function OuPadrao(x: Option<int>, padrao: int): (r: int)
    ensures (x.None? || x.value == 0) ==> r == padrao
    ensures x.Some? && x.value != 0 ==> r == x.value
  {
    if x.None? || x.value == 0 then padrao else x.value
  }

  /** The page actually served: at least 1; absent, zero or negative means 1. */
  function ClampPagina(pagina: Option<int>): (r: int)
    ensures r >= 1
    ensures pagina.Some? && pagina.value >= 1 ==> r == pagina.value
    ensures (pagina.None? || pagina.value <= 0) ==> r == PaginaPadrao
  {
    Max(1, OuPadrao(pagina, PaginaPadrao))
  }

  /** The page size actually served: within [1, 100]; absent or zero means 10,
      above 100 means 100 and a negative request falls to 1. */
  function ClampLimite(limite: Option<int>): (r: int)
    ensures 1 <= r <= LimiteMaximo
    ensures limite.Some? && 1 <= limite.value <= LimiteMaximo ==> r == limite.value
    ensures limite.Some? && limite.value > LimiteMaximo ==> r == LimiteMaximo
    ensures limite.Some? && limite.value < 0 ==> r == 1
    ensures (limite.None? || limite.value == 0) ==> r == LimitePadrao
  {
    Min(Max(1, OuPadrao(limite, LimitePadrao)), LimiteMaximo)
  }

  /** `(pagina - 1) * limite`: the records on the pages before `pagina`. */
  function Pule(pagina: int, limite: int): (r: nat)
    requires pagina >= 1 && limite >= 1
    ensures pagina == 1 ==> r == 0
    ensures pagina > 1 ==> r >= limite
  {
    (pagina - 1) * limite
  }

  /** `Math.ceil(total / limite)`: the fewest pages of `limite` items that hold
      `total` items. */
  function TotalPaginas(total: nat, limite: int): (r: nat)
    requires limite >= 1
    ensures r * limite >= total
    ensures r > 0 ==> (r - 1) * limite < total
    ensures r == 0 <==> total == 0
  {
    var q := (total + limite - 1) / limite;
    var m := (total + limite - 1) % limite;
    assert total + limite - 1 == q * limite + m;
    assert q * limite == total + limite - 1 - m;
    assert (q - 1) * limite == q * limite - limite;
    q
  }

  /** The query's order: `criadoEm` descending. */
  predicate Decrescente(s: seq<Empresa>) {
    forall i, j :: 0 <= i < j < |s| ==> s[i].criadoEm >= s[j].criadoEm
  }

  /** Places `e` into a newest-first sequence, ahead of records no newer than it. */
  function InserirOrdenado(e: Empresa, s: seq<Empresa>): (r: seq<Empresa>)
    requires Decrescente(s)
    ensures Decrescente(r)
    ensures multiset(r) == multiset(s) + multiset{e}
    ensures forall x :: x in r ==> x == e || x in s
  {
    if s == [] || s[0].criadoEm <= e.criadoEm then
      DecrescenteComCabeca(e, s);
      [e] + s
    else
      var resto := InserirOrdenado(e, s[1..]);
      assert s == [s[0]] + s[1..];
      DecrescenteComCabeca(s[0], resto);
      [s[0]] + resto
  }

  /** A record no older than every record of a newest-first sequence can lead it. */
  lemma DecrescenteComCabeca(x: Empresa, s: seq<Empresa>)
    requires Decrescente(s)
    requires forall y :: y in s ==> y.criadoEm <= x.criadoEm
    ensures Decrescente([x] + s)
  {
    var t := [x] + s;
    forall i, j | 0 <= i < j < |t| ensures t[i].criadoEm >= t[j].criadoEm {
      assert t[j] == s[j - 1];
      if i > 0 {
        assert t[i] == s[i - 1];
      } else {
        assert s[j - 1] in s;
      }
    }
  }

  /** The records newest first; records created at the same tick keep their
      insertion order. */
  function Ordenar(s: seq<Empresa>): (r: seq<Empresa>)
    ensures Decrescente(r)
    ensures multiset(r) == multiset(s)
    ensures |r| == |s|
  {
    if s == [] then []
    else
      assert s == [s[0]] + s[1..];
      InserirOrdenado(s[0], Ordenar(s[1..]))
  }

  /** `skip pule, take limite` over a sequence. */
  function Fatia<T>(s: seq<T>, pule: nat, limite: nat): (r: seq<T>)
    ensures |r| == Min(limite, Max(0, |s| - pule))
    ensures forall i :: 0 <= i < |r| ==> r[i] == s[pule + i]
  {
    s[Min(pule, |s|)..Min(pule + limite, |s|)]
  }

  /** Pages 1 to k, in order, one after the other. */
  function Paginas<T>(s: seq<T>, limite: nat, k: nat): seq<T> {
    if k == 0 then [] else Paginas(s, limite, k - 1) + Fatia(s, (k - 1) * limite, limite)
  }

  /** Pages 1 to k, put one after the other, are the first `k * limite` records. */
  lemma {:induction false} PaginasPrefixo<T>(s: seq<T>, limite: nat, k: nat)
    ensures Paginas(s, limite, k) == s[..Min(k * limite, |s|)]
  {
    if k == 0 {
      assert k * limite == 0;
    } else {
      var m := (k - 1) * limite;
      PaginasPrefixo(s, limite, k - 1);
      InicioDaPagina(k, limite);
      PaginaSeguinte(s, limite, k, m);
    }
  }

  /** Page k ends where page k + 1 starts. */
  lemma InicioDaPagina(k: nat, limite: nat)
    requires k > 0
    ensures (k - 1) * limite + limite == k * limite
  {
  }

  /** Adding page k, which starts at `m`, to the records before `m` gives the
      records before `m + limite`. */
  lemma PaginaSeguinte<T>(s: seq<T>, limite: nat, k: nat, m: nat)
    requires k > 0 && m == (k - 1) * limite
    requires Paginas(s, limite, k - 1) == s[..Min(m, |s|)]
    ensures Paginas(s, limite, k) == s[..Min(m + limite, |s|)]
  {
    var a, b := Min(m, |s|), Min(m + limite, |s|);
    assert Fatia(s, m, limite) == s[a..b];
    assert s[..a] + s[a..b] == s[..b];
  }

  /** Walking the pages 1 to totalPaginas yields every record exactly once, in
      order: no record is skipped or repeated between pages. */
  lemma PaginasCobremTudo<T>(s: seq<T>, limite: nat)
    requires limite >= 1
    ensures Paginas(s, limite, TotalPaginas(|s|, limite)) == s
  {
    var n := TotalPaginas(|s|, limite);
    PaginasPrefixo(s, limite, n);
    assert Min(n * limite, |s|) == |s|;
  }
}
