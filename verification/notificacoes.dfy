/** The notice sent when a company is created: the recipient list derived from
    the configured NOTIFICATION_EMAILS string, the message built for the new
    record, and the notification service that sends it at most once per call
    and swallows delivery failures. */
module Notificacoes {
  import opened Wrappers
  import opened EmpresaEntity

  /** The characters `String.prototype.trim` strips: ECMAScript white space
      (tab, vertical tab, form feed, space, no-break space, the BOM and the
      space separators) and line terminators. */
  predicate EhEspaco(c: char) {
    || c == '\t' || c == '\n' || c == '\U{000B}' || c == '\U{000C}' || c == '\r'
    || c == ' ' || c == '\U{00A0}' || c == '\U{1680}'
    || ('\U{2000}' <= c <= '\U{200A}')
    || c == '\U{2028}' || c == '\U{2029}' || c == '\U{202F}' || c == '\U{205F}'
    || c == '\U{3000}' || c == '\U{FEFF}'
  }

  // ---------------------------------------------------------------------------
  // split(',')

  /** `s.split(sep)`: the maximal runs between separators, so the empty string
      gives one empty piece and adjacent separators give empty pieces. */
  function Dividir(s: string, sep: char): (r: seq<string>)
    ensures |r| >= 1
    ensures forall i :: 0 <= i < |r| ==> sep !in r[i]
  {
    if |s| == 0 then [""]
    else
      var resto := Dividir(s[1..], sep);
      if s[0] == sep then [""] + resto
      else [[s[0]] + resto[0]] + resto[1..]
  }

  /** `partes.join(sep)`. */
  function Juntar(partes: seq<string>, sep: char): string
    requires |partes| >= 1
  {
    if |partes| == 1 then partes[0] else partes[0] + [sep] + Juntar(partes[1..], sep)
  }

  /** Joining the pieces of a split gives back the original string. */
  lemma {:induction false} JuntarDividir(s: string, sep: char)
    ensures Juntar(Dividir(s, sep), sep) == s
  {
    if |s| > 0 {
      var resto := Dividir(s[1..], sep);
      JuntarDividir(s[1..], sep);
      if s[0] == sep {
        assert ([""] + resto)[1..] == resto;
      } else {
        var r := [[s[0]] + resto[0]] + resto[1..];
        assert r[1..] == resto[1..];
        if |resto| > 1 {
          assert Juntar(resto, sep) == resto[0] + [sep] + Juntar(resto[1..], sep);
        }
      }
    }
  }

  /** Splitting `p + t`, where `p` holds no separator, glues `p` to the front
      of the first piece of `t`. */
  lemma {:induction false} DividirPrefixo(p: string, t: string, sep: char)
    requires sep !in p
    ensures Dividir(p + t, sep) == [p + Dividir(t, sep)[0]] + Dividir(t, sep)[1..]
  {
    if |p| > 0 {
      DividirPrefixo(p[1..], t, sep);
      assert (p + t)[1..] == p[1..] + t;
      assert (p + t)[0] == p[0];
      assert [p[0]] + (p[1..] + Dividir(t, sep)[0]) == p + Dividir(t, sep)[0];
    } else {
      var d := Dividir(t, sep);
      assert p + t == t && p + d[0] == d[0];
      assert [d[0]] + d[1..] == d;
    }
  }

  /** Splitting a join of separator-free pieces gives back the pieces. */
  lemma {:induction false} DividirJuntar(partes: seq<string>, sep: char)
    requires |partes| >= 1
    requires forall i :: 0 <= i < |partes| ==> sep !in partes[i]
    ensures Dividir(Juntar(partes, sep), sep) == partes
  {
    if |partes| == 1 {
      DividirPrefixo(partes[0], "", sep);
      assert partes[0] + "" == partes[0];
    } else {
      var u := Juntar(partes[1..], sep);
      DividirJuntar(partes[1..], sep);
      DividirPrefixo(partes[0], [sep] + u, sep);
      assert partes[0] + [sep] + u == partes[0] + ([sep] + u);
      assert ([sep] + u)[1..] == u;
      assert Dividir([sep] + u, sep) == [""] + Dividir(u, sep);
      assert partes[0] + "" == partes[0];
      assert partes == [partes[0]] + partes[1..];
    }
  }

  // ---------------------------------------------------------------------------
  // trim()

  /** Drops leading white space. */
  function ApararInicio(s: string): (r: string)
    ensures |r| <= |s| && r == s[|s| - |r|..]
    ensures forall k :: 0 <= k < |s| - |r| ==> EhEspaco(s[k])
    ensures |r| > 0 ==> !EhEspaco(r[0])
  {
    if |s| > 0 && EhEspaco(s[0]) then ApararInicio(s[1..]) else s
  }

  /** Drops trailing white space. */
  function ApararFim(s: string): (r: string)
    ensures |r| <= |s| && r == s[..|r|]
    ensures forall k :: |r| <= k < |s| ==> EhEspaco(s[k])
    ensures |r| > 0 ==> !EhEspaco(r[|r| - 1])
  {
    if |s| > 0 && EhEspaco(s[|s| - 1]) then ApararFim(s[..|s| - 1]) else s
  }

  /** `r` is the piece of `s` starting at `i`, and every character of `s`
      outside that piece is white space. */
  ghost predicate MeioAparado(s: string, r: string, i: int) {
    && 0 <= i <= |s| - |r|
    && s[i..i + |r|] == r
    && (forall k :: 0 <= k < i ==> EhEspaco(s[k]))
    && (forall k :: i + |r| <= k < |s| ==> EhEspaco(s[k]))
  }

  /** `s.trim()`: the middle of `s` once the white space on both ends is gone. */
  function Aparar(s: string): (r: string)
    ensures |r| > 0 ==> !EhEspaco(r[0]) && !EhEspaco(r[|r| - 1])
    ensures forall c :: c in r ==> c in s
  {
    ApararFim(ApararInicio(s))
  }

  /** trim keeps one contiguous piece of `s` and drops only white space around
      it; with the clean ends above, that piece is the one trim returns. */
  lemma ApararRecorta(s: string)
    ensures exists i :: MeioAparado(s, Aparar(s), i)
  {
    var inicio := ApararInicio(s);
    MeioEntreEspacos(s, inicio, ApararFim(inicio));
    assert MeioAparado(s, Aparar(s), |s| - |inicio|);
  }

  /** A prefix `r` of a suffix `inicio` of `s`, with only white space cut off
      on either side, is a trimmed middle of `s`. */
  lemma MeioEntreEspacos(s: string, inicio: string, r: string)
    requires |inicio| <= |s| && inicio == s[|s| - |inicio|..]
    requires forall k :: 0 <= k < |s| - |inicio| ==> EhEspaco(s[k])
    requires |r| <= |inicio| && r == inicio[..|r|]
    requires forall k :: |r| <= k < |inicio| ==> EhEspaco(inicio[k])
    ensures MeioAparado(s, r, |s| - |inicio|)
  {
    var i := |s| - |inicio|;
    assert s[i..i + |r|] == r;
    forall k | i + |r| <= k < |s| ensures EhEspaco(s[k]) {
      assert s[k] == inicio[k - i];
    }
  }

  /** A string with no white space at either end is left as it is by trim. */
  lemma ApararSemEspacos(s: string)
    requires |s| > 0 ==> !EhEspaco(s[0]) && !EhEspaco(s[|s| - 1])
    ensures Aparar(s) == s
  {
  }

  /** trim yields the empty string exactly when the string is all white space. */
  lemma ApararVazio(s: string)
    ensures Aparar(s) == [] <==> forall k :: 0 <= k < |s| ==> EhEspaco(s[k])
  {
  }

  // ---------------------------------------------------------------------------
  // Recipients

  /** `.map(s => s.trim())`: one trimmed piece per piece, in place. */
  function ApararTodos(ps: seq<string>): (r: seq<string>)
    ensures |r| == |ps|
    ensures forall i :: 0 <= i < |r| ==> r[i] == Aparar(ps[i])
  {
    seq(|ps|, i requires 0 <= i < |ps| => Aparar(ps[i]))
  }

  /** `.filter(Boolean)`: keeps the non-empty strings, in order. */
  function SemVazios(ps: seq<string>): (r: seq<string>)
    ensures forall x :: x in r ==> x != [] && x in ps
    ensures forall x :: x in ps && x != [] ==> x in r
    ensures |r| <= |ps|
  {
    if ps == [] then []
    else
      assert forall x :: x in ps ==> x == ps[0] || x in ps[1..];
      (if ps[0] == [] then [] else [ps[0]]) + SemVazios(ps[1..])
  }

  /** The filter keeps the order: filtering a concatenation is concatenating
      the filtered parts. */
  lemma {:induction false} SemVaziosConcatenacao(a: seq<string>, b: seq<string>)
    ensures SemVazios(a + b) == SemVazios(a) + SemVazios(b)
  {
    if a != [] {
      assert (a + b)[0] == a[0];
      assert (a + b)[1..] == a[1..] + b;
      SemVaziosConcatenacao(a[1..], b);
    } else {
      assert a + b == b;
    }
  }

  lemma {:induction false} SemVaziosIdentidade(ps: seq<string>)
    requires forall i :: 0 <= i < |ps| ==> ps[i] != []
    ensures SemVazios(ps) == ps
  {
    if ps != [] {
      SemVaziosIdentidade(ps[1..]);
    }
  }

  /** A usable recipient: non-empty, no white space at either end, no comma. */
  predicate EnderecoLimpo(x: string) {
    x != [] && !EhEspaco(x[0]) && !EhEspaco(x[|x| - 1]) && ',' !in x
  }

  /** The recipients: NOTIFICATION_EMAILS (absent counts as empty) split on
      commas, each piece trimmed, empty pieces dropped. */
  function Destinatarios(config: Option<string>): (r: seq<string>)
    ensures forall x :: x in r ==> EnderecoLimpo(x)
  {
    var pecas := Dividir(config.GetOr(""), ',');
    AparadasLimpas(pecas);
    SemVazios(ApararTodos(pecas))
  }

  /** Trimming comma-free pieces leaves only clean addresses and empty strings. */
  lemma AparadasLimpas(pecas: seq<string>)
    requires forall i :: 0 <= i < |pecas| ==> ',' !in pecas[i]
    ensures forall x :: x in ApararTodos(pecas) && x != [] ==> EnderecoLimpo(x)
  {
    var aparadas := ApararTodos(pecas);
    forall x | x in aparadas && x != [] ensures EnderecoLimpo(x) {
      var i :| 0 <= i < |aparadas| && aparadas[i] == x;
      assert x == Aparar(pecas[i]) && ',' !in pecas[i];
    }
  }

  /** A setting built by joining comma-free pieces yields those pieces, each
      trimmed, with the empty ones dropped, in order. */
  lemma DestinatariosDeJuncao(pecas: seq<string>)
    requires |pecas| >= 1
    requires forall i :: 0 <= i < |pecas| ==> ',' !in pecas[i]
    ensures Destinatarios(Some(Juntar(pecas, ','))) == SemVazios(ApararTodos(pecas))
  {
    DividirJuntar(pecas, ',');
  }

  /** Trimming clean addresses changes none of them. */
  lemma ApararTodosIdentidade(ps: seq<string>)
    requires forall i :: 0 <= i < |ps| ==> EnderecoLimpo(ps[i])
    ensures ApararTodos(ps) == ps
  {
    forall i | 0 <= i < |ps| ensures Aparar(ps[i]) == ps[i] {
      ApararSemEspacos(ps[i]);
    }
  }

  /** Configuring a list of clean addresses joined by commas yields exactly
      that list, in the configured order. */
  lemma DestinatariosDeLista(enderecos: seq<string>)
    requires |enderecos| >= 1
    requires forall i :: 0 <= i < |enderecos| ==> EnderecoLimpo(enderecos[i])
    ensures Destinatarios(Some(Juntar(enderecos, ','))) == enderecos
  {
    DestinatariosDeJuncao(enderecos);
    ApararTodosIdentidade(enderecos);
    SemVaziosIdentidade(enderecos);
  }

  /** An absent or empty setting gives no recipients. */
  lemma DestinatariosAusentes()
    ensures Destinatarios(None) == []
    ensures Destinatarios(Some("")) == []
  {
  }

  /** One configured address gives that single recipient. */
  lemma DestinatarioUnico()
    ensures Destinatarios(Some("test@example.com")) == ["test@example.com"]
  {
    var a := "test@example.com";
    assert ',' !in a;
    DestinatariosDeLista([a]);
  }

  /** Two clean addresses separated by a comma and a space give exactly those
      two recipients: the space is trimmed away. */
  lemma DestinatariosSeparadosPorEspaco(a: string, b: string)
    requires EnderecoLimpo(a) && EnderecoLimpo(b)
    ensures Destinatarios(Some(a + ", " + b)) == [a, b]
  {
    var ps := [a, " " + b];
    JuntarComEspaco(a, b);
    DestinatariosDeJuncao(ps);
    ApararEspacoInicial(b);
    ApararSemEspacos(a);
    assert ApararTodos(ps) == [a, b];
    SemVaziosIdentidade([a, b]);
  }

  /** The setting `a, b` is the comma join of `a` and ` b`, neither of which
      holds a comma. */
  lemma JuntarComEspaco(a: string, b: string)
    requires ',' !in a && ',' !in b
    ensures Juntar([a, " " + b], ',') == a + ", " + b
    ensures ',' !in " " + b
  {
    var ps := [a, " " + b];
    assert ps[1..] == [" " + b];
    assert a + [','] + (" " + b) == a + ", " + b;
  }

  /** trim removes the space in front of a clean address. */
  lemma ApararEspacoInicial(b: string)
    requires EnderecoLimpo(b)
    ensures Aparar(" " + b) == b
  {
    assert (" " + b)[1..] == b;
    ApararSemEspacos(b);
  }

  // ---------------------------------------------------------------------------
  // The message

  datatype Email = Email(para: seq<string>, assunto: string, html: string)

  /** One call to the mail transport; `entregue` is false when it raised. */
  datatype Envio = Envio(email: Email, entregue: bool)

  const PrefixoAssunto := "Nova empresa cadastrada: "

  /** The subject names the company: the fixed prefix followed by `nome`. */
  function Assunto(e: Empresa): (r: string)
    ensures |r| == |PrefixoAssunto| + |e.nome|
    ensures r[..|PrefixoAssunto|] == PrefixoAssunto
    ensures r[|PrefixoAssunto|..] == e.nome
  {
    PrefixoAssunto + e.nome
  }

  const AberturaHtml := "<p>Uma nova empresa foi cadastrada:</p>"
  const ItemNome := "\n      <ul>\n        <li><strong>Nome:</strong> "
  const ItemCnpj := "</li>\n        <li><strong>CNPJ:</strong> "
  const ItemNomeFantasia := "</li>\n        <li><strong>Nome Fantasia:</strong> "
  const ItemEndereco := "</li>\n        <li><strong>Endereço:</strong> "
  const RodapeHtml := "</li>\n      </ul>\n    "

  /** The template's fixed text and interpolated fields, in order. */
  function PartesCorpo(e: Empresa): seq<string> {
    ["\n      ", AberturaHtml, ItemNome, e.nome, ItemCnpj, e.cnpj,
     ItemNomeFantasia, e.nomeFantasia, ItemEndereco, e.endereco, RodapeHtml]
  }

  /** The parts written one after the other. */
  function Concatenar(partes: seq<string>): string {
    if partes == [] then [] else partes[0] + Concatenar(partes[1..])
  }

  /** The HTML body: an opening line, then one list item per field. */
  function CorpoHtml(e: Empresa): string {
    Concatenar(PartesCorpo(e))
  }

  /** `t` occurs in `s` starting at position `i`. */
  ghost predicate OcorreEm(s: string, t: string, i: int) {
    0 <= i <= |s| - |t| && s[i..i + |t|] == t
  }

  ghost predicate Contem(s: string, t: string) {
    exists i :: OcorreEm(s, t, i)
  }

  /** Every part occurs in the concatenation of the parts. */
  lemma {:induction false} ConcatenarContem(partes: seq<string>, k: nat)
    requires k < |partes|
    ensures Contem(Concatenar(partes), partes[k])
  {
    var resto := Concatenar(partes[1..]);
    assert Concatenar(partes) == partes[0] + resto;
    if k == 0 {
      assert (partes[0] + resto)[0..|partes[0]|] == partes[0];
      assert OcorreEm(Concatenar(partes), partes[0], 0);
    } else {
      ConcatenarContem(partes[1..], k - 1);
      var t := partes[k];
      assert partes[1..][k - 1] == t;
      var i :| OcorreEm(resto, t, i);
      var j := |partes[0]| + i;
      assert (partes[0] + resto)[j..j + |t|] == resto[i..i + |t|];
      assert OcorreEm(Concatenar(partes), t, j);
    }
  }

  /** The body opens with the fixed announcement line and lists the name, CNPJ,
      trade name and address of the company. */
  lemma CorpoListaCampos(e: Empresa)
    ensures Contem(CorpoHtml(e), AberturaHtml)
    ensures Contem(CorpoHtml(e), e.nome)
    ensures Contem(CorpoHtml(e), e.cnpj)
    ensures Contem(CorpoHtml(e), e.nomeFantasia)
    ensures Contem(CorpoHtml(e), e.endereco)
  {
    var partes := PartesCorpo(e);
    ConcatenarContem(partes, 1);
    ConcatenarContem(partes, 3);
    ConcatenarContem(partes, 5);
    ConcatenarContem(partes, 7);
    ConcatenarContem(partes, 9);
  }

  /** The mail announcing `e` to the recipients `para`. */
  function MensagemNovaEmpresa(para: seq<string>, e: Empresa): Email {
    Email(para, Assunto(e), CorpoHtml(e))
  }

  /** The mail goes to exactly `para`, its subject names the company and its
      body lists the company's four fields. */
  lemma MensagemNovaEmpresaCampos(para: seq<string>, e: Empresa)
    ensures MensagemNovaEmpresa(para, e).para == para
    ensures MensagemNovaEmpresa(para, e).assunto == PrefixoAssunto + e.nome
    ensures var html := MensagemNovaEmpresa(para, e).html;
      Contem(html, e.nome) && Contem(html, e.cnpj) && Contem(html, e.nomeFantasia) && Contem(html, e.endereco)
  {
    CorpoListaCampos(e);
  }

  /** The mail transport calls one notification makes: none without recipients,
      otherwise exactly one, to all of them, with the subject and body above. */
  function EnviosDaNotificacao(config: Option<string>, e: Empresa, falhaEnvio: bool): (r: seq<Envio>)
    ensures |r| <= 1
    ensures r == [] <==> Destinatarios(config) == []
    ensures r != [] ==> r[0].email.para == Destinatarios(config) && r[0].entregue == !falhaEnvio
    ensures r != [] ==> r[0].email.assunto == Assunto(e) && r[0].email.html == CorpoHtml(e)
  {
    var para := Destinatarios(config);
    if para == [] then [] else [Envio(MensagemNovaEmpresa(para, e), !falhaEnvio)]
  }

  /** The notification service. `emails` is the NOTIFICATION_EMAILS setting;
      `recebidas` records every company it was asked to announce and `envios`
      every call it made to the mail transport. */
  class NotificacoesService {
    const emails: Option<string>
    ghost var recebidas: seq<Empresa>
    ghost var envios: seq<Envio>

    constructor (emails: Option<string>)
      ensures this.emails == emails && recebidas == [] && envios == []
    {
      this.emails := emails;
      recebidas := [];
      envios := [];
    }

    /** Announces a new company. Returns normally in every case: with no
        recipients it sends nothing, and a failed send is only logged. */
    method EnviarNotificacaoCriacaoEmpresa(empresa: Empresa, falhaEnvio: bool)
      modifies this
      ensures recebidas == old(recebidas) + [empresa]
      ensures envios == old(envios) + EnviosDaNotificacao(emails, empresa, falhaEnvio)
    {
      recebidas := recebidas + [empresa];
      var recebedores := Destinatarios(emails);
      if recebedores == [] {
        return;
      }
      var email := MensagemNovaEmpresa(recebedores, empresa);
      envios := envios + [Envio(email, !falhaEnvio)];
    }
  }
}
