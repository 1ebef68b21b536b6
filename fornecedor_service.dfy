/**
 * `FornecedorService` over `FornecedorRepository`: registering, editing and
 * removing suppliers, with the rule that no two suppliers share a CNPJ.
 *
 * The repository works through a data context that keeps the entities it handed
 * out ("tracked") and writes every change made to them whenever it saves, while
 * the CNPJ lookup reads the saved rows only. `Contexto` models both: the saved
 * rows and the tracked copies by id.
 */
module Fornecedores {
  import opened Wrappers
  import opened Somas

  /** A supplier; the text columns can be null. */
  datatype FornecedorData = FornecedorData(
    id: int,
    razaoSocial: Option<string>,
    nomeFantasia: Option<string>,
    cnpj: Option<string>,
    email: Option<string>,
    telefone: Option<string>,
    ativo: bool)

  datatype ErroFornecedor =
    | RazaoSocialObrigatoria
    | CnpjObrigatorio
    | CnpjDuplicado
    | NaoEncontrado
    | CnpjDeOutro

  /** `string.IsNullOrEmpty`: whitespace is not empty. */
  predicate NuloOuVazio(s: Option<string>) {
    s.None? || s.value == ""
  }

  function Ids(banco: seq<FornecedorData>): set<int> {
    set r | r in banco :: r.id
  }

  /** `FirstOrDefault(f => f.CNPJ == cnpj)` over the saved rows. */
  function PrimeiroComCnpj(banco: seq<FornecedorData>, cnpj: Option<string>): (r: Option<FornecedorData>)
    ensures r.None? <==> forall i :: 0 <= i < |banco| ==> banco[i].cnpj != cnpj
    ensures r.Some? ==> exists i :: 0 <= i < |banco| && banco[i] == r.value && r.value.cnpj == cnpj
                                    && forall j :: 0 <= j < i ==> banco[j].cnpj != cnpj
    decreases |banco|
  {
    if banco == [] then None
    else if banco[0].cnpj == cnpj then Some(banco[0])
    else
      var r := PrimeiroComCnpj(banco[1..], cnpj);
      assert forall i :: 0 < i < |banco| ==> banco[i] == banco[1..][i - 1];
      if r.Some? then
        assert exists i :: 0 < i < |banco| && banco[i] == r.value && r.value.cnpj == cnpj
                           && forall j :: 0 <= j < i ==> banco[j].cnpj != cnpj by {
          var i :| 0 <= i < |banco[1..]| && banco[1..][i] == r.value && r.value.cnpj == cnpj
            && forall j :: 0 <= j < i ==> banco[1..][j].cnpj != cnpj;
          assert banco[i + 1] == r.value;
          forall j | 0 <= j < i + 1 ensures banco[j].cnpj != cnpj {
            if j > 0 {
              assert banco[j] == banco[1..][j - 1];
            }
          }
        }
        r
      else r
  }

  /** The saved rows, the tracked copies by id, and the next identity value. */
  datatype Contexto = Contexto(banco: seq<FornecedorData>, rastreados: map<int, FornecedorData>, proximoId: int)

  /** Keys are unique and below the identity counter, and only saved rows are tracked, each under its own id. */
  predicate Valido(c: Contexto) {
    c.proximoId > 0
    && (forall i :: 0 <= i < |c.banco| ==> 0 < c.banco[i].id < c.proximoId)
    && (forall i, j :: 0 <= i < j < |c.banco| ==> c.banco[i].id != c.banco[j].id)
    && (forall k :: k in c.rastreados ==> c.rastreados[k].id == k && k in Ids(c.banco))
  }

  /** No tracked copy differs from its saved row: a save would write nothing. */
  predicate Limpo(c: Contexto) {
    forall i :: 0 <= i < |c.banco| && c.banco[i].id in c.rastreados ==> c.rastreados[c.banco[i].id] == c.banco[i]
  }

  predicate CnpjUnico(banco: seq<FornecedorData>) {
    forall i, j :: 0 <= i < j < |banco| ==> banco[i].cnpj != banco[j].cnpj
  }

  /** What the service keeps: a valid context, no pending change, and unique CNPJs. */
  predicate Consistente(c: Contexto) {
    Valido(c) && Limpo(c) && CnpjUnico(c.banco)
  }

  /** `SaveChanges`: every tracked copy is written over its row. */
  function SalvarMudancas(c: Contexto): (r: Contexto)
    ensures |r.banco| == |c.banco| && r.rastreados == c.rastreados && r.proximoId == c.proximoId
    ensures forall i :: 0 <= i < |c.banco| ==>
      r.banco[i] == if c.banco[i].id in c.rastreados then c.rastreados[c.banco[i].id] else c.banco[i]
  {
    c.(banco := seq(|c.banco|, i requires 0 <= i < |c.banco| =>
      if c.banco[i].id in c.rastreados then c.rastreados[c.banco[i].id] else c.banco[i]))
  }

  /** Saving a clean context writes nothing. */
  lemma SalvarLimpo(c: Contexto)
    requires Limpo(c)
    ensures SalvarMudancas(c) == c
  {
    assert SalvarMudancas(c).banco == c.banco;
  }

  /** The position of the row with key `id`, if any. */
  function IndiceComId(banco: seq<FornecedorData>, id: int): (r: Option<nat>)
    ensures r.None? <==> id !in Ids(banco)
    ensures r.Some? ==> r.value < |banco| && banco[r.value].id == id
    decreases |banco|
  {
    if banco == [] then None
    else if banco[0].id == id then Some(0)
    else
      assert Ids(banco) == {banco[0].id} + Ids(banco[1..]) by {
        assert banco == [banco[0]] + banco[1..];
      }
      var r := IndiceComId(banco[1..], id);
      if r.None? then None else Some(r.value + 1)
  }

  /** `Find(id)`: the tracked copy if there is one, else the saved row, which becomes tracked. */
  function Buscar(c: Contexto, id: int): (r: (Option<FornecedorData>, Contexto))
    ensures r.0.Some? <==> id in c.rastreados || id in Ids(c.banco)
    ensures r.1.banco == c.banco && r.1.proximoId == c.proximoId
    ensures r.0.None? ==> r.1 == c
    ensures r.0.Some? ==> r.1.rastreados == c.rastreados[id := r.0.value]
    ensures Valido(c) ==> Valido(r.1) && (r.0.Some? ==> r.0.value.id == id)
    ensures Valido(c) && Limpo(c) ==> Limpo(r.1) && (r.0.Some? ==> r.0.value == c.banco[IndiceComId(c.banco, id).value])
  {
    if id in c.rastreados then (Some(c.rastreados[id]), c)
    else
      var k := IndiceComId(c.banco, id);
      if k.None? then (None, c)
      else (Some(c.banco[k.value]), c.(rastreados := c.rastreados[id := c.banco[k.value]]))
  }

  /** `Add` then `SaveChanges`: pending changes are written and the new row is appended under the next id. */
  function Inserir(c: Contexto, f: FornecedorData): (r: Contexto)
    ensures r.proximoId == c.proximoId + 1
    ensures r.banco == SalvarMudancas(c).banco + [f.(id := c.proximoId)]
  {
    var s := SalvarMudancas(c);
    var novo := f.(id := c.proximoId);
    Contexto(s.banco + [novo], s.rastreados[novo.id := novo], c.proximoId + 1)
  }

  /** `Update` of a tracked entity then `SaveChanges`. */
  function Reescrever(c: Contexto, f: FornecedorData): (r: Contexto)
    ensures r == SalvarMudancas(c.(rastreados := c.rastreados[f.id := f]))
  {
    SalvarMudancas(c.(rastreados := c.rastreados[f.id := f]))
  }

  /** `Find`, then `Remove` and `SaveChanges` when found: the row goes, other pending changes are written. */
  function Remover(c: Contexto, id: int): (r: Contexto)
    ensures Buscar(c, id).0.None? ==> r == c
    ensures r.proximoId == c.proximoId && id !in r.rastreados
  {
    var (achado, c1) := Buscar(c, id);
    if achado.None? || IndiceComId(c.banco, id).None? then c1.(rastreados := c1.rastreados - {id})
    else
      var k := IndiceComId(c.banco, id).value;
      var s := SalvarMudancas(c1.(rastreados := c1.rastreados - {id}));
      s.(banco := s.banco[..k] + s.banco[k + 1..])
  }

  /** The fields `EditarFornecedor` copies from the edited supplier onto the tracked one. */
  function Copiar(banco: FornecedorData, editado: FornecedorData): (r: FornecedorData)
    ensures r.id == banco.id && r.ativo == banco.ativo && r.cnpj == editado.cnpj
    ensures r.razaoSocial == editado.razaoSocial && r.nomeFantasia == editado.nomeFantasia
    ensures r.email == editado.email && r.telefone == editado.telefone
  {
    banco.(razaoSocial := editado.razaoSocial, nomeFantasia := editado.nomeFantasia, cnpj := editado.cnpj,
           email := editado.email, telefone := editado.telefone)
  }

  /** `CadastrarFornecedor`: required fields, then uniqueness against the saved rows, then insert. */
  function EfeitoCadastro(c: Contexto, f: FornecedorData): (r: (Outcome<ErroFornecedor>, Contexto))
    ensures r.0 == Fail(RazaoSocialObrigatoria) <==> NuloOuVazio(f.razaoSocial)
    ensures r.0 == Fail(CnpjObrigatorio) <==> !NuloOuVazio(f.razaoSocial) && NuloOuVazio(f.cnpj)
    ensures r.0 == Fail(CnpjDuplicado) <==>
      !NuloOuVazio(f.razaoSocial) && !NuloOuVazio(f.cnpj) && exists i :: 0 <= i < |c.banco| && c.banco[i].cnpj == f.cnpj
    ensures r.0.Fail? ==> r.1 == c
    ensures r.0.Pass? ==> r.1 == Inserir(c, f)
  {
    if NuloOuVazio(f.razaoSocial) then (Fail(RazaoSocialObrigatoria), c)
    else if NuloOuVazio(f.cnpj) then (Fail(CnpjObrigatorio), c)
    else if PrimeiroComCnpj(c.banco, f.cnpj).Some? then (Fail(CnpjDuplicado), c)
    else (Pass, Inserir(c, f))
  }

  /**
   * `EditarFornecedor` as written: the edited fields are copied onto the tracked
   * supplier first, and only then is the CNPJ checked against the saved rows; a
   * rejection leaves the copy in place.
   */
  function EfeitoEdicaoComoEscrita(c: Contexto, f: FornecedorData): (r: (Outcome<ErroFornecedor>, Contexto))
  {
    var (achado, c1) := Buscar(c, f.id);
    if achado.None? then (Fail(NaoEncontrado), c1)
    else
      var copiado := Copiar(achado.value, f);
      var c2 := c1.(rastreados := c1.rastreados[f.id := copiado]);
      var existente := PrimeiroComCnpj(c2.banco, f.cnpj);
      if existente.Some? && existente.value.id != f.id then (Fail(CnpjDeOutro), c2)
      else (Pass, Reescrever(c2, copiado))
  }

  /** `EditarFornecedor` with the check made before the copy: a rejection leaves the tracked supplier as saved. */
  function EfeitoEdicao(c: Contexto, f: FornecedorData): (r: (Outcome<ErroFornecedor>, Contexto))
  {
    var (achado, c1) := Buscar(c, f.id);
    if achado.None? then (Fail(NaoEncontrado), c1)
    else
      var existente := PrimeiroComCnpj(c1.banco, f.cnpj);
      if existente.Some? && existente.value.id != f.id then (Fail(CnpjDeOutro), c1)
      else (Pass, Reescrever(c1, Copiar(achado.value, f)))
  }

  /**
   * As written, a rejected edit saves nothing but leaves the tracked supplier
   * holding the rejected values; accepted edits and unknown ids behave exactly as
   * with the check made first.
   */
  lemma EdicaoComoEscritaRecusada(c: Contexto, f: FornecedorData)
    requires Valido(c)
    ensures var r := EfeitoEdicaoComoEscrita(c, f);
      r.0 == Fail(CnpjDeOutro) ==>
        r.1.banco == c.banco && f.id in r.1.rastreados && r.1.rastreados[f.id].cnpj == f.cnpj
        && r.1.rastreados[f.id].razaoSocial == f.razaoSocial
    ensures EfeitoEdicaoComoEscrita(c, f).0 == EfeitoEdicao(c, f).0
    ensures EfeitoEdicaoComoEscrita(c, f).0 != Fail(CnpjDeOutro) ==> EfeitoEdicaoComoEscrita(c, f) == EfeitoEdicao(c, f)
  {
    var (achado, c1) := Buscar(c, f.id);
    if achado.Some? {
      var copiado := Copiar(achado.value, f);
      var c2 := c1.(rastreados := c1.rastreados[f.id := copiado]);
      assert c2.(rastreados := c2.rastreados[f.id := copiado]) == c2;
    }
  }

  /** `RemoverFornecedor`: no checks at all. */
  function EfeitoRemocao(c: Contexto, id: int): (r: (Outcome<ErroFornecedor>, Contexto))
    ensures r.0 == Pass && r.1 == Remover(c, id)
  {
    (Pass, Remover(c, id))
  }

  // ---------------------------------------------------------------------------
  // Uniqueness of the CNPJ
  // ---------------------------------------------------------------------------

  lemma CadastroPreserva(c: Contexto, f: FornecedorData)
    requires Consistente(c)
    ensures Consistente(EfeitoCadastro(c, f).1)
  {
    var r := EfeitoCadastro(c, f);
    if r.0.Pass? {
      SalvarLimpo(c);
      var novo := f.(id := c.proximoId);
      var b := c.banco + [novo];
      assert r.1 == Contexto(b, c.rastreados[novo.id := novo], c.proximoId + 1);
      assert forall i :: 0 <= i < |c.banco| ==> c.banco[i].cnpj != f.cnpj;
      assert Ids(b) == Ids(c.banco) + {novo.id} by {
        assert forall x :: x in b <==> x in c.banco || x == novo;
      }
      assert c.proximoId !in Ids(c.banco) by {
        forall x | x in c.banco ensures x.id != c.proximoId {
          var i :| 0 <= i < |c.banco| && c.banco[i] == x;
        }
      }
      assert Limpo(r.1) by {
        forall i | 0 <= i < |b| && b[i].id in r.1.rastreados ensures r.1.rastreados[b[i].id] == b[i] {
          if i < |c.banco| {
            assert b[i] == c.banco[i];
          }
        }
      }
    }
  }

  /** Saving one changed tracked supplier over a clean context replaces exactly its row. */
  lemma SalvarUmaMudanca(c: Contexto, k: int, n: FornecedorData)
    requires Valido(c) && Limpo(c) && 0 <= k < |c.banco| && n.id == c.banco[k].id
    ensures SalvarMudancas(c.(rastreados := c.rastreados[n.id := n])).banco == c.banco[k := n]
  {
    var s := SalvarMudancas(c.(rastreados := c.rastreados[n.id := n])).banco;
    forall i | 0 <= i < |c.banco| ensures s[i] == c.banco[k := n][i] {
      if i != k {
        assert c.banco[i].id != n.id;
      }
    }
  }

  /** Replacing a row by one with the same key and a CNPJ no other row has keeps the context consistent. */
  lemma SubstituirPreserva(c: Contexto, k: int, n: FornecedorData)
    requires Consistente(c) && 0 <= k < |c.banco| && n.id == c.banco[k].id
    requires forall i :: 0 <= i < |c.banco| && i != k ==> c.banco[i].cnpj != n.cnpj
    ensures Consistente(Contexto(c.banco[k := n], c.rastreados[n.id := n], c.proximoId))
  {
    var b := c.banco[k := n];
    var r := Contexto(b, c.rastreados[n.id := n], c.proximoId);
    assert Ids(b) == Ids(c.banco) by {
      forall y | y in b ensures y.id in Ids(c.banco) {
        var m :| 0 <= m < |b| && b[m] == y;
        assert y.id == c.banco[m].id;
      }
      forall y | y in c.banco ensures y.id in Ids(b) {
        var m :| 0 <= m < |c.banco| && c.banco[m] == y;
        assert b[m].id == y.id;
      }
    }
    assert Limpo(r) by {
      forall i | 0 <= i < |b| && b[i].id in r.rastreados ensures r.rastreados[b[i].id] == b[i] {
        if i != k {
          assert c.banco[i].id != n.id;
        }
      }
    }
  }

  /** The saved rows other than `k` do not hold the CNPJ of an edit that the check lets through. */
  lemma CnpjLivre(c: Contexto, k: int, f: FornecedorData)
    requires Consistente(c) && 0 <= k < |c.banco| && c.banco[k].id == f.id
    requires var e := PrimeiroComCnpj(c.banco, f.cnpj); !(e.Some? && e.value.id != f.id)
    ensures forall i :: 0 <= i < |c.banco| && i != k ==> c.banco[i].cnpj != f.cnpj
  {
    var e := PrimeiroComCnpj(c.banco, f.cnpj);
    if e.Some? {
      var m :| 0 <= m < |c.banco| && c.banco[m] == e.value && e.value.cnpj == f.cnpj
        && forall j :: 0 <= j < m ==> c.banco[j].cnpj != f.cnpj;
      assert m == k;
      forall i | 0 <= i < |c.banco| && i != k ensures c.banco[i].cnpj != f.cnpj {
        if i < k {
          assert c.banco[i].cnpj != c.banco[k].cnpj;
        } else {
          assert c.banco[k].cnpj != c.banco[i].cnpj;
        }
      }
    }
  }

  /** With the check made first, an edit keeps the context consistent, CNPJs unique included. */
  lemma EdicaoPreserva(c: Contexto, f: FornecedorData)
    requires Consistente(c)
    ensures Consistente(EfeitoEdicao(c, f).1)
  {
    if EfeitoEdicao(c, f).0.Pass? {
      var k := EdicaoAceita(c, f);
      var n := Copiar(c.banco[k], f);
      CnpjLivre(c, k, f);
      SubstituirPreserva(c, k, n);
    }
  }

  /** An edit the check lets through rewrites the row of its key, and tracks the rewritten row. */
  lemma EdicaoAceita(c: Contexto, f: FornecedorData) returns (k: nat)
    requires Consistente(c) && EfeitoEdicao(c, f).0.Pass?
    ensures k < |c.banco| && c.banco[k].id == f.id
    ensures var e := PrimeiroComCnpj(c.banco, f.cnpj); !(e.Some? && e.value.id != f.id)
    ensures EfeitoEdicao(c, f).1
         == Contexto(c.banco[k := Copiar(c.banco[k], f)], c.rastreados[f.id := Copiar(c.banco[k], f)], c.proximoId)
  {
    var (achado, c1) := Buscar(c, f.id);
    k := IndiceComId(c.banco, f.id).value;
    var n := Copiar(achado.value, f);
    SalvarUmaMudanca(c1, k, n);
    assert c1.rastreados[n.id := n] == c.rastreados[n.id := n];
  }


  /** Removing row `k` (and its tracking) from a consistent context leaves it consistent. */
  lemma RetirarPreserva(c: Contexto, k: int)
    requires Consistente(c) && 0 <= k < |c.banco|
    ensures Consistente(Contexto(c.banco[..k] + c.banco[k + 1..], c.rastreados - {c.banco[k].id}, c.proximoId))
  {
    var id := c.banco[k].id;
    var b := c.banco[..k] + c.banco[k + 1..];
    var r := Contexto(b, c.rastreados - {id}, c.proximoId);
    assert forall i :: 0 <= i < |b| ==> b[i] == c.banco[if i < k then i else i + 1];
    forall x | x in r.rastreados ensures x in Ids(b) {
      var m := IndiceComId(c.banco, x).value;
      assert m != k;
      assert b[if m < k then m else m - 1] == c.banco[m];
    }
  }

  lemma RemocaoPreserva(c: Contexto, id: int)
    requires Consistente(c)
    ensures Consistente(EfeitoRemocao(c, id).1)
  {
    var (achado, c1) := Buscar(c, id);
    if achado.Some? {
      var k := IndiceComId(c.banco, id).value;
      var c2 := c1.(rastreados := c1.rastreados - {id});
      assert c2.rastreados == c.rastreados - {id};
      assert Limpo(c2);
      SalvarLimpo(c2);
      RetirarPreserva(c, k);
    } else {
      assert EfeitoRemocao(c, id).1 == c;
    }
  }

  /**
   * As written, a rejected edit is saved by the next successful registration: the
   * edited supplier's row then carries the CNPJ of the supplier that caused the
   * rejection, and two saved rows share it.
   */
  lemma EdicaoRecusadaDuplica(c: Contexto, f: FornecedorData, g: FornecedorData)
    requires Consistente(c)
    requires EfeitoEdicaoComoEscrita(c, f).0 == Fail(CnpjDeOutro)
    requires EfeitoCadastro(EfeitoEdicaoComoEscrita(c, f).1, g).0 == Pass
    ensures !CnpjUnico(EfeitoCadastro(EfeitoEdicaoComoEscrita(c, f).1, g).1.banco)
  {
    var k, m := RecusaComoEscrita(c, f);
    var c2 := EfeitoEdicaoComoEscrita(c, f).1;
    var s := SalvarMudancas(c2).banco;
    var b := EfeitoCadastro(c2, g).1.banco;
    assert b == s + [g.(id := c2.proximoId)];
    assert s[k].cnpj == f.cnpj;
    assert s[m] == c.banco[m] by {
      assert c.banco[m].id != f.id;
      if c.banco[m].id in c.rastreados {
        assert c2.rastreados[c.banco[m].id] == c.rastreados[c.banco[m].id];
      }
    }
    assert b[k].cnpj == b[m].cnpj;
  }

  /**
   * A rejected edit as written: the saved rows are untouched, the edited supplier's
   * row `k` is tracked with the rejected values, and a different row `m` holds the CNPJ.
   */
  lemma RecusaComoEscrita(c: Contexto, f: FornecedorData) returns (k: nat, m: nat)
    requires Consistente(c)
    requires EfeitoEdicaoComoEscrita(c, f).0 == Fail(CnpjDeOutro)
    ensures k < |c.banco| && m < |c.banco| && k != m && c.banco[k].id == f.id && c.banco[m].cnpj == f.cnpj
    ensures var c2 := EfeitoEdicaoComoEscrita(c, f).1;
      c2.banco == c.banco && c2.proximoId == c.proximoId
      && c2.rastreados == c.rastreados[f.id := Copiar(c.banco[k], f)]
  {
    var (achado, c1) := Buscar(c, f.id);
    k := IndiceComId(c.banco, f.id).value;
    assert achado == Some(c.banco[k]);
    var e := PrimeiroComCnpj(c.banco, f.cnpj).value;
    assert e.id != f.id && e.cnpj == f.cnpj;
    m :| 0 <= m < |c.banco| && c.banco[m] == e;
    assert c1.rastreados[f.id := Copiar(c.banco[k], f)] == c.rastreados[f.id := Copiar(c.banco[k], f)];
  }

  // A concrete run: suppliers 1 ("11") and 2 ("22"); supplier 2 is edited to "11"
  // and rejected; then supplier "33" is registered.

  const Um: FornecedorData := FornecedorData(1, Some("A"), None, Some("11"), None, None, true)
  const Dois: FornecedorData := FornecedorData(2, Some("B"), None, Some("22"), None, None, true)
  const Inicial: Contexto := Contexto([Um, Dois], map[], 3)

  lemma InicialConsistente()
    ensures Consistente(Inicial)
  {
    assert Some("11") != Some("22") by {
      assert "11"[0] != "22"[0];
    }
  }

  lemma EdicaoExemploRecusada()
    ensures EfeitoEdicaoComoEscrita(Inicial, Dois.(cnpj := Some("11"))).0 == Fail(CnpjDeOutro)
  {
    assert Ids(Inicial.banco) == {1, 2} by {
      assert forall x :: x in Inicial.banco <==> x == Um || x == Dois;
    }
    assert PrimeiroComCnpj(Inicial.banco, Some("11")) == Some(Um);
  }

  lemma CadastroExemploAceito(c: Contexto)
    requires c.banco == Inicial.banco
    ensures EfeitoCadastro(c, FornecedorData(0, Some("C"), None, Some("33"), None, None, true)).0 == Pass
  {
    assert "33"[0] != "11"[0] && "33"[0] != "22"[0];
    assert "C" != "";
    assert "33" != "";
  }

  /** The concrete run ends with suppliers 1 and 2 both saved under CNPJ "11". */
  lemma EdicaoRecusadaDuplicaExemplo()
    ensures var c2 := EfeitoEdicaoComoEscrita(Inicial, Dois.(cnpj := Some("11"))).1;
      !CnpjUnico(EfeitoCadastro(c2, FornecedorData(0, Some("C"), None, Some("33"), None, None, true)).1.banco)
  {
    InicialConsistente();
    EdicaoExemploRecusada();
    var f := Dois.(cnpj := Some("11"));
    var c2 := EfeitoEdicaoComoEscrita(Inicial, f).1;
    EdicaoComoEscritaRecusada(Inicial, f);
    CadastroExemploAceito(c2);
    EdicaoRecusadaDuplica(Inicial, f, FornecedorData(0, Some("C"), None, Some("33"), None, None, true));
  }

  /** `FornecedorRepository` and the data context behind it. */
  class FornecedorRepository {
    var banco: seq<FornecedorData>
    var rastreados: map<int, FornecedorData>
    var proximoId: int

    function Estado(): Contexto
      reads this
    {
      Contexto(banco, rastreados, proximoId)
    }

    constructor (banco: seq<FornecedorData>, proximoId: int)
      ensures Estado() == Contexto(banco, map[], proximoId)
    {
      this.banco := banco;
      this.rastreados := map[];
      this.proximoId := proximoId;
    }

    method Adicionar(f: FornecedorData)
      modifies this
      ensures Estado() == Inserir(old(Estado()), f)
    {
      var c := Inserir(Estado(), f);
      banco, rastreados, proximoId := c.banco, c.rastreados, c.proximoId;
    }

    method Atualizar(f: FornecedorData)
      modifies this
      ensures Estado() == Reescrever(old(Estado()), f)
    {
      var c := Reescrever(Estado(), f);
      banco, rastreados := c.banco, c.rastreados;
    }

    method Excluir(id: int)
      modifies this
      ensures Estado() == Remover(old(Estado()), id)
    {
      var c := Remover(Estado(), id);
      banco, rastreados := c.banco, c.rastreados;
    }

    method ObterPorId(id: int) returns (r: Option<FornecedorData>)
      modifies this
      ensures (r, Estado()) == Buscar(old(Estado()), id)
    {
      var b := Buscar(Estado(), id);
      r := b.0;
      rastreados := b.1.rastreados;
    }

    method ObterPorCNPJ(cnpj: Option<string>) returns (r: Option<FornecedorData>)
      ensures r == PrimeiroComCnpj(banco, cnpj)
    {
      r := PrimeiroComCnpj(banco, cnpj);
    }
  }

  class FornecedorService {
    const repo: FornecedorRepository

    constructor (repo: FornecedorRepository)
      ensures this.repo == repo
    {
      this.repo := repo;
    }

    /** `CadastrarFornecedor`. */
    method CadastrarFornecedor(f: FornecedorData) returns (o: Outcome<ErroFornecedor>)
      modifies repo
      ensures (o, repo.Estado()) == EfeitoCadastro(old(repo.Estado()), f)
    {
      if NuloOuVazio(f.razaoSocial) {
        return Fail(RazaoSocialObrigatoria);
      }
      if NuloOuVazio(f.cnpj) {
        return Fail(CnpjObrigatorio);
      }
      var existente := repo.ObterPorCNPJ(f.cnpj);
      if existente.Some? {
        return Fail(CnpjDuplicado);
      }
      repo.Adicionar(f);
      return Pass;
    }

    /** `EditarFornecedor`, as written: the tracked supplier is overwritten before the check. */
    method EditarFornecedor(f: FornecedorData) returns (o: Outcome<ErroFornecedor>)
      modifies repo
      ensures (o, repo.Estado()) == EfeitoEdicaoComoEscrita(old(repo.Estado()), f)
    {
      var fornecedorBanco := repo.ObterPorId(f.id);
      if fornecedorBanco.None? {
        return Fail(NaoEncontrado);
      }
      var copiado := Copiar(fornecedorBanco.value, f);
      repo.rastreados := repo.rastreados[f.id := copiado];
      var cnpjExistente := repo.ObterPorCNPJ(f.cnpj);
      if cnpjExistente.Some? && cnpjExistente.value.id != f.id {
        return Fail(CnpjDeOutro);
      }
      repo.Atualizar(copiado);
      return Pass;
    }

    /** `RemoverFornecedor`. */
    method RemoverFornecedor(id: int)
      modifies repo
      ensures repo.Estado() == EfeitoRemocao(old(repo.Estado()), id).1
    {
      repo.Excluir(id);
    }
  }
}
