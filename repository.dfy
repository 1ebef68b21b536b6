/**
 * The generic `Repository<T>` over a table of `BaseEntity` rows: lookups by key
 * see every row, listings only the active ones, and deletion is a soft delete
 * (the row stays, with `Ativo` cleared). Every write is saved at once.
 */
module RepositorioGenerico {
  import opened Wrappers
  import opened Calendar

  /** A stored entity: the `BaseEntity` columns around the entity's own fields. */
  datatype Registro<T> = Registro(
    id: int,
    dataCriacao: DateTime,
    dataAtualizacao: Option<DateTime>,
    ativo: bool,
    dados: T)

  /**
   * Why `SaveChanges` threw: an update of a row that is not in the table, or an
   * insert that carries its own value for the identity key.
   */
  datatype ErroRepositorio = RegistroInexistente(id: int) | IdentidadeExplicita(id: int)

  predicate IdsUnicos<T(!new)>(rs: seq<Registro<T>>) {
    forall i, j :: 0 <= i < j < |rs| ==> rs[i].id != rs[j].id
  }

  /** `FindAsync(id)`: the row with that key, active or not. */
  function BuscarPorId<T(!new)>(rs: seq<Registro<T>>, id: int): (r: Option<Registro<T>>)
    ensures r.None? <==> forall i :: 0 <= i < |rs| ==> rs[i].id != id
    ensures r.Some? ==> r.value in rs && r.value.id == id
    decreases |rs|
  {
    if rs == [] then None
    else if rs[0].id == id then Some(rs[0])
    else
      assert forall i :: 0 < i < |rs| ==> rs[i] == rs[1..][i - 1];
      BuscarPorId(rs[1..], id)
  }

  /** `Where(x => x.Ativo)`, in table order. */
  function Ativos<T(!new)>(rs: seq<Registro<T>>): (r: seq<Registro<T>>)
    ensures forall x :: x in r <==> x in rs && x.ativo
    ensures |r| <= |rs|
    decreases |rs|
  {
    if rs == [] then []
    else
      assert rs == rs[..|rs| - 1] + [rs[|rs| - 1]];
      Ativos(rs[..|rs| - 1]) + (if rs[|rs| - 1].ativo then [rs[|rs| - 1]] else [])
  }

  /** `DeleteAsync(id)`: the row with that key, if any, becomes inactive and is stamped. */
  function Excluir<T(!new)>(rs: seq<Registro<T>>, id: int, agora: DateTime): (r: seq<Registro<T>>)
    ensures |r| == |rs|
    ensures forall i :: 0 <= i < |rs| ==>
      r[i] == if rs[i].id == id then rs[i].(ativo := false, dataAtualizacao := Some(agora)) else rs[i]
  {
    seq(|rs|, i requires 0 <= i < |rs| =>
      if rs[i].id == id then rs[i].(ativo := false, dataAtualizacao := Some(agora)) else rs[i])
  }

  /** Deleting an unknown key changes nothing. */
  lemma ExcluirInexistente<T(!new)>(rs: seq<Registro<T>>, id: int, agora: DateTime)
    requires BuscarPorId(rs, id).None?
    ensures Excluir(rs, id, agora) == rs
  {
  }

  /**
   * After a delete the row is no longer listed, yet is still found by key,
   * inactive and stamped; every other row is untouched.
   */
  lemma {:induction false} ExcluirRemoveDaListagem<T(!new)>(rs: seq<Registro<T>>, id: int, agora: DateTime)
    requires IdsUnicos(rs)
    ensures forall x :: x in Ativos(Excluir(rs, id, agora)) ==> x.id != id
    ensures forall x :: x in Ativos(rs) && x.id != id ==> x in Ativos(Excluir(rs, id, agora))
    ensures BuscarPorId(rs, id).Some? ==>
      BuscarPorId(Excluir(rs, id, agora), id) ==
        Some(BuscarPorId(rs, id).value.(ativo := false, dataAtualizacao := Some(agora)))
  {
    var e := Excluir(rs, id, agora);
    forall x | x in Ativos(rs) && x.id != id ensures x in Ativos(e) {
      var i :| 0 <= i < |rs| && rs[i] == x;
      assert e[i] == x;
    }
    if BuscarPorId(rs, id).Some? {
      var i :| 0 <= i < |rs| && rs[i] == BuscarPorId(rs, id).value;
      BuscarUnico(e, i);
    }
  }

  lemma BuscarUnico<T(!new)>(rs: seq<Registro<T>>, k: int)
    requires IdsUnicos(rs) && 0 <= k < |rs|
    ensures BuscarPorId(rs, rs[k].id) == Some(rs[k])
    decreases |rs|
  {
    if k > 0 {
      assert rs[0].id != rs[k].id;
      assert rs[1..][k - 1] == rs[k];
      BuscarUnico(rs[1..], k - 1);
    }
  }

  /** Deleting twice is deleting once, apart from the later timestamp. */
  lemma ExcluirIdempotente<T(!new)>(rs: seq<Registro<T>>, id: int, t1: DateTime, t2: DateTime)
    ensures Excluir(Excluir(rs, id, t1), id, t2) == Excluir(rs, id, t2)
  {
  }

  /** A table of entities that are saved as soon as they are written. */
  class Repository<T(!new)> {
    var registros: seq<Registro<T>>
    var proximoId: int

    predicate Valid()
      reads this
    {
      IdsUnicos(registros) && proximoId > 0
      && forall i :: 0 <= i < |registros| ==> 0 < registros[i].id < proximoId
    }

    constructor ()
      ensures Valid() && registros == []
    {
      registros := [];
      proximoId := 1;
    }

    /** `GetByIdAsync`. */
    function GetById(id: int): Option<Registro<T>>
      reads this
    {
      BuscarPorId(registros, id)
    }

    /** `GetAllAsync`. */
    function GetAll(): seq<Registro<T>>
      reads this
    {
      Ativos(registros)
    }

    /**
     * `AddAsync`: marks the entity active, stamps its creation, saves it under the
     * next identity value and returns it. An entity whose key is already set (not
     * 0) is inserted with that value for the identity column, which the database
     * refuses: `SaveChanges` throws and nothing is saved.
     */
    method AddAsync(e: Registro<T>, agora: DateTime) returns (r: Result<Registro<T>, ErroRepositorio>)
      requires Valid()
      modifies this
      ensures Valid()
      ensures e.id != 0 ==> r == Err(IdentidadeExplicita(e.id)) && registros == old(registros) && proximoId == old(proximoId)
      ensures e.id == 0 ==>
        r == Ok(e.(id := old(proximoId), dataCriacao := agora, ativo := true))
        && registros == old(registros) + [r.value]
        && r.value in GetAll() && GetById(r.value.id) == Some(r.value)
    {
      if e.id != 0 {
        return Err(IdentidadeExplicita(e.id));
      }
      var novo := e.(id := proximoId, dataCriacao := agora, ativo := true);
      registros := registros + [novo];
      proximoId := proximoId + 1;
      BuscarUnico(registros, |registros| - 1);
      r := Ok(novo);
    }

    /**
     * `UpdateAsync`: stamps the update and saves the entity as given, `Ativo`
     * included. An entity whose key is unset (0) is inserted, as EF's `Update` does
     * with an unset generated key; any other unknown key makes `SaveChanges` throw.
     */
    method UpdateAsync(e: Registro<T>, agora: DateTime) returns (o: Outcome<ErroRepositorio>)
      requires Valid()
      modifies this
      ensures Valid()
      ensures e.id == 0 ==>
        o == Pass && registros == old(registros) + [e.(id := old(proximoId), dataAtualizacao := Some(agora))]
      ensures e.id != 0 && BuscarPorId(old(registros), e.id).None? ==>
        o == Fail(RegistroInexistente(e.id)) && registros == old(registros)
      ensures e.id != 0 && BuscarPorId(old(registros), e.id).Some? ==>
        o == Pass && |registros| == |old(registros)|
        && forall i :: 0 <= i < |registros| ==>
             registros[i] == if old(registros)[i].id == e.id then e.(dataAtualizacao := Some(agora)) else old(registros)[i]
    {
      var salvo := e.(dataAtualizacao := Some(agora));
      if e.id == 0 {
        var novo := salvo.(id := proximoId);
        registros := registros + [novo];
        proximoId := proximoId + 1;
        return Pass;
      }
      if BuscarPorId(registros, e.id).None? {
        return Fail(RegistroInexistente(e.id));
      }
      registros := seq(|registros|, i requires 0 <= i < |registros| reads this =>
        if registros[i].id == e.id then salvo else registros[i]);
      return Pass;
    }

    /** `DeleteAsync`: a soft delete; an unknown key changes nothing. */
    method DeleteAsync(id: int, agora: DateTime)
      requires Valid()
      modifies this
      ensures Valid()
      ensures registros == Excluir(old(registros), id, agora) && proximoId == old(proximoId)
    {
      var entity := BuscarPorId(registros, id);
      if entity.Some? {
        registros := Excluir(registros, id, agora);
      }
    }
  }
}
