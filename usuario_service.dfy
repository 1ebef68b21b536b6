/**
 * `UsuarioService`: saving a user (one account per e-mail, a password required for
 * a new user) and the login decision. The password hash is a parameter standing for
 * the SHA-256 digest of `PasswordHelper`; the users table is a sequence of rows.
 */
module Usuarios {
  import opened Wrappers
  import opened Text
  import opened Calendar

  /** A user row: `perfil` is the profile's name, absent when no profile or no name is loaded. */
  datatype UsuarioData = UsuarioData(
    id: int,
    nome: string,
    email: string,
    senhaHash: string,
    perfil: Option<string>,
    ativo: bool,
    dataCriacao: DateTime,
    dataAtualizacao: Option<DateTime>)

  /** What a successful login hands to the desktop session. */
  datatype UsuarioDto = UsuarioDto(id: int, nome: string, email: string, perfil: Option<string>, isAdmin: bool)

  datatype ErroUsuario =
    | EmailDuplicado      // another user already has this e-mail
    | SenhaObrigatoria    // a new user without a password
    | UsuarioInexistente  // an update whose id has no row

  /** `GenerateHash`: no hash (null) for an empty password, the digest otherwise. */
  function GerarHash(hash: string -> string, senha: string): (r: Option<string>)
    ensures r.None? <==> senha == ""
    ensures r.Some? ==> r.value == hash(senha)
  {
    if senha == "" then None else Some(hash(senha))
  }

  /** `VerifyPassword`: the typed password's hash equals the stored one; an empty password never does. */
  predicate SenhaConfere(hash: string -> string, senha: string, salvo: string) {
    GerarHash(hash, senha) == Some(salvo)
  }

  /** `FirstOrDefault(u => u.Email == email)`: the first row with that e-mail. */
  function PrimeiroComEmail(us: seq<UsuarioData>, email: string): (r: Option<UsuarioData>)
    ensures r.None? <==> forall u :: u in us ==> u.email != email
    ensures r.Some? ==> r.value in us && r.value.email == email
    ensures r.Some? ==> exists i :: 0 <= i < |us| && us[i] == r.value
                                    && forall j :: 0 <= j < i ==> us[j].email != email
  {
    if us == [] then None
    else if us[0].email == email then Some(us[0])
    else
      var r := PrimeiroComEmail(us[1..], email);
      if r.None? then r
      else
        var i :| 0 <= i < |us[1..]| && us[1..][i] == r.value && forall j :: 0 <= j < i ==> us[1..][j].email != email;
        assert us[i + 1] == r.value;
        r
  }

  /** The position of the first row with that id. */
  function IndiceComId(us: seq<UsuarioData>, id: int): (r: Option<nat>)
    ensures r.None? <==> forall u :: u in us ==> u.id != id
    ensures r.Some? ==> r.value < |us| && us[r.value].id == id
  {
    if us == [] then None
    else if us[0].id == id then Some(0)
    else
      var r := IndiceComId(us[1..], id);
      if r.None? then None else Some(r.value + 1)
  }

  /** The table's invariant: ids positive, below the next id and distinct; e-mails distinct. */
  predicate Valido(us: seq<UsuarioData>, proximoId: int) {
    proximoId > 0
    && (forall i :: 0 <= i < |us| ==> 0 < us[i].id < proximoId)
    && (forall i, j :: 0 <= i < j < |us| ==> us[i].id != us[j].id)
    && (forall i, j :: 0 <= i < j < |us| ==> us[i].email != us[j].email)
  }

  /**
   * `SalvarUsuarioAsync`, as the result, the user object afterwards, the table and
   * the next id. The e-mail check comes first; then a non-empty password replaces
   * the hash, and an empty one is refused for a new user (id 0); then id 0 stamps
   * the creation date and adds, any other id stamps the update date and updates.
   */
  function EfeitoSalvar(us: seq<UsuarioData>, proximoId: int, u: UsuarioData, senha: string,
                        agora: DateTime, hash: string -> string): (r: (Outcome<ErroUsuario>, UsuarioData, seq<UsuarioData>, int))
    ensures var e := PrimeiroComEmail(us, u.email);
      r.0 == Fail(EmailDuplicado) <==> e.Some? && e.value.id != u.id
    ensures var e := PrimeiroComEmail(us, u.email);
      r.0 == Fail(SenhaObrigatoria) <==> !(e.Some? && e.value.id != u.id) && senha == "" && u.id == 0
    ensures r.0 == Fail(UsuarioInexistente) <==>
      r.0 != Fail(EmailDuplicado) && r.0 != Fail(SenhaObrigatoria) && u.id != 0 && forall v :: v in us ==> v.id != u.id
    ensures r.0.Fail? ==> r.2 == us && r.3 == proximoId
    ensures r.1.nome == u.nome && r.1.email == u.email && r.1.perfil == u.perfil && r.1.ativo == u.ativo
    ensures senha == "" ==> r.1.senhaHash == u.senhaHash
    ensures r.0 != Fail(EmailDuplicado) && senha != "" ==> r.1.senhaHash == hash(senha)
    ensures r.0.Pass? && u.id == 0 ==>
      r.1.id == proximoId && r.1.dataCriacao == agora && r.1.dataAtualizacao == u.dataAtualizacao
      && r.2 == us + [r.1] && r.3 == proximoId + 1
    ensures r.0.Pass? && u.id != 0 ==>
      r.1.id == u.id && r.1.dataCriacao == u.dataCriacao && r.1.dataAtualizacao == Some(agora) && r.3 == proximoId
      && exists i :: 0 <= i < |us| && us[i].id == u.id && r.2 == us[i := r.1]
  {
    var existente := PrimeiroComEmail(us, u.email);
    if existente.Some? && existente.value.id != u.id then (Fail(EmailDuplicado), u, us, proximoId)
    else if senha == "" && u.id == 0 then (Fail(SenhaObrigatoria), u, us, proximoId)
    else
      var comSenha := if senha != "" then u.(senhaHash := hash(senha)) else u;
      if u.id == 0 then
        var novo := comSenha.(id := proximoId, dataCriacao := agora);
        (Pass, novo, us + [novo], proximoId + 1)
      else
        var editado := comSenha.(dataAtualizacao := Some(agora));
        match IndiceComId(us, u.id)
        case None => (Fail(UsuarioInexistente), editado, us, proximoId)
        case Some(i) => (Pass, editado, us[i := editado], proximoId)
  }

  /** In a valid table at most one row has a given e-mail, so the first is the only one. */
  lemma EmailUnico(us: seq<UsuarioData>, p: int, i: int)
    requires Valido(us, p) && 0 <= i < |us|
    ensures PrimeiroComEmail(us, us[i].email) == Some(us[i])
  {
    var r := PrimeiroComEmail(us, us[i].email);
    var k :| 0 <= k < |us| && us[k] == r.value && forall j :: 0 <= j < k ==> us[j].email != us[i].email;
    assert k == i;
  }

  /** Every row of a valid table has a positive id, so the first row with an e-mail does too. */
  lemma EmailComIdPositivo(us: seq<UsuarioData>, p: int, email: string)
    requires Valido(us, p)
    ensures PrimeiroComEmail(us, email).Some? ==> PrimeiroComEmail(us, email).value.id > 0
  {
    var e := PrimeiroComEmail(us, email);
    if e.Some? {
      var k :| 0 <= k < |us| && us[k] == e.value && forall j :: 0 <= j < k ==> us[j].email != email;
    }
  }

  /** A save that succeeds keeps the table valid: ids fresh and distinct, one user per e-mail. */
  lemma SalvarPreserva(us: seq<UsuarioData>, p: int, u: UsuarioData, senha: string, agora: DateTime, hash: string -> string)
    requires Valido(us, p)
    ensures var r := EfeitoSalvar(us, p, u, senha, agora, hash);
      r.0.Pass? ==> Valido(r.2, r.3)
  {
    var r := EfeitoSalvar(us, p, u, senha, agora, hash);
    EmailComIdPositivo(us, p, u.email);
    if r.0.Pass? {
      if u.id == 0 {
        forall i | 0 <= i < |us| ensures us[i].email != u.email {
          assert us[i] in us;
        }
      } else {
        var i :| 0 <= i < |us| && us[i].id == u.id && r.2 == us[i := r.1];
        forall j | 0 <= j < |us| && us[j].email == u.email ensures j == i {
          EmailUnico(us, p, j);
        }
        assert forall j :: 0 <= j < |us| ==> r.2[j] == (if j == i then r.1 else us[j]);
      }
    }
  }

  /**
   * `AutenticarAsync`: no user with that e-mail, an inactive user or a password
   * whose hash differs refuses the login; otherwise the user's id, name, e-mail and
   * profile name, with `IsAdmin` when the lower-cased profile name contains "admin".
   */
  function Autenticar(us: seq<UsuarioData>, email: string, senha: string, hash: string -> string): (r: Option<UsuarioDto>)
    ensures var u := PrimeiroComEmail(us, email);
      r.None? <==> u.None? || !u.value.ativo || !SenhaConfere(hash, senha, u.value.senhaHash)
    ensures senha == "" ==> r.None?
    ensures r.Some? ==>
      var u := PrimeiroComEmail(us, email).value;
      r.value.id == u.id && r.value.nome == u.nome && r.value.email == u.email && r.value.perfil == u.perfil
      && (r.value.isAdmin <==> u.perfil.Some? && Contains(ToLower(u.perfil.value), "admin"))
  {
    var usuario := PrimeiroComEmail(us, email);
    if usuario.None? then None
    else if !usuario.value.ativo then None
    else if !SenhaConfere(hash, senha, usuario.value.senhaHash) then None
    else
      var u := usuario.value;
      Some(UsuarioDto(u.id, u.nome, u.email, u.perfil,
                      u.perfil.Some? && Contains(ToLower(u.perfil.value), "admin")))
  }

  /** A hash that tells passwords apart. */
  ghost predicate Injetivo(hash: string -> string) {
    forall a, b :: hash(a) == hash(b) ==> a == b
  }

  /**
   * Saving an active user with a password makes exactly that password log in under
   * the user's e-mail, when the hash tells passwords apart; the login reports the saved row.
   */
  lemma SalvarEntaoAutenticar(us: seq<UsuarioData>, p: int, u: UsuarioData, senha: string, agora: DateTime,
                              hash: string -> string, tentativa: string)
    requires Valido(us, p) && Injetivo(hash) && u.ativo && senha != ""
    ensures var r := EfeitoSalvar(us, p, u, senha, agora, hash);
      r.0.Pass? ==>
        (Autenticar(r.2, u.email, tentativa, hash).Some? <==> tentativa == senha)
        && (tentativa == senha ==> Autenticar(r.2, u.email, tentativa, hash).value.id == r.1.id)
  {
    var r := EfeitoSalvar(us, p, u, senha, agora, hash);
    if r.0.Pass? {
      SalvarPreserva(us, p, u, senha, agora, hash);
      var k: int;
      if u.id == 0 {
        k := |us|;
      } else {
        k :| 0 <= k < |us| && us[k].id == u.id && r.2 == us[k := r.1];
      }
      EmailUnico(r.2, r.3, k);
      if tentativa != "" && hash(tentativa) == hash(senha) {
        assert tentativa == senha;
      }
    }
  }

  /** The users table: its rows and the id the next insert receives. */
  class UsuarioRepository {
    var usuarios: seq<UsuarioData>
    var proximoId: int

    constructor (usuarios: seq<UsuarioData>, proximoId: int)
      ensures this.usuarios == usuarios && this.proximoId == proximoId
    {
      this.usuarios := usuarios;
      this.proximoId := proximoId;
    }

    /** `GetByEmailAsync`. */
    method GetByEmail(email: string) returns (r: Option<UsuarioData>)
      ensures r == PrimeiroComEmail(usuarios, email)
    {
      var i := 0;
      while i < |usuarios| && usuarios[i].email != email
        invariant 0 <= i <= |usuarios|
        invariant PrimeiroComEmail(usuarios[i..], email) == PrimeiroComEmail(usuarios, email)
      {
        assert usuarios[i..][1..] == usuarios[i + 1..];
        i := i + 1;
      }
      if i < |usuarios| {
        r := Some(usuarios[i]);
      } else {
        r := None;
      }
    }

    /** `AddAsync`: the row gets the next id and goes at the end. */
    method Add(u: UsuarioData) returns (salvo: UsuarioData)
      modifies this
      ensures salvo == u.(id := old(proximoId))
      ensures usuarios == old(usuarios) + [salvo] && proximoId == old(proximoId) + 1
    {
      salvo := u.(id := proximoId);
      usuarios := usuarios + [salvo];
      proximoId := proximoId + 1;
    }

    /** `UpdateAsync`: the row with the same id is replaced; with none, the save fails. */
    method Update(u: UsuarioData) returns (r: Outcome<ErroUsuario>)
      modifies this
      ensures IndiceComId(old(usuarios), u.id).None? ==> r == Fail(UsuarioInexistente) && usuarios == old(usuarios)
      ensures IndiceComId(old(usuarios), u.id).Some? ==>
        r == Pass && usuarios == old(usuarios)[IndiceComId(old(usuarios), u.id).value := u]
      ensures proximoId == old(proximoId)
    {
      var i := IndiceComId(usuarios, u.id);
      if i.None? {
        return Fail(UsuarioInexistente);
      }
      usuarios := usuarios[i.value := u];
      r := Pass;
    }
  }

  class UsuarioService {
    const repositorio: UsuarioRepository
    /** The digest `PasswordHelper.GenerateHash` computes for a non-empty password. */
    const hash: string -> string

    constructor (repositorio: UsuarioRepository, hash: string -> string)
      ensures this.repositorio == repositorio && this.hash == hash
    {
      this.repositorio := repositorio;
      this.hash := hash;
    }

    /** `SalvarUsuarioAsync`: returns the outcome and the caller's user object as the method leaves it. */
    method SalvarUsuarioAsync(usuario: UsuarioData, senhaPura: string, agora: DateTime)
      returns (r: Outcome<ErroUsuario>, depois: UsuarioData)
      modifies repositorio
      ensures (r, depois, repositorio.usuarios, repositorio.proximoId)
        == EfeitoSalvar(old(repositorio.usuarios), old(repositorio.proximoId), usuario, senhaPura, agora, hash)
    {
      depois := usuario;
      var existente := repositorio.GetByEmail(usuario.email);
      if existente.Some? && existente.value.id != usuario.id {
        return Fail(EmailDuplicado), depois;
      }
      if senhaPura != "" {
        depois := depois.(senhaHash := hash(senhaPura));
      } else if usuario.id == 0 {
        return Fail(SenhaObrigatoria), depois;
      }
      if usuario.id == 0 {
        depois := depois.(dataCriacao := agora);
        depois := repositorio.Add(depois);
        r := Pass;
      } else {
        depois := depois.(dataAtualizacao := Some(agora));
        r := repositorio.Update(depois);
      }
    }

    /** `AutenticarAsync`, over the table as it stands. */
    method AutenticarAsync(email: string, senhaPura: string) returns (r: Option<UsuarioDto>)
      ensures r == Autenticar(repositorio.usuarios, email, senhaPura, hash)
    {
      var usuario := repositorio.GetByEmail(email);
      if usuario.None? || !usuario.value.ativo {
        return None;
      }
      if !SenhaConfere(hash, senhaPura, usuario.value.senhaHash) {
        return None;
      }
      var u := usuario.value;
      var isAdmin := u.perfil.Some? && Contains(ToLower(u.perfil.value), "admin");
      r := Some(UsuarioDto(u.id, u.nome, u.email, u.perfil, isAdmin));
    }
  }
}
