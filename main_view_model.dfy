/**
 * `MainViewModel.CarregarPermissoes`: what the main window lets the logged-in user
 * do, read off the profile name the login stored in the session, and the greeting.
 */
module Principal {
  import opened Wrappers
  import opened Text
  import opened Usuarios

  /** The profile name as compared: lower-cased, then trimmed. */
  function PerfilNormalizado(perfil: string): (r: string)
    ensures |r| <= |perfil|
  {
    Trim(ToLower(perfil))
  }

  /** Administrators: the normalised profile name contains "admin". */
  predicate EAdministrador(perfil: string) {
    Contains(PerfilNormalizado(perfil), "admin")
  }

  /** The treasury screens: administrators, and profile names containing "tesour". */
  predicate ETesouraria(perfil: string) {
    EAdministrador(perfil) || Contains(PerfilNormalizado(perfil), "tesour")
  }

  function Saudacao(nome: string): (r: string)
    ensures |r| == |"Logado como ["| + |nome| + 1
    ensures r[..|"Logado como ["|] == "Logado como [" && r[|r| - 1] == ']'
    ensures r[|"Logado como ["|..|r| - 1] == nome
  {
    "Logado como [" + nome + "]"
  }

  /** A profile this screen accepts: present and not empty. */
  predicate PerfilCarregado(u: UsuarioDto) {
    u.perfil.Some? && u.perfil.value != ""
  }

  class MainViewModel {
    var isAdministrador: bool
    var isTesourariaAcessivel: bool
    /** `SaudacaoUsuario`: null until a permission load sets it. */
    var saudacaoUsuario: Option<string>

    /** Every view model of this window: administrators always reach the treasury screens. */
    predicate Coerente()
      reads this
    {
      isAdministrador ==> isTesourariaAcessivel
    }

    /** The constructor ends by loading the permissions of the session's user. */
    constructor (usuarioLogado: Option<UsuarioDto>)
      ensures usuarioLogado.None? ==> !isAdministrador && !isTesourariaAcessivel && saudacaoUsuario == Some("Visitante")
      ensures usuarioLogado.Some? && !PerfilCarregado(usuarioLogado.value) ==>
        !isAdministrador && !isTesourariaAcessivel && saudacaoUsuario == None
      ensures usuarioLogado.Some? && PerfilCarregado(usuarioLogado.value) ==>
        isAdministrador == EAdministrador(usuarioLogado.value.perfil.value)
        && isTesourariaAcessivel == ETesouraria(usuarioLogado.value.perfil.value)
        && saudacaoUsuario == Some(Saudacao(usuarioLogado.value.nome))
      ensures Coerente()
    {
      isAdministrador := false;
      isTesourariaAcessivel := false;
      saudacaoUsuario := None;
      new;
      CarregarPermissoes(usuarioLogado);
    }

    /**
     * `CarregarPermissoes`: no user is a visitor with no access; a user whose
     * profile name is missing or empty gets no access and keeps the old greeting;
     * otherwise the flags follow the profile name and the greeting names the user.
     */
    method CarregarPermissoes(usuarioLogado: Option<UsuarioDto>)
      modifies this
      ensures usuarioLogado.None? ==> !isAdministrador && !isTesourariaAcessivel && saudacaoUsuario == Some("Visitante")
      ensures usuarioLogado.Some? && !PerfilCarregado(usuarioLogado.value) ==>
        !isAdministrador && !isTesourariaAcessivel && saudacaoUsuario == old(saudacaoUsuario)
      ensures usuarioLogado.Some? && PerfilCarregado(usuarioLogado.value) ==>
        isAdministrador == EAdministrador(usuarioLogado.value.perfil.value)
        && isTesourariaAcessivel == ETesouraria(usuarioLogado.value.perfil.value)
        && saudacaoUsuario == Some(Saudacao(usuarioLogado.value.nome))
      ensures Coerente()
    {
      if usuarioLogado.Some? {
        var nomePerfil := usuarioLogado.value.perfil;
        if nomePerfil.None? || nomePerfil.value == "" {
          isAdministrador := false;
          isTesourariaAcessivel := false;
          return;
        }
        var normalizado := Trim(ToLower(nomePerfil.value));
        isAdministrador := Contains(normalizado, "admin");
        isTesourariaAcessivel := isAdministrador || Contains(normalizado, "tesour");
        saudacaoUsuario := Some("Logado como [" + usuarioLogado.value.nome + "]");
      } else {
        isAdministrador := false;
        isTesourariaAcessivel := false;
        saudacaoUsuario := Some("Visitante");
      }
    }
  }

  /**
   * The main window and the login agree on who is an administrator: for the user a
   * login accepts with a non-empty profile name, the window's flag is the login's
   * `IsAdmin`, even though only the window trims the name.
   */
  lemma AdministradorComoNoLogin(us: seq<UsuarioData>, email: string, senha: string, hash: string -> string)
    requires Autenticar(us, email, senha, hash).Some?
    requires PerfilCarregado(Autenticar(us, email, senha, hash).value)
    ensures EAdministrador(Autenticar(us, email, senha, hash).value.perfil.value)
      == Autenticar(us, email, senha, hash).value.isAdmin
  {
    var p := Autenticar(us, email, senha, hash).value.perfil.value;
    assert forall k :: 0 <= k < |"admin"| ==> !IsWhiteSpace("admin"[k]);
    ContainsTrim(ToLower(p), "admin");
  }
}
