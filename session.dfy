/** Startify's session state and the handlers that change it. Each handler is
    one button of the UI lifted out of its page branch; the widget values it
    reads are its parameters. */
module SessionState {
  import opened Records
  import opened Queries

  /** The view behind the dashboard page: the greeting's name, the number of
      the user's products and the most recent of them. */
  datatype DashboardView = DashboardView(greeting: string, created: nat, recent: seq<Product>)

  /** The view behind the "Meus Produtos" page. */
  datatype ProductsPage =
    | NoProducts
    | Table(mine: seq<Product>, csv: Option<seq<Product>>)

  class Session {
    var users: map<string, User>
    var currentUser: Option<string>
    var produtos: seq<Product>
    var onboarding: Option<Onboarding>

    /** What every reachable session satisfies: the logged-in user and every
        product's owner are registered, and no account has an empty password. */
    ghost predicate Valid()
      reads this
    {
      && (currentUser.Some? ==> currentUser.value in users)
      && (forall i :: 0 <= i < |produtos| ==> produtos[i].owner in users)
      && (forall u :: u in users ==> users[u].password != [])
    }

    /** The state a fresh browser session starts in. */
    constructor ()
      ensures Valid()
      ensures users == map[] && currentUser == None && produtos == [] && onboarding == None
    {
      users := map[];
      currentUser := None;
      produtos := [];
      onboarding := None;
    }

    /** "Próximo": stage the name and e-mail, or refuse when either is empty. */
    method SignupNext(nome: string, email: string) returns (r: Outcome)
      requires Valid()
      modifies this
      ensures Valid()
      ensures r == Accepted <==> nome != [] && email != []
      ensures r == Accepted || r == Rejected
      ensures onboarding == if r == Accepted then Some(Onboarding(nome, email)) else old(onboarding)
      ensures users == old(users) && currentUser == old(currentUser) && produtos == old(produtos)
    {
      if nome == [] || email == [] {
        r := Rejected;
      } else {
        onboarding := Some(Onboarding(nome, email));
        r := Accepted;
      }
    }

    /** "Finalizar Cadastro": offered only while something is staged. With a
        non-empty password confirmed by the second field, it stores the account
        under the username of the e-mail field as it reads now (overwriting any
        account of that username), logs it in and drops the staged record. */
    method SignupFinish(email: string, senha: string, senha2: string, createdAt: Timestamp)
      returns (r: Outcome)
      requires Valid()
      modifies this
      ensures Valid()
      ensures old(onboarding).None? ==> r == NotStaged
      ensures old(onboarding).Some? ==> (r == Accepted <==> senha != [] && senha == senha2)
      ensures old(onboarding).Some? ==> r != NotStaged && r != LoginRequired
      ensures r != Accepted ==>
        users == old(users) && currentUser == old(currentUser) && onboarding == old(onboarding)
      ensures r == Accepted ==>
        && users == old(users)[UsernameOf(email) := User(old(onboarding).value.nome, email, senha, createdAt)]
        && currentUser == Some(UsernameOf(email))
        && onboarding == None
      ensures forall u :: u in old(users) && u != UsernameOf(email) ==> u in users && users[u] == old(users)[u]
      ensures produtos == old(produtos)
    {
      if onboarding.None? {
        r := NotStaged;
      } else if senha == [] || senha != senha2 {
        r := Rejected;
      } else {
        var username := UsernameOf(email);
        users := users[username := User(onboarding.value.nome, email, senha, createdAt)];
        currentUser := Some(username);
        onboarding := None;
        r := Accepted;
      }
    }

    /** "Entrar": log in exactly when the username is registered and its stored
        password equals the one typed. */
    method Login(username: string, password: string) returns (r: Outcome)
      requires Valid()
      modifies this
      ensures Valid()
      ensures r == Accepted <==> username in old(users) && old(users)[username].password == password
      ensures r == Accepted || r == Rejected
      ensures password == [] ==> r == Rejected
      ensures currentUser == if r == Accepted then Some(username) else old(currentUser)
      ensures users == old(users) && produtos == old(produtos) && onboarding == old(onboarding)
    {
      if username in users && users[username].password == password {
        currentUser := Some(username);
        r := Accepted;
      } else {
        r := Rejected;
      }
    }

    /** The `require_login` wrapper's test: a guarded view runs only when
        someone is logged in. */
    method RequireLogin() returns (allowed: bool)
      ensures allowed <==> currentUser.Some?
    {
      allowed := currentUser.Some?;
    }

    /** The dashboard: nothing but the warning when nobody is logged in. */
    method ShowDashboard() returns (v: Option<DashboardView>)
      requires Valid()
      ensures v.None? <==> currentUser.None?
      ensures v.Some? ==>
        var mine := OwnedBy(produtos, currentUser.value);
        && v.value.greeting == users[currentUser.value].name
        && v.value.created == |mine|
        && v.value.recent == Recent(mine)
    {
      var allowed := RequireLogin();
      if !allowed {
        v := None;
      } else {
        var mine := OwnedBy(produtos, currentUser.value);
        v := Some(DashboardView(users[currentUser.value].name, |mine|, Recent(mine)));
      }
    }

    /** "Salvar" on the product form: behind the login guard, reject a product
        with no name, a price that is not positive or no description, otherwise
        append it to the catalogue under the logged-in user. */
    method CreateProduct(
      id: int, nome: string, preco: real, categoria: Category, descricao: string,
      imagem: Option<Bytes>, createdAt: Timestamp)
      returns (r: Outcome)
      requires Valid()
      modifies this
      ensures Valid()
      ensures old(currentUser).None? ==> r == LoginRequired
      ensures old(currentUser).Some? ==>
        (r == Accepted <==> nome != [] && preco > 0.0 && descricao != [])
      ensures old(currentUser).Some? ==> r == Accepted || r == Rejected
      ensures produtos == if r == Accepted
        then old(produtos) + [Product(id, old(currentUser).value, nome, preco, categoria, descricao, imagem, createdAt)]
        else old(produtos)
      ensures users == old(users) && currentUser == old(currentUser) && onboarding == old(onboarding)
    {
      var allowed := RequireLogin();
      if !allowed {
        r := LoginRequired;
      } else if nome == [] || preco <= 0.0 || descricao == [] {
        r := Rejected;
      } else {
        produtos := produtos + [Product(id, currentUser.value, nome, preco, categoria, descricao, imagem, createdAt)];
        r := Accepted;
      }
    }

    /** "Meus Produtos": behind the login guard, the user's products, and with
        them the CSV export, which covers the whole catalogue. */
    method ListProducts() returns (v: Option<ProductsPage>)
      ensures v.None? <==> currentUser.None?
      ensures v.Some? ==>
        var mine := OwnedBy(produtos, currentUser.value);
        && (v.value == NoProducts <==> mine == [])
        && (v.value.Table? ==> v.value.mine == mine && v.value.csv == Some(produtos))
    {
      var allowed := RequireLogin();
      if !allowed {
        v := None;
      } else {
        var mine := OwnedBy(produtos, currentUser.value);
        if mine == [] {
          v := Some(NoProducts);
        } else {
          assert mine[0] in produtos;
          v := Some(Table(mine, ExportProductsCsv(produtos)));
        }
      }
    }

    /** "Sair": behind the login guard, log the user out; accounts, products and
        any staged sign-up stay. */
    method Logout() returns (r: Outcome)
      requires Valid()
      modifies this
      ensures Valid()
      ensures r == if old(currentUser).None? then LoginRequired else Accepted
      ensures currentUser == None
      ensures users == old(users) && produtos == old(produtos) && onboarding == old(onboarding)
    {
      var allowed := RequireLogin();
      if !allowed {
        r := LoginRequired;
      } else {
        currentUser := None;
        r := Accepted;
      }
    }
  }

  /** The documented flow: sign up, log out, and log in with the part of the
      e-mail before '@' and the chosen password. */
  method SignupLogoutLogin(nome: string, email: string, senha: string, createdAt: Timestamp)
    returns (r: Outcome)
    requires nome != [] && email != [] && senha != []
    ensures r == Accepted
  {
    var s := new Session();
    var staged := s.SignupNext(nome, email);
    var finished := s.SignupFinish(email, senha, senha, createdAt);
    var out := s.Logout();
    r := s.Login(UsernameOf(email), senha);
  }

  /** Sign-up does not check that the username is free: a second account whose
      e-mail has the same part before '@' replaces the first, so the first
      password stops working and the second one logs in. */
  method SignupOverwrites(
    nome: string, email1: string, email2: string, senha1: string, senha2: string,
    createdAt: Timestamp)
    returns (first: Outcome, second: Outcome)
    requires nome != [] && email1 != [] && email2 != []
    requires senha1 != [] && senha2 != [] && senha1 != senha2
    requires UsernameOf(email1) == UsernameOf(email2)
    ensures first == Rejected && second == Accepted
  {
    var s := new Session();
    var a := s.SignupNext(nome, email1);
    var b := s.SignupFinish(email1, senha1, senha1, createdAt);
    var c := s.Logout();
    var d := s.SignupNext(nome, email2);
    var e := s.SignupFinish(email2, senha2, senha2, createdAt);
    var f := s.Logout();
    first := s.Login(UsernameOf(email1), senha1);
    second := s.Login(UsernameOf(email1), senha2);
  }

  /** A logged-in user's new product ends their recent list and raises their
      count by one, while every other user's list is untouched. */
  method CreateThenDashboard(
    s: Session, id: int, nome: string, preco: real, categoria: Category, descricao: string,
    imagem: Option<Bytes>, createdAt: Timestamp)
    returns (before: Option<DashboardView>, after: Option<DashboardView>)
    requires s.Valid() && s.currentUser.Some?
    requires nome != [] && preco > 0.0 && descricao != []
    modifies s
    ensures s.Valid() && s.currentUser == old(s.currentUser)
    ensures before.Some? && after.Some?
    ensures after.value.created == before.value.created + 1
    ensures |after.value.recent| > 0
    ensures after.value.recent[|after.value.recent| - 1]
      == Product(id, s.currentUser.value, nome, preco, categoria, descricao, imagem, createdAt)
    ensures forall o :: o != s.currentUser.value ==> OwnedBy(s.produtos, o) == OwnedBy(old(s.produtos), o)
  {
    before := s.ShowDashboard();
    ghost var ps := s.produtos;
    var r := s.CreateProduct(id, nome, preco, categoria, descricao, imagem, createdAt);
    after := s.ShowDashboard();
    ghost var p := Product(id, s.currentUser.value, nome, preco, categoria, descricao, imagem, createdAt);
    OwnedByAppend(ps, p, p.owner);
    NewProductIsMostRecent(ps, p);
    forall o | o != s.currentUser.value
      ensures OwnedBy(s.produtos, o) == OwnedBy(ps, o)
    {
      OwnedByAppend(ps, p, o);
    }
  }

  /** Signing up with an address that starts with '@' logs in the empty
      username: the login guard lets the session through, while the menu
      offers neither the dashboard nor logout. */
  method LeadingAtPassesGuard(nome: string, domain: string, senha: string, createdAt: Timestamp)
    returns (allowed: bool, menu: seq<Page>)
    requires nome != [] && senha != []
    ensures allowed
    ensures Sair !in menu && Dashboard !in menu
  {
    var email := ['@'] + domain;
    var s := new Session();
    var staged := s.SignupNext(nome, email);
    var finished := s.SignupFinish(email, senha, senha, createdAt);
    allowed := s.RequireLogin();
    menu := Menu(s.currentUser);
    UsernameOfLeadingAt(domain);
  }
}
