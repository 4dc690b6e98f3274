/** The read-side of Startify: deriving a username from an e-mail address, the
    owner filter over the catalogue, the dashboard's recent list, the CSV
    export's empty check and the sidebar menu, with the lemmas that relate them
    to the transitions of the session. */
module Queries {
  import opened Records

  // ---------------------------------------------------------------------------
  // Usernames

  /** `email.split("@")[0]`: the text before the first '@', or the whole
      address when it holds none. */
  function UsernameOf(email: string): (u: string)
    ensures |u| <= |email| && u == email[..|u|]
    ensures '@' !in u
    ensures |u| < |email| ==> email[|u|] == '@'
  {
    if email == [] || email[0] == '@' then []
    else [email[0]] + UsernameOf(email[1..])
  }

  /** The three properties in UsernameOf's contract pin the username down:
      any prefix without '@' that ends the address or stops at an '@' is it. */
  lemma {:induction false} UsernameOfUnique(email: string, u: string)
    requires |u| <= |email| && email[..|u|] == u
    requires '@' !in u
    requires |u| < |email| ==> email[|u|] == '@'
    ensures UsernameOf(email) == u
  {
  }

  /** For an address `local@domain` whose local part has no '@', the username is
      the local part, whatever the domain holds. */
  lemma UsernameOfAddress(local: string, domain: string)
    requires '@' !in local
    ensures UsernameOf(local + ['@'] + domain) == local
  {
    var email := local + ['@'] + domain;
    assert email[..|local|] == local;
    assert email[|local|] == '@';
    UsernameOfUnique(email, local);
  }

  /** An address that starts with '@' gives the empty username. */
  lemma UsernameOfLeadingAt(domain: string)
    ensures UsernameOf(['@'] + domain) == []
  {
    UsernameOfAddress([], domain);
  }

  // ---------------------------------------------------------------------------
  // The owner filter and the dashboard

  /** `[p for p in produtos if p["owner"] == owner]`: the products of one
      owner, in catalogue order. */
  function OwnedBy(ps: seq<Product>, owner: string): (r: seq<Product>)
    ensures |r| <= |ps|
    ensures forall p :: p in r <==> p in ps && p.owner == owner
  {
    if ps == [] then []
    else (if ps[0].owner == owner then [ps[0]] else []) + OwnedBy(ps[1..], owner)
  }

  /** The filter keeps each product of the owner as often as the catalogue
      holds it, and nothing else. */
  lemma {:induction false} OwnedByMultiplicity(ps: seq<Product>, owner: string)
    ensures forall p :: multiset(OwnedBy(ps, owner))[p] == if p.owner == owner then multiset(ps)[p] else 0
  {
    if ps != [] {
      assert ps == [ps[0]] + ps[1..];
      OwnedByMultiplicity(ps[1..], owner);
    }
  }

  /** Appending a product to the catalogue appends it to its owner's list and
      leaves every other owner's list as it was; with OwnedBy([], o) == [] this
      fixes the filter's order completely. */
  lemma {:induction false} OwnedByAppend(ps: seq<Product>, p: Product, owner: string)
    ensures OwnedBy(ps + [p], owner) == OwnedBy(ps, owner) + (if p.owner == owner then [p] else [])
  {
    if ps != [] {
      var head := if ps[0].owner == owner then [ps[0]] else [];
      var tail := if p.owner == owner then [p] else [];
      var rest := OwnedBy(ps[1..], owner);
      assert (ps + [p])[0] == ps[0];
      assert (ps + [p])[1..] == ps[1..] + [p];
      assert OwnedBy(ps + [p], owner) == head + OwnedBy(ps[1..] + [p], owner);
      OwnedByAppend(ps[1..], p, owner);
      assert OwnedBy(ps, owner) == head + rest;
      ConcatAssoc(head, rest, tail);
    }
  }

  lemma ConcatAssoc<T>(a: seq<T>, b: seq<T>, c: seq<T>)
    ensures a + (b + c) == (a + b) + c
  {
  }

  /** A catalogue in which every product belongs to `owner` is its own filter. */
  lemma {:induction false} OwnedByAllMine(ps: seq<Product>, owner: string)
    requires forall i :: 0 <= i < |ps| ==> ps[i].owner == owner
    ensures OwnedBy(ps, owner) == ps
  {
    if ps != [] {
      OwnedByAllMine(ps[1..], owner);
    }
  }

  /** How many products the dashboard lists under "Últimos produtos". */
  const RecentLimit: nat := 5

  /** `meus_produtos[-5:]`: the last min(5, n) entries of the owner's list. */
  function Recent(mine: seq<Product>): (r: seq<Product>)
    ensures |r| == if |mine| < RecentLimit then |mine| else RecentLimit
    ensures forall i :: 0 <= i < |r| ==> r[i] == mine[|mine| - |r| + i]
  {
    if |mine| <= RecentLimit then mine else mine[|mine| - RecentLimit..]
  }

  /** The recent list slides: after one more product it is the old recent list
      with the new product at its end, trimmed back to five entries. */
  lemma RecentSlides(mine: seq<Product>, p: Product)
    ensures Recent(mine + [p]) == Recent(Recent(mine) + [p])
  {
    var r, r' := Recent(mine + [p]), Recent(Recent(mine) + [p]);
    assert |r| == |r'|;
    forall i | 0 <= i < |r| ensures r[i] == r'[i] {
      var k := |r| - 1 - i;
      if k > 0 {
        assert r[i] == mine[|mine| - k];
        assert r'[i] == Recent(mine)[|Recent(mine)| - k];
      }
    }
  }

  /** A product just created by the logged-in user is the last entry of that
      user's recent list. */
  lemma NewProductIsMostRecent(ps: seq<Product>, p: Product)
    ensures var r := Recent(OwnedBy(ps + [p], p.owner)); |r| > 0 && r[|r| - 1] == p
  {
    OwnedByAppend(ps, p, p.owner);
  }

  // ---------------------------------------------------------------------------
  // CSV export

  /** `export_products_csv()`: nothing for an empty catalogue, otherwise the CSV
      of every product row. The CSV text itself comes from a library and is
      represented by the rows it serialises: the whole catalogue, of every
      owner. */
  function ExportProductsCsv(produtos: seq<Product>): (r: Option<seq<Product>>)
    ensures r.None? <==> |produtos| == 0
    ensures r.Some? ==> r.value == produtos
  {
    if produtos == [] then None else Some(produtos)
  }

  /** Whenever the "Meus Produtos" page shows a table the export is present, and
      it carries the other owners' products as well. */
  lemma ExportCarriesOtherOwners(ps: seq<Product>, owner: string, q: Product)
    requires OwnedBy(ps, owner) != []
    requires q in ps && q.owner != owner
    ensures ExportProductsCsv(ps).Some?
    ensures q in ExportProductsCsv(ps).value && q !in OwnedBy(ps, owner)
  {
    assert OwnedBy(ps, owner)[0] in ps;
  }

  // ---------------------------------------------------------------------------
  // The sidebar menu

  /** Python's truth value of `current_user`: set and not the empty string. */
  predicate Truthy(currentUser: Option<string>)
  {
    currentUser.Some? && currentUser.value != []
  }

  /** The pages of the logged-in menu. */
  predicate LoggedInPage(pg: Page)
  {
    pg.Dashboard? || pg.CriarProduto? || pg.MeusProdutos? || pg.Sair?
  }

  /** The menu offered for a given `current_user`: every logged-in page and
      nothing else when it is truthy, every signed-out page and nothing else
      when it is not. */
  function Menu(currentUser: Option<string>): (pages: seq<Page>)
    ensures forall pg :: pg in pages <==> (LoggedInPage(pg) <==> Truthy(currentUser))
  {
    if Truthy(currentUser) then [Dashboard, CriarProduto, MeusProdutos, Sair]
    else [Inicio, CriarConta, Entrar]
  }

  /** A user signed up with an address that starts with '@' is logged in under
      the empty username; the menu treats that session as logged out and offers
      no guarded page and no logout. That the guard lets the session through is
      shown by SessionState.LeadingAtPassesGuard. */
  lemma LeadingAtSeesSignedOutMenu(domain: string)
    ensures var cu := Some(UsernameOf(['@'] + domain));
      Sair !in Menu(cu) && Dashboard !in Menu(cu)
  {
    UsernameOfLeadingAt(domain);
  }
}
