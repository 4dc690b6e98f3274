/** The records that Startify keeps in its session state: accounts, the staged
    sign-up data and products, together with the small value types they use. */
module Records {

  datatype Option<+T> = None | Some(value: T)

  /** An ISO-8601 timestamp as produced by `datetime.now().isoformat()`; the
      clock is outside the model, so a timestamp is an opaque value passed in. */
  type Timestamp = string

  /** Raw bytes of an uploaded image. */
  type Bytes = seq<bv8>

  /** An account, stored under its username. The password is kept in plain text. */
  datatype User = User(name: string, email: string, password: string, createdAt: Timestamp)

  /** What the first sign-up step stages until the second step finishes it. */
  datatype Onboarding = Onboarding(nome: string, email: string)

  /** The five values the product form's category box offers. */
  datatype Category = Curso | EBook | Template | Servico | Outro

  /** A product in the shared catalogue. `id` comes from the clock and a random
      number and is not guaranteed unique; the price is the form's number, kept
      as a real. */
  datatype Product = Product(
    id: int,
    owner: string,
    name: string,
    price: real,
    category: Category,
    description: string,
    image: Option<Bytes>,
    createdAt: Timestamp)

  /** What a handler reports to the user: a success message, an error message,
      the second sign-up form not being on screen (nothing staged), or the
      "login required" warning of the guard. */
  datatype Outcome = Accepted | Rejected | NotStaged | LoginRequired

  /** The pages of the sidebar menu. */
  datatype Page = Inicio | CriarConta | Entrar | Dashboard | CriarProduto | MeusProdutos | Sair
}
