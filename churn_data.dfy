/** Shared vocabulary of the churn scoring rules: the customer record the
    form assembles, the two display languages, and an optional value. */
module ChurnData {

  datatype Option<+T> = None | Some(value: T)

  /** The two text bundles of the application. */
  datatype Lang = Es | En

  /** The language a language code selects: only "es" picks Spanish,
      every other code falls to the English branches. */
  function LangOf(code: string): (l: Lang)
    ensures l == Es <==> code == "es"
  {
    if code == "es" then Es else En
  }

  /** One customer as the form hands it to the rules: six numeric fields,
      each converted with float(...) before any rule reads it. */
  datatype Customer = Customer(
    creditScore: real,
    tenure: real,
    age: real,
    balance: real,
    salary: real,
    products: real)
}
