/** The closed category registry of the ledger and the error kinds the
    ledger operations raise. */
module Registry {

  /** The ways an operation of the ledger can fail. */
  datatype Error =
    | InvalidCategory     // a category code outside the registry (ValueError)
    | DuplicateAccount    // an account name already held by the client (ValueError)
    | UnknownCategoryKey  // a registry lookup of an unknown code (KeyError)
    | ZeroToNegativePower // 0.0 raised to a negative exponent (ZeroDivisionError)

  /** The message of each error. The ledger raises the first two itself,
      with these Portuguese texts; the other two are raised by Python, and
      their strings here are only labels naming the exception class, not
      Python's own messages. */
  function Message(e: Error): string
  {
    match e
    case InvalidCategory => "Categoria inválida."
    case DuplicateAccount => "Conta já existe."
    case UnknownCategoryKey => "KeyError"
    case ZeroToNegativePower => "ZeroDivisionError"
  }

  datatype Option<+T> = None | Some(value: T)

  datatype Result<+T> = Success(value: T) | Failure(error: Error)

  /** The registry: integer codes 1, 2 and 3 and their display names. */
  const CATEGORIES: map<int, string> :=
    map[1 := "Pagamento", 2 := "Depósito", 3 := "Transferência"]

  /** The code posted by the sale of an investment. */
  const DEPOSIT: int := 2

  /** A name the registry can resolve a code to. */
  predicate IsCategoryName(s: string)
  {
    s in CATEGORIES.Values
  }

  /** Resolves a code to its display name, failing as the constructor and
      the posting operation do for a code outside the registry. */
  function Resolve(code: int): (r: Result<string>)
    ensures r.Success? <==> 1 <= code <= 3
    ensures r.Failure? ==> r.error == InvalidCategory
    ensures r.Success? ==> IsCategoryName(r.value) && r.value == CATEGORIES[code]
  {
    if code in CATEGORIES then Success(CATEGORIES[code]) else Failure(InvalidCategory)
  }

  /** Distinct codes have distinct names, so filtering by the resolved name
      of a code selects exactly the entries posted with that code. */
  lemma NamesIdentifyCodes(c: int, d: int)
    requires c in CATEGORIES && d in CATEGORIES
    ensures CATEGORIES[c] == CATEGORIES[d] <==> c == d
  {
    assert CATEGORIES[1][0] == 'P' && CATEGORIES[2][0] == 'D' && CATEGORIES[3][0] == 'T';
  }

  /** The sale of an investment posts a valid code, named "Depósito". */
  lemma DepositIsValid()
    ensures DEPOSIT in CATEGORIES && CATEGORIES[DEPOSIT] == "Depósito"
  {
  }
}
