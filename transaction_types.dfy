/** The entities of the transaction data model and the JavaScript number
    values their amounts take. */
module TransactionTypes {

  /** A JavaScript number with the non-finite values kept apart. Finite values
      are exact reals: rounding and overflow to infinity are not modelled. */
  datatype Num = Finite(value: real) | PosInfinity | NegInfinity | NaN
  {
    /** `Number.isFinite`. */
    predicate IsFinite() { Finite? }
  }

  /** JavaScript `+` on numbers. */
  function Add(a: Num, b: Num): (r: Num)
    ensures a.Finite? && b.Finite? ==> r == Finite(a.value + b.value)
    ensures (a.NaN? || b.NaN?) ==> r.NaN?
    ensures (a.PosInfinity? && b.NegInfinity?) || (a.NegInfinity? && b.PosInfinity?) ==> r.NaN?
  {
    match (a, b)
    case (Finite(x), Finite(y)) => Finite(x + y)
    case (NaN, _) => NaN
    case (_, NaN) => NaN
    case (PosInfinity, NegInfinity) => NaN
    case (NegInfinity, PosInfinity) => NaN
    case (PosInfinity, _) => PosInfinity
    case (_, PosInfinity) => PosInfinity
    case (NegInfinity, _) => NegInfinity
    case (_, NegInfinity) => NegInfinity
  }

  /** JavaScript truthiness of a number: `0` and `NaN` are falsy. */
  predicate NumTruthy(n: Num)
  {
    !(n.NaN? || n == Finite(0.0))
  }

  /** `'expense' | 'income'` (types/transaction.ts). */
  datatype TransactionType = Expense | Income

  function TypeName(k: TransactionType): string
  {
    match k
    case Expense => "expense"
    case Income => "income"
  }

  /** The five categories of `CATEGORIES` (constants/categories.ts). */
  datatype Category = Alimentacao | Transporte | Compras | Contas | Saude

  const AllCategories: seq<Category> := [Alimentacao, Transporte, Compras, Contas, Saude]

  function CategoryName(c: Category): string
  {
    match c
    case Alimentacao => "Alimentação"
    case Transporte => "Transporte"
    case Compras => "Compras"
    case Contas => "Contas"
    case Saude => "Saúde"
  }

  /** A transaction; the date and the optional audio URL play no part in the
      modelled operations and are kept as opaque strings. */
  datatype Transaction = Transaction(
    id: string,
    userId: string,
    amount: Num,
    category: Category,
    kind: TransactionType,
    description: string,
    date: string)
}
