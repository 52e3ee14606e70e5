/**
 * The values a caller hands to `setGridValues`, and the `ExtendedValue`
 * record (`formulaValue`, `stringValue`, `numberValue`, `boolValue`) each one
 * is stored as.
 */
module CellValues {
  import opened Wrappers

  /**
   * The JavaScript values that reach the classifier. Numbers are mathematical
   * reals: NaN, the infinities and -0 are not represented.
   */
  datatype JsValue =
    | Undefined
    | Null
    | Bool(b: bool)
    | Number(x: real)
    | Str(s: string)
    | Object

  /** JavaScript truthiness. */
  predicate Truthy(v: JsValue)
  {
    match v
    case Undefined => false
    case Null => false
    case Bool(b) => b
    case Number(x) => x != 0.0
    case Str(s) => s != []
    case Object => true
  }

  datatype ExtendedValue =
    | FormulaValue(formula: string)
    | StringValue(text: string)
    | NumberValue(number: real)
    | BoolValue(flag: bool)

  /** A cell: `{ userEnteredValue }`, or `{}` when there is none. */
  datatype CellData = CellData(userEnteredValue: Option<ExtendedValue>)

  const EMPTY_CELL: CellData := CellData(None)

  predicate IsFormulaText(s: string) { |s| > 0 && s[0] == '=' }

  /** The value a stored ExtendedValue was classified from. */
  function SourceValue(e: ExtendedValue): JsValue
  {
    match e
    case FormulaValue(s) => Str(s)
    case StringValue(s) => Str(s)
    case NumberValue(x) => Number(x)
    case BoolValue(b) => Bool(b)
  }

  /** A stored value is consistent with its kind: formulas, and only formulas, start with '='. */
  predicate WellKinded(e: ExtendedValue)
  {
    match e
    case FormulaValue(s) => IsFormulaText(s)
    case StringValue(s) => !IsFormulaText(s)
    case _ => true
  }

  /**
   * The `typeof` switch of setGridValues: strings starting with '=' are
   * formulas, other strings, numbers and booleans are stored as such, and
   * anything else gives no value. Nothing is lost: the value can be read back.
   */
  function Classify(v: JsValue): (r: Option<ExtendedValue>)
    ensures r.None? <==> !(v.Str? || v.Number? || v.Bool?)
    ensures r.Some? ==> WellKinded(r.value) && SourceValue(r.value) == v
  {
    match v
    case Str(s) => if IsFormulaText(s) then Some(FormulaValue(s)) else Some(StringValue(s))
    case Number(x) => Some(NumberValue(x))
    case Bool(b) => Some(BoolValue(b))
    case _ => None
  }

  /** Every well-kinded stored value is what classifying its source value gives. */
  lemma ClassifySourceValue(e: ExtendedValue)
    requires WellKinded(e)
    ensures Classify(SourceValue(e)) == Some(e)
  {
  }

  /** `userEnteredValue ? { userEnteredValue } : {}` */
  function CellFor(v: JsValue): (c: CellData)
    ensures c.userEnteredValue.None? <==> !(v.Str? || v.Number? || v.Bool?)
  {
    CellData(Classify(v))
  }

  /** The `values` argument: a function of (columnIndex, rowIndex), or one value for every cell. */
  datatype ValueSource =
    | Computed(f: (int, int) -> JsValue)
    | Constant(value: JsValue)

  /** `typeof values === 'function' ? values : () => values`, applied. */
  function ValueAt(values: ValueSource, columnIndex: int, rowIndex: int): JsValue
  {
    match values
    case Computed(f) => f(columnIndex, rowIndex)
    case Constant(v) => v
  }

  /** The cell function setGridValues hands to setGridData. */
  function CellsOf(values: ValueSource): (int, int) -> CellData
  {
    (columnIndex: int, rowIndex: int) => CellFor(ValueAt(values, columnIndex, rowIndex))
  }
}
