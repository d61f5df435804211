/**
 * The records shared by the generator, the page assembler and the sheets:
 * the four operations, a problem category ("subtype"), the user's
 * settings and one generated problem.
 */
module Types {

  datatype Option<T> = None | Some(value: T)

  /** The four arithmetic operations; each is stored as its own upper-case name. */
  datatype MathOperation = Addition | Subtraction | Multiplication | Division

  const ALL_OPERATIONS: seq<MathOperation> := [Addition, Subtraction, Multiplication, Division]

  predicate IsUpperLetter(c: char) {
    'A' <= c <= 'Z'
  }

  /** The string value of an operation (the enum's value, e.g. "ADDITION"). */
  function OperationName(op: MathOperation): (name: string)
    ensures |name| >= 1
    ensures forall i :: 0 <= i < |name| ==> IsUpperLetter(name[i])
  {
    match op
    case Addition => "ADDITION"
    case Subtraction => "SUBTRACTION"
    case Multiplication => "MULTIPLICATION"
    case Division => "DIVISION"
  }

  /** Every operation is one of exactly four, listed once each, and their names differ. */
  lemma OperationsAreFour(op: MathOperation, other: MathOperation)
    ensures |ALL_OPERATIONS| == 4 && op in ALL_OPERATIONS
    ensures forall i, j :: 0 <= i < j < 4 ==> ALL_OPERATIONS[i] != ALL_OPERATIONS[j]
    ensures OperationName(op) == OperationName(other) ==> op == other
  {
  }

  /** A problem category of the catalog. */
  datatype ProblemSubtype = ProblemSubtype(
    id: string,
    name: string,
    operation: MathOperation,
    digitsTop: int,
    digitsBottom: int,
    description: Option<string>)

  /** Operand widths for long multiplication, as the settings hold them. */
  datatype LongMultiplication = LongMultiplication(multiplicandDigits: int, multiplierDigits: int)

  datatype WorksheetSettings = WorksheetSettings(
    title: string,
    enabledSubtypes: seq<string>,
    allowNegatives: bool,
    wholeNumberDivisionOnly: bool,
    generateAnswerKey: bool,
    pageCount: int,
    longMultiplication: LongMultiplication)

  /** A problem's answer field may hold a number or a string. */
  datatype Answer = NumberAnswer(value: int) | TextAnswer(text: string)

  datatype MathProblem = MathProblem(
    id: string,
    num1: int,
    num2: int,
    operation: MathOperation,
    answer: Answer,
    remainder: Option<int>,
    subtype: string)

  /** The triple that run-wide deduplication is about. */
  datatype Triple = Triple(num1: int, operation: MathOperation, num2: int)

  function TripleOf(p: MathProblem): Triple {
    Triple(p.num1, p.operation, p.num2)
  }
}
