/**
 * The few JSON shapes the token file and the token endpoint's answers take.
 */
module Json {

  /** A JSON value stored under one key of a token object. */
  datatype Value =
    | Str(s: string)
    | Num(n: int)
    | Other(text: string)   // any other JSON value, carried with the text Python's str() gives it

  /** A decoded JSON object. */
  type Dict = map<string, Value>

  /** The token file, classified by what opening it and `json.loads` make of it. */
  datatype Doc =
    | Missing               // no file: `open` raises FileNotFoundError
    | Object(fields: Dict)  // a JSON object
    | NonObject             // valid JSON that is not an object
    | Unparsable            // `json.loads` raises ValueError (an empty file among others)

  /** The text an f-string puts in place of a value. */
  function Show(v: Value): string
  {
    match v
    case Str(s) => s
    case Num(n) => if n < 0 then "-" + Digits(-n) else Digits(n)
    case Other(text) => text
  }

  function Digits(n: nat): string
    decreases n
  {
    if n < 10 then ["0123456789"[n]] else Digits(n / 10) + ["0123456789"[n % 10]]
  }
}
