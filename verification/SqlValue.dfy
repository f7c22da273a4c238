/** The database side of a Decimal (internal/decimal/sql.go): Value writes it, Scan reads it. */
module SqlValue {
  import opened Wrappers
  import opened Digits
  import opened Decimals
  import opened Powers
  import Parser
  import opened Printer

  datatype DriverValue = Text(text: string) | Bytes(bytes: string) | Other
  datatype ScanError = BadText(error: Parser.ParseError) | UnknownType

  function UnquoteIfQuoted(value: string): string {
    if |value| > 2 && value[0] == '"' && value[|value| - 1] == '"' then value[1..|value| - 1] else value
  }

  function Value(d: Decimal): DriverValue {
    Text(Print(d))
  }

  function ScannedText(text: string): Result<Decimal, ScanError> {
    match Parser.Parse(UnquoteIfQuoted(text))
    case Ok(d) => Ok(d)
    case Err(e) => Err(BadText(e))
  }

  // What Scan reads from a driver value.
  function Scanned(value: DriverValue): Result<Decimal, ScanError> {
    match value
    case Text(text) => ScannedText(text)
    case Bytes(bytes) => ScannedText(bytes)
    case Other => Err(UnknownType)
  }

  class Destination {
    var d: Decimal

    constructor ()
      ensures d == Decimal(0, 0)
    {
      d := Decimal(0, 0);
    }

    // A bad text overwrites the destination with the zero decimal; an unknown type leaves it.
    method Scan(value: DriverValue) returns (err: Option<ScanError>)
      modifies this
      ensures err.None? <==> Scanned(value).Ok?
      ensures err.Some? ==> Scanned(value) == Err(err.value)
      ensures d == match Scanned(value) {
        case Ok(v) => v
        case Err(UnknownType) => old(d)
        case Err(BadText(_)) => Decimal(0, 0)
      }
    {
      var text;
      match value {
        case Text(v) => text := v;
        case Bytes(v) => text := v;
        case Other => return Some(UnknownType);
      }
      var r := Parser.NewFromString(UnquoteIfQuoted(text));
      match r {
        case Ok(v) =>
          d := v;
          err := None;
        case Err(e) =>
          d := Decimal(0, 0);
          err := Some(BadText(e));
      }
    }
  }

  lemma PrintHasNoQuote(d: Decimal)
    ensures |Print(d)| > 0 && Print(d)[0] != '"'
  {
    PrintedIsText(d);
    var n := Printed(d);
    assert Parser.Text(n)[0] == (n.sign + n.whole)[0];
  }

  // Reading back what Value wrote, quoted or not, gives an equal decimal; it succeeds exactly
  // when at most 1000 fraction digits are left after trimming.
  lemma ScanOfValue(d: Decimal)
    ensures Scanned(Value(d)).Ok? <==> |Printed(d).fraction| <= 1000
    ensures Scanned(Value(d)).Ok? ==> Cmp(Scanned(Value(d)).value, d) == 0
    ensures -1000 <= d.exp ==> Scanned(Value(d)).Ok?
    ensures Scanned(Bytes("\"" + Print(d) + "\"")) == Scanned(Value(d))
  {
    hide Parser.Parse;
    hide Cmp, Print, Printed;
    PrintHasNoQuote(d);
    PrintParse(d);
    var quoted := "\"" + Print(d) + "\"";
    assert quoted[1..|quoted| - 1] == Print(d);
    assert UnquoteIfQuoted(quoted) == Print(d);
  }

  // The eighteen decimals of a NUMERIC(36, 18) column.
  function FractionText(part: nat): (s: string)
    requires part < Pow10(18)
    ensures |s| == 18 && AllDigits(s) && ReadNat(s) == part
  {
    FractionFits(part);
    var digits := NatString(part);
    ReadNatString(part);
    ReadLeadingZeros(18 - |digits|, digits);
    Zeros(18 - |digits|) + digits
  }

  lemma FractionFits(part: nat)
    requires part < Pow10(18)
    ensures |NatString(part)| <= 18
  {
    NatStringSize(part);
    NoLeadingZero(part);
    if |NatString(part)| > 18 {
      Pow10Monotone(18, |NatString(part)| - 1);
    }
  }

  // How the database writes a stored amount of so many 10^-18 units.
  function NumericText(units: nat): string {
    hide Pow10;
    NatString(units / Pow10(18)) + "." + FractionText(units % Pow10(18))
  }

  // Every stored amount is read back exactly.
  lemma NumericTextScans(units: nat)
    ensures Scanned(Bytes(NumericText(units))) == Ok(Decimal(units, -18))
  {
    hide Parser.Parse, Parser.Text, Parser.MantissaText, Pow10, NatString, FractionText, ReadNat;
    var whole, fraction := NatString(units / Pow10(18)), FractionText(units % Pow10(18));
    ReadNatString(units / Pow10(18));
    ReadNatConcat(whole, fraction);
    var n := Parser.Numeral("", whole, true, fraction, Parser.NoTail);
    Parser.ParseMeaning(n);
    NumericTextIs(n);
    assert NumericText(units)[0] == whole[0];
    DivideBack(units, Pow10(18));
  }

  lemma NumericTextIs(n: Parser.Numeral)
    requires n.sign == "" && n.dot && n.tail.NoTail?
    ensures Parser.Text(n) == n.whole + "." + n.fraction
  {
  }

  lemma DivideBack(n: nat, p: nat)
    requires p > 0
    ensures n / p * p + n % p == n
  {
  }
}
