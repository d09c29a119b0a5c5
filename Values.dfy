/**
 * The loosely-typed option bags and metadata objects that the deflate
 * facility passes around, and the two JavaScript object operations it
 * applies to them: object spread `{ ...v }` and lodash's `pick` with flat
 * keys.
 */
module Values {

  newtype byte = b: int | 0 <= b < 256

  /** A JavaScript value, as far as the facility looks into it. */
  datatype Value =
    | Undefined
    | Null
    | Bool(b: bool)
    | Num(n: int)
    | Str(s: string)
    | Obj(fields: map<string, Value>)

  /** A plain object used as an options bag: property name to value. */
  type Options = map<string, Value>

  /** The decimal digit character for d. */
  function Digit(d: nat): (c: char)
    requires d < 10
    ensures '0' <= c <= '9'
  {
    ('0' as int + d) as char
  }

  /** The value of a decimal digit character. */
  function DigitValue(c: char): (d: nat)
    requires '0' <= c <= '9'
    ensures d < 10 && Digit(d) == c
  {
    c as int - '0' as int
  }

  predicate IsDigits(s: string) {
    forall i :: 0 <= i < |s| ==> '0' <= s[i] <= '9'
  }

  /**
   * The string JavaScript gives a non-negative integer when it is turned
   * into a property key or interpolated into a template literal.
   */
  function Decimal(n: nat): (s: string)
    ensures |s| >= 1 && IsDigits(s)
    ensures s[0] == '0' ==> n == 0 && s == "0"
  {
    if n < 10 then [Digit(n)] else Decimal(n / 10) + [Digit(n % 10)]
  }

  /** Reads a string of decimal digits back as a number. */
  function DecimalValue(s: string): (n: nat)
    requires IsDigits(s)
  {
    if s == [] then 0 else DecimalValue(s[..|s| - 1]) * 10 + DigitValue(s[|s| - 1])
  }

  lemma {:induction false} DecimalRoundTrip(n: nat)
    ensures DecimalValue(Decimal(n)) == n
  {
    var s := Decimal(n);
    if n >= 10 {
      DecimalRoundTrip(n / 10);
      assert s[..|s| - 1] == Decimal(n / 10);
      assert DigitValue(s[|s| - 1]) == n % 10;
    } else {
      assert s[..|s| - 1] == [];
    }
  }

  /** Distinct numbers have distinct decimal spellings. */
  lemma DecimalInjective(m: nat, n: nat)
    ensures Decimal(m) == Decimal(n) ==> m == n
  {
    DecimalRoundTrip(m);
    DecimalRoundTrip(n);
  }

  /** The own properties of a string: one per index, holding that character. */
  function StringEntries(s: string): (m: Options)
    ensures forall k :: k in m ==> IsDigits(k)
  {
    if s == [] then map[] else StringEntries(s[..|s| - 1])[Decimal(|s| - 1) := Str([s[|s| - 1]])]
  }

  /** A string spreads to exactly its indices, each holding its character. */
  lemma {:induction false} StringEntriesAt(s: string)
    ensures forall i: nat :: i < |s| ==> Decimal(i) in StringEntries(s) && StringEntries(s)[Decimal(i)] == Str([s[i]])
    ensures forall k :: k in StringEntries(s) ==> exists i: nat :: i < |s| && k == Decimal(i)
  {
    if s != [] {
      var last := |s| - 1;
      var init := s[..last];
      var before := StringEntries(init);
      var m := before[Decimal(last) := Str([s[last]])];
      assert StringEntries(s) == m;
      StringEntriesAt(init);
      forall i: nat | i < |s|
        ensures Decimal(i) in m && m[Decimal(i)] == Str([s[i]])
      {
        if i < last {
          DecimalInjective(i, last);
          assert init[i] == s[i];
        }
      }
      forall k | k in m
        ensures exists i: nat :: i < |s| && k == Decimal(i)
      {
        if k != Decimal(last) {
          assert k in before;
          var i: nat :| i < |init| && k == Decimal(i);
        }
      }
    }
  }

  /**
   * The properties that `{ ...v }` copies out of v: an object's own
   * properties, a string's indexed characters, and nothing at all for
   * undefined, null, booleans and numbers.
   */
  function Spread(v: Value): (m: Options)
    ensures v.Obj? ==> m == v.fields
    ensures v.Str? ==> m == StringEntries(v.s)
    ensures !v.Obj? && !v.Str? ==> m == map[]
  {
    match v
    case Obj(fields) => fields
    case Str(s) => StringEntries(s)
    case _ => map[]
  }

  /** lodash `pick(m, keys)` for flat keys: the properties of m named in keys. */
  function Pick(m: Options, keys: set<string>): (r: Options)
    ensures forall k :: k in r <==> k in m && k in keys
    ensures forall k :: k in r ==> r[k] == m[k]
  {
    map k | k in m && k in keys :: m[k]
  }
}
