/** The PHP value semantics the plugin relies on: loose emptiness (`empty`),
    string conversion (`strval`, string concatenation) and `trim`. */
module Php {

  datatype Option<T> = None | Some(value: T)

  /** A scalar PHP value as the host hands it to the plugin: an absent
      setting or event parameter reads as Null. */
  datatype Value = Null | Bool(b: bool) | Int(i: int) | Str(s: string)

  /** PHP `empty($v)`: null, false, 0, "" and "0" are empty. */
  predicate Empty(v: Value)
  {
    match v
    case Null => true
    case Bool(b) => !b
    case Int(i) => i == 0
    case Str(s) => s == "" || s == "0"
  }

  function NatToDecimal(n: nat): string
  {
    var digit := [(48 + n % 10) as char];
    if n < 10 then digit else NatToDecimal(n / 10) + digit
  }

  /** PHP `strval($v)`, which is also what `.` and `trim` apply to a non-string. */
  function StrVal(v: Value): string
  {
    match v
    case Null => ""
    case Bool(b) => if b then "1" else ""
    case Int(i) => if i < 0 then "-" + NatToDecimal(-i) else NatToDecimal(i)
    case Str(s) => s
  }

  /** The characters PHP `trim` strips by default: " \t\n\r\0\x0B". */
  predicate IsTrimChar(c: char)
  {
    c == ' ' || c == '\t' || c == '\n' || c == '\r' || c == 0 as char || c == 11 as char
  }

  /** `ltrim`: drops leading trim characters. */
  function TrimLeft(s: string): string
  {
    if s != [] && IsTrimChar(s[0]) then TrimLeft(s[1..]) else s
  }

  /** `rtrim`: drops trailing trim characters. */
  function TrimRight(s: string): string
  {
    if s != [] && IsTrimChar(s[|s| - 1]) then TrimRight(s[..|s| - 1]) else s
  }

  /** `ltrim` leaves the longest suffix that does not start with a trim character. */
  lemma {:induction false} TrimLeftShape(s: string)
    ensures var r := TrimLeft(s);
      && |r| <= |s| && r == s[|s| - |r|..]
      && (forall i :: 0 <= i < |s| - |r| ==> IsTrimChar(s[i]))
      && (r == [] || !IsTrimChar(r[0]))
  {
    if s != [] && IsTrimChar(s[0]) {
      TrimLeftShape(s[1..]);
      var r := TrimLeft(s[1..]);
      assert forall i :: 1 <= i < |s| - |r| ==> s[i] == s[1..][i - 1];
    }
  }

  /** `rtrim` leaves the longest prefix that does not end with a trim character. */
  lemma {:induction false} TrimRightShape(s: string)
    ensures var r := TrimRight(s);
      && |r| <= |s| && r == s[..|r|]
      && (forall i :: |r| <= i < |s| ==> IsTrimChar(s[i]))
      && (r == [] || !IsTrimChar(r[|r| - 1]))
  {
    if s != [] && IsTrimChar(s[|s| - 1]) {
      TrimRightShape(s[..|s| - 1]);
      var r := TrimRight(s[..|s| - 1]);
      assert forall i :: |r| <= i < |s| - 1 ==> s[i] == s[..|s| - 1][i];
    }
  }

  /** PHP `trim`. */
  function Trim(s: string): string
  {
    TrimRight(TrimLeft(s))
  }

  /** `trim` of a non-string value, as in `trim($this->get(...))`. */
  function TrimValue(v: Value): string
  {
    Trim(StrVal(v))
  }

  /** A trimmed string neither starts nor ends with a trim character, and it
      is the piece of the input at `lo` with only trim characters around it. */
  lemma TrimShape(s: string) returns (lo: nat)
    ensures var r := Trim(s);
      && (r == [] || (!IsTrimChar(r[0]) && !IsTrimChar(r[|r| - 1])))
      && lo + |r| <= |s| && r == s[lo..lo + |r|]
      && (forall i :: 0 <= i < lo ==> IsTrimChar(s[i]))
      && (forall i :: lo + |r| <= i < |s| ==> IsTrimChar(s[i]))
  {
    var l := TrimLeft(s);
    var r := TrimRight(l);
    TrimLeftShape(s);
    TrimRightShape(l);
    lo := |s| - |l|;
    assert forall i :: lo + |r| <= i < |s| ==> s[i] == l[i - lo];
    if r != [] {
      assert r[0] == l[0];
    }
  }

  /** A string without a trim character at either end is its own trim. */
  lemma TrimUntouched(s: string)
    requires s == [] || (!IsTrimChar(s[0]) && !IsTrimChar(s[|s| - 1]))
    ensures Trim(s) == s
  {
  }

  /** Trimming twice is trimming once. */
  lemma TrimIdempotent(s: string)
    ensures Trim(Trim(s)) == Trim(s)
  {
    var _ := TrimShape(s);
    TrimUntouched(Trim(s));
  }

  /** `trim` yields "" exactly when the input consists of trim characters only. */
  lemma TrimEmptyIff(s: string)
    ensures Trim(s) == [] <==> forall i :: 0 <= i < |s| ==> IsTrimChar(s[i])
  {
    var l := TrimLeft(s);
    TrimLeftShape(s);
    TrimRightShape(l);
    var lo := |s| - |l|;
    if l != [] {
      assert l[0] == s[lo];
    }
    assert forall i :: lo <= i < |s| ==> s[i] == l[i - lo];
  }
}
