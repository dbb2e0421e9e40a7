/** The PayPal service helpers (src/utils/services/paypal.ts): `capitalize`
    and the recursive `prettyPrint` that renders a PayPal response as
    indented "Key: value" lines. */
module PayPal {
  import opened Wrappers
  import opened Text

  /** A parsed JSON value. An object lists its own properties in the order
      `for...in` visits them; an array is the object keyed "0", "1", ... */
  datatype Json =
    | JNull
    | JBool(b: bool)
    | JNum(n: int)  // integers only: fractional numbers are not modelled
    | JStr(s: string)
    | JObj(entries: seq<(string, Json)>)

  /** `typeof value === "object"`: objects, arrays and null. */
  predicate IsObject(v: Json) { v.JObj? || v.JNull? }

  /** `capitalize(s)`: the first character upper-cased, the rest lower-cased. */
  function Capitalize(s: string): (r: string)
    requires |s| > 0
    ensures |r| == |s|
    ensures r[0] == UpperChar(s[0])
    ensures forall i :: 0 < i < |s| ==> r[i] == LowerChar(s[i])
  {
    [UpperChar(s[0])] + ToLower(s[1..])
  }

  /** Capitalising twice changes nothing more. */
  lemma CapitalizeIdempotent(s: string)
    requires |s| > 0
    ensures Capitalize(Capitalize(s)) == Capitalize(s)
  {
    var c := Capitalize(s);
    assert UpperChar(c[0]) == c[0];
    forall i | 0 < i < |s|
      ensures LowerChar(c[i]) == c[i]
    {
    }
  }

  /** `!isNaN(key)` for the decimal forms: the empty key and strings of
      decimal digits are numeric. The other forms JavaScript's `Number`
      accepts (signs, fractions, exponents, hexadecimal, surrounding
      spaces) are not modelled. */
  predicate NumericKey(key: string) { AllDigits(key) }

  /** The label a key is printed with: `parseInt(key) + 1` for a numeric key
      (the empty key parses to NaN), `capitalize(key)` otherwise. */
  function KeyLabel(key: string): (l: string)
    ensures !NumericKey(key) ==> |key| > 0 && l == Capitalize(key)
    ensures NumericKey(key) && key != [] ==> ParseNat(l) == Some(DigitsValue(key) + 1)
    ensures key == [] ==> l == "NaN"
  {
    if !NumericKey(key) then Capitalize(key)
    else if key == [] then "NaN"
    else
      NatToStringRoundTrip(DigitsValue(key) + 1);
      NatToString(DigitsValue(key) + 1)
  }

  /** The text a scalar value is concatenated as. */
  function ScalarText(v: Json): string
    requires !IsObject(v)
  {
    match v
    case JBool(b) => if b then "true" else "false"
    case JNum(n) => IntToString(n)
    case JStr(s) => s
  }

  /** `prettyPrint(v, pre)`; null enumerates no properties. */
  function Render(v: Json, pre: string): string
    decreases v, 1
  {
    if v.JObj? then RenderEntries(v, |v.entries|, pre) else ""
  }

  /** The text of the first `n` properties of object `v`. */
  function RenderEntries(v: Json, n: nat, pre: string): string
    requires v.JObj? && n <= |v.entries|
    decreases v, 0, n
  {
    if n == 0 then ""
    else
      assert v.entries[n - 1].1 < v.entries[n - 1];
      RenderEntries(v, n - 1, pre) + Line(v.entries[n - 1].0, v.entries[n - 1].1, pre)
  }

  /** One property: its label, then either its scalar value and a line
      break, or a line break and the nested object four spaces deeper. */
  function Line(key: string, value: Json, pre: string): string
    decreases value, 2
  {
    pre + KeyLabel(key) + ": " +
      if IsObject(value) then "\n" + Render(value, pre + "    ") else ScalarText(value) + "\n"
  }

  /** `prettyPrint(jsonData, pre)`: appends one property at a time, recursing
      into nested objects with four more spaces of indentation. */
  method PrettyPrint(jsonData: Json, pre: string) returns (pretty: string)
    ensures pretty == Render(jsonData, pre)
    decreases jsonData, 1
  {
    pretty := "";
    if !jsonData.JObj? {
      return;
    }
    for i := 0 to |jsonData.entries|
      invariant pretty == RenderEntries(jsonData, i, pre)
    {
      var (key, value) := jsonData.entries[i];
      assert value < jsonData.entries[i];
      pretty := AppendProperty(pretty, key, value, pre);
    }
  }

  /** The body of the loop above for one own property. */
  method AppendProperty(pretty: string, key: string, value: Json, pre: string) returns (pretty': string)
    ensures pretty' == pretty + Line(key, value, pre)
    decreases value, 2
  {
    var head := pre + KeyLabel(key) + ": ";
    pretty' := pretty + head;
    if IsObject(value) {
      pretty' := pretty' + "\n";
      var nested := PrettyPrint(value, pre + "    ");
      pretty' := pretty' + nested;
      assert pretty' == pretty + (head + ("\n" + nested));
    } else {
      pretty' := pretty' + (ScalarText(value) + "\n");
      assert pretty' == pretty + (head + (ScalarText(value) + "\n"));
    }
  }

  // ---------------------------------------------------------------------------
  // One line per property

  /** The number of line breaks in `s`. */
  function Newlines(s: string): nat {
    multiset(s)['\n']
  }

  lemma NewlinesAppend(a: string, b: string)
    ensures Newlines(a + b) == Newlines(a) + Newlines(b)
  {
    assert multiset(a + b) == multiset(a) + multiset(b);
  }

  lemma NewlinesNone(s: string)
    requires '\n' !in s
    ensures Newlines(s) == 0
  {
    assert '\n' !in multiset(s);
  }

  /** No key or string anywhere in `v` holds a line break. */
  predicate SingleLine(v: Json)
    decreases v
  {
    match v
    case JStr(s) => '\n' !in s
    case JObj(es) => forall i :: 0 <= i < |es| ==> '\n' !in es[i].0 && SingleLine(es[i].1)
    case _ => true
  }

  /** The number of properties in `v`, nested ones included. */
  function Properties(v: Json): nat
    decreases v, 1
  {
    if v.JObj? then PropertiesOf(v, |v.entries|) else 0
  }

  function PropertiesOf(v: Json, n: nat): nat
    requires v.JObj? && n <= |v.entries|
    decreases v, 0, n
  {
    if n == 0 then 0
    else
      assert v.entries[n - 1].1 < v.entries[n - 1];
      PropertiesOf(v, n - 1) + 1 + Properties(v.entries[n - 1].1)
  }

  lemma LabelSingleLine(key: string)
    requires '\n' !in key
    ensures '\n' !in KeyLabel(key)
  {
  }

  lemma ScalarSingleLine(v: Json)
    requires !IsObject(v) && SingleLine(v)
    ensures '\n' !in ScalarText(v)
  {
  }

  /** Every property, however deeply nested, takes exactly one line, when
      neither keys nor strings nor the prefix hold a line break. */
  lemma {:induction false} OneLinePerProperty(v: Json, pre: string)
    requires SingleLine(v) && '\n' !in pre
    ensures Newlines(Render(v, pre)) == Properties(v)
    decreases v, 1
  {
    if v.JObj? {
      LinesOfEntries(v, |v.entries|, pre);
    }
  }

  /** The first `n` properties of `v` take one line per property. */
  predicate LinesMatch(v: Json, n: nat, pre: string)
    requires v.JObj? && n <= |v.entries|
  {
    Newlines(RenderEntries(v, n, pre)) == PropertiesOf(v, n)
  }

  lemma {:induction false} LinesOfEntries(v: Json, n: nat, pre: string)
    requires v.JObj? && n <= |v.entries| && SingleLine(v) && '\n' !in pre
    ensures LinesMatch(v, n, pre)
    decreases v, 0, n
  {
    if n > 0 {
      var m := n - 1;
      assert v.entries[m].1 < v.entries[m];
      LinesOfEntries(v, m, pre);
      LinesOfLine(v.entries[m].0, v.entries[m].1, pre);
      EntriesStep(v, m, pre);
    }
  }

  /** One more own property taking one more line than it holds nested
      properties keeps the count of lines equal to the count of properties. */
  lemma EntriesStep(v: Json, m: nat, pre: string)
    requires v.JObj? && m < |v.entries|
    requires LinesMatch(v, m, pre) && LineMatch(v.entries[m].0, v.entries[m].1, pre)
    ensures LinesMatch(v, m + 1, pre)
  {
    NewlinesAppend(RenderEntries(v, m, pre), Line(v.entries[m].0, v.entries[m].1, pre));
  }

  /** One property takes one line more than it holds nested properties. */
  predicate LineMatch(key: string, value: Json, pre: string) {
    Newlines(Line(key, value, pre)) == 1 + Properties(value)
  }

  lemma {:induction false} LinesOfLine(key: string, value: Json, pre: string)
    requires '\n' !in key && SingleLine(value) && '\n' !in pre
    ensures LineMatch(key, value, pre)
    decreases value, 2
  {
    LabelSingleLine(key);
    var head := pre + KeyLabel(key) + ": ";
    NewlinesNone(head);
    if IsObject(value) {
      var nested := Render(value, pre + "    ");
      OneLinePerProperty(value, pre + "    ");
      NewlinesAppend("\n", nested);
      NewlinesAppend(head, "\n" + nested);
      assert Line(key, value, pre) == head + ("\n" + nested);
    } else {
      ScalarSingleLine(value);
      NewlinesNone(ScalarText(value));
      NewlinesAppend(ScalarText(value), "\n");
      NewlinesAppend(head, ScalarText(value) + "\n");
      assert Line(key, value, pre) == head + (ScalarText(value) + "\n");
    }
  }

  /** An object without properties renders as nothing; a one-property object
      with a scalar value renders as a single "Label: value" line. */
  lemma SmallObjects(key: string, value: Json, pre: string)
    requires !IsObject(value)
    ensures Render(JObj([]), pre) == ""
    ensures Render(JObj([(key, value)]), pre) == pre + KeyLabel(key) + ": " + ScalarText(value) + "\n"
  {
    var v := JObj([(key, value)]);
    assert RenderEntries(v, 0, pre) == "";
    assert v.entries[0] == (key, value);
    assert RenderEntries(v, 1, pre) == RenderEntries(v, 0, pre) + Line(key, value, pre);
  }
}
