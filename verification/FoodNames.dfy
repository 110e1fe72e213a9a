/** What customers type: the browser's check and the kitchen's check, over ASCII. */
module FoodNames {

  const MAX_FOOD_NAME_LENGTH := 80
  const MAX_ID_LENGTH := 64

  datatype Checked = Accepted(value: string) | Refused

  predicate Ascii(s: string) {
    forall c :: c in s ==> c as int < 128
  }

  predicate IsControl(c: char) {
    c as int < 32 || c as int == 127
  }

  predicate NoControls(s: string) {
    forall c :: c in s ==> !IsControl(c)
  }

  /** What `trim` removes in a browser: tab to carriage return, and space. */
  predicate BrowserSpace(c: char) {
    9 <= c as int <= 13 || c == ' '
  }

  /** What `strip` removes in Python: those, and the four information separators. */
  predicate KitchenSpace(c: char) {
    BrowserSpace(c) || 28 <= c as int <= 31
  }

  function TrimLeft(s: string, space: char -> bool): string {
    if s != "" && space(s[0]) then TrimLeft(s[1..], space) else s
  }

  function TrimRight(s: string, space: char -> bool): string {
    if s != "" && space(s[|s| - 1]) then TrimRight(s[..|s| - 1], space) else s
  }

  function Trim(s: string, space: char -> bool): string {
    TrimRight(TrimLeft(s, space), space)
  }

  /** The browser's check, before an order is sent. The trimmed value is what is sent. */
  function ValidateFoodName(raw: string, maxLength: nat): Checked {
    var value := Trim(raw, BrowserSpace);
    if |value| == 0 then Refused
    else if |value| > maxLength then Refused
    else if !NoControls(value) then Refused
    else Accepted(value)
  }

  /** The kitchen's check, on what arrives. */
  function CleanFoodName(raw: string): Checked {
    var cleaned := Trim(raw, KitchenSpace);
    if cleaned == "" then Refused
    else if |cleaned| > MAX_FOOD_NAME_LENGTH then Refused
    else if !NoControls(cleaned) then Refused
    else Accepted(cleaned)
  }

  /** The length bounds are checked before trimming. */
  function CleanIdentifier(raw: string): Checked {
    if |raw| < 1 || |raw| > MAX_ID_LENGTH then Refused
    else
      var cleaned := Trim(raw, KitchenSpace);
      if NoControls(cleaned) then Accepted(cleaned) else Refused
  }

  // --- trimming -------------------------------------------------------------------------------

  predicate AllSpace(s: string, space: char -> bool) {
    forall c :: c in s ==> space(c)
  }

  /** Nothing left to trim. */
  predicate Tight(s: string, space: char -> bool) {
    s != "" ==> !space(s[0]) && !space(s[|s| - 1])
  }

  lemma {:induction false} TrimLeftMeaning(s: string, space: char -> bool) returns (a: string)
    ensures s == a + TrimLeft(s, space) && AllSpace(a, space)
    ensures TrimLeft(s, space) != "" ==> !space(TrimLeft(s, space)[0])
  {
    if s != "" && space(s[0]) {
      var rest := TrimLeftMeaning(s[1..], space);
      a := [s[0]] + rest;
    } else {
      a := "";
    }
  }

  lemma {:induction false} TrimRightMeaning(s: string, space: char -> bool) returns (b: string)
    ensures s == TrimRight(s, space) + b && AllSpace(b, space)
    ensures TrimRight(s, space) != "" ==> !space(TrimRight(s, space)[|TrimRight(s, space)| - 1])
  {
    if s != "" && space(s[|s| - 1]) {
      var rest := TrimRightMeaning(s[..|s| - 1], space);
      b := rest + [s[|s| - 1]];
    } else {
      b := "";
    }
  }

  /** Trimming takes off spaces, and nothing else, until there are none at either end. */
  lemma TrimMeaning(s: string, space: char -> bool) returns (a: string, b: string)
    ensures s == a + Trim(s, space) + b && AllSpace(a, space) && AllSpace(b, space)
    ensures Tight(Trim(s, space), space)
  {
    hide TrimLeft, TrimRight;
    a := TrimLeftMeaning(s, space);
    b := TrimRightMeaning(TrimLeft(s, space), space);
    var t := Trim(s, space);
    if t != "" {
      assert TrimLeft(s, space)[0] == t[0];
    }
  }

  lemma {:induction false} TrimLeftSkips(a: string, v: string, space: char -> bool)
    requires AllSpace(a, space)
    ensures TrimLeft(a + v, space) == TrimLeft(v, space)
  {
    if a == "" {
      assert a + v == v;
    } else {
      assert (a + v)[1..] == a[1..] + v;
      TrimLeftSkips(a[1..], v, space);
    }
  }

  lemma {:induction false} TrimRightSkips(v: string, b: string, space: char -> bool)
    requires AllSpace(b, space)
    ensures TrimRight(v + b, space) == TrimRight(v, space)
  {
    if b == "" {
      assert v + b == v;
    } else {
      var n := |b| - 1;
      assert b[n] in b;
      assert (v + b)[..|v + b| - 1] == v + b[..n];
      TrimRightSkips(v, b[..n], space);
    }
  }

  /** There is only one way to do that. */
  lemma TrimUnique(a: string, v: string, b: string, space: char -> bool)
    requires AllSpace(a, space) && AllSpace(b, space) && Tight(v, space)
    ensures Trim(a + v + b, space) == v
  {
    assert a + v + b == a + (v + b);
    TrimLeftSkips(a, v + b, space);
    if v == "" {
      assert v + b == b + "";
      TrimLeftSkips(b, "", space);
    } else {
      assert (v + b)[0] == v[0];
      TrimRightSkips(v, b, space);
    }
  }

  // --- the two checks -------------------------------------------------------------------------

  /** What is left when the spaces at both ends are taken off. */
  ghost predicate Core(raw: string, v: string, space: char -> bool) {
    Tight(v, space) && exists a, b :: AllSpace(a, space) && AllSpace(b, space) && raw == a + v + b
  }

  lemma TrimIsCore(raw: string, v: string, space: char -> bool)
    ensures Core(raw, v, space) <==> v == Trim(raw, space)
  {
    hide Trim;
    var a, b := TrimMeaning(raw, space);
    if Core(raw, v, space) {
      var x, y :| AllSpace(x, space) && AllSpace(y, space) && raw == x + v + y;
      TrimUnique(x, v, y, space);
    }
  }

  /** The spaces, one by one. */
  lemma Spaces(c: char)
    requires c as int < 128
    ensures BrowserSpace(c) <==> c in {'\t', '\n', '\U{0B}', '\U{0C}', '\r', ' '}
    ensures KitchenSpace(c) <==> BrowserSpace(c) || c in {'\U{1C}', '\U{1D}', '\U{1E}', '\U{1F}'}
  {
  }

  /** The browser accepts a text exactly if its core is not empty, not too long and free of
      control characters, and sends just the core. */
  lemma BrowserAcceptsExactly(raw: string, v: string, maxLength: nat)
    requires Ascii(raw)
    ensures ValidateFoodName(raw, maxLength) == Accepted(v) <==>
            Core(raw, v, BrowserSpace) && 0 < |v| <= maxLength && forall c :: c in v ==> ' ' <= c && c != '\U{7F}'
  {
    hide Trim, Core;
    TrimIsCore(raw, v, BrowserSpace);
  }

  /** And so does the kitchen, for its own notion of a space and a limit of 80 characters. */
  lemma KitchenAcceptsExactly(raw: string, v: string)
    requires Ascii(raw)
    ensures CleanFoodName(raw) == Accepted(v) <==>
            Core(raw, v, KitchenSpace) && 0 < |v| <= 80 && forall c :: c in v ==> ' ' <= c && c != '\U{7F}'
  {
    hide Trim, Core;
    TrimIsCore(raw, v, KitchenSpace);
  }

  /** An identifier is accepted exactly if it is 1 to 64 characters long as sent and its core,
      which may be empty, is free of control characters; the core is what is kept. */
  lemma IdentifierAcceptedExactly(raw: string, v: string)
    requires Ascii(raw)
    ensures CleanIdentifier(raw) == Accepted(v) <==>
            1 <= |raw| <= 64 && Core(raw, v, KitchenSpace) && forall c :: c in v ==> ' ' <= c && c != '\U{7F}'
  {
    hide Trim, Core;
    TrimIsCore(raw, v, KitchenSpace);
  }

  /** A visible text that is tight for the browser is tight for the kitchen. */
  lemma TightForBoth(v: string)
    requires NoControls(v) && Tight(v, BrowserSpace)
    ensures Tight(v, KitchenSpace)
  {
    if v != "" {
      assert v[0] in v && v[|v| - 1] in v;
    }
  }

  /** What the browser sends, the kitchen accepts unchanged. */
  lemma AcceptedUnchanged(raw: string)
    requires Ascii(raw) && ValidateFoodName(raw, MAX_FOOD_NAME_LENGTH).Accepted?
    ensures var sent := ValidateFoodName(raw, MAX_FOOD_NAME_LENGTH);
            CleanFoodName(sent.value) == sent
  {
    hide Trim;
    var v := Trim(raw, BrowserSpace);
    var _, _ := TrimMeaning(raw, BrowserSpace);
    TightForBoth(v);
    TrimUnique("", v, "", KitchenSpace);
    assert "" + v + "" == v;
  }

  /** Whether the kitchen would have taken the text as typed: the browser accepts it exactly if
      the kitchen does and both trim it alike. */
  lemma AgreeExactly(raw: string, v: string)
    requires Ascii(raw)
    ensures ValidateFoodName(raw, MAX_FOOD_NAME_LENGTH) == Accepted(v) <==>
            CleanFoodName(raw) == Accepted(v) && Trim(raw, BrowserSpace) == Trim(raw, KitchenSpace)
  {
    hide Trim;
    if ValidateFoodName(raw, MAX_FOOD_NAME_LENGTH) == Accepted(v) {
      var a, b := TrimMeaning(raw, BrowserSpace);
      TightForBoth(v);
      TrimUnique(a, v, b, KitchenSpace);
    }
  }

  /** The kitchen takes some texts the browser refuses: those with a separator at an end. */
  lemma KitchenIsLaxer()
    ensures var raw := ['\U{1C}'] + "Ramen";
            CleanFoodName(raw) == Accepted("Ramen") && ValidateFoodName(raw, MAX_FOOD_NAME_LENGTH) == Refused
  {
    hide Trim, ValidateFoodName, CleanFoodName, Core;
    var sep := ['\U{1C}'];
    var raw := sep + "Ramen";
    CoreOf(raw, sep, "Ramen", "", KitchenSpace);
    KitchenAcceptsExactly(raw, "Ramen");
    CoreOf(raw, "", raw, "", BrowserSpace);
    assert raw[0] in raw && IsControl(raw[0]);
    RefusedForControls(raw);
  }

  lemma CoreOf(raw: string, a: string, v: string, b: string, space: char -> bool)
    requires raw == a + (v + b) && AllSpace(a, space) && AllSpace(b, space) && Tight(v, space)
    ensures Core(raw, v, space)
  {
    assert raw == a + v + b;
  }

  /** A text whose core, for the browser, holds a control character is refused. */
  lemma RefusedForControls(raw: string)
    requires Core(raw, raw, BrowserSpace) && !NoControls(raw)
    ensures ValidateFoodName(raw, MAX_FOOD_NAME_LENGTH) == Refused
  {
    hide Trim, Core;
    TrimIsCore(raw, raw, BrowserSpace);
  }

  /** An accepted identifier can be empty: exactly when what was sent is nothing but spaces. */
  lemma EmptyIdentifierExactly(raw: string)
    requires Ascii(raw)
    ensures CleanIdentifier(raw) == Accepted("") <==> 1 <= |raw| <= MAX_ID_LENGTH && AllSpace(raw, KitchenSpace)
  {
    hide Trim;
    var a, b := TrimMeaning(raw, KitchenSpace);
    if AllSpace(raw, KitchenSpace) {
      TrimUnique(raw, "", "", KitchenSpace);
      assert raw + "" + "" == raw;
    }
  }
}
