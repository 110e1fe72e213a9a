/** Topic strings: printing them, taking them apart, and telling them apart. */
module Topics {
  import opened Models

  const PREFIX := "restaurant"
  const TABLE := "table"
  const CLIENT := "client"
  const KITCHEN := "kitchen"
  const ORDER := "order"
  const STATE := "state"
  const ERR := "err"
  const STATUS := "status"
  const RESET := "reset"
  const ANY_LEVEL := "+"
  const ORDER_SUBSCRIPTION := PREFIX + "/" + TABLE + "/" + ANY_LEVEL + "/" + ORDER
  const KITCHEN_STATUS := PREFIX + "/" + KITCHEN + "/" + STATUS
  const KITCHEN_RESET := PREFIX + "/" + KITCHEN + "/" + RESET

  // --- decimal numbers ------------------------------------------------------------------------

  predicate IsDigit(c: char) {
    '0' <= c <= '9'
  }

  predicate AllDigits(s: string) {
    forall c :: c in s ==> IsDigit(c)
  }

  function DigitOf(d: nat): (c: char)
    requires d < 10
    ensures IsDigit(c)
  {
    '0' + d as char
  }

  function Digits(n: nat): (s: string)
    ensures s != "" && AllDigits(s)
  {
    if n < 10 then [DigitOf(n)] else Digits(n / 10) + [DigitOf(n % 10)]
  }

  function Decimal(i: int): string {
    if i < 0 then "-" + Digits(-i) else Digits(i)
  }

  function DigitValue(c: char): (d: nat)
    requires IsDigit(c)
  {
    c as nat - '0' as nat
  }

  function ValueOf(s: string): nat
    requires AllDigits(s)
  {
    if s == "" then 0 else 10 * ValueOf(s[..|s| - 1]) + DigitValue(s[|s| - 1])
  }

  lemma {:induction false} ValueOfDigits(n: nat)
    ensures ValueOf(Digits(n)) == n
  {
    var s := Digits(n);
    if n < 10 {
      assert s[..|s| - 1] == "";
    } else {
      ValueOfDigits(n / 10);
      assert s[..|s| - 1] == Digits(n / 10);
    }
  }

  // --- what counts as a digit -----------------------------------------------------------------

  type Digit = d: nat | d < 10

  /** What Python makes of characters and of long numerals: `isDigit` is `str.isdigit` of one
      character, `decimal` the value `int` reads it as, if it reads it at all, and `maxDigits`
      the longest numeral that `int` converts, with 0 for no limit. */
  datatype Python = Python(isDigit: char -> bool, decimal: char -> Option<Digit>, maxDigits: nat)

  const SUPERSCRIPT_TWO := '\U{00B2}'
  const ARABIC_INDIC_THREE := '\U{0663}'

  /** What the Unicode character database fixes of these, as far as it is used here: a decimal
      digit is a digit; in ASCII those are 0 to 9; a superscript two is a digit, but no decimal
      one; the Arabic-Indic three is one, worth 3. */
  ghost predicate Lawful(py: Python) {
    && (forall c :: py.decimal(c).Some? ==> py.isDigit(c))
    && (forall c :: c < '\U{0080}' && py.isDigit(c) ==> IsDigit(c))
    && (forall c :: IsDigit(c) ==> py.decimal(c) == Some(DigitValue(c)))
    && py.isDigit(SUPERSCRIPT_TWO) && py.decimal(SUPERSCRIPT_TWO) == None
    && py.decimal(ARABIC_INDIC_THREE) == Some(3)
  }

  predicate LooksNumeric(py: Python, s: string) {
    s != "" && forall c :: c in s ==> py.isDigit(c)
  }

  predicate AllDecimal(py: Python, s: string) {
    forall c :: c in s ==> py.decimal(c).Some?
  }

  predicate TooLong(py: Python, s: string) {
    0 < py.maxDigits < |s|
  }

  /** Whether `int` converts the numeral. */
  predicate Converts(py: Python, s: string) {
    AllDecimal(py, s) && !TooLong(py, s)
  }

  /** The numeral in ASCII digits, from which `int` computes its value. */
  function Ascii(py: Python, s: string): (r: string)
    requires AllDecimal(py, s)
    ensures |r| == |s| && AllDigits(r)
    ensures forall i :: 0 <= i < |r| ==> r[i] == DigitOf(py.decimal(s[i]).value)
  {
    seq(|s|, i requires 0 <= i < |s| => assert s[i] in s; DigitOf(py.decimal(s[i]).value))
  }

  lemma AsciiOfAscii(py: Python, s: string)
    requires Lawful(py) && AllDigits(s)
    ensures AllDecimal(py, s) && Ascii(py, s) == s
  {
    forall i | 0 <= i < |s| ensures s[i] in s && py.decimal(s[i]) == Some(DigitValue(s[i])) {
    }
  }

  /** Nothing that looks numeric holds a character that topics are put together with. */
  lemma NumericPlain(py: Python, s: string)
    requires Lawful(py) && LooksNumeric(py, s)
    ensures '/' !in s && '-' !in s
  {
  }

  // --- splitting at slashes -------------------------------------------------------------------

  /** The segments between slashes; one empty segment for the empty string. */
  function Split(s: string): (parts: seq<string>)
    ensures parts != []
  {
    if s == "" then [""]
    else
      var rest := Split(s[1..]);
      if s[0] == '/' then [""] + rest else [[s[0]] + rest[0]] + rest[1..]
  }

  function Join(parts: seq<string>): string
    requires parts != []
  {
    if |parts| == 1 then parts[0] else parts[0] + "/" + Join(parts[1..])
  }

  lemma {:induction false} JoinSplit(s: string)
    ensures Join(Split(s)) == s
  {
    if s == "" {
    } else {
      JoinSplit(s[1..]);
      var rest := Split(s[1..]);
      if s[0] == '/' {
        assert ([""] + rest)[1..] == rest;
        assert "" + "/" + Join(rest) == s;
      } else {
        var parts := [[s[0]] + rest[0]] + rest[1..];
        assert parts[1..] == rest[1..];
        assert s == [s[0]] + s[1..];
      }
    }
  }

  lemma {:induction false} SplitPlain(s: string)
    requires '/' !in s
    ensures Split(s) == [s]
  {
    if s == "" {
    } else {
      SplitPlain(s[1..]);
      assert s == [s[0]] + s[1..];
    }
  }

  lemma {:induction false} SplitConcat(s: string, t: string)
    ensures Split(s + "/" + t) == Split(s) + Split(t)
  {
    var u := s + "/" + t;
    if s == "" {
      assert u[1..] == t;
    } else {
      assert u[1..] == s[1..] + "/" + t;
      SplitConcat(s[1..], t);
    }
  }

  /** Splitting undoes joining exactly when no segment has a slash of its own. */
  lemma {:induction false} SplitJoin(parts: seq<string>)
    requires parts != []
    ensures Split(Join(parts)) == parts <==> forall p :: p in parts ==> '/' !in p
  {
    SplitSegments(Join(parts));
    if forall p :: p in parts ==> '/' !in p {
      SplitPlain(parts[0]);
      if |parts| > 1 {
        SplitJoin(parts[1..]);
        SplitConcat(parts[0], Join(parts[1..]));
      }
    }
  }

  lemma {:induction false} SplitSegments(s: string)
    ensures forall p :: p in Split(s) ==> '/' !in p
  {
    if s == "" {
    } else {
      SplitSegments(s[1..]);
    }
  }

  // --- the topics -----------------------------------------------------------------------------

  function OrderTopic(t: int): string {
    PREFIX + "/" + TABLE + "/" + Decimal(t) + "/" + ORDER
  }

  function TableStateTopic(t: int): string {
    PREFIX + "/" + TABLE + "/" + Decimal(t) + "/" + STATE
  }

  function ClientErrorTopic(clientId: string): string {
    PREFIX + "/" + CLIENT + "/" + clientId + "/" + ERR
  }

  predicate IsOwnOutboundTopic(topic: string) {
    var parts := Split(topic);
    if parts[0] != PREFIX then false
    else if |parts| == 4 && parts[1] == TABLE && parts[3] == STATE then true
    else if |parts| == 4 && parts[1] == CLIENT && parts[3] == ERR then true
    else topic == KITCHEN_STATUS
  }

  /** What becomes of a topic: the table an order is for, nothing, or an exception. */
  datatype Parsed = OrderFor(tableId: nat) | NotAnOrder | Raises

  function ParseTableId(py: Python, topic: string): Parsed {
    var parts := Split(topic);
    if |parts| != 4 then NotAnOrder
    else if parts[0] != PREFIX || parts[1] != TABLE || parts[3] != ORDER then NotAnOrder
    else if !LooksNumeric(py, parts[2]) then NotAnOrder
    else if !Converts(py, parts[2]) then Raises
    else OrderFor(ValueOf(Ascii(py, parts[2])))
  }

  /** Whether a subscription's levels match a topic's: `+` stands for any one level. */
  predicate LevelsMatch(filter: seq<string>, topic: seq<string>) {
    && |filter| == |topic|
    && forall i :: 0 <= i < |filter| ==> filter[i] == ANY_LEVEL || filter[i] == topic[i]
  }

  predicate Matches(filter: string, topic: string) {
    LevelsMatch(Split(filter), Split(topic))
  }

  // --- what splitting makes of them -----------------------------------------------------------

  /** The words topics are made of have no slashes in them. */
  lemma PlainWords()
    ensures Split(PREFIX) == [PREFIX] && Split(TABLE) == [TABLE] && Split(CLIENT) == [CLIENT]
    ensures Split(KITCHEN) == [KITCHEN] && Split(ORDER) == [ORDER] && Split(STATE) == [STATE]
    ensures Split(ERR) == [ERR] && Split(STATUS) == [STATUS] && Split(RESET) == [RESET]
    ensures Split(ANY_LEVEL) == [ANY_LEVEL]
  {
    hide Split;
    SplitPlain(PREFIX);
    SplitPlain(TABLE);
    SplitPlain(CLIENT);
    SplitPlain(KITCHEN);
    SplitPlain(ORDER);
    SplitPlain(STATE);
    SplitPlain(ERR);
    SplitPlain(STATUS);
    SplitPlain(RESET);
    SplitPlain(ANY_LEVEL);
  }

  lemma DecimalPlain(i: int)
    ensures Decimal(i) != "" && '/' !in Decimal(i)
    ensures AllDigits(Decimal(i)) <==> i >= 0
  {
    if i < 0 {
      assert Decimal(i)[0] == '-';
      assert !IsDigit('-');
      assert '-' in Decimal(i);
    }
  }

  lemma SplitTwo(a: string, b: string, rest: string)
    requires Split(a) == [a] && Split(b) == [b]
    ensures Split(a + "/" + b + "/" + rest) == [a, b] + Split(rest)
  {
    hide Split;
    SplitConcat(a, b + "/" + rest);
    SplitConcat(b, rest);
    assert a + "/" + b + "/" + rest == a + "/" + (b + "/" + rest);
  }

  lemma SplitThree(a: string, b: string, c: string)
    requires Split(a) == [a] && Split(b) == [b] && Split(c) == [c]
    ensures Split(a + "/" + b + "/" + c) == [a, b, c]
  {
    hide Split;
    SplitTwo(a, b, c);
  }

  lemma SplitFour(a: string, b: string, middle: string, d: string)
    requires Split(a) == [a] && Split(b) == [b] && Split(d) == [d]
    ensures Split(a + "/" + b + "/" + middle + "/" + d) == [a, b] + Split(middle) + [d]
  {
    hide Split;
    var rest := middle + "/" + d;
    assert a + "/" + b + "/" + middle + "/" + d == a + "/" + b + "/" + rest;
    SplitTwo(a, b, rest);
    SplitConcat(middle, d);
    assert [a, b] + (Split(middle) + [d]) == [a, b] + Split(middle) + [d];
  }

  lemma SplitTableTopics(t: int)
    ensures Split(OrderTopic(t)) == [PREFIX, TABLE, Decimal(t), ORDER]
    ensures Split(TableStateTopic(t)) == [PREFIX, TABLE, Decimal(t), STATE]
  {
    hide Split, Decimal;
    PlainWords();
    DecimalPlain(t);
    SplitPlain(Decimal(t));
    SplitFour(PREFIX, TABLE, Decimal(t), ORDER);
    SplitFour(PREFIX, TABLE, Decimal(t), STATE);
  }

  lemma SplitErrorTopic(clientId: string)
    ensures Split(ClientErrorTopic(clientId)) == [PREFIX, CLIENT] + Split(clientId) + [ERR]
  {
    hide Split;
    PlainWords();
    SplitFour(PREFIX, CLIENT, clientId, ERR);
  }

  lemma SplitKitchenTopics()
    ensures Split(KITCHEN_STATUS) == [PREFIX, KITCHEN, STATUS]
    ensures Split(KITCHEN_RESET) == [PREFIX, KITCHEN, RESET]
  {
    hide Split;
    PlainWords();
    SplitThree(PREFIX, KITCHEN, STATUS);
    SplitThree(PREFIX, KITCHEN, RESET);
  }

  lemma SplitSubscription()
    ensures Split(ORDER_SUBSCRIPTION) == [PREFIX, TABLE, ANY_LEVEL, ORDER]
  {
    hide Split;
    PlainWords();
    SplitFour(PREFIX, TABLE, ANY_LEVEL, ORDER);
  }

  lemma JoinFour(a: string, b: string, c: string, d: string)
    ensures Join([a, b, c, d]) == a + "/" + b + "/" + c + "/" + d
  {
    assert [a, b, c, d][1..] == [b, c, d] && [b, c, d][1..] == [c, d] && [c, d][1..] == [d];
    var cd := c + "/" + d;
    var bcd := b + "/" + cd;
    assert Join([c, d]) == cd;
    assert Join([b, c, d]) == bcd;
    assert a + "/" + bcd == a + "/" + b + "/" + c + "/" + d;
  }

  // --- the laws -------------------------------------------------------------------------------

  /** The topics, letter for letter. */
  lemma Spelled(t: int, clientId: string)
    ensures OrderTopic(t) == "restaurant/table/" + Decimal(t) + "/order"
    ensures TableStateTopic(t) == "restaurant/table/" + Decimal(t) + "/state"
    ensures ClientErrorTopic(clientId) == "restaurant/client/" + clientId + "/err"
    ensures ORDER_SUBSCRIPTION == "restaurant/table/+/order"
    ensures KITCHEN_STATUS == "restaurant/kitchen/status" && KITCHEN_RESET == "restaurant/kitchen/reset"
  {
    hide Decimal;
    SpelledStart("table", "restaurant/table/");
    SpelledStart("client", "restaurant/client/");
    SpelledStart("kitchen", "restaurant/kitchen/");
    Between("restaurant/table/", Decimal(t), "order", "/order");
    Between("restaurant/table/", Decimal(t), "state", "/state");
    Between("restaurant/client/", clientId, "err", "/err");
    Between("restaurant/table/", "+", "order", "/order");
  }

  lemma SpelledStart(word: string, start: string)
    requires start == "restaurant" + ("/" + (word + "/"))
    ensures PREFIX + "/" + word + "/" == start
  {
    assert PREFIX + "/" + word + "/" == PREFIX + ("/" + (word + "/"));
  }

  lemma Between(start: string, middle: string, word: string, end: string)
    requires end == "/" + word
    ensures start + middle + "/" + word == start + middle + end
  {
  }

  /** Numerals are printed and read with the most significant digit first. */
  lemma Positional(n: nat)
    requires 10 <= n < 100
    ensures Decimal(n) == [DigitOf(n / 10), DigitOf(n % 10)]
    ensures ValueOf([DigitOf(n / 10), DigitOf(n % 10)]) == n
  {
    var high, low := [DigitOf(n / 10)], [DigitOf(n % 10)];
    assert Digits(n / 10) == high;
    ValueOfDigits(n);
    assert high + low == [DigitOf(n / 10), DigitOf(n % 10)];
  }

  /** Parsing a printed order topic gives the table back, for every table whose numeral is not
      too long for `int`. */
  lemma ParsePrinted(py: Python, t: int)
    requires Lawful(py)
    ensures ParseTableId(py, OrderTopic(t)) ==
            if t < 0 then NotAnOrder else if TooLong(py, Decimal(t)) then Raises else OrderFor(t)
  {
    hide Split, AllDigits, ValueOf, OrderTopic, Ascii;
    SplitTableTopics(t);
    if t >= 0 {
      NonNegativeNumeric(py, t);
      ValueOfDigits(t);
    } else {
      assert Decimal(t)[0] == '-' && '-' in Decimal(t);
    }
  }

  lemma NonNegativeNumeric(py: Python, t: nat)
    requires Lawful(py)
    ensures LooksNumeric(py, Decimal(t)) && AllDecimal(py, Decimal(t)) && Ascii(py, Decimal(t)) == Digits(t)
  {
    hide Digits;
    AsciiOfAscii(py, Digits(t));
  }

  lemma OrderSegments(topic: string)
    ensures |Split(topic)| == 4 && Split(topic)[0] == PREFIX && Split(topic)[1] == TABLE && Split(topic)[3] == ORDER
       <==> exists ds :: '/' !in ds && topic == PREFIX + "/" + TABLE + "/" + ds + "/" + ORDER
    ensures forall ds :: '/' !in ds && topic == PREFIX + "/" + TABLE + "/" + ds + "/" + ORDER ==>
              Split(topic) == [PREFIX, TABLE, ds, ORDER]
  {
    hide Split, Join;
    if |Split(topic)| == 4 && Split(topic)[0] == PREFIX && Split(topic)[1] == TABLE && Split(topic)[3] == ORDER {
      var ds := Split(topic)[2];
      JoinSplit(topic);
      SplitSegments(topic);
      assert Split(topic) == [PREFIX, TABLE, ds, ORDER];
      JoinFour(PREFIX, TABLE, ds, ORDER);
    }
    forall ds | '/' !in ds && topic == PREFIX + "/" + TABLE + "/" + ds + "/" + ORDER
      ensures Split(topic) == [PREFIX, TABLE, ds, ORDER]
    {
      PlainWords();
      SplitPlain(ds);
      SplitFour(PREFIX, TABLE, ds, ORDER);
    }
  }

  /** A topic parses exactly when it is an order topic around a numeral of decimal digits, of
      whatever script, that is not too long, and then to what the numeral is worth. */
  lemma ParsesExactly(py: Python, topic: string, n: nat)
    requires Lawful(py)
    ensures ParseTableId(py, topic) == OrderFor(n) <==>
            exists ds :: ds != "" && Converts(py, ds) && ValueOf(Ascii(py, ds)) == n
              && topic == PREFIX + "/" + TABLE + "/" + ds + "/" + ORDER
  {
    hide Split, ValueOf, Ascii;
    OrderSegments(topic);
    if ParseTableId(py, topic) == OrderFor(n) {
      var ds := Split(topic)[2];
      assert topic == PREFIX + "/" + TABLE + "/" + ds + "/" + ORDER;
    }
    if ds :| ds != "" && Converts(py, ds) && ValueOf(Ascii(py, ds)) == n
             && topic == PREFIX + "/" + TABLE + "/" + ds + "/" + ORDER {
      assert LooksNumeric(py, ds);
      NumericPlain(py, ds);
    }
  }

  /** And it raises exactly when the numeral holds a digit that is not a decimal one, or is too
      long: not every topic that is no order is let through quietly. */
  lemma RaisesExactly(py: Python, topic: string)
    requires Lawful(py)
    ensures ParseTableId(py, topic) == Raises <==>
            exists ds :: LooksNumeric(py, ds) && !Converts(py, ds)
              && topic == PREFIX + "/" + TABLE + "/" + ds + "/" + ORDER
  {
    hide Split, ValueOf, Ascii, LooksNumeric, Converts;
    OrderSegments(topic);
    if ParseTableId(py, topic) == Raises {
      var ds := Split(topic)[2];
      assert topic == PREFIX + "/" + TABLE + "/" + ds + "/" + ORDER;
    }
    if ds :| LooksNumeric(py, ds) && !Converts(py, ds) && topic == PREFIX + "/" + TABLE + "/" + ds + "/" + ORDER {
      NumericPlain(py, ds);
    }
  }

  /** One topic outside ASCII that raises, and one that parses. */
  lemma BeyondAscii(py: Python)
    requires Lawful(py)
    ensures ParseTableId(py, PREFIX + "/" + TABLE + "/" + [SUPERSCRIPT_TWO] + "/" + ORDER) == Raises
    ensures ParseTableId(py, PREFIX + "/" + TABLE + "/" + [ARABIC_INDIC_THREE] + "/" + ORDER) == OrderFor(3)
  {
    hide Split, Ascii;
    var two, three := [SUPERSCRIPT_TWO], [ARABIC_INDIC_THREE];
    OrderSegments(PREFIX + "/" + TABLE + "/" + two + "/" + ORDER);
    OrderSegments(PREFIX + "/" + TABLE + "/" + three + "/" + ORDER);
    assert SUPERSCRIPT_TWO in two;
    assert ValueOf([DigitOf(3)]) == 3;
    assert Ascii(py, three) == [DigitOf(3)];
  }

  /** Nothing the kitchen publishes parses as an order, or raises. */
  lemma OutboundNeverParses(py: Python, t: int, clientId: string)
    ensures ParseTableId(py, TableStateTopic(t)) == NotAnOrder
    ensures ParseTableId(py, ClientErrorTopic(clientId)) == NotAnOrder
    ensures ParseTableId(py, KITCHEN_STATUS) == NotAnOrder
  {
    hide Split, TableStateTopic, ClientErrorTopic, Decimal;
    SplitTableTopics(t);
    SplitErrorTopic(clientId);
    SplitKitchenTopics();
  }

  lemma {:induction false} SplitCount(s: string)
    ensures |Split(s)| == 1 <==> '/' !in s
  {
    if s == "" {
    } else {
      SplitCount(s[1..]);
    }
  }

  lemma NotStatus(topic: string)
    requires |Split(topic)| >= 4
    ensures topic != KITCHEN_STATUS
  {
    hide Split;
    SplitKitchenTopics();
  }

  /** The kitchen recognises what it publishes, but for error topics of clients whose id has a
      slash in it; and it takes no command for an echo. */
  lemma RecognisesOwn(t: int, clientId: string)
    ensures IsOwnOutboundTopic(TableStateTopic(t)) && IsOwnOutboundTopic(KITCHEN_STATUS)
    ensures !IsOwnOutboundTopic(OrderTopic(t)) && !IsOwnOutboundTopic(KITCHEN_RESET)
    ensures IsOwnOutboundTopic(ClientErrorTopic(clientId)) <==> '/' !in clientId
  {
    hide Split, TableStateTopic, OrderTopic, ClientErrorTopic, Decimal;
    SplitTableTopics(t);
    SplitErrorTopic(clientId);
    SplitKitchenTopics();
    SplitCount(clientId);
    NotStatus(OrderTopic(t));
    NotStatus(ClientErrorTopic(clientId));
    assert [PREFIX, KITCHEN, RESET][2] != [PREFIX, KITCHEN, STATUS][2];
  }

  /** Tables have topics of their own: one retained slot each. */
  lemma TopicsDistinct(t: int, u: int)
    requires TableStateTopic(t) == TableStateTopic(u)
    ensures t == u
  {
    hide Split, TableStateTopic, Decimal;
    SplitTableTopics(t);
    SplitTableTopics(u);
    assert Decimal(t) == Split(TableStateTopic(t))[2] == Decimal(u);
    DecimalInjective(t, u);
  }

  lemma DecimalInjective(t: int, u: int)
    requires Decimal(t) == Decimal(u)
    ensures t == u
  {
    DecimalPlain(t);
    DecimalPlain(u);
    if t >= 0 {
      ValueOfDigits(t);
      ValueOfDigits(u);
    } else {
      assert Decimal(t)[1..] == Digits(-t) && Decimal(u)[1..] == Digits(-u);
      ValueOfDigits(-t);
      ValueOfDigits(-u);
    }
  }

  /** The order subscription brings in every topic that parses or raises; of those it brings
      in, exactly the ones whose table level looks numeric do either. */
  lemma SubscriptionCovers(py: Python, topic: string)
    ensures ParseTableId(py, topic) != NotAnOrder <==>
            Matches(ORDER_SUBSCRIPTION, topic) && |Split(topic)| == 4 && LooksNumeric(py, Split(topic)[2])
    ensures ParseTableId(py, topic).OrderFor? <==>
            ParseTableId(py, topic) != NotAnOrder && Converts(py, Split(topic)[2])
  {
    hide Split, LooksNumeric, Converts;
    SplitSubscription();
    var f := [PREFIX, TABLE, ANY_LEVEL, ORDER];
    assert f[0] == PREFIX && f[1] == TABLE && f[2] == ANY_LEVEL && f[3] == ORDER;
  }

  /** No subscription of the kitchen's matches anything it publishes itself. */
  lemma NoEcho(t: int, clientId: string, topic: string)
    requires topic == TableStateTopic(t) || topic == ClientErrorTopic(clientId) || topic == KITCHEN_STATUS
    ensures !Matches(ORDER_SUBSCRIPTION, topic) && !Matches(KITCHEN_RESET, topic)
  {
    hide Split, TableStateTopic, ClientErrorTopic, Decimal;
    SplitTableTopics(t);
    SplitErrorTopic(clientId);
    SplitKitchenTopics();
    SplitSubscription();
    var f, g := [PREFIX, TABLE, ANY_LEVEL, ORDER], [PREFIX, KITCHEN, RESET];
    assert f[1] == TABLE && f[3] == ORDER && g[1] == KITCHEN && g[2] == RESET;
  }
}
