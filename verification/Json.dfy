/**
 * JSON text as `JSON.stringify` writes it (RFC 8259): no white space, strings
 * escaped as in section 7. The text determines the value, which is what makes a
 * rendered value usable as a lookup key.
 */
module Json {
  import opened Options

  /** An array item has no key; an object member has one. */
  datatype Item = Item(key: Option<string>, value: Json)

  /** A number is kept as its JSON text; arrays and objects differ in their brackets and keys. */
  datatype Json =
    | JNull
    | JBool(b: bool)
    | JNumber(text: string)
    | JString(s: string)
    | JList(isObject: bool, items: seq<Item>)

  function JArray(values: seq<Json>): Json {
    JList(false, seq(|values|, i requires 0 <= i < |values| => Item(None, values[i])))
  }

  predicate NumberChar(c: char) {
    '0' <= c <= '9' || c in "+-.eE"
  }

  ghost predicate Valid(j: Json) {
    match j
    case JNull => true
    case JBool(_) => true
    case JNumber(text) => text != "" && forall i :: 0 <= i < |text| ==> NumberChar(text[i])
    case JString(_) => true
    case JList(isObject, items) => forall item :: item in items ==> item.key.Some? == isObject && Valid(item.value)
  }

  ghost predicate ValidItems(isObject: bool, items: seq<Item>) {
    forall item :: item in items ==> item.key.Some? == isObject && Valid(item.value)
  }

  // ── rendering ──

  function Hex(n: nat): char
    requires n < 16
  {
    "0123456789abcdef"[n]
  }

  function Escape(c: char): (e: string)
    ensures e != "" && e[0] != '"'
  {
    if c == '"' then "\\\""
    else if c == '\\' then "\\\\"
    else if c == 8 as char then "\\b"
    else if c == '\t' then "\\t"
    else if c == '\n' then "\\n"
    else if c == 12 as char then "\\f"
    else if c == '\r' then "\\r"
    else if c < ' ' then ['\\', 'u', '0', '0', Hex(c as int / 16), Hex(c as int % 16)]
    else [c]
  }

  /** The rest of a string literal, up to and including its closing quote. */
  function Escaped(s: string): (e: string)
    ensures e != ""
  {
    if s == "" then "\"" else Escape(s[0]) + Escaped(s[1..])
  }

  function Quoted(s: string): string {
    "\"" + Escaped(s)
  }

  function Render(j: Json): string {
    match j
    case JNull => "null"
    case JBool(b) => if b then "true" else "false"
    case JNumber(text) => text
    case JString(s) => Quoted(s)
    case JList(isObject, items) => [if isObject then '{' else '['] + RenderItems(items, Close(isObject), "")
  }

  function Close(isObject: bool): char {
    if isObject then '}' else ']'
  }

  /** The items still to come, the closing bracket included; `separator` stands before the next one. */
  function RenderItems(items: seq<Item>, close: char, separator: string): string {
    if items == [] then [close]
    else separator + (RenderItem(items[0]) + RenderItems(items[1..], close, ","))
  }

  function RenderItem(item: Item): string {
    match item.key
    case None => Render(item.value)
    case Some(key) => Quoted(key) + (":" + Render(item.value))
  }

  // ── unique reading ──

  /** Text that may follow a value: nothing, or a separator or closing bracket. */
  predicate Ends(rest: string) {
    rest == "" || rest[0] in ",]}"
  }

  lemma Cancel(p: string, q: string, x: string, y: string)
    requires p + x == q + y && |p| == |q|
    ensures p == q && x == y
  {
    assert p == (p + x)[..|p|] && q == (q + y)[..|q|];
    assert x == (p + x)[|p|..] && y == (q + y)[|q|..];
  }

  lemma Assoc(a: string, b: string, c: string)
    ensures (a + b) + c == a + (b + c)
  {
  }

  lemma SameFirst(p: string, q: string, x: string, y: string)
    requires p + x == q + y && p != "" && q != ""
    ensures p[0] == q[0]
  {
    assert p[0] == (p + x)[0] == (q + y)[0] == q[0];
  }

  lemma HexDigits(a: nat, b: nat)
    requires a < 16 && b < 16 && Hex(a) == Hex(b)
    ensures a == b
  {
  }

  lemma EscapeUnique(c: char, d: char, x: string, y: string)
    requires Escape(c) + x == Escape(d) + y
    ensures c == d && x == y
  {
    var e, f := Escape(c), Escape(d);
    SameFirst(e, f, x, y);
    if e[0] == '\\' {
      assert e[1] == (e + x)[1] == (f + y)[1] == f[1];
    }
    Cancel(e, f, x, y);
    if |e| == 6 {
      assert e[4] == Hex(c as int / 16) && f[4] == Hex(d as int / 16);
      HexDigits(c as int / 16, d as int / 16);
      assert e[5] == Hex(c as int % 16) && f[5] == Hex(d as int % 16);
      HexDigits(c as int % 16, d as int % 16);
    }
  }

  lemma EscapedEmpty(s: string)
    ensures Escaped(s)[0] == '"' <==> s == ""
  {
    if s != "" { assert Escaped(s)[0] == Escape(s[0])[0]; }
  }

  lemma {:induction false} EscapedUnique(s: string, t: string, x: string, y: string)
    requires Escaped(s) + x == Escaped(t) + y
    ensures s == t && x == y
    decreases |s|
  {
    SameFirst(Escaped(s), Escaped(t), x, y);
    EscapedEmpty(s);
    EscapedEmpty(t);
    if s == "" {
      Cancel(Escaped(s), Escaped(t), x, y);
    } else {
      Assoc(Escape(s[0]), Escaped(s[1..]), x);
      Assoc(Escape(t[0]), Escaped(t[1..]), y);
      EscapeUnique(s[0], t[0], Escaped(s[1..]) + x, Escaped(t[1..]) + y);
      EscapedUnique(s[1..], t[1..], x, y);
      assert s == [s[0]] + s[1..] && t == [t[0]] + t[1..];
    }
  }

  lemma QuotedUnique(s: string, t: string, x: string, y: string)
    requires Quoted(s) + x == Quoted(t) + y
    ensures s == t && x == y
  {
    Assoc("\"", Escaped(s), x);
    Assoc("\"", Escaped(t), y);
    Cancel("\"", "\"", Escaped(s) + x, Escaped(t) + y);
    EscapedUnique(s, t, x, y);
  }

  /** A number ends where its alphabet does. */
  lemma NumberNotLonger(a: string, b: string, x: string, y: string)
    requires forall i :: 0 <= i < |b| ==> NumberChar(b[i])
    requires Ends(x) && a + x == b + y
    ensures |b| <= |a|
  {
    var text := b + y;
    assert forall i :: 0 <= i < |b| ==> text[i] == b[i];
    assert |a| < |text| ==> text[|a|] == x[0];
  }

  /** The first character tells the kinds of value apart. */
  lemma FirstChar(j: Json)
    requires Valid(j)
    ensures Render(j) != ""
    ensures var c := Render(j)[0];
            match j
            case JNull => c == 'n'
            case JBool(b) => c == if b then 't' else 'f'
            case JNumber(_) => NumberChar(c)
            case JString(_) => c == '"'
            case JList(isObject, _) => c == if isObject then '{' else '['
  {
  }

  lemma ItemFirst(item: Item)
    requires Valid(item.value)
    ensures RenderItem(item) != "" && RenderItem(item)[0] !in ",]}"
  {
    FirstChar(item.value);
  }

  lemma ItemsFirst(items: seq<Item>, close: char, separator: string)
    requires forall item :: item in items ==> Valid(item.value)
    requires close in "]}" && separator in {"", ","}
    ensures var text := RenderItems(items, close, separator);
            && text != "" && (text[0] == close <==> items == [])
            && (separator == "," ==> Ends(text))
  {
    if items != [] { ItemFirst(items[0]); }
  }

  /** A rendered value can be read back in one way only, whatever legally follows it. */
  lemma {:induction false} RenderUnique(a: Json, b: Json, x: string, y: string)
    requires Valid(a) && Valid(b) && Ends(x) && Ends(y)
    requires Render(a) + x == Render(b) + y
    ensures a == b && x == y
    decreases a, 1
  {
    FirstChar(a);
    FirstChar(b);
    SameFirst(Render(a), Render(b), x, y);
    match a {
      case JNull => Cancel(Render(a), Render(b), x, y);
      case JBool(_) => Cancel(Render(a), Render(b), x, y);
      case JNumber(text) =>
        NumberNotLonger(text, b.text, x, y);
        NumberNotLonger(b.text, text, y, x);
        Cancel(text, b.text, x, y);
      case JString(s) => QuotedUnique(s, b.s, x, y);
      case JList(isObject, items) =>
        var open, close := [Render(a)[0]], Close(isObject);
        Assoc(open, RenderItems(items, close, ""), x);
        Assoc(open, RenderItems(b.items, close, ""), y);
        Cancel(open, open, RenderItems(items, close, "") + x, RenderItems(b.items, close, "") + y);
        ItemsUnique(items, b.items, isObject, "", x, y);
    }
  }

  lemma {:induction false} ItemsUnique(a: seq<Item>, b: seq<Item>, isObject: bool, separator: string, x: string,
                                       y: string)
    requires ValidItems(isObject, a) && ValidItems(isObject, b) && separator in {"", ","}
    requires RenderItems(a, Close(isObject), separator) + x == RenderItems(b, Close(isObject), separator) + y
    ensures a == b && x == y
    decreases a, 0
  {
    var close := Close(isObject);
    ItemsFirst(a, close, separator);
    ItemsFirst(b, close, separator);
    SameFirst(RenderItems(a, close, separator), RenderItems(b, close, separator), x, y);
    if a == [] {
      Cancel([close], [close], x, y);
    } else {
      ItemsStep(a, close, separator, x);
      ItemsStep(b, close, separator, y);
      var r, t := RenderItems(a[1..], close, ",") + x, RenderItems(b[1..], close, ",") + y;
      Cancel(separator, separator, RenderItem(a[0]) + r, RenderItem(b[0]) + t);
      ItemsFirst(a[1..], close, ",");
      ItemsFirst(b[1..], close, ",");
      ItemUnique(a[0], b[0], r, t);
      ItemsUnique(a[1..], b[1..], isObject, ",", x, y);
      assert a == [a[0]] + a[1..] && b == [b[0]] + b[1..];
    }
  }

  lemma ItemsStep(items: seq<Item>, close: char, separator: string, x: string)
    requires items != []
    ensures RenderItems(items, close, separator) + x
            == separator + (RenderItem(items[0]) + (RenderItems(items[1..], close, ",") + x))
  {
    var head, tail := RenderItem(items[0]), RenderItems(items[1..], close, ",");
    Assoc(separator, head + tail, x);
    Assoc(head, tail, x);
  }

  lemma {:induction false} ItemUnique(f: Item, g: Item, x: string, y: string)
    requires Valid(f.value) && Valid(g.value) && f.key.Some? == g.key.Some? && Ends(x) && Ends(y)
    requires RenderItem(f) + x == RenderItem(g) + y
    ensures f == g && x == y
    decreases f, 0
  {
    if f.key.Some? {
      var u, v := Render(f.value) + x, Render(g.value) + y;
      KeyedStep(f, x);
      KeyedStep(g, y);
      QuotedUnique(f.key.value, g.key.value, ":" + u, ":" + v);
      Cancel(":", ":", u, v);
    }
    RenderUnique(f.value, g.value, x, y);
  }

  lemma KeyedStep(f: Item, x: string)
    requires f.key.Some?
    ensures RenderItem(f) + x == Quoted(f.key.value) + (":" + (Render(f.value) + x))
  {
    Assoc(Quoted(f.key.value), ":" + Render(f.value), x);
    Assoc(":", Render(f.value), x);
  }

  /** Two values with the same text are the same value. */
  lemma RenderInjective(a: Json, b: Json)
    requires Valid(a) && Valid(b) && Render(a) == Render(b)
    ensures a == b
  {
    assert Render(a) + "" == Render(a) && Render(b) + "" == Render(b);
    RenderUnique(a, b, "", "");
  }
}
