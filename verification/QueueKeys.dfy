/**
 The text of a group key: `json.dumps` of a flat list, and that the queue, which compares only these texts, groups
 two firings just when the values behind them agree.
 */
module QueueKeys {
  import opened QueueTables

  datatype Json = Null | Number(n: int) | Text(s: string)

  function Digits(n: nat): string {
    var last := ('0' as int + n % 10) as char;
    if n < 10 then [last] else Digits(n / 10) + [last]
  }

  function NumberText(n: int): string {
    if n < 0 then "-" + Digits(-n) else Digits(n)
  }

  function HexDigit(d: nat): char
    requires d < 16
  {
    if d < 10 then ('0' as int + d) as char else ('a' as int + d - 10) as char
  }

  function Hex4(n: nat): (h: string)
    requires n < 0x10000
    ensures |h| == 4
  {
    [HexDigit(n / 4096), HexDigit(n / 256 % 16), HexDigit(n / 16 % 16), HexDigit(n % 16)]
  }

  /** One character of a string, in ASCII; beyond the basic plane it becomes a surrogate pair. */
  function Escaped(c: char): string {
    var n := c as int;
    if c == '"' then "\\\""
    else if c == '\\' then "\\\\"
    else if n == 8 then "\\b"
    else if n == 9 then "\\t"
    else if n == 10 then "\\n"
    else if n == 12 then "\\f"
    else if n == 13 then "\\r"
    else if ' ' <= c <= '~' then [c]
    else if n < 0x10000 then "\\u" + Hex4(n)
    else "\\u" + Hex4(0xD800 + (n - 0x10000) / 1024) + "\\u" + Hex4(0xDC00 + (n - 0x10000) % 1024)
  }

  function EscapedAll(s: string): string {
    if s == [] then [] else Escaped(s[0]) + EscapedAll(s[1..])
  }

  function AtomText(a: Json): string {
    match a
    case Null => "null"
    case Number(n) => NumberText(n)
    case Text(s) => "\"" + (EscapedAll(s) + "\"")
  }

  /** The rest of a list, with what separates it from what is before. */
  function RestText(items: seq<Json>): string {
    if items == [] then "]" else "," + (AtomText(items[0]) + RestText(items[1..]))
  }

  /** `json.dumps` of a list that is not empty, without spaces. */
  function Dumps(items: seq<Json>): string
    requires items != []
  {
    "[" + (AtomText(items[0]) + RestText(items[1..]))
  }

  // ----- the parts are told apart -----

  lemma Cancel<T>(a: seq<T>, u: seq<T>, v: seq<T>)
    requires a + u == a + v
    ensures u == v
  {
    assert (a + u)[|a|..] == u && (a + v)[|a|..] == v;
  }

  function ValueOf(digits: string): int {
    if digits == [] then 0
    else 10 * ValueOf(digits[..|digits| - 1]) + (digits[|digits| - 1] as int - '0' as int)
  }

  predicate IsDigit(c: char) {
    '0' <= c <= '9'
  }

  lemma {:induction false} DigitsRead(n: nat)
    ensures Digits(n) != [] && ValueOf(Digits(n)) == n && forall c <- Digits(n) :: IsDigit(c)
  {
    var last := ('0' as int + n % 10) as char;
    if n < 10 {
      assert [last][..0] == [];
    } else {
      DigitsRead(n / 10);
      assert (Digits(n / 10) + [last])[..|Digits(n / 10)|] == Digits(n / 10);
    }
  }

  lemma NumberTextTells(m: int, n: int)
    requires NumberText(m) == NumberText(n)
    ensures m == n
  {
    DigitsRead(if m < 0 then -m else m);
    DigitsRead(if n < 0 then -n else n);
    if m < 0 {
      assert NumberText(m)[0] == '-' && NumberText(m)[1..] == Digits(-m);
    } else {
      assert NumberText(m)[0] in Digits(m);
    }
    if n < 0 {
      assert NumberText(n)[0] == '-' && NumberText(n)[1..] == Digits(-n);
    } else {
      assert NumberText(n)[0] in Digits(n);
    }
  }

  predicate InNumber(c: char) {
    IsDigit(c) || c == '-'
  }

  lemma NumberTextChars(n: int)
    ensures NumberText(n) != [] && forall c <- NumberText(n) :: InNumber(c)
  {
    DigitsRead(if n < 0 then -n else n);
  }

  /** What follows an atom in a list. */
  predicate Ends(u: string) {
    u != [] && (u[0] == ',' || u[0] == ']')
  }

  lemma InNumberAt(x: string, u: string, k: nat)
    requires k < |x| && forall c <- x :: InNumber(c)
    ensures InNumber((x + u)[k])
  {
    assert (x + u)[k] == x[k] && x[k] in x;
  }

  lemma NumbersSplit(x: string, y: string, u: string, v: string)
    requires x + u == y + v && Ends(u) && Ends(v)
    requires (forall c <- x :: InNumber(c)) && forall c <- y :: InNumber(c)
    ensures x == y && u == v
  {
    assert (x + u)[|x|] == u[0] && (y + v)[|y|] == v[0];
    if |x| < |y| {
      InNumberAt(y, v, |x|);
    } else if |y| < |x| {
      InNumberAt(x, u, |y|);
    } else {
      assert x == (x + u)[..|x|] && y == (y + v)[..|y|];
      Cancel(x, u, v);
    }
  }

  lemma HexDigitTells(d: nat, e: nat)
    requires d < 16 && e < 16 && HexDigit(d) == HexDigit(e)
    ensures d == e
  {
    assert HexDigit(d) as int == HexDigit(e) as int;
  }

  lemma Hex4Tells(m: nat, n: nat)
    requires m < 0x10000 && n < 0x10000 && Hex4(m) == Hex4(n)
    ensures m == n
  {
    var x, y := Hex4(m), Hex4(n);
    assert x[0] == y[0] && x[1] == y[1] && x[2] == y[2] && x[3] == y[3];
    HexDigitTells(m / 4096, n / 4096);
    HexDigitTells(m / 256 % 16, n / 256 % 16);
    HexDigitTells(m / 16 % 16, n / 16 % 16);
    HexDigitTells(m % 16, n % 16);
    Hex4Parts(m);
    Hex4Parts(n);
  }

  lemma Hex4Parts(n: nat)
    requires n < 0x10000
    ensures n / 4096 < 16 && n == 4096 * (n / 4096) + 256 * (n / 256 % 16) + 16 * (n / 16 % 16) + n % 16
  {
    assert n / 16 / 16 == n / 256 && n / 256 / 16 == n / 4096;
  }

  /** Plain, a short escape, one code unit, or a surrogate pair. */
  predicate IsShort(c: char) {
    var n := c as int;
    c == '"' || c == '\\' || n == 8 || n == 9 || n == 10 || n == 12 || n == 13
  }

  predicate IsPlain(c: char) {
    !IsShort(c) && ' ' <= c <= '~'
  }

  lemma EscapedStarts(c: char)
    ensures Escaped(c) != [] && Escaped(c)[0] != '"'
    ensures IsPlain(c) <==> Escaped(c)[0] != '\\'
    ensures IsPlain(c) ==> Escaped(c) == [c]
    ensures IsShort(c) ==> |Escaped(c)| == 2 && Escaped(c)[1] != 'u'
    ensures !IsPlain(c) && !IsShort(c) ==> |Escaped(c)| >= 6 && Escaped(c)[1] == 'u'
  {
  }

  /** The code units of a character that needs them. */
  function High(c: char): (h: nat)
    ensures h < 0x10000
  {
    if c as int < 0x10000 then c as int else 0xD800 + (c as int - 0x10000) / 1024
  }

  function Low(c: char): (l: nat)
    requires c as int >= 0x10000
    ensures l < 0x10000
  {
    0xDC00 + (c as int - 0x10000) % 1024
  }

  lemma UnitsAt(c: char, u: string)
    requires !IsPlain(c) && !IsShort(c)
    ensures |Escaped(c) + u| >= 6 && (Escaped(c) + u)[2..6] == Hex4(High(c))
    ensures c as int >= 0x10000 ==> |Escaped(c) + u| >= 12 && (Escaped(c) + u)[8..12] == Hex4(Low(c))
  {
    hide Hex4;
    var high := Hex4(High(c));
    if c as int < 0x10000 {
      assert Escaped(c) + u == "\\u" + high + u;
    } else {
      assert Escaped(c) + u == "\\u" + high + "\\u" + Hex4(Low(c)) + u;
    }
  }

  lemma UnitsTell(c: char, d: char, u: string, v: string)
    requires !IsPlain(c) && !IsShort(c) && !IsPlain(d) && !IsShort(d)
    requires Escaped(c) + u == Escaped(d) + v
    ensures c == d
  {
    hide Escaped, Hex4, IsPlain, IsShort;
    UnitsAt(c, u);
    UnitsAt(d, v);
    Hex4Tells(High(c), High(d));
    if c as int >= 0x10000 {
      Hex4Tells(Low(c), Low(d));
    }
  }

  lemma EscapedTells(c: char, d: char, u: string, v: string)
    requires Escaped(c) + u == Escaped(d) + v
    ensures c == d && u == v
  {
    EscapedStarts(c);
    EscapedStarts(d);
    assert (Escaped(c) + u)[0] == Escaped(c)[0] && (Escaped(d) + v)[0] == Escaped(d)[0];
    if !IsPlain(c) {
      assert (Escaped(c) + u)[1] == Escaped(c)[1] && (Escaped(d) + v)[1] == Escaped(d)[1];
      if !IsShort(c) {
        UnitsTell(c, d, u, v);
      }
    }
    assert c == d;
    Cancel(Escaped(c), u, v);
  }

  /** A string and what follows it. */
  function Quoted(s: string, u: string): string {
    EscapedAll(s) + "\"" + u
  }

  lemma QuotedStarts(s: string, u: string)
    ensures Quoted(s, u) != [] && (Quoted(s, u)[0] == '"' <==> s == [])
    ensures if s == [] then Quoted(s, u)[1..] == u else Quoted(s, u) == Escaped(s[0]) + Quoted(s[1..], u)
  {
    hide Escaped;
    if s == [] {
      assert EscapedAll(s) + "\"" + u == "\"" + u;
    } else {
      EscapedStarts(s[0]);
      assert EscapedAll(s) == Escaped(s[0]) + EscapedAll(s[1..]);
      assert EscapedAll(s) + "\"" + u == Escaped(s[0]) + (EscapedAll(s[1..]) + "\"" + u);
    }
  }

  lemma {:induction false} StringsSplit(s: string, t: string, u: string, v: string)
    requires Quoted(s, u) == Quoted(t, v)
    ensures s == t && u == v
  {
    hide Quoted, Escaped;
    QuotedStarts(s, u);
    QuotedStarts(t, v);
    if s != [] {
      EscapedTells(s[0], t[0], Quoted(s[1..], u), Quoted(t[1..], v));
      StringsSplit(s[1..], t[1..], u, v);
    }
  }

  predicate StartsAs(a: Json, c: char) {
    match a
    case Null => c == 'n'
    case Number(_) => InNumber(c)
    case Text(_) => c == '"'
  }

  lemma AtomStarts(a: Json, u: string)
    ensures AtomText(a) != [] && StartsAs(a, (AtomText(a) + u)[0])
  {
    if a.Number? {
      NumberTextChars(a.n);
      assert NumberText(a.n)[0] in NumberText(a.n);
    }
  }

  /** An atom and what follows it can be told from the text of both. */
  lemma AtomsSplit(a: Json, b: Json, u: string, v: string)
    requires AtomText(a) + u == AtomText(b) + v && Ends(u) && Ends(v)
    ensures a == b && u == v
  {
    AtomStarts(a, u);
    AtomStarts(b, v);
    match a {
      case Null => Cancel("null", u, v);
      case Number(n) =>
        NumberTextChars(n);
        NumberTextChars(b.n);
        NumbersSplit(NumberText(n), NumberText(b.n), u, v);
        NumberTextTells(n, b.n);
      case Text(s) =>
        assert (AtomText(a) + u)[1..] == Quoted(s, u) && (AtomText(b) + v)[1..] == Quoted(b.s, v);
        StringsSplit(s, b.s, u, v);
    }
  }

  lemma {:induction false} RestsTell(a: seq<Json>, b: seq<Json>)
    requires RestText(a) == RestText(b)
    ensures a == b
  {
    if a != [] && b != [] {
      assert RestText(a)[1..] == AtomText(a[0]) + RestText(a[1..]) && RestText(b)[1..] == AtomText(b[0]) + RestText(b[1..]);
      AtomsSplit(a[0], b[0], RestText(a[1..]), RestText(b[1..]));
      RestsTell(a[1..], b[1..]);
    } else {
      assert RestText(a)[0] == RestText(b)[0];
    }
  }

  /** A flat list can be told from its text. */
  lemma DumpsTells(a: seq<Json>, b: seq<Json>)
    requires a != [] && b != []
    ensures Dumps(a) == Dumps(b) <==> a == b
  {
    if Dumps(a) == Dumps(b) {
      assert Dumps(a)[1..] == AtomText(a[0]) + RestText(a[1..]) && Dumps(b)[1..] == AtomText(b[0]) + RestText(b[1..]);
      AtomsSplit(a[0], b[0], RestText(a[1..]), RestText(b[1..]));
      RestsTell(a[1..], b[1..]);
    }
  }

  // ----- the key -----

  function Fields(key: GroupKey): seq<Json> {
    [Number(key.rule), Number(key.target), Text(if key.grouping == ByHost then "host" else "rule"),
     if key.source.Some? then Text(key.source.value) else Null, Text(key.owner), Text(key.project)]
  }

  /** `group_key`, as the queue stores it. */
  function KeyText(key: GroupKey): string {
    Dumps(Fields(key))
  }

  /** Rule, target, grouping, source, owner and project of a firing. */
  datatype Firing = Firing(rule: int, target: int, grouping: Grouping, source: string, owner: string, project: string)
  {
    function Key(): GroupKey {
      GroupKeyOf(rule, target, grouping, source, owner, project)
    }
  }

  /** Two firings get the same text just when rule, target, grouping, owner and project agree and, when they are
      grouped by host, the source does. */
  lemma SharedGroup(a: Firing, b: Firing)
    ensures KeyText(a.Key()) == KeyText(b.Key()) <==>
              && a.rule == b.rule && a.target == b.target && a.grouping == b.grouping
              && a.owner == b.owner && a.project == b.project && (a.grouping == ByHost ==> a.source == b.source)
  {
    var x, y := Fields(a.Key()), Fields(b.Key());
    DumpsTells(x, y);
    assert x == y ==> x[0] == y[0] && x[1] == y[1] && x[2] == y[2] && x[3] == y[3] && x[4] == y[4] && x[5] == y[5];
    assert "host"[0] != "rule"[0];
  }
}
