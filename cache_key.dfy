/**
 * `generateKey` of both cache backends: the md5 digest, in hex, of the
 * record's `JSON.stringify` text. The digest is a function parameter; the
 * text is spelled out for the flat records the callers pass, whose values
 * are strings, integers or undefined.
 */
module CacheKey {
  import opened Text

  /** A field value: a string, an integer, or undefined (which `JSON.stringify` leaves out). */
  datatype Value = Str(s: string) | Num(n: int) | Undefined

  /** A field name and its value, in the record's own order. */
  datatype Field = Field(name: string, value: Value)

  /** The escape of one character inside a JSON string: `"` and `\` are preceded by `\`. */
  function EscapeChar(c: char): (e: string)
    ensures 1 <= |e| <= 2
  {
    if c == '"' then ['\\', '"'] else if c == '\\' then ['\\', '\\'] else [c]
  }

  function Escape(s: string): string {
    if s == [] then [] else EscapeChar(s[0]) + Escape(s[1..])
  }

  /** A JSON string literal. */
  function Quote(s: string): string {
    "\"" + Escape(s) + "\""
  }

  /** The fields `JSON.stringify` writes: those whose value is not undefined, in order. */
  function Written(fields: seq<Field>): (r: seq<Field>)
    ensures forall i :: 0 <= i < |r| ==> !r[i].value.Undefined?
  {
    if fields == [] then []
    else (if fields[0].value.Undefined? then [] else [fields[0]]) + Written(fields[1..])
  }

  predicate AllWritten(g: seq<Field>) {
    forall i :: 0 <= i < |g| ==> !g[i].value.Undefined?
  }

  function ValueText(v: Value): string
    requires !v.Undefined?
  {
    match v
    case Str(s) => Quote(s)
    case Num(n) => IntToString(n)
  }

  /** `"name":value`. */
  function Member(f: Field): string
    requires !f.value.Undefined?
  {
    Quote(f.name) + ":" + ValueText(f.value)
  }

  /** The members after the first, each behind a comma, then the closing brace. */
  function Rest(g: seq<Field>): string
    requires AllWritten(g)
  {
    if g == [] then "}" else "," + Member(g[0]) + Rest(g[1..])
  }

  /** `JSON.stringify(record)` for a flat record. */
  function Stringify(fields: seq<Field>): string {
    "{" + Body(Written(fields))
  }

  /** `generateKey`: `md5` stands for `createHash('md5').update(text).digest('hex')`. */
  function GenerateKey(fields: seq<Field>, md5: string -> string): string {
    md5(Stringify(fields))
  }

  /** The first character of the escape of `c` is `\` exactly when `c` is `"` or `\`; otherwise it is `c`. */
  lemma EscapeCharHead(c: char)
    ensures EscapeChar(c)[0] == '\\' <==> c == '"' || c == '\\'
    ensures EscapeChar(c)[0] != '\\' ==> EscapeChar(c) == [c]
    ensures EscapeChar(c)[0] != '"'
  {
  }

  /** Two escape sequences that start the same text come from the same character. */
  lemma EscapeCharPrefix(a: char, b: char, r1: string, r2: string)
    requires EscapeChar(a) + r1 == EscapeChar(b) + r2
    ensures a == b && r1 == r2
  {
    var s := EscapeChar(a) + r1;
    EscapeCharHead(a);
    EscapeCharHead(b);
    assert s[0] == EscapeChar(a)[0] == EscapeChar(b)[0];
    if EscapeChar(a)[0] == '\\' {
      assert s[1] == EscapeChar(a)[1] == EscapeChar(b)[1];
    }
    assert EscapeChar(a) == EscapeChar(b);
    assert r1 == s[|EscapeChar(a)|..];
  }

  /**
   * An escaped string ends at the first unescaped quote: two texts that both
   * read as an escaped string followed by a quote agree on the string and on
   * what follows.
   */
  lemma {:induction false} EscapeThenQuote(a: string, b: string, r1: string, r2: string)
    requires Escape(a) + ['"'] + r1 == Escape(b) + ['"'] + r2
    ensures a == b && r1 == r2
    decreases |a|
  {
    if a != [] && b != [] {
      EscapeStep(a, b, r1, r2);
      EscapeThenQuote(a[1..], b[1..], r1, r2);
      assert a == [a[0]] + a[1..] && b == [b[0]] + b[1..];
    } else {
      EscapeEmpty(a, r1);
      EscapeEmpty(b, r2);
      if a == [] && b == [] {
        assert r1 == (Escape(a) + ['"'] + r1)[1..];
      }
    }
  }

  /** An escaped text followed by a quote starts with that quote exactly when the text is empty. */
  lemma EscapeEmpty(a: string, r: string)
    ensures (Escape(a) + ['"'] + r)[0] == '"' <==> a == []
  {
    if a != [] {
      EscapeCharHead(a[0]);
      assert (Escape(a) + ['"'] + r)[0] == EscapeChar(a[0])[0];
    }
  }

  /** Two non-empty escaped texts followed by a quote that agree start with the same character and agree after it. */
  lemma EscapeStep(a: string, b: string, r1: string, r2: string)
    requires a != [] && b != []
    requires Escape(a) + ['"'] + r1 == Escape(b) + ['"'] + r2
    ensures a[0] == b[0] && Escape(a[1..]) + ['"'] + r1 == Escape(b[1..]) + ['"'] + r2
  {
    EscapeCons(a);
    EscapeCons(b);
    Regroup(EscapeChar(a[0]), Escape(a[1..]), ['"'], r1);
    Regroup(EscapeChar(b[0]), Escape(b[1..]), ['"'], r2);
    EscapeCharPrefix(a[0], b[0], Escape(a[1..]) + ['"'] + r1, Escape(b[1..]) + ['"'] + r2);
  }

  lemma EscapeCons(a: string)
    requires a != []
    ensures Escape(a) == EscapeChar(a[0]) + Escape(a[1..])
  {
  }

  lemma Regroup<T>(x: seq<T>, y: seq<T>, z: seq<T>, w: seq<T>)
    ensures (x + y) + z + w == x + (y + z + w)
  {
  }

  /** A comma or the closing brace: what may follow a value. */
  predicate Delimited(r: string) {
    |r| > 0 && (r[0] == ',' || r[0] == '}')
  }

  /** Two texts without a delimiter, each followed by a delimited rest, split the same way. */
  lemma SplitAtDelimiter(x1: string, r1: string, x2: string, r2: string)
    requires ',' !in x1 && '}' !in x1 && ',' !in x2 && '}' !in x2
    requires Delimited(r1) && Delimited(r2)
    requires x1 + r1 == x2 + r2
    ensures x1 == x2 && r1 == r2
  {
    var s := x1 + r1;
    assert x1 == s[..|x1|] && x2 == s[..|x2|];
  }

  /** A number's text holds no delimiter and does not begin with a quote. */
  lemma NumberText(n: int)
    ensures ',' !in IntToString(n) && '}' !in IntToString(n)
    ensures IntToString(n)[0] != '"'
  {
    NoMarkInNumber(n, ',');
    NoMarkInNumber(n, '}');
    NoMarkInNumber(n, '"');
    assert IntToString(n)[0] in IntToString(n);
  }

  /** A value's text opens with a quote exactly when it is a string. */
  lemma ValueHead(v: Value)
    requires !v.Undefined?
    ensures |ValueText(v)| > 0
    ensures ValueText(v)[0] == '"' <==> v.Str?
  {
    if v.Num? {
      NumberText(v.n);
    }
  }

  /** A string literal ends at its closing quote. */
  lemma QuoteThen(a: string, r1: string, b: string, r2: string)
    requires Quote(a) + r1 == Quote(b) + r2
    ensures a == b && r1 == r2
  {
    var s := Quote(a) + r1;
    assert s[1..] == Escape(a) + ['"'] + r1;
    assert s[1..] == Escape(b) + ['"'] + r2;
    EscapeThenQuote(a, b, r1, r2);
  }

  /** A value's text, followed by a delimiter, can be read back. */
  lemma ValueThen(v1: Value, r1: string, v2: Value, r2: string)
    requires !v1.Undefined? && !v2.Undefined?
    requires Delimited(r1) && Delimited(r2)
    requires ValueText(v1) + r1 == ValueText(v2) + r2
    ensures v1 == v2 && r1 == r2
  {
    var s := ValueText(v1) + r1;
    ValueHead(v1);
    ValueHead(v2);
    assert s[0] == ValueText(v1)[0] && s[0] == ValueText(v2)[0];
    if v1.Str? && v2.Str? {
      QuoteThen(v1.s, r1, v2.s, r2);
    } else if v1.Num? && v2.Num? {
      NumberText(v1.n);
      NumberText(v2.n);
      SplitAtDelimiter(IntToString(v1.n), r1, IntToString(v2.n), r2);
      IntToStringInjective(v1.n, v2.n);
    }
  }

  /** A member opens with a quote, then the escaped name, a quote, a colon and the value. */
  lemma MemberShape(f: Field, r: string)
    requires !f.value.Undefined?
    ensures (Member(f) + r)[0] == '"'
    ensures (Member(f) + r)[1..] == Escape(f.name) + ['"'] + ([':'] + ValueText(f.value) + r)
  {
  }

  /** A member's text, followed by a delimiter, can be read back. */
  lemma MemberThen(f1: Field, r1: string, f2: Field, r2: string)
    requires !f1.value.Undefined? && !f2.value.Undefined?
    requires Delimited(r1) && Delimited(r2)
    requires Member(f1) + r1 == Member(f2) + r2
    ensures f1 == f2 && r1 == r2
  {
    MemberShape(f1, r1);
    MemberShape(f2, r2);
    var t1 := [':'] + ValueText(f1.value) + r1;
    var t2 := [':'] + ValueText(f2.value) + r2;
    EscapeThenQuote(f1.name, f2.name, t1, t2);
    assert ValueText(f1.value) + r1 == t1[1..];
    assert ValueText(f2.value) + r2 == t2[1..];
    ValueThen(f1.value, r1, f2.value, r2);
  }

  /** After the first member, each member is introduced by a comma. */
  lemma RestShape(g: seq<Field>)
    requires AllWritten(g) && g != []
    ensures AllWritten(g[1..])
    ensures Rest(g)[0] == ','
    ensures Rest(g)[1..] == Member(g[0]) + Rest(g[1..])
  {
    assert g[0] == g[0];
    assert Rest(g) == [','] + (Member(g[0]) + Rest(g[1..]));
  }

  lemma RestDelimited(g: seq<Field>)
    requires AllWritten(g)
    ensures Delimited(Rest(g))
  {
  }

  /** The member list is just the brace exactly when there are no members. */
  lemma RestEmpty(g: seq<Field>)
    requires AllWritten(g)
    ensures Rest(g) == "}" <==> g == []
  {
    if g != [] {
      RestShape(g);
    }
  }

  /** Equal member lists start with the same member and go on alike. */
  lemma RestStep(g1: seq<Field>, g2: seq<Field>)
    requires AllWritten(g1) && AllWritten(g2) && g1 != [] && g2 != []
    requires Rest(g1) == Rest(g2)
    ensures AllWritten(g1[1..]) && AllWritten(g2[1..])
    ensures g1[0] == g2[0] && Rest(g1[1..]) == Rest(g2[1..])
  {
    RestShape(g1);
    RestShape(g2);
    RestDelimited(g1[1..]);
    RestDelimited(g2[1..]);
    MemberThen(g1[0], Rest(g1[1..]), g2[0], Rest(g2[1..]));
  }

  lemma {:induction false} RestInjective(g1: seq<Field>, g2: seq<Field>)
    requires AllWritten(g1) && AllWritten(g2)
    requires Rest(g1) == Rest(g2)
    ensures g1 == g2
    decreases |g1|
  {
    if g1 != [] && g2 != [] {
      RestStep(g1, g2);
      RestInjective(g1[1..], g2[1..]);
      assert g1 == [g1[0]] + g1[1..] && g2 == [g2[0]] + g2[1..];
    } else {
      RestEmpty(g1);
      RestEmpty(g2);
    }
  }

  /** The text between the braces of a record. */
  function Body(g: seq<Field>): string
    requires AllWritten(g)
  {
    if g == [] then "}" else Member(g[0]) + Rest(g[1..])
  }

  lemma BodyInjective(g1: seq<Field>, g2: seq<Field>)
    requires AllWritten(g1) && AllWritten(g2)
    requires Body(g1) == Body(g2)
    ensures g1 == g2
  {
    if g1 != [] {
      assert AllWritten(g1[1..]);
      MemberShape(g1[0], Rest(g1[1..]));
      RestDelimited(g1[1..]);
    }
    if g2 != [] {
      assert AllWritten(g2[1..]);
      MemberShape(g2[0], Rest(g2[1..]));
      RestDelimited(g2[1..]);
    }
    if g1 != [] && g2 != [] {
      MemberThen(g1[0], Rest(g1[1..]), g2[0], Rest(g2[1..]));
      RestInjective(g1[1..], g2[1..]);
      assert g1 == [g1[0]] + g1[1..] && g2 == [g2[0]] + g2[1..];
    }
  }

  /**
   * The JSON text determines the written fields and their order: two records
   * stringify alike exactly when their defined fields are the same, in the
   * same order.
   */
  lemma StringifyDeterminesFields(f1: seq<Field>, f2: seq<Field>)
    ensures Stringify(f1) == Stringify(f2) <==> Written(f1) == Written(f2)
  {
    if Stringify(f1) == Stringify(f2) {
      assert Stringify(f1)[1..] == Body(Written(f1));
      assert Stringify(f2)[1..] == Body(Written(f2));
      BodyInjective(Written(f1), Written(f2));
    }
  }

  /** Equal written fields give equal keys, whatever the digest; undefined fields never change the key. */
  lemma KeyOfWrittenFields(f1: seq<Field>, f2: seq<Field>, md5: string -> string)
    requires Written(f1) == Written(f2)
    ensures GenerateKey(f1, md5) == GenerateKey(f2, md5)
  {
    StringifyDeterminesFields(f1, f2);
  }

  lemma WrittenPair(a: Field, b: Field)
    requires !a.value.Undefined? && !b.value.Undefined?
    ensures Written([a, b]) == [a, b]
  {
    assert [a, b][1..] == [b];
    assert [b][1..] == [];
    assert Written([b]) == [b] + Written([]);
  }

  /**
   * An array-index property name: a canonical decimal numeral (no leading
   * zero) below 2^32 - 1. JavaScript enumerates such names first, in ascending
   * numeric order, whatever the insertion order.
   */
  predicate ArrayIndexName(s: string) {
    && |s| > 0
    && AllDigits(s)
    && (s[0] != '0' || |s| == 1)
    && DigitsValue(s) < 0xFFFF_FFFF
  }

  /**
   * The key text depends on insertion order: a record of two defined fields
   * with different names, neither an array index, stringifies differently once
   * the fields are swapped, so the two orders share a key only through an md5
   * collision.
   */
  lemma FieldOrderMatters(a: Field, b: Field)
    requires !a.value.Undefined? && !b.value.Undefined? && a.name != b.name
    requires !ArrayIndexName(a.name) && !ArrayIndexName(b.name)
    ensures Stringify([a, b]) != Stringify([b, a])
  {
    WrittenPair(a, b);
    WrittenPair(b, a);
    StringifyDeterminesFields([a, b], [b, a]);
  }
}
