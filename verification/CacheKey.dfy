/** The text an exact-match cache key is hashed from, and what two equal texts have in common. */
module CacheKey {
  import opened Decimals
  import opened Wrappers
  import opened Whitespace
  import R = Router

  datatype Message = Message(role: string, content: string)

  function Normalize(messages: seq<Message>): seq<Message> {
    if messages == [] then []
    else [Message(messages[0].role, PyStrip(messages[0].content))] + Normalize(messages[1..])
  }

  // ---------- json.dumps(..., ensure_ascii=False) ----------

  function HexDigit(n: nat): char
    requires n < 16
  {
    if n < 10 then ('0' as int + n) as char else ('a' as int + n - 10) as char
  }

  /** The letter after the backslash, for the characters that have one. */
  function ShortEscape(c: char): Option<char> {
    if c == '"' then Some('"')
    else if c == '\\' then Some('\\')
    else if c == '\n' then Some('n')
    else if c == '\r' then Some('r')
    else if c == '\t' then Some('t')
    else if c == '\U{08}' then Some('b')
    else if c == '\U{0C}' then Some('f')
    else None
  }

  function EscapedChar(c: char): string {
    if ShortEscape(c).Some? then ['\\', ShortEscape(c).value]
    else if c < ' ' then ['\\', 'u', '0', '0', HexDigit(c as int / 16), HexDigit(c as int % 16)]
    else [c]
  }

  function Escape(s: string): string {
    if s == "" then "" else EscapedChar(s[0]) + Escape(s[1..])
  }

  function Object(m: Message): string {
    "{\"role\": \"" + (Escape(m.role) + ("\"" + (", \"content\": \"" + (Escape(m.content) + ("\"" + "}")))))
  }

  function Items(messages: seq<Message>): string {
    if messages == [] then "]" else ", " + (Object(messages[0]) + Items(messages[1..]))
  }

  function Dumps(messages: seq<Message>): string {
    if messages == [] then "[]" else "[" + (Object(messages[0]) + Items(messages[1..]))
  }

  lemma {:induction false} DropCommon(head: string, x: string, y: string)
    requires head + x == head + y
    ensures x == y
  {
    assert x == (head + x)[|head|..] && y == (head + y)[|head|..];
  }

  lemma {:induction false} Regroup(a: string, b: string, c: string)
    ensures (a + b) + c == a + (b + c)
  {
  }

  lemma {:induction false} EscapedCharIsPrefixFree(c: char, d: char, x: string, y: string)
    requires EscapedChar(c) + x == EscapedChar(d) + y
    ensures c == d && x == y
  {
    var a, b := EscapedChar(c), EscapedChar(d);
    var s, t := a + x, b + y;
    assert a == s[..|a|] && b == t[..|b|];
    assert a[0] == s[0] && b[0] == s[0];
    assert c == d by {
      if s[0] == '\\' {
        assert a[1] == s[1] && b[1] == s[1];
        if s[1] == 'u' {
          assert a[4] == s[4] && b[4] == s[4] && a[5] == s[5] && b[5] == s[5];
        }
      }
    }
    DropCommon(a, x, y);
  }

  /** A quoted string ends where it says, whatever follows. */
  lemma {:induction false} EscapeIsPrefixFree(s: string, t: string, x: string, y: string)
    requires Escape(s) + ("\"" + x) == Escape(t) + ("\"" + y)
    ensures s == t && x == y
  {
    QuoteFirst(s, x);
    QuoteFirst(t, y);
    if s == "" || t == "" {
      DropCommon("\"", x, y);
    } else {
      Regroup(EscapedChar(s[0]), Escape(s[1..]), "\"" + x);
      Regroup(EscapedChar(t[0]), Escape(t[1..]), "\"" + y);
      EscapedCharIsPrefixFree(s[0], t[0], Escape(s[1..]) + ("\"" + x), Escape(t[1..]) + ("\"" + y));
      EscapeIsPrefixFree(s[1..], t[1..], x, y);
      assert s == [s[0]] + s[1..] && t == [t[0]] + t[1..];
    }
  }

  /** The closing quote comes first only after an empty string. */
  lemma {:induction false} QuoteFirst(s: string, x: string)
    ensures var text := Escape(s) + ("\"" + x); text != "" && (text[0] == '"' <==> s == "")
    ensures s == "" ==> Escape(s) + ("\"" + x) == "\"" + x
  {
  }

  lemma {:induction false} ObjectParts(m: Message, x: string)
    ensures Object(m) + x ==
            "{\"role\": \"" + (Escape(m.role)
                + ("\"" + (", \"content\": \"" + (Escape(m.content) + ("\"" + ("}" + x))))))
  {
  }

  lemma {:induction false} ObjectIsPrefixFree(m: Message, n: Message, x: string, y: string)
    requires Object(m) + x == Object(n) + y
    ensures m == n && x == y
  {
    ObjectParts(m, x);
    ObjectParts(n, y);
    var ma, na := Escape(m.content) + ("\"" + ("}" + x)), Escape(n.content) + ("\"" + ("}" + y));
    var mb, nb := ", \"content\": \"" + ma, ", \"content\": \"" + na;
    DropCommon("{\"role\": \"", Escape(m.role) + ("\"" + mb), Escape(n.role) + ("\"" + nb));
    EscapeIsPrefixFree(m.role, n.role, mb, nb);
    DropCommon(", \"content\": \"", ma, na);
    EscapeIsPrefixFree(m.content, n.content, "}" + x, "}" + y);
    DropCommon("}", x, y);
  }

  lemma {:induction false} ItemsArePrefixFree(a: seq<Message>, b: seq<Message>, x: string, y: string)
    requires Items(a) + x == Items(b) + y
    ensures a == b && x == y
  {
    var s, t := Items(a) + x, Items(b) + y;
    assert s[0] == Items(a)[0] && t[0] == Items(b)[0];
    if a == [] || b == [] {
      assert a == [] <==> s[0] == ']';
      assert b == [] <==> t[0] == ']';
      DropCommon("]", x, y);
    } else {
      var sa, sb := Object(a[0]) + (Items(a[1..]) + x), Object(b[0]) + (Items(b[1..]) + y);
      Regroup(", ", Object(a[0]) + Items(a[1..]), x);
      Regroup(Object(a[0]), Items(a[1..]), x);
      Regroup(", ", Object(b[0]) + Items(b[1..]), y);
      Regroup(Object(b[0]), Items(b[1..]), y);
      DropCommon(", ", sa, sb);
      ObjectIsPrefixFree(a[0], b[0], Items(a[1..]) + x, Items(b[1..]) + y);
      ItemsArePrefixFree(a[1..], b[1..], x, y);
      assert a == [a[0]] + a[1..] && b == [b[0]] + b[1..];
    }
  }

  /** The JSON text of a message list can be told apart from whatever follows it. */
  lemma {:induction false} DumpsIsPrefixFree(a: seq<Message>, b: seq<Message>, x: string, y: string)
    requires Dumps(a) + x == Dumps(b) + y
    ensures a == b && x == y
  {
    var s, t := Dumps(a) + x, Dumps(b) + y;
    assert s[1] == Dumps(a)[1] && t[1] == Dumps(b)[1];
    if a == [] || b == [] {
      assert a == [] <==> s[1] == ']';
      assert b == [] <==> t[1] == ']';
      DropCommon("[]", x, y);
    } else {
      var sa, sb := Object(a[0]) + (Items(a[1..]) + x), Object(b[0]) + (Items(b[1..]) + y);
      Regroup("[", Object(a[0]) + Items(a[1..]), x);
      Regroup(Object(a[0]), Items(a[1..]), x);
      Regroup("[", Object(b[0]) + Items(b[1..]), y);
      Regroup(Object(b[0]), Items(b[1..]), y);
      DropCommon("[", sa, sb);
      ObjectIsPrefixFree(a[0], b[0], Items(a[1..]) + x, Items(b[1..]) + y);
      ItemsArePrefixFree(a[1..], b[1..], x, y);
      assert a == [a[0]] + a[1..] && b == [b[0]] + b[1..];
    }
  }

  // ---------- cache_key ----------

  predicate NoBar(s: string) { '|' !in s }

  /** A float as `str` prints it. */
  type Number = s: string | NoBar(s) witness "0.01"

  /** What a key is made from. */
  datatype Fields = Fields(
    messages: seq<Message>,
    privacyHigh: bool,
    scope: string,
    quality: R.Quality,
    cost: Number,
    latencyMs: nat,
    policyVersion: nat)

  function Privacy(high: bool): string { if high then "high" else "standard" }

  function QualityName(q: R.Quality): string {
    match q
    case Balanced => "balanced"
    case HighQuality => "high"
    case Cheap => "cheap"
  }

  function KeyTail(f: Fields): string {
    (((f.scope + ("|" + QualityName(f.quality))) + ("|" + f.cost)) + ("|" + Decimal(f.latencyMs)))
        + ("|" + Decimal(f.policyVersion))
  }

  function KeyText(f: Fields): string {
    Dumps(Normalize(f.messages)) + ("|" + (Privacy(f.privacyHigh) + ("|" + KeyTail(f))))
  }

  lemma {:induction false} FirstBar(p: string, q: string, x: string, y: string)
    requires NoBar(p) && NoBar(q) && p + ("|" + x) == q + ("|" + y)
    ensures p == q && x == y
  {
    var s, t := p + ("|" + x), q + ("|" + y);
    assert s[|p|] == '|' && t[|q|] == '|';
    assert (forall k :: 0 <= k < |p| ==> s[k] == p[k]) && (forall k :: 0 <= k < |q| ==> t[k] == q[k]);
    assert |p| == |q|;
    assert s[..|p|] == p && t[..|q|] == q;
    assert s[|p| + 1..] == x && t[|q| + 1..] == y;
  }

  lemma {:induction false} LastBar(x: string, y: string, p: string, q: string)
    requires NoBar(p) && NoBar(q) && x + ("|" + p) == y + ("|" + q)
    ensures x == y && p == q
  {
    var s, t := x + ("|" + p), y + ("|" + q);
    assert s[|x|] == '|' && t[|y|] == '|';
    assert forall k :: |x| < k < |s| ==> s[k] == p[k - |x| - 1];
    assert forall k :: |y| < k < |t| ==> t[k] == q[k - |y| - 1];
    assert |x| == |y|;
    assert s[..|x|] == x && t[..|y|] == y;
    assert s[|x| + 1..] == p && t[|y| + 1..] == q;
  }

  lemma {:induction false} DecimalHasNoBar(n: nat)
    ensures NoBar(Decimal(n))
  {
    if '|' in Decimal(n) {
      OnlyDigits(n, '|');
    }
  }

  /**
   * The text determines everything it is made from, whatever characters the messages and the scope hold: the JSON part
   * delimits itself from the left, and of the fields split off from the right none but the scope can hold a bar.
   */
  lemma {:induction false} KeyTextIsInjective(a: Fields, b: Fields)
    requires KeyText(a) == KeyText(b)
    ensures Normalize(a.messages) == Normalize(b.messages)
    ensures a == b.(messages := a.messages)
  {
    var pa, pb := Privacy(a.privacyHigh) + ("|" + KeyTail(a)), Privacy(b.privacyHigh) + ("|" + KeyTail(b));
    DumpsIsPrefixFree(Normalize(a.messages), Normalize(b.messages), "|" + pa, "|" + pb);
    DropCommon("|", pa, pb);
    FirstBar(Privacy(a.privacyHigh), Privacy(b.privacyHigh), KeyTail(a), KeyTail(b));
    KeyTailIsInjective(a, b);
  }

  lemma {:induction false} KeyTailIsInjective(a: Fields, b: Fields)
    requires KeyTail(a) == KeyTail(b)
    ensures a.scope == b.scope && a.quality == b.quality && a.cost == b.cost
    ensures a.latencyMs == b.latencyMs && a.policyVersion == b.policyVersion
  {
    DecimalHasNoBar(a.policyVersion);
    DecimalHasNoBar(b.policyVersion);
    DecimalHasNoBar(a.latencyMs);
    DecimalHasNoBar(b.latencyMs);
    var a1, b1 := a.scope + ("|" + QualityName(a.quality)), b.scope + ("|" + QualityName(b.quality));
    var a2, b2 := a1 + ("|" + a.cost), b1 + ("|" + b.cost);
    var a3, b3 := a2 + ("|" + Decimal(a.latencyMs)), b2 + ("|" + Decimal(b.latencyMs));
    LastBar(a3, b3, Decimal(a.policyVersion), Decimal(b.policyVersion));
    LastBar(a2, b2, Decimal(a.latencyMs), Decimal(b.latencyMs));
    LastBar(a1, b1, a.cost, b.cost);
    LastBar(a.scope, b.scope, QualityName(a.quality), QualityName(b.quality));
    DecimalIsInjective(a.policyVersion, b.policyVersion);
    DecimalIsInjective(a.latencyMs, b.latencyMs);
  }
}
