/**
 * Message templates and their substitution (notifications.py): `format_message`
 * replaces every `{key}` of a template by `str(value)`, one key after another
 * in the order of the data, and three builders fill the templates for a new
 * booking, a cancellation and a bonus. Sending the text is not modelled.
 *
 * A template is described by its placeholder structure, a list of literal
 * segments and holes; the literal wording of the messages is abbreviated.
 */
module Notifications {
  import opened Wrappers
  import opened PyStr

  /** A value a builder takes out of a client or booking record. */
  datatype Value = Text(s: string) | Number(n: int) | Null

  /** A decoded client or booking record (a Python dict). */
  type Record = map<string, Value>

  /** The substitution data: a dict's (key, value) pairs in iteration order. */
  type Data = seq<(string, Value)>

  /** The number a string of decimal digits denotes, read most significant first. */
  function DigitsValue(s: string): int
    decreases |s|
  {
    if s == [] then 0
    else DigitsValue(s[..|s| - 1]) * 10 + (s[|s| - 1] as int - '0' as int)
  }

  /**
   * Decimal digits of a natural number, most significant first: they denote
   * the number, and there is no leading zero.
   */
  function Digits(n: nat): (r: string)
    ensures |r| >= 1
    ensures forall i :: 0 <= i < |r| ==> '0' <= r[i] <= '9'
    ensures DigitsValue(r) == n
    ensures |r| > 1 ==> r[0] != '0'
    decreases n
  {
    if n < 10 then [('0' as int + n) as char]
    else
      var high := Digits(n / 10);
      var r := high + Digits(n % 10);
      assert r[..|r| - 1] == high;
      r
  }

  /** Python's `str(value)`. */
  function Str(v: Value): string {
    match v
    case Text(s) => s
    case Number(n) => if n < 0 then "-" + Digits(-n) else Digits(n)
    case Null => "None"
  }

  /** `record.get(key, default)`; a missing key gives the default, `None` unless stated. */
  function Get(record: Record, key: string, default: Value := Null): Value {
    if key in record then record[key] else default
  }

  /** The placeholder `f"{{{key}}}"`. */
  function Placeholder(key: string): string {
    "{" + key + "}"
  }

  /**
   * The meaning of `format_message(template, data)`: replace-all of each
   * key's placeholder by its value's text, one key after another in order.
   */
  function Substituted(template: string, data: Data): string
    decreases |data|
  {
    if data == [] then template
    else Substituted(ReplaceAll(template, Placeholder(data[0].0), Str(data[0].1)), data[1..])
  }

  /** `format_message`: the loop reassigns the template once per key. */
  method FormatMessage(template: string, data: Data) returns (r: string)
    ensures r == Substituted(template, data)
    ensures data == [] ==> r == template
    ensures Lacks(template, '{') ==> r == template
  {
    r := template;
    for i := 0 to |data|
      invariant Substituted(r, data[i..]) == Substituted(template, data)
    {
      var (key, value) := data[i];
      assert data[i..][1..] == data[i + 1..];
      r := ReplaceAll(r, Placeholder(key), Str(value));
    }
    assert data[|data|..] == [];
    if Lacks(template, '{') {
      SubstitutedWithoutBraces(template, data);
    }
  }

  /** A template with no `{` is returned unchanged whatever the data holds. */
  lemma {:induction false} SubstitutedWithoutBraces(template: string, data: Data)
    requires Lacks(template, '{')
    ensures Substituted(template, data) == template
    decreases |data|
  {
    if data != [] {
      ReplaceAllAbsent(template, Placeholder(data[0].0), Str(data[0].1));
      SubstitutedWithoutBraces(template, data[1..]);
    }
  }

  /**
   * Substitution is sequential: a value's text is scanned again by the keys
   * that follow it, so the order of the data can matter.
   */
  lemma OrderMatters()
    ensures Substituted("{a}", [("a", Text("{b}")), ("b", Text("x"))]) == "x"
    ensures Substituted("{a}", [("b", Text("x")), ("a", Text("{b}"))]) == "{b}"
  {
    var a, b := Placeholder("a"), Placeholder("b");
    assert ReplaceAll(a, a, "{b}") == "{b}" by {
      assert a[..|a|] == a && a[|a|..] == "";
    }
    assert ReplaceAll("{b}", b, "x") == "x" by {
      assert b[..|b|] == b && b[|b|..] == "";
    }
    assert ReplaceAll(a, b, "x") == a by {
      assert a[..|b|][1] != b[1];
      assert a[1..] == "a}";
      ReplaceAllShort("a}", b, "x");
    }
    assert Substituted("{b}", []) == "{b}";
  }

  /** One piece of a template: literal text or a `{key}` placeholder. */
  datatype Segment = Lit(text: string) | Hole(key: string)

  type Template = seq<Segment>

  /** The template string a segment list stands for. */
  function Render(t: Template): string
    decreases |t|
  {
    if t == [] then ""
    else
      (match t[0]
       case Lit(x) => x
       case Hole(k) => Placeholder(k)) + Render(t[1..])
  }

  /** Neither brace occurs in `s`. */
  predicate BraceFree(s: string) {
    Lacks(s, '{') && Lacks(s, '}')
  }

  /** Literal text holds no `{`, a key no brace at all. */
  predicate SegmentOk(s: Segment) {
    match s
    case Lit(x) => Lacks(x, '{')
    case Hole(k) => BraceFree(k)
  }

  predicate WellFormed(t: Template) {
    forall i :: 0 <= i < |t| ==> SegmentOk(t[i])
  }

  /** Keys of the data hold no braces and the texts of its values no `{`. */
  predicate PlainData(data: Data) {
    forall i :: 0 <= i < |data| ==> BraceFree(data[i].0) && Lacks(Str(data[i].1), '{')
  }

  /** The value of the first pair with this key. */
  function Lookup(data: Data, key: string): (r: Option<Value>)
    ensures r.Some? <==> exists i :: 0 <= i < |data| && data[i].0 == key
    decreases |data|
  {
    if data == [] then None
    else if data[0].0 == key then Some(data[0].1)
    else Lookup(data[1..], key)
  }

  /**
   * The template with each hole whose key the data has turned into the text
   * of that key's value; holes for keys the data lacks stay holes.
   */
  function Fill(t: Template, data: Data): (r: Template)
    ensures |r| == |t|
    ensures forall i :: 0 <= i < |t| ==> r[i] == FillSegment(t[i], data)
    decreases |t|
  {
    if t == [] then []
    else [FillSegment(t[0], data)] + Fill(t[1..], data)
  }

  /** One segment of `Fill`. */
  function FillSegment(s: Segment, data: Data): Segment {
    match s
    case Lit(_) => s
    case Hole(k) =>
      match Lookup(data, k)
      case Some(v) => Lit(Str(v))
      case None => s
  }

  /** The first pair with a key decides its value: later duplicates are never used. */
  lemma {:induction false} LookupFirst(data: Data, i: nat)
    requires i < |data|
    requires forall j :: 0 <= j < i ==> data[j].0 != data[i].0
    ensures Lookup(data, data[i].0) == Some(data[i].1)
    decreases i
  {
    if i > 0 {
      LookupFirst(data[1..], i - 1);
    }
  }

  /** No hole of the template is missing from the data. */
  predicate Covers(data: Data, t: Template) {
    forall i :: 0 <= i < |t| && t[i].Hole? ==> Lookup(data, t[i].key).Some?
  }

  /** A placeholder at the front is never mistaken for the placeholder of another brace-free key. */
  lemma PlaceholderMismatch(k: string, k2: string, rest: string)
    requires BraceFree(k) && BraceFree(k2) && k != k2
    requires |Placeholder(k)| <= |Placeholder(k2) + rest|
    ensures (Placeholder(k2) + rest)[..|Placeholder(k)|] != Placeholder(k)
  {
    var s, p := Placeholder(k2) + rest, Placeholder(k);
    if |k| == |k2| {
      assert exists j :: 0 <= j < |k| && k[j] != k2[j];
      var j :| 0 <= j < |k| && k[j] != k2[j];
      assert s[..|p|][j + 1] == k2[j] && p[j + 1] == k[j];
    } else if |k| < |k2| {
      assert s[..|p|][|k| + 1] == k2[|k|] && p[|k| + 1] == '}';
    } else {
      assert s[..|p|][|k2| + 1] == '}' && p[|k2| + 1] == k[|k2|];
    }
  }

  /** Replacing one key over a placeholder and what follows it: the placeholder goes exactly when its key is that key. */
  lemma ReplaceAtHole(k: string, k2: string, rest: string, repl: string)
    requires BraceFree(k) && BraceFree(k2)
    ensures ReplaceAll(Placeholder(k2) + rest, Placeholder(k), repl)
      == (if k2 == k then repl else Placeholder(k2)) + ReplaceAll(rest, Placeholder(k), repl)
  {
    var p := Placeholder(k);
    var s := Placeholder(k2) + rest;
    if k2 == k {
      assert s[..|p|] == p && s[|p|..] == rest;
    } else if |s| < |p| {
      ReplaceAllShort(s, p, repl);
      ReplaceAllShort(rest, p, repl);
    } else {
      PlaceholderMismatch(k, k2, rest);
      assert s[1..] == (k2 + "}") + rest;
      ReplaceAllSkips(k2 + "}", rest, p, repl);
    }
  }

  /** Replacing one key over a rendered template fills exactly the holes with that key. */
  lemma {:induction false} ReplaceOneKey(t: Template, k: string, v: Value)
    requires WellFormed(t) && BraceFree(k)
    ensures ReplaceAll(Render(t), Placeholder(k), Str(v)) == Render(Fill(t, [(k, v)]))
    decreases |t|
  {
    var p, repl := Placeholder(k), Str(v);
    if t == [] {
      ReplaceAllShort("", p, repl);
    } else {
      var rest := Render(t[1..]);
      assert WellFormed(t[1..]) by {
        forall i | 0 <= i < |t[1..]| ensures SegmentOk(t[1..][i]) {
          assert t[1..][i] == t[i + 1];
        }
      }
      ReplaceOneKey(t[1..], k, v);
      var filled := Fill(t, [(k, v)]);
      assert filled[1..] == Fill(t[1..], [(k, v)]);
      assert SegmentOk(t[0]);
      match t[0]
      case Lit(x) =>
        ReplaceAllSkips(x, rest, p, repl);
      case Hole(k2) =>
        ReplaceAtHole(k, k2, rest, repl);
    }
  }

  /** Filling with one pair and then the rest is filling with all of the data. */
  lemma {:induction false} FillTwice(t: Template, data: Data)
    requires data != []
    ensures Fill(Fill(t, [data[0]]), data[1..]) == Fill(t, data)
    decreases |t|
  {
    if t != [] {
      FillTwice(t[1..], data);
    }
  }

  /** Filling with brace-free values keeps a template well formed. */
  lemma {:induction false} FillWellFormed(t: Template, data: Data)
    requires WellFormed(t) && PlainData(data)
    ensures WellFormed(Fill(t, data))
    decreases |t|
  {
    if t != [] {
      assert WellFormed(t[1..]) by {
        forall i | 0 <= i < |t[1..]| ensures SegmentOk(t[1..][i]) {
          assert t[1..][i] == t[i + 1];
        }
      }
      FillWellFormed(t[1..], data);
      if t[0].Hole? {
        LookupPlain(data, t[0].key);
      }
      var r := Fill(t, data);
      forall i | 0 <= i < |r| ensures SegmentOk(r[i]) {
        if i > 0 { assert r[i] == Fill(t[1..], data)[i - 1]; }
      }
    }
  }

  /** A value found in brace-free data has a brace-free text. */
  lemma {:induction false} LookupPlain(data: Data, key: string)
    requires PlainData(data)
    ensures Lookup(data, key).Some? ==> Lacks(Str(Lookup(data, key).value), '{')
    decreases |data|
  {
    if data != [] && data[0].0 != key {
      assert PlainData(data[1..]) by {
        forall i | 0 <= i < |data[1..]| ensures BraceFree(data[1..][i].0) && Lacks(Str(data[1..][i].1), '{') {
          assert data[1..][i] == data[i + 1];
        }
      }
      LookupPlain(data[1..], key);
    }
  }

  /**
   * The substitution theorem: with brace-free template text, keys and values,
   * substituting the keys one after another over the rendered template is
   * the template with every covered hole filled. Every occurrence of a key
   * is replaced, and a hole whose key the data lacks stays verbatim.
   */
  lemma {:induction false} SubstitutedFills(t: Template, data: Data)
    requires WellFormed(t) && PlainData(data)
    ensures Substituted(Render(t), data) == Render(Fill(t, data))
    decreases |data|
  {
    if data == [] {
      FillNothing(t);
    } else {
      var (k, v) := data[0];
      ReplaceOneKey(t, k, v);
      var t1 := Fill(t, [data[0]]);
      assert PlainData([data[0]]);
      FillWellFormed(t, [data[0]]);
      assert PlainData(data[1..]) by {
        forall i | 0 <= i < |data[1..]| ensures BraceFree(data[1..][i].0) && Lacks(Str(data[1..][i].1), '{') {
          assert data[1..][i] == data[i + 1];
        }
      }
      SubstitutedFills(t1, data[1..]);
      FillTwice(t, data);
    }
  }

  /** Filling with no data changes nothing. */
  lemma {:induction false} FillNothing(t: Template)
    ensures Fill(t, []) == t
    decreases |t|
  {
    if t != [] {
      FillNothing(t[1..]);
    }
  }

  /** A filled template whose every hole was covered renders without a `{`. */
  lemma {:induction false} CoveredLeavesNoBrace(t: Template, data: Data)
    requires WellFormed(t) && PlainData(data) && Covers(data, t)
    ensures Lacks(Render(Fill(t, data)), '{')
    decreases |t|
  {
    if t != [] {
      assert WellFormed(t[1..]) && Covers(data, t[1..]) by {
        forall i | 0 <= i < |t[1..]|
          ensures SegmentOk(t[1..][i])
          ensures t[1..][i].Hole? ==> Lookup(data, t[1..][i].key).Some?
        {
          assert t[1..][i] == t[i + 1];
        }
      }
      CoveredLeavesNoBrace(t[1..], data);
      var head := Fill(t, data)[0];
      assert Fill(t, data)[1..] == Fill(t[1..], data);
      if t[0].Hole? {
        LookupPlain(data, t[0].key);
      }
      assert head.Lit? && Lacks(head.text, '{');
      var r := Render(Fill(t, data));
      assert r == head.text + Render(Fill(t[1..], data));
    }
  }

  /**
   * With brace-free values and a template whose holes the data covers, the
   * formatted text contains no placeholder at all.
   */
  lemma NoPlaceholderLeft(t: Template, data: Data, key: string)
    requires WellFormed(t) && PlainData(data) && Covers(data, t)
    ensures !Contains(Substituted(Render(t), data), Placeholder(key))
  {
    SubstitutedFills(t, data);
    CoveredLeavesNoBrace(t, data);
    LacksNotContains(Render(Fill(t, data)), Placeholder(key));
  }

  /** The `new_booking` template (literal wording abbreviated). */
  const NewBookingTemplate: Template := [
    Lit("Hello, "), Hole("name"), Lit("! Booked: "), Hole("service"),
    Lit(" Date: "), Hole("day_month"), Lit(" Time: "), Hole("start_time"),
    Lit(" Master: "), Hole("staff"), Lit(" Price: "), Hole("price"), Lit(" RUB")]

  /** The `cancel_booking` template (literal wording abbreviated). */
  const CancelBookingTemplate: Template := [
    Hole("name"), Lit(", your booking for "), Hole("service"), Lit(" ("),
    Hole("day_month"), Lit(", "), Hole("start_time"), Lit(") was cancelled.")]

  /** The `bonus` template (literal wording abbreviated). */
  const BonusTemplate: Template := [
    Lit("Thank you, "), Hole("name"), Lit("! Bonus for "), Hole("service"),
    Lit(": "), Hole("bonus_points"), Lit(" points")]

  /** The data `send_new_booking_notification` passes: a missing price shows as a dash. */
  function NewBookingData(client: Record, booking: Record): Data {
    [("name", Get(client, "name")),
     ("service", Get(booking, "service_name")),
     ("day_month", Get(booking, "day_month")),
     ("start_time", Get(booking, "start_time")),
     ("staff", Get(booking, "staff_name")),
     ("price", Get(booking, "price", Text("—")))]
  }

  /** The data `send_cancel_notification` passes. */
  function CancelData(client: Record, booking: Record): Data {
    [("name", Get(client, "name")),
     ("service", Get(booking, "service_name")),
     ("day_month", Get(booking, "day_month")),
     ("start_time", Get(booking, "start_time"))]
  }

  /** The data `send_bonus_notification` passes: missing bonus points default to 50. */
  function BonusData(client: Record, booking: Record): Data {
    [("name", Get(client, "name")),
     ("service", Get(booking, "service_name")),
     ("bonus_points", Get(booking, "bonus_points", Number(50)))]
  }

  /** No value of a record prints with a `{`. */
  predicate PlainRecord(r: Record) {
    forall k :: k in r ==> Lacks(Str(r[k]), '{')
  }

  /** The keys the three builders use hold no braces. */
  lemma BuilderKeysBraceFree()
    ensures SegmentOk(Hole("name")) && SegmentOk(Hole("service")) && SegmentOk(Hole("day_month"))
    ensures SegmentOk(Hole("start_time")) && SegmentOk(Hole("staff")) && SegmentOk(Hole("price"))
    ensures SegmentOk(Hole("bonus_points"))
  {
  }

  /** The literal text of the new-booking template holds no `{`. */
  lemma NewBookingTexts()
    ensures SegmentOk(Lit("Hello, ")) && SegmentOk(Lit("! Booked: ")) && SegmentOk(Lit(" Date: "))
    ensures SegmentOk(Lit(" Time: ")) && SegmentOk(Lit(" Master: ")) && SegmentOk(Lit(" Price: "))
    ensures SegmentOk(Lit(" RUB"))
  {
  }

  /** The literal text of the cancellation template holds no `{`. */
  lemma CancelSegments()
    ensures SegmentOk(Lit(", your booking for ")) && SegmentOk(Lit(" (")) && SegmentOk(Lit(", "))
    ensures SegmentOk(Lit(") was cancelled."))
  {
  }

  /** The literal text of the bonus template holds no `{`, and its own key no brace. */
  lemma BonusSegments()
    ensures SegmentOk(Lit("Thank you, ")) && SegmentOk(Lit("! Bonus for ")) && SegmentOk(Lit(": "))
    ensures SegmentOk(Hole("bonus_points")) && SegmentOk(Lit(" points"))
  {
  }

  /** The three templates hold no `{` outside their placeholders, and their keys no braces. */
  lemma TemplatesWellFormed()
    ensures WellFormed(NewBookingTemplate)
    ensures WellFormed(CancelBookingTemplate)
    ensures WellFormed(BonusTemplate)
  {
    BuilderKeysBraceFree();
    NewBookingTexts();
    CancelSegments();
    BonusSegments();
  }

  /** Each builder's keys cover every placeholder of its template. */
  lemma BuildersCoverTemplates(client: Record, booking: Record)
    ensures Covers(NewBookingData(client, booking), NewBookingTemplate)
    ensures Covers(CancelData(client, booking), CancelBookingTemplate)
    ensures Covers(BonusData(client, booking), BonusTemplate)
  {
    var newBooking := NewBookingData(client, booking);
    assert newBooking[0].0 == "name" && newBooking[1].0 == "service" && newBooking[2].0 == "day_month";
    assert newBooking[3].0 == "start_time" && newBooking[4].0 == "staff" && newBooking[5].0 == "price";
    var cancel := CancelData(client, booking);
    assert cancel[0].0 == "name" && cancel[1].0 == "service";
    assert cancel[2].0 == "day_month" && cancel[3].0 == "start_time";
    var bonus := BonusData(client, booking);
    assert bonus[0].0 == "name" && bonus[1].0 == "service" && bonus[2].0 == "bonus_points";
  }

  /** A booking without a price shows a dash in the price hole. */
  lemma MissingPriceShowsDash(client: Record, booking: Record)
    requires "price" !in booking
    ensures NewBookingTemplate[11] == Hole("price")
    ensures Fill(NewBookingTemplate, NewBookingData(client, booking))[11] == Lit("—")
  {
    var data := NewBookingData(client, booking);
    assert Lookup(data, "price") == Some(Text("—")) by {
      assert data[5] == ("price", Text("—"));
      assert data[4].0 == "staff" && data[4].0[0] != "price"[0];
      LookupFirst(data, 5);
    }
    assert NewBookingTemplate[11] == Hole("price");
    assert FillSegment(Hole("price"), data) == Lit("—");
  }

  /** A booking without bonus points shows 50 in the bonus hole. */
  lemma MissingBonusShowsFifty(client: Record, booking: Record)
    requires "bonus_points" !in booking
    ensures BonusTemplate[5] == Hole("bonus_points")
    ensures Fill(BonusTemplate, BonusData(client, booking))[5] == Lit("50")
  {
    var data := BonusData(client, booking);
    assert Lookup(data, "bonus_points") == Some(Number(50)) by {
      assert data[2] == ("bonus_points", Number(50));
      LookupFirst(data, 2);
    }
    assert Str(Number(50)) == "50" by {
      assert Digits(50) == Digits(5) + Digits(0);
    }
    assert BonusTemplate[5] == Hole("bonus_points");
    assert FillSegment(Hole("bonus_points"), data) == Lit("50");
  }

  /** Numbers and `None` print without braces. */
  lemma StrBraceFree(v: Value)
    requires !v.Text?
    ensures BraceFree(Str(v))
  {
    if v.Number? && v.n < 0 {
      var d := Digits(-v.n);
      assert Str(v) == "-" + d;
      forall i | 0 <= i < |Str(v)| ensures Str(v)[i] != '{' && Str(v)[i] != '}' {
        if i > 0 { assert Str(v)[i] == d[i - 1]; }
      }
    }
  }

  /** A value read from a plain record, or a plain default, prints without `{`. */
  lemma GetPlain(r: Record, key: string, default: Value)
    requires PlainRecord(r) && Lacks(Str(default), '{')
    ensures Lacks(Str(Get(r, key, default)), '{')
  {
  }

  /** With plain records, the new-booking data is plain. */
  lemma NewBookingDataPlain(client: Record, booking: Record)
    requires PlainRecord(client) && PlainRecord(booking)
    ensures PlainData(NewBookingData(client, booking))
  {
    StrBraceFree(Null);
    GetPlain(client, "name", Null);
    GetPlain(booking, "service_name", Null);
    GetPlain(booking, "day_month", Null);
    GetPlain(booking, "start_time", Null);
    GetPlain(booking, "staff_name", Null);
    GetPlain(booking, "price", Text("—"));
    BuilderKeysBraceFree();
  }

  /** With plain records, the cancellation data is plain. */
  lemma CancelDataPlain(client: Record, booking: Record)
    requires PlainRecord(client) && PlainRecord(booking)
    ensures PlainData(CancelData(client, booking))
  {
    StrBraceFree(Null);
    GetPlain(client, "name", Null);
    GetPlain(booking, "service_name", Null);
    GetPlain(booking, "day_month", Null);
    GetPlain(booking, "start_time", Null);
    BuilderKeysBraceFree();
  }

  /** With plain records, the bonus data is plain. */
  lemma BonusDataPlain(client: Record, booking: Record)
    requires PlainRecord(client) && PlainRecord(booking)
    ensures PlainData(BonusData(client, booking))
  {
    StrBraceFree(Null);
    StrBraceFree(Number(50));
    GetPlain(client, "name", Null);
    GetPlain(booking, "service_name", Null);
    GetPlain(booking, "bonus_points", Number(50));
    BuilderKeysBraceFree();
  }

  /** With plain records, every builder's data is plain. */
  lemma BuilderPlainData(client: Record, booking: Record)
    requires PlainRecord(client) && PlainRecord(booking)
    ensures PlainData(NewBookingData(client, booking))
    ensures PlainData(CancelData(client, booking))
    ensures PlainData(BonusData(client, booking))
  {
    NewBookingDataPlain(client, booking);
    CancelDataPlain(client, booking);
    BonusDataPlain(client, booking);
  }

  /** The text of the new-booking notice. */
  method NewBookingText(client: Record, booking: Record) returns (text: string)
    ensures text == Substituted(Render(NewBookingTemplate), NewBookingData(client, booking))
    ensures PlainRecord(client) && PlainRecord(booking) ==>
      text == Render(Fill(NewBookingTemplate, NewBookingData(client, booking)))
      && Lacks(text, '{')
  {
    var data := NewBookingData(client, booking);
    text := FormatMessage(Render(NewBookingTemplate), data);
    if PlainRecord(client) && PlainRecord(booking) {
      TemplatesWellFormed();
      BuildersCoverTemplates(client, booking);
      BuilderPlainData(client, booking);
      FilledText(NewBookingTemplate, data);
    }
  }

  /** The text of the cancellation notice. */
  method CancelText(client: Record, booking: Record) returns (text: string)
    ensures text == Substituted(Render(CancelBookingTemplate), CancelData(client, booking))
    ensures PlainRecord(client) && PlainRecord(booking) ==>
      text == Render(Fill(CancelBookingTemplate, CancelData(client, booking)))
      && Lacks(text, '{')
  {
    var data := CancelData(client, booking);
    text := FormatMessage(Render(CancelBookingTemplate), data);
    if PlainRecord(client) && PlainRecord(booking) {
      TemplatesWellFormed();
      BuildersCoverTemplates(client, booking);
      BuilderPlainData(client, booking);
      FilledText(CancelBookingTemplate, data);
    }
  }

  /** The text of the bonus notice. */
  method BonusText(client: Record, booking: Record) returns (text: string)
    ensures text == Substituted(Render(BonusTemplate), BonusData(client, booking))
    ensures PlainRecord(client) && PlainRecord(booking) ==>
      text == Render(Fill(BonusTemplate, BonusData(client, booking)))
      && Lacks(text, '{')
  {
    var data := BonusData(client, booking);
    text := FormatMessage(Render(BonusTemplate), data);
    if PlainRecord(client) && PlainRecord(booking) {
      TemplatesWellFormed();
      BuildersCoverTemplates(client, booking);
      BuilderPlainData(client, booking);
      FilledText(BonusTemplate, data);
    }
  }

  /** The substitution theorem and the no-brace result together, for a covering builder. */
  lemma FilledText(t: Template, data: Data)
    requires WellFormed(t) && PlainData(data) && Covers(data, t)
    ensures Substituted(Render(t), data) == Render(Fill(t, data))
    ensures Lacks(Substituted(Render(t), data), '{')
  {
    SubstitutedFills(t, data);
    CoveredLeavesNoBrace(t, data);
  }
}
