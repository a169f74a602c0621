/** The newline-delimited JSON the transport writes: one record per message. */
module Records {
  import opened Decimal
  import opened Messages
  import opened Wire

  const RECORD_MAX: nat := 256

  const SCHEMA := "{\"schema_version\": 1"
  const TYPE := ", \"type\": \""
  const SEQ := "\", \"seq\": "
  const TS := ", \"ts\": "
  const BATTERY := ", \"battery_pct\": "
  const RSSI := ", \"rssi_dbm\": "
  const CODE := ", \"code\": \""
  const ANTENNA := "\", \"antenna\": "
  const END := "}\n"

  /** What follows the sequence number. */
  function Tail(m: Body): string
    requires InRange(m)
  {
    TS + (Print(m.ts) + Fields(m))
  }

  function Fields(m: Body): string
    requires InRange(m)
  {
    if m.TelemetryMsg? then BATTERY + (Print(m.battery) + (RSSI + (Print(m.rssi) + END)))
    else CODE + (m.code + (ANTENNA + (Print(m.antenna) + END)))
  }

  function TypeName(m: Body): string { if m.TelemetryMsg? then "telemetry" else "alert" }

  /** format_telemetry and format_alert */
  function Record(m: Body): string
    requires InRange(m)
  {
    SCHEMA + (TYPE + (TypeName(m) + (SEQ + (Print(m.seqNo) + Tail(m)))))
  }

  lemma RecordFits(m: Body)
    requires InRange(m)
    ensures 0 < |Record(m)| < RECORD_MAX == 256
  {
    hide Print;
    PrintLengths(m.seqNo);
    PrintLengths(m.ts);
    if m.TelemetryMsg? {
      PrintLengths(m.battery);
      PrintLengths(m.rssi);
    } else {
      PrintLengths(m.antenna);
    }
  }

  // ---------------------------------------------------------------- one record, one line

  ghost predicate OneLine(s: string) { s != "" && s[|s| - 1] == '\n' && '\n' !in s[..|s| - 1] }

  lemma OneLinePrefix(a: string, b: string)
    requires '\n' !in a && OneLine(b)
    ensures OneLine(a + b)
  {
    var s := a + b;
    assert s[..|s| - 1] == a + b[..|b| - 1];
  }

  lemma NumberLine(p: string, v: int, rest: string)
    requires '\n' !in p && OneLine(rest)
    ensures OneLine(p + (Print(v) + rest))
  {
    hide Print, OneLine;
    OneLinePrefix(Print(v), rest);
    OneLinePrefix(p, Print(v) + rest);
  }

  lemma NoNewlines(m: Body)
    ensures '\n' !in SCHEMA && '\n' !in TYPE && '\n' !in SEQ && '\n' !in TypeName(m)
  {
  }

  lemma NoNewlinesInFields()
    ensures '\n' !in TS && '\n' !in BATTERY && '\n' !in RSSI && '\n' !in CODE && '\n' !in ANTENNA && OneLine(END)
  {
    assert END[..1] == "}";
  }

  lemma FieldsLine(m: Body)
    requires Plain(m)
    ensures OneLine(Fields(m))
  {
    hide Print, OneLine;
    NoNewlinesInFields();
    if m.TelemetryMsg? {
      NumberLine(RSSI, m.rssi, END);
      NumberLine(BATTERY, m.battery, RSSI + (Print(m.rssi) + END));
    } else {
      NumberLine(ANTENNA, m.antenna, END);
      OneLinePrefix(m.code, ANTENNA + (Print(m.antenna) + END));
      OneLinePrefix(CODE, m.code + (ANTENNA + (Print(m.antenna) + END)));
    }
  }

  /** A record is one line: its only newline is its last character. */
  lemma RecordIsOneLine(m: Body)
    requires Plain(m)
    ensures OneLine(Record(m))
  {
    hide Print, OneLine, Fields, TypeName;
    NoNewlines(m);
    NoNewlinesInFields();
    FieldsLine(m);
    NumberLine(TS, m.ts, Fields(m));
    NumberLine(SEQ, m.seqNo, Tail(m));
    OneLinePrefix(TypeName(m), SEQ + (Print(m.seqNo) + Tail(m)));
    OneLinePrefix(TYPE, TypeName(m) + (SEQ + (Print(m.seqNo) + Tail(m))));
    OneLinePrefix(SCHEMA, TYPE + (TypeName(m) + (SEQ + (Print(m.seqNo) + Tail(m)))));
  }

  // ---------------------------------------------------------------- reading records back

  lemma Cancel(p: string, x: string, y: string)
    requires p + x == p + y
    ensures x == y
  {
    assert x == (p + x)[|p|..];
  }

  /** Two texts that agree up to where each first shows the delimiter agree before and after it. */
  lemma CancelUntil(c: char, a: string, b: string, x: string, y: string)
    requires c !in a && c !in b && x != "" && y != "" && x[0] == c && y[0] == c && a + x == b + y
    ensures a == b && x == y
  {
    assert (a + x)[|a|] == c && (b + y)[|b|] == c;
    assert a == (a + x)[..|a|] && b == (b + y)[..|b|];
    Cancel(a, x, y);
  }

  predicate Ends(x: string) { x != "" && !IsDigit(x[0]) }

  lemma CancelNumber(v: int, w: int, x: string, y: string)
    requires LONG_MIN <= v <= LONG_MAX && LONG_MIN <= w <= LONG_MAX && Ends(x) && Ends(y)
    requires Print(v) + x == Print(w) + y
    ensures v == w && x == y
  {
    hide Print, Strtol;
    StrtolPrint(v, x);
    StrtolPrint(w, y);
    Cancel(Print(v), x, y);
  }

  lemma Assoc(a: string, b: string, c: string)
    ensures (a + b) + c == a + (b + c)
  {
  }

  lemma AssocNumber(p: string, v: int, x: string, s: string)
    ensures (p + (Print(v) + x)) + s == p + (Print(v) + (x + s))
  {
    hide Print;
    Assoc(Print(v), x, s);
    Assoc(p, Print(v) + x, s);
  }

  lemma TelemetryInjective(m1: Body, m2: Body, s1: string, s2: string)
    requires InRange(m1) && InRange(m2) && m1.TelemetryMsg? && m2.TelemetryMsg?
    requires Fields(m1) + s1 == Fields(m2) + s2
    ensures s1 == s2 && m1.battery == m2.battery && m1.rssi == m2.rssi
  {
    hide Print;
    var x1, x2 := Print(m1.rssi) + (END + s1), Print(m2.rssi) + (END + s2);
    AssocNumber(RSSI, m1.rssi, END, s1);
    AssocNumber(RSSI, m2.rssi, END, s2);
    AssocNumber(BATTERY, m1.battery, RSSI + (Print(m1.rssi) + END), s1);
    AssocNumber(BATTERY, m2.battery, RSSI + (Print(m2.rssi) + END), s2);
    Cancel(BATTERY, Print(m1.battery) + (RSSI + x1), Print(m2.battery) + (RSSI + x2));
    CancelNumber(m1.battery, m2.battery, RSSI + x1, RSSI + x2);
    Cancel(RSSI, x1, x2);
    LastNumber(m1.rssi, m2.rssi, s1, s2);
  }

  lemma AlertInjective(m1: Body, m2: Body, s1: string, s2: string)
    requires Plain(m1) && Plain(m2) && m1.AlertMsg? && m2.AlertMsg?
    requires Fields(m1) + s1 == Fields(m2) + s2
    ensures s1 == s2 && m1.code == m2.code && m1.antenna == m2.antenna
  {
    hide Print;
    var x1, x2 := Print(m1.antenna) + (END + s1), Print(m2.antenna) + (END + s2);
    AlertThen(m1, s1);
    AlertThen(m2, s2);
    Cancel(CODE, m1.code + (ANTENNA + x1), m2.code + (ANTENNA + x2));
    CancelCode(m1.code, m2.code, x1, x2);
    LastNumber(m1.antenna, m2.antenna, s1, s2);
  }

  lemma AlertThen(m: Body, s: string)
    requires InRange(m) && m.AlertMsg?
    ensures Fields(m) + s == CODE + (m.code + (ANTENNA + (Print(m.antenna) + (END + s))))
  {
    hide Print;
    AssocNumber(ANTENNA, m.antenna, END, s);
    Assoc(m.code, ANTENNA + (Print(m.antenna) + END), s);
    Assoc(CODE, m.code + (ANTENNA + (Print(m.antenna) + END)), s);
  }

  lemma LastNumber(v: int, w: int, s1: string, s2: string)
    requires LONG_MIN <= v <= LONG_MAX && LONG_MIN <= w <= LONG_MAX
    requires Print(v) + (END + s1) == Print(w) + (END + s2)
    ensures v == w && s1 == s2
  {
    hide Print;
    CancelNumber(v, w, END + s1, END + s2);
    Cancel(END, s1, s2);
  }

  /** A code may itself hold quotes and commas, but the first space can only be the one after it. */
  lemma CancelCode(c1: string, c2: string, x1: string, x2: string)
    requires ' ' !in c1 && ' ' !in c2 && c1 + (ANTENNA + x1) == c2 + (ANTENNA + x2)
    ensures c1 == c2 && x1 == x2
  {
    var q, r := "\",", " \"antenna\": ";
    assert ANTENNA == q + r;
    assert c1 + (ANTENNA + x1) == (c1 + q) + (r + x1);
    assert c2 + (ANTENNA + x2) == (c2 + q) + (r + x2);
    CancelUntil(' ', c1 + q, c2 + q, r + x1, r + x2);
    Cancel(r, x1, x2);
    assert c1 == (c1 + q)[..|c1 + q| - 2];
  }

  function Numbered(m: Body): string
    requires InRange(m)
  {
    SEQ + (Print(m.seqNo) + Tail(m))
  }

  lemma RecordThen(m: Body, s: string)
    requires InRange(m)
    ensures Record(m) + s == SCHEMA + (TYPE + (TypeName(m) + (Numbered(m) + s)))
    ensures Numbered(m) + s == SEQ + (Print(m.seqNo) + (TS + (Print(m.ts) + (Fields(m) + s))))
  {
    hide Print, Fields, TypeName;
    AssocNumber(TS, m.ts, Fields(m), s);
    AssocNumber(SEQ, m.seqNo, Tail(m), s);
    Assoc(TypeName(m), Numbered(m), s);
    Assoc(TYPE, TypeName(m) + Numbered(m), s);
    Assoc(SCHEMA, TYPE + (TypeName(m) + Numbered(m)), s);
  }

  lemma SameType(m1: Body, m2: Body, x1: string, x2: string)
    requires TypeName(m1) + x1 == TypeName(m2) + x2
    ensures m1.TelemetryMsg? == m2.TelemetryMsg?
  {
    assert (TypeName(m1) + x1)[0] == TypeName(m1)[0];
    assert (TypeName(m2) + x2)[0] == TypeName(m2)[0];
  }

  lemma NumberedInjective(m1: Body, m2: Body, s1: string, s2: string)
    requires InRange(m1) && InRange(m2) && Numbered(m1) + s1 == Numbered(m2) + s2
    ensures m1.seqNo == m2.seqNo && m1.ts == m2.ts && Fields(m1) + s1 == Fields(m2) + s2
  {
    hide Print, Fields, Numbered;
    RecordThen(m1, s1);
    RecordThen(m2, s2);
    var y1, y2 := Fields(m1) + s1, Fields(m2) + s2;
    var x1, x2 := TS + (Print(m1.ts) + y1), TS + (Print(m2.ts) + y2);
    Cancel(SEQ, Print(m1.seqNo) + x1, Print(m2.seqNo) + x2);
    CancelNumber(m1.seqNo, m2.seqNo, x1, x2);
    Cancel(TS, Print(m1.ts) + y1, Print(m2.ts) + y2);
    FieldsEnd(m1, s1);
    FieldsEnd(m2, s2);
    CancelNumber(m1.ts, m2.ts, y1, y2);
  }

  lemma FieldsEnd(m: Body, s: string)
    requires InRange(m)
    ensures Ends(Fields(m) + s)
  {
    hide Print;
    assert (Fields(m) + s)[0] == ',';
  }

  /** Records are uniquely decodable even when more text follows: the client can tell every
      message, field by field, and where it stops. */
  lemma RecordInjective(m1: Body, m2: Body, s1: string, s2: string)
    requires Plain(m1) && Plain(m2) && Record(m1) + s1 == Record(m2) + s2
    ensures m1 == m2 && s1 == s2
  {
    hide Print, Fields, TypeName, Record, Numbered;
    RecordThen(m1, s1);
    RecordThen(m2, s2);
    var t1, t2 := TypeName(m1) + (Numbered(m1) + s1), TypeName(m2) + (Numbered(m2) + s2);
    Cancel(SCHEMA, TYPE + t1, TYPE + t2);
    Cancel(TYPE, t1, t2);
    SameType(m1, m2, Numbered(m1) + s1, Numbered(m2) + s2);
    SameName(m1, m2);
    Cancel(TypeName(m1), Numbered(m1) + s1, Numbered(m2) + s2);
    NumberedInjective(m1, m2, s1, s2);
    if m1.TelemetryMsg? { TelemetryInjective(m1, m2, s1, s2); } else { AlertInjective(m1, m2, s1, s2); }
  }

  lemma SameName(m1: Body, m2: Body)
    requires m1.TelemetryMsg? == m2.TelemetryMsg?
    ensures TypeName(m1) == TypeName(m2)
  {
  }

  // ---------------------------------------------------------------- what a reader gets

  /** Somewhere in the text stands the key, and what follows it reads as the number. */
  ghost predicate Shows(text: string, key: string, v: int) {
    exists pre, rest | text == pre + (key + rest) :: Strtol(rest).0 == v
  }

  /** Somewhere in the text stands the key, then the word, then the closing quote, comma and space. */
  ghost predicate Quotes(text: string, key: string, word: string) {
    exists pre, rest :: text == pre + (key + (word + ("\", " + rest)))
  }

  lemma ShowsFirst(key: string, v: int, rest: string)
    requires LONG_MIN <= v <= LONG_MAX && Ends(rest)
    ensures Shows(key + (Print(v) + rest), key, v)
  {
    hide Print, Strtol;
    StrtolPrint(v, rest);
    var text := key + (Print(v) + rest);
    assert text == "" + text;
  }

  lemma ShowsLater(p: string, x: string, text: string, key: string, v: int)
    requires Shows(text, key, v)
    ensures Shows(p + (x + text), key, v)
  {
    hide Strtol;
    var pre, rest :| text == pre + (key + rest) && Strtol(rest).0 == v;
    Assoc(x, pre, key + rest);
    Assoc(p, x + pre, key + rest);
  }

  lemma QuotesLater(p: string, x: string, text: string, key: string, word: string)
    requires Quotes(text, key, word)
    ensures Quotes(p + (x + text), key, word)
  {
    var pre, rest :| text == pre + (key + (word + ("\", " + rest)));
    var found := key + (word + ("\", " + rest));
    Assoc(x, pre, found);
    Assoc(p, x + pre, found);
  }

  lemma QuotesFirst(key: string, word: string, next: string, rest: string)
    ensures Quotes(key + (word + (("\", " + next) + rest)), key, word)
  {
    Assoc("\", ", next, rest);
    var text := key + (word + ("\", " + (next + rest)));
    assert text == "" + text;
  }

  lemma NumberedShows(m: Body, key: string, v: int)
    requires InRange(m) && Shows(Numbered(m), key, v)
    ensures Shows(Record(m), key, v)
  {
    hide Shows, TypeName, Tail, Print;
    var named := TYPE + (TypeName(m) + Numbered(m));
    ShowsLater(TYPE, TypeName(m), Numbered(m), key, v);
    ShowsLater(SCHEMA, "", named, key, v);
    assert "" + named == named;
  }

  lemma FieldShows(m: Body, key: string, v: int)
    requires InRange(m) && Shows(Fields(m), key, v)
    ensures Shows(Record(m), key, v)
  {
    hide Shows, Fields, Record, Print;
    ShowsLater(TS, Print(m.ts), Fields(m), key, v);
    ShowsLater(SEQ, Print(m.seqNo), Tail(m), key, v);
    NumberedShows(m, key, v);
  }

  lemma FieldQuotes(m: Body, key: string, word: string)
    requires InRange(m) && Quotes(Fields(m), key, word)
    ensures Quotes(Record(m), key, word)
  {
    hide Quotes, Fields, TypeName, Print;
    QuotesLater(TS, Print(m.ts), Fields(m), key, word);
    QuotesLater(SEQ, Print(m.seqNo), Tail(m), key, word);
    var named := TYPE + (TypeName(m) + Numbered(m));
    QuotesLater(TYPE, TypeName(m), Numbered(m), key, word);
    QuotesLater(SCHEMA, "", named, key, word);
    assert "" + named == named;
  }

  /** Every record gives its sequence number and its timestamp under their keys. */
  lemma RecordShows(m: Body)
    requires InRange(m)
    ensures Shows(Record(m), "\", \"seq\": ", m.seqNo) && Shows(Record(m), ", \"ts\": ", m.ts)
  {
    hide Print, Shows, Fields, Record;
    FieldsEnd(m, "");
    assert Fields(m) + "" == Fields(m);
    ShowsFirst(TS, m.ts, Fields(m));
    ShowsLater(SEQ, Print(m.seqNo), Tail(m), TS, m.ts);
    NumberedShows(m, TS, m.ts);
    ShowsFirst(SEQ, m.seqNo, Tail(m));
    NumberedShows(m, SEQ, m.seqNo);
  }

  /** ... and, after the schema version, its type. */
  lemma RecordType(m: Body)
    requires InRange(m)
    ensures "{\"schema_version\": 1, \"type\": \"" <= Record(m)
    ensures Quotes(Record(m), ", \"type\": \"", if m.TelemetryMsg? then "telemetry" else "alert")
  {
    hide Print, Quotes, Tail;
    var rest := Print(m.seqNo) + Tail(m);
    QuotesFirst(TYPE, TypeName(m), "\"seq\": ", rest);
    assert "\", " + "\"seq\": " == SEQ;
    var named := TYPE + (TypeName(m) + (SEQ + rest));
    QuotesLater(SCHEMA, "", named, TYPE, TypeName(m));
    assert "" + named == named;
  }

  /** Telemetry gives the battery percentage and the signal strength under their keys. */
  lemma TelemetryShows(m: Body)
    requires InRange(m) && m.TelemetryMsg?
    ensures Shows(Record(m), ", \"battery_pct\": ", m.battery) && Shows(Record(m), ", \"rssi_dbm\": ", m.rssi)
  {
    hide Print, Shows, Record;
    var last := RSSI + (Print(m.rssi) + END);
    ShowsFirst(RSSI, m.rssi, END);
    ShowsLater(BATTERY, Print(m.battery), last, RSSI, m.rssi);
    ShowsFirst(BATTERY, m.battery, last);
    FieldShows(m, RSSI, m.rssi);
    FieldShows(m, BATTERY, m.battery);
  }

  /** An alert gives its code, between the quotes, and its antenna. */
  lemma AlertShows(m: Body)
    requires InRange(m) && m.AlertMsg?
    ensures Quotes(Record(m), ", \"code\": \"", m.code) && Shows(Record(m), "\", \"antenna\": ", m.antenna)
  {
    hide Print, Shows, Quotes, Record;
    var last := Print(m.antenna) + END;
    QuotesFirst(CODE, m.code, "\"antenna\": ", last);
    assert "\", " + "\"antenna\": " == ANTENNA;
    FieldQuotes(m, CODE, m.code);
    ShowsFirst(ANTENNA, m.antenna, END);
    ShowsLater(CODE, m.code, ANTENNA + last, ANTENNA, m.antenna);
    FieldShows(m, ANTENNA, m.antenna);
  }

  /** And there is nothing else in it. */
  lemma RecordText(m: Body)
    requires InRange(m)
    ensures m.TelemetryMsg? ==>
              Record(m) == "{\"schema_version\": 1" + (", \"type\": \"" + ("telemetry" + (
                           "\", \"seq\": " + (Print(m.seqNo) + (", \"ts\": " + (Print(m.ts) + (
                           ", \"battery_pct\": " + (Print(m.battery) + (
                           ", \"rssi_dbm\": " + (Print(m.rssi) + "}\n"))))))))))
    ensures m.AlertMsg? ==>
              Record(m) == "{\"schema_version\": 1" + (", \"type\": \"" + ("alert" + (
                           "\", \"seq\": " + (Print(m.seqNo) + (", \"ts\": " + (Print(m.ts) + (
                           ", \"code\": \"" + (m.code + (
                           "\", \"antenna\": " + (Print(m.antenna) + "}\n"))))))))))
  {
    hide Print;
  }

  // ---------------------------------------------------------------- streams of records

  ghost predicate AllPlain(ms: seq<Body>) { forall i | 0 <= i < |ms| :: Plain(ms[i]) }

  ghost function Stream(ms: seq<Body>): string
    requires AllPlain(ms)
    decreases |ms|
  {
    if ms == [] then "" else Record(ms[0]) + Stream(ms[1..])
  }

  /** Two feeds that look the same on the wire carried the same messages in the same order. */
  lemma {:induction false} StreamInjective(ms: seq<Body>, ns: seq<Body>)
    requires AllPlain(ms) && AllPlain(ns) && Stream(ms) == Stream(ns)
    ensures ms == ns
    decreases |ms|
  {
    hide Record, InRange;
    if ms == [] || ns == [] {
      if ms != [] { RecordFits(ms[0]); }
      if ns != [] { RecordFits(ns[0]); }
    } else {
      RecordInjective(ms[0], ns[0], Stream(ms[1..]), Stream(ns[1..]));
      StreamInjective(ms[1..], ns[1..]);
      assert ms == [ms[0]] + ms[1..] && ns == [ns[0]] + ns[1..];
    }
  }

  lemma {:induction false} StreamSnoc(ms: seq<Body>, m: Body)
    requires AllPlain(ms) && Plain(m)
    ensures AllPlain(ms + [m]) && Stream(ms + [m]) == Stream(ms) + Record(m)
    decreases |ms|
  {
    hide Record, InRange;
    if ms == [] {
      assert ms + [m] == [m] && [m][1..] == [];
      assert Stream([m]) == Record(m) + "";
    } else {
      StreamSnoc(ms[1..], m);
      assert (ms + [m])[1..] == ms[1..] + [m];
      Assoc(Record(ms[0]), Stream(ms[1..]), Record(m));
    }
  }

  /** A record without its newline. */
  function Json(m: Body): string
    requires InRange(m)
  {
    Record(m)[..|Record(m)| - 1]
  }

  ghost function Jsons(ms: seq<Body>): seq<string>
    requires AllPlain(ms)
    decreases |ms|
  {
    if ms == [] then [] else [Json(ms[0])] + Jsons(ms[1..])
  }

  /** What the client reads, line by line, when the connection breaks off in the middle of a
      record: exactly the messages sent in full. */
  lemma {:induction false} ClientReadsWholeRecords(ms: seq<Body>, cut: string)
    requires AllPlain(ms) && '\n' !in cut
    ensures Lines(Stream(ms) + cut) == Jsons(ms)
    decreases |ms|
  {
    hide Record, InRange, Lines;
    if ms == [] {
      assert Stream(ms) + cut == cut;
      NoLines(cut);
    } else {
      var rest := Stream(ms[1..]) + cut;
      ClientReadsWholeRecords(ms[1..], cut);
      RecordIsOneLine(ms[0]);
      var json := Json(ms[0]);
      assert Record(ms[0]) == json + "\n";
      Assoc(Record(ms[0]), Stream(ms[1..]), cut);
      NextLine(json, rest);
    }
  }

  lemma NoLines(cut: string)
    requires '\n' !in cut
    ensures Lines(cut) == []
  {
    FirstNewlineAfter(cut, "");
    assert cut + "" == cut;
  }

  lemma NextLine(line: string, rest: string)
    requires '\n' !in line
    ensures Lines(line + "\n" + rest) == [line] + Lines(rest)
  {
    var s := line + "\n" + rest;
    FirstNewlineOf(line, rest);
    assert s[..|line|] == line && s[|line| + 1..] == rest;
  }

  lemma {:induction false} LinesAppend(s: string, more: string)
    requires s == "" || s[|s| - 1] == '\n'
    ensures Lines(s + more) == Lines(s) + Lines(more)
    decreases |s|
  {
    hide Lines, FirstNewline;
    if s == "" {
      assert s + more == more;
      NoLines("");
    } else {
      var n := FirstNewline(s);
      assert '\n' in s && s == s[..n] + s[n..];
      var line, rest := s[..n], s[n + 1..];
      NextLine(line, rest);
      assert s == line + "\n" + rest;
      NextLine(line, rest + more);
      assert s + more == line + "\n" + (rest + more);
      LinesAppend(rest, more);
    }
  }
}
