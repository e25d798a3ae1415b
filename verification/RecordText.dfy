/** The text of the log file: dprintf of STATE, ENTRY and TRUNCATE lines, and the fgets and sscanf loop of
    restore_pstate that reads them back. */
module RecordText {
  import opened RaftTypes
  import opened RaftNode

  const U64_MAX: nat := 0xFFFF_FFFF_FFFF_FFFF
  const U32_MAX: nat := 0xFFFF_FFFF
  const I32_MAX: nat := 0x7FFF_FFFF
  const I32_MIN: int := -0x8000_0000

  /** sizeof(line) in restore_pstate. */
  const LINE_BUFFER: nat := 256

  // ---------- Printing ----------

  function DigitChar(d: nat): char
    requires d < 10
  {
    "0123456789"[d]
  }

  predicate IsDigit(c: char) {
    '0' <= c <= '9'
  }

  function DigitValue(c: char): nat
    requires IsDigit(c)
  {
    (c - '0') as nat
  }

  /** Decimal digits without sign or padding, as PRIu64 and PRIu32 print a number. */
  function PrintNat(n: nat): (s: string)
    ensures s != "" && forall k :: 0 <= k < |s| ==> IsDigit(s[k])
  {
    if n < 10 then [DigitChar(n)] else PrintNat(n / 10) + [DigitChar(n % 10)]
  }

  /** The same with a sign where there is one, as %d prints a number. */
  function PrintInt(n: int): string {
    if n < 0 then "-" + PrintNat(-n) else PrintNat(n)
  }

  function KindCode(k: CommandType): int {
    match k
    case Noop => 0
    case LobbyJoin => 1
    case GameInput => 2
    case Unlisted(code) => code
  }

  function Field(n: int): string {
    " " + PrintInt(n)
  }

  function Fields(ns: seq<int>): string {
    if ns == [] then "" else Field(ns[0]) + Fields(ns[1..])
  }

  function Word(r: Record): string {
    match r
    case StateRecord(_, _) => "STATE"
    case TruncateRecord(_) => "TRUNCATE"
    case EntryRecord(_) => "ENTRY"
  }

  function Values(r: Record): seq<int> {
    match r
    case StateRecord(t, v) => [t, v]
    case TruncateRecord(from) => [from]
    case EntryRecord(e) =>
      [e.index, e.term, KindCode(e.command.kind), e.command.roomKey, e.command.playerId, e.command.input]
  }

  /** One printed line, with its newline. */
  function Line(r: Record): string {
    Word(r) + (Fields(Values(r)) + "\n")
  }

  function FileText(rs: seq<Record>): string {
    if rs == [] then "" else Line(rs[0]) + FileText(rs[1..])
  }

  /** Every field fits its C type. */
  predicate Encodable(r: Record) {
    match r
    case StateRecord(t, v) => t <= U64_MAX && v <= U64_MAX
    case TruncateRecord(from) => from <= U64_MAX
    case EntryRecord(e) =>
      && e.index <= U64_MAX && e.term <= U64_MAX
      && e.command.roomKey <= U64_MAX && e.command.playerId <= U64_MAX && e.command.input <= U32_MAX
      && (e.command.kind.Unlisted? ==> I32_MIN <= e.command.kind.code <= I32_MAX && !(0 <= e.command.kind.code <= 2))
  }

  // ---------- Reading ----------

  predicate IsSpace(c: char) {
    c == ' ' || c == '\t' || c == '\n' || c == '\r' || c == '\U{0B}' || c == '\U{0C}'
  }

  function SkipSpace(s: string): string {
    if s != "" && IsSpace(s[0]) then SkipSpace(s[1..]) else s
  }

  /** The number at the front of s, continuing acc, and what follows it. */
  function ReadDigits(s: string, acc: nat): (nat, string) {
    if s != "" && IsDigit(s[0]) then ReadDigits(s[1..], 10 * acc + DigitValue(s[0])) else (acc, s)
  }

  /** A number as it stands in the text: a sign, which may be missing, and digits. */
  datatype Numeral = Numeral(minus: bool, digits: nat)

  function ReadSign(s: string): (bool, string) {
    if s != "" && s[0] == '-' then (true, s[1..]) else if s != "" && s[0] == '+' then (false, s[1..]) else (false, s)
  }

  /** What a scanf format asks for: a character, white space, or a number. */
  datatype Directive = Literal(c: char) | Blank | Number

  /** sscanf: the numbers converted before the first directive that does not match. */
  function Scan(fmt: seq<Directive>, s: string): seq<Numeral> {
    if fmt == [] then []
    else
      match fmt[0]
      case Literal(c) => if s != "" && s[0] == c then Scan(fmt[1..], s[1..]) else []
      case Blank => Scan(fmt[1..], SkipSpace(s))
      case Number =>
        var (minus, d) := ReadSign(SkipSpace(s));
        if d == "" || !IsDigit(d[0]) then []
        else
          var (x, rest) := ReadDigits(d, 0);
          [Numeral(minus, x)] + Scan(fmt[1..], rest)
  }

  /** Conversion to an unsigned type with this largest value: a negative number wraps around. */
  function AsUnsigned(x: Numeral, max: nat): nat {
    if x.digits > max then max else if x.minus && x.digits > 0 then max + 1 - x.digits else x.digits
  }

  /** Conversion to int. */
  function AsInt(x: Numeral): int {
    var n: int := x.digits;
    if x.minus then (if -n < I32_MIN then I32_MIN else -n) else if n > I32_MAX then I32_MAX else n
  }

  function Literals(word: string): seq<Directive> {
    seq(|word|, k requires 0 <= k < |word| => Literal(word[k]))
  }

  function Numbers(k: nat): seq<Directive> {
    if k == 0 then [] else [Blank, Number] + Numbers(k - 1)
  }

  function Pattern(word: string, k: nat): seq<Directive> {
    Literals(word) + Numbers(k)
  }

  function Kind(code: int): CommandType {
    if code == 0 then Noop else if code == 1 then LobbyJoin else if code == 2 then GameInput else Unlisted(code)
  }

  /** The three sscanf calls of restore_pstate, in their order; a line that none of them matches is ignored. */
  function ParseLine(line: string): Option<Record> {
    var a := Scan(Pattern("STATE", 2), line);
    if |a| == 2 then Some(StateRecord(AsUnsigned(a[0], U64_MAX), AsUnsigned(a[1], U64_MAX)))
    else
      var b := Scan(Pattern("TRUNCATE", 1), line);
      if |b| == 1 then Some(TruncateRecord(AsUnsigned(b[0], U64_MAX)))
      else
        var c := Scan(Pattern("ENTRY", 6), line);
        if |c| == 6
        then Some(EntryRecord(Entry(AsUnsigned(c[0], U64_MAX), AsUnsigned(c[1], U64_MAX),
                                    Command(Kind(AsInt(c[2])), AsUnsigned(c[3], U64_MAX), AsUnsigned(c[4], U64_MAX),
                                            AsUnsigned(c[5], U32_MAX)))))
        else None
  }

  /** fgets: up to and including the first newline, but never more than the buffer holds. */
  function LineLength(text: string, room: nat): (n: nat)
    ensures n <= |text| && n <= room && (text != "" && room > 0 ==> n > 0)
  {
    if text == "" || room == 0 then 0
    else if text[0] == '\n' then 1
    else 1 + LineLength(text[1..], room - 1)
  }

  /** restore_pstate: read a line, apply what it says, go on until the text ends or a record is bad. */
  function RestoreText(p: Persistent, text: string): Restore
    decreases |text|
  {
    if text == "" then Restored(p)
    else
      var n := LineLength(text, LINE_BUFFER - 1);
      match ParseLine(text[..n])
      case None => RestoreText(p, text[n..])
      case Some(r) =>
        var q := ReplayStep(p, r);
        if q.Corrupt? then q else RestoreText(q.p, text[n..])
  }

  // ---------- Numbers ----------

  predicate NoDigitAhead(s: string) {
    s == "" || !IsDigit(s[0])
  }

  lemma ReadsDigit(d: nat, rest: string, acc: nat)
    requires d < 10
    ensures ReadDigits([DigitChar(d)] + rest, acc) == ReadDigits(rest, 10 * acc + d)
  {
    assert ([DigitChar(d)] + rest)[1..] == rest;
  }

  /** Reading digits undoes printing them. */
  lemma {:induction false} ReadsNat(n: nat, rest: string)
    ensures ReadDigits(PrintNat(n) + rest, 0) == ReadDigits(rest, n)
    decreases n
  {
    if n < 10 {
      ReadsDigit(n, rest, 0);
    } else {
      var d := [DigitChar(n % 10)];
      ReadsNat(n / 10, d + rest);
      ReadsDigit(n % 10, rest, n / 10);
      assert PrintNat(n) + rest == PrintNat(n / 10) + (d + rest);
    }
  }

  lemma {:induction false} PrintLength(n: nat, k: nat)
    requires n < Pow10(k) && k > 0
    ensures |PrintNat(n)| <= k
    decreases k
  {
    if n >= 10 {
      PrintLength(n / 10, k - 1);
    }
  }

  function Pow10(k: nat): nat {
    if k == 0 then 1 else 10 * Pow10(k - 1)
  }

  lemma WordLengths(n: nat)
    ensures n <= U64_MAX ==> |PrintNat(n)| <= 20
    ensures n <= U32_MAX ==> |PrintNat(n)| <= 10
  {
    assert Pow10(5) == 100_000;
    assert Pow10(10) == 10_000_000_000;
    assert Pow10(15) == 1_000_000_000_000_000;
    assert Pow10(20) == 100_000_000_000_000_000_000;
    if n <= U64_MAX { PrintLength(n, 20); }
    if n <= U32_MAX { PrintLength(n, 10); }
  }

  // ---------- Patterns ----------

  /** A pattern's word matches that word and goes on behind it. */
  lemma {:induction false} ScanWord(word: string, fmt: seq<Directive>, s: string)
    ensures Scan(Literals(word) + fmt, word + s) == Scan(fmt, s)
  {
    var f := Literals(word) + fmt;
    if word == "" {
      assert f == fmt && word + s == s;
    } else {
      ScanWord(word[1..], fmt, s);
      assert f[1..] == Literals(word[1..]) + fmt;
      assert (word + s)[1..] == word[1..] + s;
    }
  }

  /** A pattern does not match a line that starts with another letter. */
  lemma ScanOther(word: string, fmt: seq<Directive>, s: string)
    requires word != "" && s != "" && s[0] != word[0]
    ensures Scan(Literals(word) + fmt, s) == []
  {
  }

  function Numeral10(n: int): Numeral {
    Numeral(n < 0, if n < 0 then -n else n)
  }

  function Numerals(ns: seq<int>): seq<Numeral> {
    seq(|ns|, k requires 0 <= k < |ns| => Numeral10(ns[k]))
  }

  /** A sign in front of digits, or none. */
  lemma ReadsSign(d: string, minus: bool)
    requires d != "" && IsDigit(d[0])
    ensures var s := if minus then "-" + d else d; SkipSpace(s) == s && ReadSign(s) == (minus, d)
    ensures ReadSign("+" + d) == (false, d)
  {
    assert ("-" + d)[1..] == d && ("+" + d)[1..] == d;
  }

  /** A minus sign in front of an unsigned number wraps it around. */
  lemma MinusWraps(x: nat, max: nat)
    requires 0 < x <= max
    ensures AsUnsigned(Numeral(true, x), max) + x == max + 1
  {
  }

  /** Reading a sign and digits undoes printing a number. */
  lemma ReadsInt(n: int, rest: string)
    requires NoDigitAhead(rest)
    ensures var s := PrintInt(n) + rest;
            && SkipSpace(s) == s && ReadSign(s).0 == (n < 0)
            && var d := ReadSign(s).1; d != "" && IsDigit(d[0]) && ReadDigits(d, 0) == (Numeral10(n).digits, rest)
  {
    var m := Numeral10(n).digits;
    var d := PrintNat(m) + rest;
    assert d[0] == PrintNat(m)[0];
    ReadsNat(m, rest);
    ReadsSign(d, n < 0);
    if n < 0 { Regroup("-", PrintNat(m), rest); }
  }

  lemma ScanNumber(fmt: seq<Directive>, s: string, minus: bool, d: string, x: nat, rest: string)
    requires SkipSpace(s) == s && ReadSign(s) == (minus, d) && d != "" && IsDigit(d[0]) && ReadDigits(d, 0) == (x, rest)
    ensures Scan([Number] + fmt, s) == [Numeral(minus, x)] + Scan(fmt, rest)
  {
    assert ([Number] + fmt)[1..] == fmt;
  }

  lemma ScanBlank(fmt: seq<Directive>, s: string)
    requires SkipSpace(s) == s
    ensures Scan([Blank] + fmt, " " + s) == Scan(fmt, s)
  {
    assert ([Blank] + fmt)[1..] == fmt && (" " + s)[1..] == s;
  }

  lemma ScanField(n: int, fmt: seq<Directive>, rest: string)
    requires NoDigitAhead(rest)
    ensures Scan([Blank, Number] + fmt, Field(n) + rest) == [Numeral10(n)] + Scan(fmt, rest)
  {
    var d := PrintInt(n) + rest;
    ReadsInt(n, rest);
    ScanNumber(fmt, d, n < 0, ReadSign(d).1, Numeral10(n).digits, rest);
    ScanBlank([Number] + fmt, d);
    assert [Blank, Number] + fmt == [Blank] + ([Number] + fmt);
    Regroup(" ", PrintInt(n), rest);
  }

  lemma Regroup(a: string, b: string, c: string)
    ensures (a + b) + c == a + (b + c)
  {
  }

  lemma FieldsAhead(ns: seq<int>, rest: string)
    requires NoDigitAhead(rest)
    ensures NoDigitAhead(Fields(ns) + rest)
  {
    if ns == [] {
      assert "" + rest == rest;
    } else {
      Regroup(Field(ns[0]), Fields(ns[1..]), rest);
      assert (Fields(ns) + rest)[0] == Field(ns[0])[0] == ' ';
    }
  }

  lemma NumeralsCons(ns: seq<int>)
    requires ns != []
    ensures Numerals(ns) == [Numeral10(ns[0])] + Numerals(ns[1..])
  {
  }

  /** Scanning numbers undoes printing fields. */
  lemma {:induction false} ScanFields(ns: seq<int>, rest: string)
    requires NoDigitAhead(rest)
    ensures Scan(Numbers(|ns|), Fields(ns) + rest) == Numerals(ns)
  {
    if ns != [] {
      ScanFields(ns[1..], rest);
      FieldsAhead(ns[1..], rest);
      NumeralsCons(ns);
      Regroup(Field(ns[0]), Fields(ns[1..]), rest);
      ScanField(ns[0], Numbers(|ns| - 1), Fields(ns[1..]) + rest);
    }
  }

  lemma ScanOwn(word: string, ns: seq<int>)
    ensures Scan(Pattern(word, |ns|), word + (Fields(ns) + "\n")) == Numerals(ns)
  {
    ScanWord(word, Numbers(|ns|), Fields(ns) + "\n");
    ScanFields(ns, "\n");
  }

  // ---------- Lines and files ----------

  /** A printed line is matched by no pattern but its own. */
  lemma OnlyOwnPattern(r: Record, other: Record, k: nat)
    requires Word(other) != Word(r)
    ensures Scan(Pattern(Word(other), k), Line(r)) == []
  {
    ScanOther(Word(other), Numbers(k), Line(r));
  }

  /** Reading a printed line gives back the record, for all fields of their C types, RAFT_NONE and commands of
      undeclared type included. */
  lemma LineRoundTrip(r: Record)
    requires Encodable(r)
    ensures ParseLine(Line(r)) == Some(r)
  {
    ScanOwn(Word(r), Values(r));
    match r {
      case StateRecord(t, v) =>
      case TruncateRecord(from) =>
        OnlyOwnPattern(r, StateRecord(0, 0), 2);
      case EntryRecord(e) =>
        OnlyOwnPattern(r, StateRecord(0, 0), 2);
        OnlyOwnPattern(r, TruncateRecord(0), 1);
        EntryFields(e);
    }
  }

  /** The six numbers of an ENTRY line convert back to the entry. */
  lemma EntryFields(e: Entry)
    requires Encodable(EntryRecord(e))
    ensures var c := Numerals(Values(EntryRecord(e)));
            && |c| == 6 && AsUnsigned(c[0], U64_MAX) == e.index && AsUnsigned(c[1], U64_MAX) == e.term
            && Kind(AsInt(c[2])) == e.command.kind && AsUnsigned(c[3], U64_MAX) == e.command.roomKey
            && AsUnsigned(c[4], U64_MAX) == e.command.playerId && AsUnsigned(c[5], U32_MAX) == e.command.input
  {
  }

  lemma {:induction false} FieldsShape(ns: seq<int>)
    requires forall k :: 0 <= k < |ns| ==> I32_MIN <= ns[k] <= U64_MAX
    ensures |Fields(ns)| <= 21 * |ns| && '\n' !in Fields(ns)
  {
    if ns != [] {
      FieldsShape(ns[1..]);
      WordLengths(Numeral10(ns[0]).digits);
    }
  }

  /** A printed line fits the line buffer, and only its last character is a newline. */
  lemma LineFits(r: Record)
    requires Encodable(r)
    ensures |Line(r)| < LINE_BUFFER
    ensures Line(r)[|Line(r)| - 1] == '\n' && '\n' !in Line(r)[..|Line(r)| - 1]
  {
    FieldsShape(Values(r));
    assert Line(r)[..|Line(r)| - 1] == Word(r) + Fields(Values(r));
  }

  /** fgets returns a line that fits. */
  lemma {:induction false} ReadsLine(line: string, rest: string, room: nat)
    requires line != "" && |line| <= room && line[|line| - 1] == '\n' && '\n' !in line[..|line| - 1]
    ensures LineLength(line + rest, room) == |line|
  {
    if |line| > 1 {
      assert line[0] == line[..|line| - 1][0];
      assert (line + rest)[1..] == line[1..] + rest;
      assert line[1..][..|line| - 2] == line[..|line| - 1][1..];
      ReadsLine(line[1..], rest, room - 1);
    }
  }

  /** restore_pstate over records instead of lines, front to back. */
  function ReplayFrom(p: Persistent, rs: seq<Record>): Restore
    decreases |rs|
  {
    if rs == [] then Restored(p)
    else
      var q := ReplayStep(p, rs[0]);
      if q.Corrupt? then q else ReplayFrom(q.p, rs[1..])
  }

  lemma {:induction false} ReplayFromSnoc(p: Persistent, rs: seq<Record>, r: Record)
    ensures var q := ReplayFrom(p, rs);
            ReplayFrom(p, rs + [r]) == if q.Corrupt? then q else ReplayStep(q.p, r)
    decreases |rs|
  {
    if rs != [] {
      var q := ReplayStep(p, rs[0]);
      assert (rs + [r])[1..] == rs[1..] + [r];
      if q.Restored? { ReplayFromSnoc(q.p, rs[1..], r); }
    }
  }

  lemma {:induction false} ReplayIsReplayFrom(rs: seq<Record>)
    ensures Replay(rs) == ReplayFrom(FRESH, rs)
  {
    if rs != [] {
      var m := |rs| - 1;
      ReplayIsReplayFrom(rs[..m]);
      ReplayFromSnoc(FRESH, rs[..m], rs[m]);
      assert rs[..m] + [rs[m]] == rs;
    }
  }

  /** A line of its own: it fits the buffer and ends at its only newline. */
  predicate WholeLine(line: string) {
    line != "" && |line| < LINE_BUFFER && line[|line| - 1] == '\n' && '\n' !in line[..|line| - 1]
  }

  /** A line that no pattern matches is ignored, a record that cannot be applied ends the restore, and any other record is
      applied before the rest is read. */
  lemma LineByLine(p: Persistent, line: string, rest: string)
    requires WholeLine(line)
    ensures RestoreText(p, line + rest) ==
              match ParseLine(line)
              case None => RestoreText(p, rest)
              case Some(r) => if ReplayStep(p, r).Corrupt? then ReplayStep(p, r) else RestoreText(ReplayStep(p, r).p, rest)
  {
    ReadsLine(line, rest, LINE_BUFFER - 1);
    assert (line + rest)[..|line|] == line && (line + rest)[|line|..] == rest;
  }

  lemma {:induction false} RestoreReplays(p: Persistent, rs: seq<Record>)
    requires forall k :: 0 <= k < |rs| ==> Encodable(rs[k])
    ensures RestoreText(p, FileText(rs)) == ReplayFrom(p, rs)
    decreases |rs|
  {
    if rs != [] {
      var line, rest := Line(rs[0]), FileText(rs[1..]);
      LineFits(rs[0]);
      LineByLine(p, line, rest);
      LineRoundTrip(rs[0]);
      var q := ReplayStep(p, rs[0]);
      if q.Restored? { RestoreReplays(q.p, rs[1..]); }
    }
  }

  /** Reading a log file undoes writing it: restoring from the text of any records is replaying the records. */
  lemma FileRoundTrip(rs: seq<Record>)
    requires forall k :: 0 <= k < |rs| ==> Encodable(rs[k])
    ensures RestoreText(FRESH, FileText(rs)) == Replay(rs)
  {
    RestoreReplays(FRESH, rs);
    ReplayIsReplayFrom(rs);
  }
}
